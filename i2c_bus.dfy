/**
 * The I2C transport the driver talks through, reduced to what the driver can
 * observe: 16-bit register reads that yield a word or the error value -1,
 * and 16-bit register writes that report success or failure.
 *
 * The devices on the bus are a map from (address, register) to the word the
 * register holds. A read of a register that is not in the map, or that is
 * listed as failing, yields -1. Every write transaction is appended to a log;
 * the n-th write (counting from 0) fails exactly when n is in the fault plan,
 * and a write that succeeds stores its word.
 */
module I2cBus {
  import opened Ina219Internal

  /** A register of a device on the bus. */
  datatype Target = Target(addr: Byte, reg: Byte)

  /** One write transaction as issued on the bus. */
  datatype Write = Write(target: Target, word: bv16)

  /** The words written to register `t`, in the order the writes were issued. */
  function WordsWrittenTo(log: seq<Write>, t: Target): (words: seq<bv16>)
    ensures |words| <= |log|
  {
    if log == [] then []
    else (if log[0].target == t then [log[0].word] else []) + WordsWrittenTo(log[1..], t)
  }

  /** The writes to one register in a log split in two are those of each part, in order. */
  lemma {:induction false} WordsWrittenToConcat(a: seq<Write>, b: seq<Write>, t: Target)
    ensures WordsWrittenTo(a + b, t) == WordsWrittenTo(a, t) + WordsWrittenTo(b, t)
  {
    if a == [] {
      assert a + b == b;
    } else {
      assert (a + b)[1..] == a[1..] + b;
      WordsWrittenToConcat(a[1..], b, t);
    }
  }

  class Bus {
    var regs: map<Target, bv16>
    var failingReads: set<Target>
    var failingWrites: set<nat>
    var writes: seq<Write>

    constructor (regs: map<Target, bv16>, failingReads: set<Target>, failingWrites: set<nat>)
      ensures this.regs == regs && this.failingReads == failingReads
      ensures this.failingWrites == failingWrites && writes == []
    {
      this.regs := regs;
      this.failingReads := failingReads;
      this.failingWrites := failingWrites;
      writes := [];
    }

    /** What a read of register `reg` of device `addr` yields now. */
    function Peek(addr: Byte, reg: Byte): (v: int)
      reads this
      ensures -1 <= v < 0x1_0000
      ensures v == -1 <==> Target(addr, reg) !in regs || Target(addr, reg) in failingReads
      ensures v != -1 ==> v == regs[Target(addr, reg)] as int
    {
      var t := Target(addr, reg);
      if t in regs && t !in failingReads then regs[t] as int else -1
    }

    /** Whether the write issued `k` transactions from now will succeed. */
    predicate WriteSucceeds(k: nat)
      reads this
    {
      |writes| + k !in failingWrites
    }

    /** Reads a 16-bit register; the bus state does not change. */
    method ReadWord(addr: Byte, reg: Byte) returns (v: int)
      ensures v == Peek(addr, reg)
    {
      var t := Target(addr, reg);
      if t in regs && t !in failingReads {
        v := regs[t] as int;
      } else {
        v := -1;
      }
    }

    /** Writes a 16-bit register; the transaction is logged whatever its outcome. */
    method WriteWord(addr: Byte, reg: Byte, word: bv16) returns (ok: bool)
      modifies this
      ensures ok == old(WriteSucceeds(0))
      ensures writes == old(writes) + [Write(Target(addr, reg), word)]
      ensures regs == if ok then old(regs)[Target(addr, reg) := word] else old(regs)
      ensures failingReads == old(failingReads) && failingWrites == old(failingWrites)
    {
      ok := |writes| !in failingWrites;
      writes := writes + [Write(Target(addr, reg), word)];
      if ok {
        regs := regs[Target(addr, reg) := word];
      }
    }
  }
}
