/**
 * The INA219 driver: detection by the power-on configuration signature, the
 * reset-and-configure sequence, handle creation and destruction, the decoding
 * of the bus- and shunt-voltage registers, the derived current and the
 * shunt-resistance accessors.
 *
 * C floats are modelled as exact reals (rounding is not modelled); the
 * decoders are also stated in integer millivolts and microvolts. A C output
 * pointer is a `Cell` that may be null.
 */
module Ina219 {
  import opened Ina219Internal
  import opened I2cBus

  /** A location the caller passes by pointer to receive a result. */
  class Cell<T> {
    var value: T

    constructor (v: T)
      ensures value == v
    {
      value := v;
    }
  }

  /** The device handle. */
  class Sensor {
    var bus: Bus
    var addr: Byte
    var shuntOhms: real

    /** A zero-initialised handle that records its bus and address. */
    constructor (bus: Bus, addr: Byte)
      ensures this.bus == bus && this.addr == addr && shuntOhms == 0.0
    {
      this.bus := bus;
      this.addr := addr;
      shuntOhms := 0.0;
    }
  }

  // ---------------------------------------------------------------------
  // Conversions of a read result (-1 for a failed read, else 0..65535)
  // ---------------------------------------------------------------------

  /** The read result stored into a `uint16_t` (reduced modulo 2^16): -1 becomes 0xFFFF. */
  function AsUint16(v: int): (w: int)
    requires -1 <= v < 0x1_0000
    ensures 0 <= w < 0x1_0000
    ensures v >= 0 ==> w == v
    ensures v == -1 ==> w == 0xFFFF
  {
    v % 0x1_0000
  }

  /**
   * The read result stored into an `int16_t`: the same 16-bit pattern read as
   * two's complement. The error value -1 and a genuine word 0xFFFF both
   * become -1 and cannot be told apart.
   */
  function AsInt16(v: int): (s: int)
    requires -1 <= v < 0x1_0000
    ensures -0x8000 <= s < 0x8000
    ensures (v - s) % 0x1_0000 == 0
    ensures s == -1 <==> v == -1 || v == 0xFFFF
  {
    if v >= 0x8000 then v - 0x1_0000 else v
  }

  // ---------------------------------------------------------------------
  // Detection
  // ---------------------------------------------------------------------

  /** Detection's test on the configuration register read. */
  function IsPowerOnConfig(v: int): (found: bool)
    requires -1 <= v < 0x1_0000
    ensures found <==> v == POWER_ON_CONFIG as int
  {
    AsUint16(v) == POWER_ON_CONFIG as int
  }

  /** A failed read, seen as 0xFFFF, is not mistaken for the signature. */
  lemma FailedReadNotDetected()
    ensures AsUint16(-1) != POWER_ON_CONFIG as int && !IsPowerOnConfig(-1)
  {
  }

  /** Reads the configuration register and compares it with the power-on default. */
  method Detect(bus: Bus, addr: Byte) returns (found: bool)
    ensures found <==> bus.Peek(addr, REG_CONFIG) == POWER_ON_CONFIG as int
  {
    var v := bus.ReadWord(addr, REG_CONFIG);
    var val := AsUint16(v);
    found := val == POWER_ON_CONFIG as int;
  }

  // ---------------------------------------------------------------------
  // Reset and configuration
  // ---------------------------------------------------------------------

  /**
   * The writes a reset issues: the reset command to the configuration
   * register and, only if that write succeeded, the configuration word.
   */
  function ResetWrites(addr: Byte, firstOk: bool): (ws: seq<Write>)
    ensures |ws| == if firstOk then 2 else 1
    ensures forall i :: 0 <= i < |ws| ==> ws[i].target == Target(addr, REG_CONFIG)
    ensures ws[0].word == RESET_COMMAND
    ensures firstOk ==> ws[1].word == POWER_ON_CONFIG
  {
    DriverConfigIsPowerOnDefault();
    [Write(Target(addr, REG_CONFIG), RESET_COMMAND)]
      + if firstOk then [Write(Target(addr, REG_CONFIG), ConfigWord(DRIVER_CONFIG))] else []
  }

  /**
   * Per register, a reset adds to the write log the reset command and then,
   * if that write succeeded, the configuration word, both to the configuration
   * register; no other register of any device is written.
   */
  lemma ResetWordsPerRegister(before: seq<Write>, addr: Byte, firstOk: bool, t: Target)
    ensures WordsWrittenTo(before + ResetWrites(addr, firstOk), t) ==
      WordsWrittenTo(before, t)
        + if t == Target(addr, REG_CONFIG) then [RESET_COMMAND] + (if firstOk then [POWER_ON_CONFIG] else [])
          else []
  {
    WordsWrittenToConcat(before, ResetWrites(addr, firstOk), t);
    var ws := ResetWrites(addr, firstOk);
    if firstOk {
      assert ws[1..][1..] == [];
    } else {
      assert ws[1..] == [];
    }
  }

  /**
   * The register map after a reset: the configuration register holds the
   * last word successfully written to it, and no other register changes.
   */
  function RegsAfterReset(regs: map<Target, bv16>, addr: Byte, firstOk: bool, secondOk: bool): (r: map<Target, bv16>)
    ensures firstOk ==> r.Keys == regs.Keys + {Target(addr, REG_CONFIG)}
    ensures !firstOk ==> r == regs
    ensures firstOk ==> r[Target(addr, REG_CONFIG)] == if secondOk then POWER_ON_CONFIG else RESET_COMMAND
    ensures forall t :: t in regs && t != Target(addr, REG_CONFIG) ==> r[t] == regs[t]
  {
    if !firstOk then regs
    else regs[Target(addr, REG_CONFIG) := if secondOk then POWER_ON_CONFIG else RESET_COMMAND]
  }

  /**
   * Soft-resets the device, programs the driver's configuration and sets the
   * default shunt resistance. The first failed write ends the sequence; what
   * was already written stays written.
   */
  method Reset(s: Sensor?) returns (ok: bool)
    modifies if s == null then {} else {s as object, s.bus}
    ensures s == null ==> !ok
    ensures s != null ==>
      var first, second := old(s.bus.WriteSucceeds(0)), old(s.bus.WriteSucceeds(1));
      && s.bus == old(s.bus) && s.addr == old(s.addr)
      && ok == (first && second)
      && s.bus.writes == old(s.bus.writes) + ResetWrites(s.addr, first)
      && s.bus.regs == RegsAfterReset(old(s.bus.regs), s.addr, first, second)
      && s.bus.failingReads == old(s.bus.failingReads)
      && s.bus.failingWrites == old(s.bus.failingWrites)
      && s.shuntOhms == if ok then DEFAULT_SHUNT_OHMS else old(s.shuntOhms)
  {
    if s == null {
      return false;
    }
    var written := s.bus.WriteWord(s.addr, REG_CONFIG, RESET_COMMAND);
    if !written {
      return false;
    }
    var val := Fsr32V.Bits();
    assert val == 0x2000;
    val := val | (Div8.Code() << 11);
    assert val == 0x3800;
    val := val | (Adc12Bit1x.Code() << 7);
    assert val == 0x3980;
    val := val | (Adc12Bit1x.Code() << 3);
    assert val == 0x3998;
    val := val | ContShuntBus.Code();
    assert val == POWER_ON_CONFIG;
    written := s.bus.WriteWord(s.addr, REG_CONFIG, val);
    if !written {
      return false;
    }
    ok := SetShuntResistance(s, DEFAULT_SHUNT_OHMS);
  }

  // ---------------------------------------------------------------------
  // Handle lifecycle
  // ---------------------------------------------------------------------

  /**
   * Creates a handle for the device at `addr`: nothing without a bus or when
   * detection fails (no write is issued then), nothing when the reset fails
   * (the handle is dropped), else a handle on the configured device.
   */
  method Create(bus: Bus?, addr: Byte) returns (s: Sensor?)
    modifies bus
    ensures bus == null ==> s == null
    ensures bus != null && !IsPowerOnConfig(old(bus.Peek(addr, REG_CONFIG))) ==>
      s == null && unchanged(bus)
    ensures bus != null && IsPowerOnConfig(old(bus.Peek(addr, REG_CONFIG))) ==>
      && bus.writes == old(bus.writes) + ResetWrites(addr, old(bus.WriteSucceeds(0)))
      && (s != null <==> old(bus.WriteSucceeds(0) && bus.WriteSucceeds(1)))
      && bus.regs == RegsAfterReset(old(bus.regs), addr, old(bus.WriteSucceeds(0)), old(bus.WriteSucceeds(1)))
      && bus.failingReads == old(bus.failingReads) && bus.failingWrites == old(bus.failingWrites)
    ensures s != null ==>
      && fresh(s) && s.bus == bus && s.addr == addr && s.shuntOhms == DEFAULT_SHUNT_OHMS
      && IsPowerOnConfig(bus.Peek(addr, REG_CONFIG))
  {
    if bus == null {
      return null;
    }
    var present := Detect(bus, addr);
    if !present {
      return null;
    }
    var sensor := new Sensor(bus, addr);
    var reset := Reset(sensor);
    if !reset {
      return null;
    }
    return sensor;
  }

  /** Releases the caller's handle and clears the caller's reference to it. */
  method Destroy(sensor: Cell<Sensor?>)
    modifies sensor
    ensures sensor.value == null
  {
    if sensor.value == null {
      return;
    }
    sensor.value := null;
  }

  // ---------------------------------------------------------------------
  // Measurement decoding
  // ---------------------------------------------------------------------

  /** C integer division, which truncates toward zero. */
  function TruncDiv(a: int, d: int): (q: int)
    requires d > 0
    ensures a >= 0 ==> 0 <= a - q * d < d
    ensures a < 0 ==> -d < a - q * d <= 0
  {
    if a >= 0 then a / d else -((-a) / d)
  }

  /**
   * Bus voltage in millivolts from the signed register value: the three flag
   * bits are dropped by a C division by 8 and one step is 4 mV. The result is
   * a multiple of 4 mV that is half the raw value cut toward zero.
   */
  function BusMillivolts(val: int): (mv: int)
    ensures mv % 4 == 0
    ensures val >= 0 ==> 2 * mv <= val < 2 * mv + 8
    ensures val < 0 ==> 2 * mv - 8 < val <= 2 * mv
  {
    TruncDiv(val, 8) * 4
  }

  /** For a non-negative register value the flag bits do not change the reading. */
  lemma BusFlagsIgnored(val: int, flags: int)
    requires val >= 0 && val % 8 == 0 && 0 <= flags < 8
    ensures BusMillivolts(val + flags) == BusMillivolts(val)
  {
  }

  /**
   * For a negative register value the result is the C quotient, not the
   * Euclidean one: -9 gives -1 step (-4 mV), whereas -9 / 8 in Dafny is -2.
   * The flag bits then do matter: -16 and -15 differ.
   */
  lemma BusNegativeTruncates()
    ensures TruncDiv(-9, 8) == -1 && -9 / 8 == -2
    ensures BusMillivolts(-9) == -4
    ensures BusMillivolts(-16) == -8 && BusMillivolts(-15) == -4
  {
  }

  /** A worked reading: 0x1F9C is step 1011, i.e. 4.044 V. */
  lemma BusExample()
    ensures BusMillivolts(0x1F9C) == 4044
  {
  }

  /** Shunt voltage as the code computes it: the signed count divided by 10^6. */
  function ShuntVolts(val: int): (v: real)
    ensures v * 1000000.0 == val as real
    ensures v < 0.0 <==> val < 0
  {
    val as real / 1000000.0
  }

  /** Worked shunt readings, including the reverse direction. */
  lemma ShuntExamples()
    ensures ShuntVolts(32000) == 0.032
    ensures ShuntVolts(-1000) == -0.001
  {
  }

  /** The result of a C float division: a number, or infinity / NaN on a zero divisor. */
  datatype Quotient = Finite(value: real) | NonFinite

  /**
   * Current from shunt voltage and resistance by Ohm's law. The resistance is
   * whatever was stored, unchecked: zero gives no number, and a negative
   * resistance reverses the sign of the current.
   */
  function Amperes(volts: real, ohms: real): (i: Quotient)
    ensures i.Finite? <==> ohms != 0.0
    ensures i.Finite? ==> i.value * ohms == volts
    ensures i.Finite? && ohms > 0.0 ==> (i.value < 0.0 <==> volts < 0.0)
    ensures i.Finite? && ohms < 0.0 ==> (i.value < 0.0 <==> volts > 0.0)
  {
    var i := if ohms == 0.0 then NonFinite else Finite(volts / ohms);
    if i.Finite? then assert i.value * ohms == volts; i else i
  }

  /** 32 mV across the default 0.1 ohm shunt is 0.32 A. */
  lemma CurrentExample()
    ensures Amperes(ShuntVolts(32000), DEFAULT_SHUNT_OHMS) == Finite(0.32)
  {
  }

  // ---------------------------------------------------------------------
  // Measurement reads
  // ---------------------------------------------------------------------

  /** The bus-voltage register as the driver sees it, in an `int16_t`. */
  function BusRaw(s: Sensor): (val: int)
    reads s, s.bus
    ensures val == -1 <==> s.bus.Peek(s.addr, REG_BUSVOLTS) in {-1, 0xFFFF}
  {
    AsInt16(s.bus.Peek(s.addr, REG_BUSVOLTS))
  }

  /** The shunt-voltage register as the driver sees it, in an `int16_t`. */
  function ShuntRaw(s: Sensor): (val: int)
    reads s, s.bus
    ensures val == -1 <==> s.bus.Peek(s.addr, REG_SHUNTVOLTS) in {-1, 0xFFFF}
  {
    AsInt16(s.bus.Peek(s.addr, REG_SHUNTVOLTS))
  }

  /** Reads the bus voltage in volts; on failure `volts` keeps its value. */
  method GetBusVoltage(sensor: Sensor?, volts: Cell?<real>) returns (ok: bool)
    modifies volts
    ensures ok <==> sensor != null && volts != null && BusRaw(sensor) != -1
    ensures ok ==> volts.value * 1000.0 == BusMillivolts(BusRaw(sensor)) as real
    ensures !ok && volts != null ==> volts.value == old(volts.value)
  {
    if sensor == null || volts == null {
      return false;
    }
    var v := sensor.bus.ReadWord(sensor.addr, REG_BUSVOLTS);
    var val := AsInt16(v);
    if val == -1 {
      return false;
    }
    volts.value := TruncDiv(val, 8) as real;
    volts.value := volts.value * 0.004;
    return true;
  }

  /** Reads the shunt voltage in volts; on failure `volts` keeps its value. */
  method GetShuntVoltage(sensor: Sensor?, volts: Cell?<real>) returns (ok: bool)
    modifies volts
    ensures ok <==> sensor != null && volts != null && ShuntRaw(sensor) != -1
    ensures ok ==> volts.value == ShuntVolts(ShuntRaw(sensor))
    ensures !ok && volts != null ==> volts.value == old(volts.value)
  {
    if sensor == null || volts == null {
      return false;
    }
    var v := sensor.bus.ReadWord(sensor.addr, REG_SHUNTVOLTS);
    var val := AsInt16(v);
    if val == -1 {
      return false;
    }
    volts.value := val as real / 1000000.0;
    return true;
  }

  /**
   * Derives the current from the shunt voltage. The quotient is stored when
   * the shunt read succeeds, but the result is always false.
   */
  method GetCurrent(sensor: Sensor?, ampere: Cell?<Quotient>) returns (ok: bool)
    modifies ampere
    ensures !ok
    ensures sensor != null && ampere != null && ShuntRaw(sensor) != -1 ==>
      ampere.value == Amperes(ShuntVolts(ShuntRaw(sensor)), sensor.shuntOhms)
    ensures !(sensor != null && ShuntRaw(sensor) != -1) && ampere != null ==>
      ampere.value == old(ampere.value)
  {
    if sensor == null || ampere == null {
      return false;
    }
    var shuntVolts := new Cell(0.0);
    var read := GetShuntVoltage(sensor, shuntVolts);
    if !read {
      return false;
    }
    ampere.value := Amperes(shuntVolts.value, sensor.shuntOhms);
    return false;
  }

  // ---------------------------------------------------------------------
  // Calibration accessors (host side only; no bus traffic)
  // ---------------------------------------------------------------------

  /** Stores the shunt resistance in the handle, without any range check. */
  method SetShuntResistance(sensor: Sensor?, ohms: real) returns (ok: bool)
    modifies sensor
    ensures ok == (sensor != null)
    ensures sensor != null ==>
      sensor.shuntOhms == ohms && sensor.bus == old(sensor.bus) && sensor.addr == old(sensor.addr)
  {
    if sensor == null {
      return false;
    }
    sensor.shuntOhms := ohms;
    return true;
  }

  /** Copies the stored shunt resistance out; on failure `ohms` keeps its value. */
  method GetShuntResistance(sensor: Sensor?, ohms: Cell?<real>) returns (ok: bool)
    modifies ohms
    ensures ok == (sensor != null && ohms != null)
    ensures ok ==> ohms.value == sensor.shuntOhms
    ensures !ok && ohms != null ==> ohms.value == old(ohms.value)
  {
    if sensor == null || ohms == null {
      return false;
    }
    ohms.value := sensor.shuntOhms;
    return true;
  }

  // ---------------------------------------------------------------------
  // Properties across calls
  // ---------------------------------------------------------------------

  /** Reading the shunt resistance back gives exactly the value set, and the bus is untouched. */
  method ShuntResistanceRoundTrip(sensor: Sensor, x: real, out: Cell<real>)
    modifies sensor, out
    ensures out.value == x && sensor.shuntOhms == x
    ensures sensor.bus == old(sensor.bus) && sensor.addr == old(sensor.addr)
    ensures unchanged(old(sensor.bus))
  {
    var stored := SetShuntResistance(sensor, x);
    var got := GetShuntResistance(sensor, out);
  }

  /** Destroying twice is safe: the second call finds a null reference and does nothing. */
  method DestroyTwice(sensor: Cell<Sensor?>)
    modifies sensor
    ensures sensor.value == null
  {
    Destroy(sensor);
    ghost var between := sensor.value;
    Destroy(sensor);
    assert between == null;
  }

  /**
   * A device at its power-on default is created: the reset command and the
   * configuration word go to its configuration register, and the device then
   * still passes detection.
   */
  method CreateOnPoweredOnDevice() returns (created: bool, foundAgain: bool, issued: seq<Write>)
    ensures created && foundAgain
    ensures issued == [Write(Target(I2C_ADDR, REG_CONFIG), 0x8000), Write(Target(I2C_ADDR, REG_CONFIG), 0x399F)]
  {
    var bus := new Bus(map[Target(I2C_ADDR, REG_CONFIG) := POWER_ON_CONFIG], {}, {});
    var s := Create(bus, I2C_ADDR);
    created := s != null;
    foundAgain := Detect(bus, I2C_ADDR);
    issued := bus.writes;
  }

  /**
   * When the configuration write fails, no handle is returned and the device
   * modelled register keeps the reset command: nothing is rolled back.
   */
  method CreateWithFailingConfigWrite() returns (created: bool, config: int, issued: nat)
    ensures !created && config == 0x8000 && issued == 2
  {
    var bus := new Bus(map[Target(I2C_ADDR, REG_CONFIG) := POWER_ON_CONFIG], {}, {1});
    var s := Create(bus, I2C_ADDR);
    created := s != null;
    config := bus.Peek(I2C_ADDR, REG_CONFIG);
    issued := |bus.writes|;
  }

  /** A device that does not answer with the signature gets no handle and no write. */
  method CreateOnUnknownDevice() returns (created: bool, issued: nat)
    ensures !created && issued == 0
  {
    var bus := new Bus(map[Target(I2C_ADDR, REG_CONFIG) := 0x1234], {}, {});
    var s := Create(bus, I2C_ADDR);
    created := s != null;
    issued := |bus.writes|;
  }

  // ---------------------------------------------------------------------
  // Discrepancies between the code and its evident intent
  // ---------------------------------------------------------------------

  /**
   * As written, the bus register goes through an `int16_t`, so with the 32 V
   * range a reading above 16.38 V (raw 0x8000 or more) decodes as negative:
   * 20 V (raw 0x9C40) reads as -12.768 V.
   */
  lemma BusHighVoltageReadsNegative()
    ensures AsInt16(0x9C40) == -25536
    ensures BusMillivolts(AsInt16(0x9C40)) == -12768
  {
  }

  /**
   * The bus reading of the register word taken unsigned, as the 32 V range
   * needs: the word shifted right by the three flag bits, at 4 mV per step.
   */
  function BusMillivoltsOfWord(w: int): (mv: int)
    requires 0 <= w < 0x1_0000
    ensures mv % 4 == 0
    ensures 0 <= mv && 2 * mv <= w < 2 * mv + 8
  {
    (w / 8) * 4
  }

  /**
   * The unsigned decoding agrees with the driver's below 0x8000, reads 20 V
   * as 20 V and covers the whole 32 V range.
   */
  lemma BusWordAsIntended(w: int)
    requires 0 <= w < 0x8000
    ensures BusMillivoltsOfWord(w) == BusMillivolts(AsInt16(w))
    ensures BusMillivoltsOfWord(0x9C40) == 20000
    ensures BusMillivoltsOfWord(0xFA00) == 32000
  {
  }

  /**
   * As written, the shunt decoding is one tenth of what the code's own comment
   * states (32000 counts is 0.320 V) and of the 320 mV range the driver
   * programs with the divide-by-8 gain.
   */
  lemma ShuntScaleMismatch()
    ensures ShuntVolts(32000) == 0.032
    ensures ShuntVolts(32000) * 10.0 == 0.320
    ensures ShuntVolts(32000) != 0.320
  {
  }

  /** Shunt voltage at 10 microvolts per count, the scale the comment describes. */
  function ShuntVoltsAt10uV(val: int): (v: real)
    ensures v * 100000.0 == val as real
    ensures v == ShuntVolts(val) * 10.0
  {
    val as real / 100000.0
  }

  /** With the intended scale, 32000 counts is the 0.320 V the comment gives. */
  lemma ShuntScaleAsIntended()
    ensures ShuntVoltsAt10uV(32000) == 0.320
    ensures ShuntVoltsAt10uV(-32000) == -0.320
  {
  }

  /**
   * A read whose shunt measurement succeeds: the current is computed and
   * stored, and still the call reports failure.
   */
  method CurrentComputedButReportedFailed() returns (ok: bool, amps: Quotient)
    ensures amps == Finite(0.32)
    ensures !ok
  {
    var bus := new Bus(map[Target(I2C_ADDR, REG_SHUNTVOLTS) := 32000], {}, {});
    var sensor := new Sensor(bus, I2C_ADDR);
    sensor.shuntOhms := DEFAULT_SHUNT_OHMS;
    var ampere := new Cell(NonFinite);
    ok := GetCurrent(sensor, ampere);
    amps := ampere.value;
  }

  /** Current read-out that reports success exactly when the quotient is stored. */
  method ReadCurrent(sensor: Sensor?, ampere: Cell?<Quotient>) returns (ok: bool)
    modifies ampere
    ensures ok <==> sensor != null && ampere != null && ShuntRaw(sensor) != -1
    ensures ok ==> ampere.value == Amperes(ShuntVolts(ShuntRaw(sensor)), sensor.shuntOhms)
    ensures !ok && ampere != null ==> ampere.value == old(ampere.value)
  {
    if sensor == null || ampere == null {
      return false;
    }
    var shuntVolts := new Cell(0.0);
    var read := GetShuntVoltage(sensor, shuntVolts);
    if !read {
      return false;
    }
    ampere.value := Amperes(shuntVolts.value, sensor.shuntOhms);
    return true;
  }

  /** The corrected read-out reports success for the same reading. */
  method CurrentComputedAndReported() returns (ok: bool, amps: Quotient)
    ensures amps == Finite(0.32)
    ensures ok
  {
    var bus := new Bus(map[Target(I2C_ADDR, REG_SHUNTVOLTS) := 32000], {}, {});
    var sensor := new Sensor(bus, I2C_ADDR);
    sensor.shuntOhms := DEFAULT_SHUNT_OHMS;
    var ampere := new Cell(NonFinite);
    ok := ReadCurrent(sensor, ampere);
    amps := ampere.value;
  }
}
