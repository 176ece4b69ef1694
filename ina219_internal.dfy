/**
 * Register map and configuration-register bit layout of the INA219
 * current/power monitor, as the driver's internal header declares them.
 *
 * The configuration register is a 16-bit word made of five fields:
 *   bit 13      bus voltage full-scale range
 *   bits 12-11  shunt gain (PGA divider)
 *   bits 10-7   bus ADC resolution / averaging
 *   bits 6-3    shunt ADC resolution / averaging
 *   bits 2-0    operating mode
 * Bit 15 is the reset command bit and bit 14 is unused.
 */
module Ina219Internal {

  datatype Option<T> = None | Some(value: T)

  /** An 8-bit quantity: an I2C device address or a register pointer. */
  type Byte = b: int | 0 <= b < 0x100

  /** Default 7-bit bus address of the chip. */
  const I2C_ADDR: Byte := 0x40

  // Register pointers.
  const REG_CONFIG: Byte := 0x00
  const REG_SHUNTVOLTS: Byte := 0x01
  const REG_BUSVOLTS: Byte := 0x02
  const REG_POWER: Byte := 0x03
  const REG_CURRENT: Byte := 0x04
  const REG_CALIB: Byte := 0x05
  const REG_MANID: Byte := 0xfe
  const REG_DIEID: Byte := 0xff

  /** The register pointers, each once. */
  function Registers(): (regs: seq<Byte>)
    ensures |regs| == 8
    ensures forall i, j :: 0 <= i < j < |regs| ==> regs[i] != regs[j]
  {
    [REG_CONFIG, REG_MANID, REG_DIEID, REG_SHUNTVOLTS, REG_BUSVOLTS, REG_POWER, REG_CURRENT, REG_CALIB]
  }

  /** Bus voltage full-scale range (bit 13). */
  datatype BusRange = Fsr16V | Fsr32V
  {
    /** The range as it sits in the configuration word. */
    function Bits(): (b: bv16)
      ensures b == 0 || b == 0x2000
      ensures b == 0x2000 <==> this == Fsr32V
    {
      match this
      case Fsr16V => 0
      case Fsr32V => 1 << 13
    }
  }

  /** Shunt gain: the programmable divider in front of the shunt ADC. */
  datatype Gain = Div1 | Div2 | Div4 | Div8
  {
    function Code(): (c: bv16)
      ensures c < 4
    {
      match this
      case Div1 => 0
      case Div2 => 1
      case Div4 => 2
      case Div8 => 3
    }
  }

  /** ADC resolution / averaging; codes 4 to 8 are not defined. */
  datatype Adc =
    | Adc9Bit1x | Adc10Bit1x | Adc11Bit1x | Adc12Bit1x
    | Adc12Bit2x | Adc12Bit4x | Adc12Bit8x | Adc12Bit16x
    | Adc12Bit32x | Adc12Bit64x | Adc12Bit128x
  {
    function Code(): (c: bv16)
      ensures c < 16
      ensures !(4 <= c <= 8)
    {
      match this
      case Adc9Bit1x => 0
      case Adc10Bit1x => 1
      case Adc11Bit1x => 2
      case Adc12Bit1x => 3
      case Adc12Bit2x => 9
      case Adc12Bit4x => 10
      case Adc12Bit8x => 11
      case Adc12Bit16x => 12
      case Adc12Bit32x => 13
      case Adc12Bit64x => 14
      case Adc12Bit128x => 15
    }
  }

  /** The ADC setting a 4-bit code stands for, if any. */
  function AdcOfCode(c: bv16): (a: Option<Adc>)
    ensures a.Some? ==> a.value.Code() == c
    ensures a.None? <==> c >= 16 || 4 <= c <= 8
  {
    match c
    case 0 => Some(Adc9Bit1x)
    case 1 => Some(Adc10Bit1x)
    case 2 => Some(Adc11Bit1x)
    case 3 => Some(Adc12Bit1x)
    case 9 => Some(Adc12Bit2x)
    case 10 => Some(Adc12Bit4x)
    case 11 => Some(Adc12Bit8x)
    case 12 => Some(Adc12Bit16x)
    case 13 => Some(Adc12Bit32x)
    case 14 => Some(Adc12Bit64x)
    case 15 => Some(Adc12Bit128x)
    case _ => None
  }

  /** Operating mode (bits 2-0). */
  datatype Mode =
    | Off | SingleShunt | SingleBus | SingleShuntBus
    | PowerDown | ContShunt | ContBus | ContShuntBus
  {
    function Code(): (c: bv16)
      ensures c < 8
    {
      match this
      case Off => 0
      case SingleShunt => 1
      case SingleBus => 2
      case SingleShuntBus => 3
      case PowerDown => 4
      case ContShunt => 5
      case ContBus => 6
      case ContShuntBus => 7
    }
  }

  function GainOfCode(c: bv16): (g: Gain)
    requires c < 4
    ensures g.Code() == c
  {
    if c == 0 then Div1 else if c == 1 then Div2 else if c == 2 then Div4 else Div8
  }

  function ModeOfCode(c: bv16): (m: Mode)
    requires c < 8
    ensures m.Code() == c
  {
    match c
    case 0 => Off
    case 1 => SingleShunt
    case 2 => SingleBus
    case 3 => SingleShuntBus
    case 4 => PowerDown
    case 5 => ContShunt
    case 6 => ContBus
    case _ => ContShuntBus
  }

  /** One choice for each field of the configuration register. */
  datatype Config = Config(range: BusRange, gain: Gain, busAdc: Adc, shuntAdc: Adc, mode: Mode)

  /**
   * Five field codes, each within its width, shifted into their bit ranges and
   * ORed. The ranges are disjoint, so the word is below 0x4000 (bits 15 and 14
   * clear), equals the plain sum of the shifted codes, and each code comes
   * back out by shift-and-mask.
   */
  function Pack(r: bv16, g: bv16, b: bv16, s: bv16, m: bv16): (w: bv16)
    requires r == 0 || r == 0x2000
    requires g < 4 && b < 16 && s < 16 && m < 8
    ensures w < 0x4000
    ensures w & 0x2000 == r
    ensures (w >> 11) & 3 == g
    ensures (w >> 7) & 0xF == b
    ensures (w >> 3) & 0xF == s
    ensures w & 7 == m
  {
    r | (g << 11) | (b << 7) | (s << 3) | m
  }

  /** With disjoint bit ranges, the OR of the fields is their sum. */
  lemma PackIsSum(r: bv16, g: bv16, b: bv16, s: bv16, m: bv16)
    requires r == 0 || r == 0x2000
    requires g < 4 && b < 16 && s < 16 && m < 8
    ensures Pack(r, g, b, s, m) == r + (g << 11) + (b << 7) + (s << 3) + m
  {
  }

  /** The configuration word of one choice per field. */
  function ConfigWord(c: Config): (w: bv16)
    ensures w < 0x4000
    ensures w & 0x2000 == c.range.Bits()
    ensures (w >> 11) & 3 == c.gain.Code()
    ensures (w >> 7) & 0xF == c.busAdc.Code()
    ensures (w >> 3) & 0xF == c.shuntAdc.Code()
    ensures w & 7 == c.mode.Code()
  {
    Pack(c.range.Bits(), c.gain.Code(), c.busAdc.Code(), c.shuntAdc.Code(), c.mode.Code())
  }

  /**
   * Reads a configuration word back into its fields; a word with bit 15 or 14
   * set, or with an undefined ADC code, stands for no configuration.
   */
  function DecodeConfig(w: bv16): (c: Option<Config>)
  {
    if w >= 0x4000 then None
    else
      match (AdcOfCode((w >> 7) & 0xF), AdcOfCode((w >> 3) & 0xF))
      case (Some(busAdc), Some(shuntAdc)) =>
        Some(Config(if w & 0x2000 == 0 then Fsr16V else Fsr32V,
                    GainOfCode((w >> 11) & 3), busAdc, shuntAdc, ModeOfCode(w & 7)))
      case _ => None
  }

  /** Every field value is recovered from the assembled word. */
  lemma DecodeConfigWord(c: Config)
    ensures DecodeConfig(ConfigWord(c)) == Some(c)
  {
    var w := ConfigWord(c);
    assert AdcOfCode((w >> 7) & 0xF) == Some(c.busAdc) by { AdcCodeInjective(c.busAdc, AdcOfCode((w >> 7) & 0xF).value); }
    assert AdcOfCode((w >> 3) & 0xF) == Some(c.shuntAdc) by { AdcCodeInjective(c.shuntAdc, AdcOfCode((w >> 3) & 0xF).value); }
  }

  lemma AdcCodeInjective(a: Adc, b: Adc)
    requires a.Code() == b.Code()
    ensures a == b
  {
  }

  /** A word decodes exactly when it is the assembled word of its decoding. */
  lemma ConfigWordOfDecode(w: bv16, c: Config)
    requires DecodeConfig(w) == Some(c)
    ensures ConfigWord(c) == w
  {
  }

  /** The soft-reset command: bit 15 of the configuration register. */
  const RESET_COMMAND: bv16 := 0x8000

  /** The configuration this driver programs. */
  const DRIVER_CONFIG := Config(Fsr32V, Div8, Adc12Bit1x, Adc12Bit1x, ContShuntBus)

  /** The chip's power-on configuration, used as its signature by detection. */
  const POWER_ON_CONFIG: bv16 := 0x399F

  /** The word the driver writes is the power-on default, and never the reset command. */
  lemma DriverConfigIsPowerOnDefault()
    ensures ConfigWord(DRIVER_CONFIG) == POWER_ON_CONFIG
    ensures ConfigWord(DRIVER_CONFIG) & RESET_COMMAND == 0
  {
  }

  /** Default shunt resistance in ohms. */
  const DEFAULT_SHUNT_OHMS: real := 0.1
}
