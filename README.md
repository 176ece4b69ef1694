# INA219 current/power-monitor driver — Dafny model

This project models the Mongoose OS driver for the INA219 current and power
monitor, which talks to the chip over I2C. The model covers the driver's
register-level protocol:

- **Detection.** The driver reads the configuration register and compares it
  with the chip's power-on default, 0x399F. A failed read (-1) is stored in a
  `uint16_t`, so it is seen as 0xFFFF.
- **Reset and configuration.** The driver writes the soft-reset command 0x8000
  to the configuration register. It then writes the configuration word, built
  by ORing five bit-fields: bus range, shunt gain, bus ADC, shunt ADC and
  mode. Last, it sets the default shunt resistance of 0.1 Ω. The first failed
  write ends the sequence, and nothing is rolled back.
- **Handle lifecycle.** `create` needs a bus and a detected device, and it
  drops the handle if the reset fails. `destroy` clears the caller's
  reference.
- **Decoding of raw readings.**
  - Bus voltage is the C truncating quotient by 8 (which discards three flag
    bits), times 4 mV.
  - Shunt voltage is the signed count divided by 10^6.
  - The bus word is held in an `int16_t`, so a word of 0x8000 or more (above
    about 16.38 V) decodes as a negative voltage.
  - In both reads the `int16_t` value -1 is the error sentinel, so a genuine
    register value of 0xFFFF is rejected too.
- **Calibration and current.** The shunt-resistance setter and getter work on
  the host side only. The derived current is shunt volts divided by the shunt
  resistance. The setter accepts any value: a zero resistance gives no finite
  current, and a negative one reverses the current's sign.

Files:

- `ina219_internal.dfy`, module `Ina219Internal`: the register map, the
  field codes, the configuration word with its decoding, and the constants of
  the internal header.
- `i2c_bus.dfy`, module `I2cBus`: an abstract I2C bus that stands in for the
  transport. It has a map from (address, register) to word. Reads return the
  word, or -1 for a missing or failing register. Every write is logged. A
  fault plan makes the n-th write fail, and a successful write stores its word.
- `ina219.dfy`, module `Ina219`: the driver.
  - The handle is the class `Sensor`, with fields for the bus, the address and
    the shunt ohms.
  - A C output pointer is a nullable `Cell`.
  - Floats are exact reals. The decoders are also stated in integer millivolts
    and microvolts.

The driver's configuration word works out to exactly 0x399F. That is the value
detection looks for, so a device this driver has configured passes detection
again (`DriverConfigIsPowerOnDefault`, and the last clause of `Create`). The
word is 0x2000 | 0x1800 | 0x180 | 0x18 | 0x7 = 0x399F.

## Model

| member | source | states |
|---|---|---|
| `Ina219Internal.Registers` | src/mgos_ina219_internal.h:28-35 | the eight register pointers are pairwise distinct |
| `Ina219Internal.BusRange.Bits` | src/mgos_ina219_internal.h:37-38 | FSR_16V is 0 and FSR_32V is exactly bit 13 (0x2000) |
| `Ina219Internal.Gain.Code` | src/mgos_ina219_internal.h:40-45 | every gain code is below 4, so shifted by 11 it stays in bits 11-12 |
| `Ina219Internal.GainOfCode` | src/mgos_ina219_internal.h:40-45 | every 2-bit code names a gain whose code it is |
| `Ina219Internal.Adc.Code` | src/mgos_ina219_internal.h:48-60 | every ADC code is below 16 and none is in 4..8 |
| `Ina219Internal.AdcOfCode` | src/mgos_ina219_internal.h:48-60 | a 4-bit code names an ADC setting exactly when it is not in 4..8, and that setting's code is the given code |
| `Ina219Internal.Mode.Code` | src/mgos_ina219_internal.h:62-69 | every mode code is below 8 (bits 0-2) |
| `Ina219Internal.ModeOfCode` | src/mgos_ina219_internal.h:62-69 | every 3-bit code names a mode whose code it is |
| `Ina219Internal.ConfigWord` | src/mgos_ina219_internal.h:37-69 | the word of any choice of range, gain, ADC settings and mode is below 0x4000 and gives back each field's code by shift-and-mask |
| `Ina219Internal.Pack` | src/mgos_ina219.c:44-48 | codes within their field widths occupy pairwise disjoint bit ranges: their OR is below 0x4000 and each code is recovered by shift-and-mask |
| `Ina219Internal.PackIsSum` | src/mgos_ina219_internal.h:37-69 | with one code per field, the OR of the shifted codes equals their sum |
| `Ina219Internal.DecodeConfigWord` | src/mgos_ina219_internal.h:37-69 | decoding the assembled word gives back the five field choices |
| `Ina219Internal.ConfigWordOfDecode` | src/mgos_ina219_internal.h:37-69 | a word that decodes to a configuration is that configuration's assembled word (encode and decode are inverse) |
| `Ina219Internal.DriverConfigIsPowerOnDefault` | src/mgos_ina219.c:44-50 | the word reset writes is 0x399F, the value detection compares with, and has the reset bit clear |
| `Ina219.Sensor.constructor` | src/mgos_ina219.c:70-77 | a new handle is zeroed and then holds the given bus and address |
| `Ina219.AsUint16` | src/mgos_ina219.c:21-23 | storing a read result in a uint16_t keeps a word and turns -1 into 0xFFFF |
| `Ina219.AsInt16` | src/mgos_ina219.c:99-105 | storing a read result in an int16_t keeps its bit pattern; the result is -1 exactly for a failed read or a genuine 0xFFFF |
| `Ina219.IsPowerOnConfig` | src/mgos_ina219.c:24-27 | detection succeeds exactly when the read equals 0x399F |
| `Ina219.FailedReadNotDetected` | src/mgos_ina219.c:21-27 | a failed read, seen as 0xFFFF, does not pass detection |
| `Ina219.Detect` | src/mgos_ina219.c:20-28 | the result is true exactly when the configuration register reads 0x399F |
| `Ina219.ResetWrites` | src/mgos_ina219.c:37-52 | reset writes only the configuration register: 0x8000 first, then 0x399F only if the first write succeeded |
| `Ina219.ResetWordsPerRegister` | src/mgos_ina219.c:37-52 | per register, reset adds to the write log exactly 0x8000 and then, only if that write succeeded, 0x399F, both to the configuration register, in that order; no other register is written |
| `Ina219.RegsAfterReset` | src/mgos_ina219.c:38-52 | after reset the configuration register holds the last word written successfully, and no other register changes |
| `Ina219.Reset` | src/mgos_ina219.c:30-56 | fails on a null handle; otherwise issues exactly the reset writes, succeeds iff both writes succeed, sets 0.1 Ω only on success, and leaves the shunt resistance unchanged on failure |
| `Ina219.Create` | src/mgos_ina219.c:58-86 | null without a bus; null with no write when detection fails; null after the reset writes when reset fails; otherwise a fresh handle with the given bus and address, 0.1 Ω, and a device that passes detection again |
| `Ina219.Destroy` | src/mgos_ina219.c:88-96 | afterwards the caller's reference is null, whether or not it was null before |
| `Ina219.DestroyTwice` | src/mgos_ina219.c:88-96 | a second destroy on the cleared reference is a no-op and is safe |
| `Ina219.TruncDiv` | src/mgos_ina219.c:111 | C division truncates toward zero: the remainder has the sign of the dividend and is smaller than the divisor |
| `Ina219.BusMillivolts` | src/mgos_ina219.c:111-112 | the bus reading is a multiple of 4 mV; it is half the raw value, cut toward zero to a 4 mV step |
| `Ina219.BusFlagsIgnored` | src/mgos_ina219.c:108-111 | for a non-negative raw value the three low flag bits do not change the reading |
| `Ina219.BusNegativeTruncates` | src/mgos_ina219.c:111 | raw -9 gives -4 mV (C truncation), where Euclidean division would give -2 steps; for negative values the flag bits matter |
| `Ina219.BusExample` | src/mgos_ina219.c:111-112 | raw 0x1F9C reads as 4044 mV |
| `Ina219.ShuntVolts` | src/mgos_ina219.c:127 | the shunt reading in volts times 10^6 is the signed raw count, and its sign is the count's sign |
| `Ina219.ShuntExamples` | src/mgos_ina219.c:127 | 32000 reads as 0.032 V and -1000 as -0.001 V |
| `Ina219.Amperes` | src/mgos_ina219.c:140 | with an unchecked stored resistance (line 149): the quotient is finite exactly when the resistance is non-zero; then current times resistance is the voltage; a positive resistance keeps the voltage's sign and a negative one reverses it |
| `Ina219.CurrentExample` | src/mgos_ina219.c:140 | 32000 counts across 0.1 Ω is 0.32 A |
| `Ina219.BusRaw` | src/mgos_ina219.c:99-107 | the bus register as seen through int16_t is -1 exactly for a failed read or a genuine 0xFFFF |
| `Ina219.ShuntRaw` | src/mgos_ina219.c:117-125 | the shunt register as seen through int16_t is -1 exactly for a failed read or a genuine 0xFFFF |
| `Ina219.GetBusVoltage` | src/mgos_ina219.c:98-114 | succeeds iff handle and output are non-null and the raw value is not -1; then the output in volts times 1000 is the decoded millivolt reading; on failure the output is untouched |
| `Ina219.GetShuntVoltage` | src/mgos_ina219.c:116-129 | succeeds iff handle and output are non-null and the raw value is not -1; then the output is the decoded shunt voltage, negative values included; on failure the output is untouched |
| `Ina219.GetCurrent` | src/mgos_ina219.c:131-143 | never returns true; when the shunt read succeeds it stores shunt volts over shunt resistance; otherwise the output is untouched |
| `Ina219.SetShuntResistance` | src/mgos_ina219.c:145-151 | fails on a null handle; otherwise stores any value, with no range check, and changes nothing else (no bus access) |
| `Ina219.GetShuntResistance` | src/mgos_ina219.c:153-159 | fails on a null handle or output; otherwise copies the stored value out; on failure the output is untouched |
| `Ina219.ShuntResistanceRoundTrip` | src/mgos_ina219.c:145-159 | set then get returns exactly the value set, and the bus is untouched |
| `Ina219.CreateOnPoweredOnDevice` | src/mgos_ina219.c:58-86 | on a device at its power-on default, create succeeds after writing 0x8000 then 0x399F, and the device passes detection again |
| `Ina219.CreateWithFailingConfigWrite` | src/mgos_ina219.c:50-52 | if the configuration write fails, create returns null and the modelled register keeps 0x8000 (no rollback; the chip itself clears its reset bit) |
| `Ina219.CreateOnUnknownDevice` | src/mgos_ina219.c:65-68 | a device without the signature gets no handle and no write |
| `Ina219.BusHighVoltageReadsNegative` | src/mgos_ina219.c:99-112 | as written, raw 0x9C40 (20 V at 4 mV per step) goes through int16_t and decodes as -12768 mV |
| `Ina219.BusMillivoltsOfWord` | src/mgos_ina219.c:111-112 | the intended unsigned decoding: a non-negative multiple of 4 mV that is half the word, cut down to a 4 mV step |
| `Ina219.BusWordAsIntended` | src/mgos_ina219.c:99-112 | the unsigned decoding agrees with the driver below 0x8000, reads raw 0x9C40 as 20000 mV and the full-scale word 0xFA00 as 32000 mV |
| `Ina219.ShuntScaleMismatch` | src/mgos_ina219.c:127 | as written, 32000 counts decode to 0.032 V, a tenth of the 0.320 V the comment states |
| `Ina219.ShuntVoltsAt10uV` | src/mgos_ina219.c:127 | the intended decoding: the reading times 10^5 is the count, i.e. ten times the as-written value |
| `Ina219.ShuntScaleAsIntended` | src/mgos_ina219.c:127 | with the intended scale, ±32000 counts is ±0.320 V, the 320 mV range of the divide-by-8 gain |
| `Ina219.CurrentComputedButReportedFailed` | src/mgos_ina219.c:137-142 | a successful shunt read stores 0.32 A and still reports failure |
| `Ina219.ReadCurrent` | src/mgos_ina219.c:131-143 | the corrected read-out reports success exactly when the current is computed and stored |
| `Ina219.CurrentComputedAndReported` | src/mgos_ina219.c:131-143 | the corrected read-out stores 0.32 A for the same reading and reports success |

## Left out

- The I2C transport (`mgos_i2c_read_reg_w`, `mgos_i2c_write_reg_w`) is a foreign call. It is replaced by the abstract bus in `i2c_bus.dfy`. There, a failing register fails on every read until the bus is rebuilt, and a successful write simply stores its word (the chip's own reaction to the 0x8000 reset command is not simulated).
- `mgos_usleep` delays during reset (src/mgos_ina219.c:41, 53) only wait, with no logical effect.
- The `LOG` calls only print diagnostics.
- Memory management is not modelled. A `calloc` failure (src/mgos_ina219.c:70-73) cannot happen in the model. `free` is the dropping of the last reference, and destroy only clears the caller's reference.
- Destroy given a NULL `struct mgos_ina219 **` dereferences it in C. The model's parameter is non-null.
- Float rounding is not modelled: `0.004f`, `/ 1e6`, the 0.1 Ω default and the current quotient are exact reals. A division by a zero shunt resistance yields the value `NonFinite`, which does not tell infinity from NaN.
- `mgos_ina219_i2c_init` (src/mgos_ina219.c:162-164) always returns true.
- The power, current, calibration, manufacturer-ID and die-ID registers are declared but never used beyond their addresses.
- Thread safety is the caller's concern.

## Findings

| source | as written | input that shows it | evidently intended | confidence | as-written member | corrected member |
|---|---|---|---|---|---|---|
| src/mgos_ina219.c:127 | shunt count divided by 10^6 (1 µV per count) | raw 32000 gives 0.032 V | 10 µV per count: the comment on that line says 32000 is 0.320 V, which is the 320 mV range of the divide-by-8 gain the driver programs | medium, not executed | `Ina219.ShuntScaleMismatch` | `Ina219.ShuntVoltsAt10uV` |
| src/mgos_ina219.c:99 | the bus register is read into an `int16_t`, although the driver selects the 32 V range at 4 mV per step (lines 44, 111-112) | raw 0x9C40 (20 V) decodes as -12.768 V | read the word unsigned, so the whole 32 V range decodes as positive | high, not executed | `Ina219.BusHighVoltageReadsNegative` | `Ina219.BusMillivoltsOfWord` |
| src/mgos_ina219.c:142 | `get_current` returns false after storing the quotient | shunt raw 32000, 0.1 Ω: 0.32 A is stored, the result is false | return true once the quotient is stored | high, not executed | `Ina219.CurrentComputedButReportedFailed` | `Ina219.ReadCurrent` |

The driver members (`GetBusVoltage`, `GetShuntVoltage`, `GetCurrent`) keep the code's behaviour as written. The corrected definitions stand beside them and are not used by the driver methods.
