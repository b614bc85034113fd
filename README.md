# HTU21D humidity/temperature sensor driver, modelled in Dafny

The HTU21D driver talks to the sensor over I2C. It triggers a temperature
measurement, waits for a resolution-dependent time and reads a 3-byte
response: two data bytes and a CRC-8 byte. It checks the CRC, decodes the
raw word and converts it to degrees Celsius. It then does the same for
humidity. The humidity is compensated with the temperature measured in the
same cycle and clamped to 0..100 %RH. The driver caches the temperature, the
humidity and the current resolution. It can also set the resolution and
soft-reset the sensor.

The model has three modules:

- `Crc8` (`crc8.dfy`): `checkCRC8` as a method with nested loops. It is
  proved against a recursive specification of the bit-serial CRC
  (polynomial 0x31, initial value 0, MSB first, no final XOR). Beside it are
  lemmas on the CRC: it is linear over XOR, it detects every error confined
  to one byte of a frame, and it matches the datasheet's worked example.
- `Conversion` (`conversion.dfy`): the raw-word decode, the `constrain`
  clamp, the temperature and humidity formulas over real numbers, the two
  delay tables and the user-register encoding of a resolution.
- `Driver` (`driver.dfy`): the class `Htu21d` with the fields `temperature`,
  `humidity` and `resolution`, and a log `ops` of the bus transactions and
  waits it performs. Each bus response is a method parameter. Pure functions
  (`MeasureOutcome`, `MeasureOps`) state what `measure()` leaves cached and
  which transactions it issues. Two client methods at the end show what a
  caller can prove from the contracts alone.

A NaN float is `None` in `Option<real>`. A resolution is a level 0..3, and
`RESOLUTION_RH12_T14` is level 0.

## Model

| member | source | states |
|---|---|---|
| Crc8.CheckCrc8 | src/htu21d.cpp:38-49 | the bit-serial loop returns true exactly when the CRC of bytes 0 and 1 equals byte 2; byte 2 never feeds the CRC |
| Crc8.AppendCrc | src/htu21d.cpp:38-48 | two data bytes followed by their CRC form a frame that passes the check, and no other third byte passes |
| Crc8.CrcXor | src/htu21d.cpp:39-46 | with initial value 0 and no final XOR the CRC is linear: CRC(a XOR e) = CRC(a) XOR CRC(e) |
| Crc8.DataErrorChangesCrc | src/htu21d.cpp:39-46 | corrupting exactly one data byte with a nonzero pattern changes the CRC |
| Crc8.OneByteErrorDetected | src/htu21d.cpp:38-49 | a valid frame with one byte (data or CRC) XORed with any nonzero pattern, so any single flipped bit, fails the check |
| Crc8.DatasheetExample | src/htu21d.cpp:38-49 | the frame 0x68 0x3A 0x7C passes the check |
| Conversion.TemperatureDelay | src/htu21d.cpp:24 | the temperature wait for a level is an entry of the table, 7 to 50 ms, and fits a uint8_t |
| Conversion.HumidityDelay | src/htu21d.cpp:25 | the humidity wait for a level is an entry of the table, 3 to 16 ms |
| Conversion.DelaysIdentifyResolution | src/htu21d.cpp:24-25 | two levels have the same pair of waits only if they are the same level; the default level has the longest temperature wait |
| Conversion.Constrain | src/htu21d.cpp:19 | the result lies in [low, high] when low <= high, equals the input when the input is in range, and is always low, high or the input |
| Conversion.ConstrainMonotone | src/htu21d.cpp:19 | clamping preserves the order of its inputs |
| Conversion.RawWord | src/htu21d.cpp:63 | the decoded word, as at line 81 too, equals msb*256 + lsb with the two low bits cleared; it is a multiple of 4 and below 65536 |
| Conversion.Temperature | src/htu21d.cpp:64 | -46.85 + 175.72*raw/65536 over reals; every raw word converts into [-46.85, 128.87) C |
| Conversion.TemperatureMonotone | src/htu21d.cpp:64 | temperature strictly increases with the raw word and lies in [-46.85, 128.87) |
| Conversion.UncompensatedHumidity | src/htu21d.cpp:82 | -6 + 125*raw/65536 over reals; every raw word converts into [-6, 119) %RH before compensation and clamping |
| Conversion.UncompensatedHumidityMonotone | src/htu21d.cpp:82 | uncompensated humidity strictly increases with the raw word and is -6 %RH at raw 0 |
| Conversion.Humidity | src/htu21d.cpp:82-84 | compensated and clamped humidity always lies in [0, 100] |
| Conversion.HumidityCompensation | src/htu21d.cpp:83 | at 25 C compensation leaves the clamped value unchanged; above 25 C it never lowers it |
| Conversion.UserRegister | src/htu21d.cpp:112 | the register byte has bit 1 set and bits 2..6 clear, and the level can be read back from bits 7 and 0 |
| Conversion.ResetRegisterIsDefault | src/htu21d.cpp:147-149 | the byte a reset expects, 0x02, is the encoding of the default level it restores |
| Conversion.DatasheetTemperature | src/htu21d.cpp:63-64 | the datasheet word 0x683A converts to between 24.68 and 24.69 C |
| Conversion.SampleTemperature | src/htu21d.cpp:63-64 | the bytes 0x62 0x2C convert to between 20.53 and 20.54 C |
| Conversion.DatasheetHumidity | src/htu21d.cpp:81-82 | the datasheet humidity bytes 0x4E 0x85 mask to 20100 and read between 32.33 and 32.34 %RH before compensation |
| Driver.HumidityReading | src/htu21d.cpp:82-84 | humidity is available exactly when the cached temperature is (NaN propagates through the formula and the clamp), and is then in [0, 100] |
| Driver.MeasureOutcome | src/htu21d.cpp:93-102 | success iff both frames pass; a failing temperature frame leaves both values unavailable; a passing one caches its temperature even if humidity then fails; humidity is available iff the cycle succeeds and is computed from this cycle's temperature |
| Driver.MeasureOps | src/htu21d.cpp:93-101 | the temperature trigger comes first; the humidity trigger is issued iff the temperature frame passed, and only after the temperature read |
| Driver.Htu21d.constructor | src/htu21d.cpp:35 | a new driver has the default level, no cached values and no bus traffic |
| Driver.Htu21d.MeasureTemperature | src/htu21d.cpp:51-67 | the log grows by TemperatureTransaction (lines 55-59: trigger, wait for the level's temperature delay, read 3 bytes); on a passing frame cache the converted temperature, otherwise change nothing cached |
| Driver.Htu21d.MeasureHumidity | src/htu21d.cpp:69-87 | the log grows by HumidityTransaction (lines 73-77: trigger, wait for the level's humidity delay, read 3 bytes); on a passing frame cache the humidity compensated with the cached temperature, otherwise change nothing cached |
| Driver.Htu21d.Measure | src/htu21d.cpp:93-102 | both values reset, then the new state is exactly MeasureOutcome of the two responses and the log grows by MeasureOps; the level is unchanged |
| Driver.Htu21d.SetResolution | src/htu21d.cpp:110-115 | writes the encoded level to the user register and caches the level unconditionally; cached values unchanged |
| Driver.Htu21d.GetResolution | src/htu21d.cpp:122-124 | returns the cached level, so after SetResolution(r) it returns r |
| Driver.Htu21d.GetTemperature | src/htu21d.cpp:160-162 | returns the cached temperature or NaN |
| Driver.Htu21d.GetHumidity | src/htu21d.cpp:170-172 | returns the cached humidity or NaN; when available it is in [0, 100] and a temperature is cached too |
| Driver.Htu21d.Reset | src/htu21d.cpp:138-152 | the log grows by ResetTransaction (lines 141-145: soft reset, 15 ms wait, user-register write-read of 3 bytes); succeeds iff the byte read is 0x02; on success the level becomes the default, on failure it is unchanged; cached values untouched |
| Driver.Htu21d.Begin | src/htu21d.cpp:130-132 | behaves exactly as Reset |

## Left out

- I2C transactions: `_i2c.write`, `_i2c.read` and `_i2c.writeRead` are calls into a bus layer that is not part of this model. Each response is a method parameter and each transaction is an entry in the `ops` log. A humidity response passed to `Measure` is ignored when the humidity trigger is never issued.
- Delays: `HAL::delay_ms` and `delay` (line 75) are both a `Wait(ms)` entry in the log. No time passes in the model.
- Floating point: the conversions are stated over real numbers, with no claim of parity with the double-precision arithmetic or the float the result is stored in.
- NaN is `None`. Only the NaN behaviour the driver relies on is modelled: a NaN temperature makes the compensated humidity NaN, and the clamp passes NaN through.
- Header constants: `htu21d.h` is not part of this model. The command codes are an enumeration without byte values, the device address is omitted, and `RESOLUTION_RH12_T14` is taken to be level 0. Level 0 agrees with the delay tables, whose longest temperature wait is at index 0, and with the reset read-back 0x02, which is the encoding of level 0.
- Initial cached values: the header's initial values for `temperature` and `humidity` are not part of this model. The constructor starts them as NaN.
- Crc8.OneByteErrorDetected: single-bit detection is stated as the case e = 1 << bit of this lemma, not as a lemma of its own.
- Reset reads three bytes but only checks the first, and the model does the same. Bus faults are modelled only as responses that fail the check or the read-back.
- Concurrency and bus arbitration: the driver has none.
