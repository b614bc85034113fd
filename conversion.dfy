/** The decoding side of the driver: the raw word carried by a response,
    its conversion to degrees Celsius and percent relative humidity, the
    clamp applied to humidity, the per-resolution wait times and the
    user-register byte that selects a resolution. The conversions are stated
    over real numbers; the source computes them in double precision and
    stores the results as float. */
module Conversion {

  /** A measurement resolution (HTU21DResolution): a 2-bit level. */
  type Resolution = r: nat | r < 4

  /** RESOLUTION_RH12_T14, the level selected at construction and restored by
      a reset: 12-bit humidity, 14-bit temperature. */
  const DefaultResolution: Resolution := 0

  /** HTU21D_DELAY_T and HTU21D_DELAY_H, in milliseconds, indexed by level. */
  const TemperatureDelays: seq<nat> := [50, 13, 25, 7]
  const HumidityDelays: seq<nat> := [16, 3, 5, 8]

  /** HTU21D_TCoeff, the humidity compensation per degree away from 25 C. */
  const TCoeff: real := -0.15

  /** The user-register byte a successful soft reset reads back. */
  const ResetRegisterValue: bv8 := 0x02

  /** The wait between triggering a temperature measurement and reading it.
      The table is indexed only by a level, so the lookup is in bounds. */
  function TemperatureDelay(r: Resolution): (ms: nat)
    ensures ms in TemperatureDelays
    ensures 7 <= ms <= 50 && ms < 256
  {
    TemperatureDelays[r]
  }

  /** The wait between triggering a humidity measurement and reading it. */
  function HumidityDelay(r: Resolution): (ms: nat)
    ensures ms in HumidityDelays
    ensures 3 <= ms <= 16
  {
    HumidityDelays[r]
  }

  /** Each level has its own pair of wait times, and the default level has
      the longest temperature wait (its temperature has the most bits). */
  lemma DelaysIdentifyResolution(r1: Resolution, r2: Resolution)
    ensures (TemperatureDelay(r1), HumidityDelay(r1)) == (TemperatureDelay(r2), HumidityDelay(r2)) <==> r1 == r2
    ensures TemperatureDelay(r1) <= TemperatureDelay(DefaultResolution)
  {
  }

  /** The constrain macro: low when below low, high when above high, else
      the value itself. */
  function Constrain(amt: real, low: real, high: real): (r: real)
    ensures low <= high ==> low <= r <= high
    ensures low <= amt <= high ==> r == amt
    ensures r == low || r == high || r == amt
  {
    if amt < low then low else if amt > high then high else amt
  }

  /** Clamping keeps the order of its inputs. */
  lemma ConstrainMonotone(a: real, b: real, low: real, high: real)
    requires low <= high && a <= b
    ensures Constrain(a, low, high) <= Constrain(b, low, high)
  {
  }

  /** A uint16_t. */
  type Word = w: nat | w < 0x1_0000

  /** The raw sample of a response: its two data bytes big-endian, with the
      two status bits of the low byte masked off. */
  function RawWord(msb: bv8, lsb: bv8): (w: Word)
    ensures w % 4 == 0
    ensures w == msb as int * 256 + lsb as int - lsb as int % 4
  {
    ((msb as bv16 << 8) | (lsb & 0xFC) as bv16) as int
  }

  /** Degrees Celsius for a raw temperature word: -46.85 C at raw 0, rising
      by 175.72 C over the full 16-bit range. */
  function Temperature(raw: Word): (celsius: real)
    ensures -46.85 <= celsius < 128.87
  {
    -46.85 + 175.72 * (raw as real) / 65536.0
  }

  /** Percent relative humidity for a raw humidity word, before the
      temperature compensation. */
  function UncompensatedHumidity(raw: Word): (rh: real)
    ensures -6.0 <= rh < 119.0
  {
    -6.0 + 125.0 * (raw as real) / 65536.0
  }

  /** Percent relative humidity for a raw humidity word, compensated with the
      temperature t and clamped to the physical range. */
  function Humidity(raw: Word, t: real): (rh: real)
    ensures 0.0 <= rh <= 100.0
  {
    Constrain(UncompensatedHumidity(raw) + (25.0 - t) * TCoeff, 0.0, 100.0)
  }

  /** Temperature is strictly increasing in the raw word and spans
      -46.85 C (raw 0) up to just below 128.87 C. */
  lemma TemperatureMonotone(a: Word, b: Word)
    requires a < b
    ensures Temperature(a) < Temperature(b)
    ensures -46.85 <= Temperature(a) && Temperature(b) < 128.87
  {
  }

  /** Uncompensated humidity is strictly increasing in the raw word and is
      -6 %RH at raw 0. */
  lemma UncompensatedHumidityMonotone(a: Word, b: Word)
    requires a < b
    ensures UncompensatedHumidity(a) < UncompensatedHumidity(b)
    ensures UncompensatedHumidity(0) == -6.0
  {
  }

  /** At 25 C the compensation term vanishes; above 25 C it raises the
      reading. Within the physical range this is the uncompensated value. */
  lemma HumidityCompensation(raw: Word, t: real)
    ensures t == 25.0 ==> Humidity(raw, t) == Constrain(UncompensatedHumidity(raw), 0.0, 100.0)
    ensures t >= 25.0 ==> Humidity(raw, t) >= Constrain(UncompensatedHumidity(raw), 0.0, 100.0)
  {
    if t >= 25.0 {
      assert (25.0 - t) * TCoeff >= 0.0;
      ConstrainMonotone(UncompensatedHumidity(raw), UncompensatedHumidity(raw) + (25.0 - t) * TCoeff, 0.0, 100.0);
    }
  }

  /** The user-register byte written by setResolution: the low bit of the
      level in bit 0, its high bit in bit 7, and bit 1 set. */
  function UserRegister(r: Resolution): (b: bv8)
    ensures b & 0x02 == 0x02 && b & 0x7C == 0
    ensures RegisterResolution(b) == r
  {
    ((r as bv8) & 0x01) | (((r as bv8) & 0x02) << 6) | 0x02
  }

  /** The level that a user-register byte selects (bits 7 and 0). */
  function RegisterResolution(b: bv8): Resolution {
    (if b & 0x80 != 0 then 2 else 0) + (if b & 0x01 != 0 then 1 else 0)
  }

  /** The byte a reset expects to read back is the encoding of the default
      level, so a reset leaves the register and the cached level in step. */
  lemma ResetRegisterIsDefault()
    ensures UserRegister(DefaultResolution) == ResetRegisterValue
    ensures RegisterResolution(ResetRegisterValue) == DefaultResolution
  {
  }

  /** The datasheet's sample temperature word 0x683A reads about 24.7 C. */
  lemma DatasheetTemperature()
    ensures 24.68 < Temperature(RawWord(0x68, 0x3A)) < 24.69
  {
    assert RawWord(0x68, 0x3A) == 26680;
  }

  /** The temperature bytes 0x62 0x2C read about 20.5 C. */
  lemma SampleTemperature()
    ensures 20.53 < Temperature(RawWord(0x62, 0x2C)) < 20.54
  {
    assert RawWord(0x62, 0x2C) == 25132;
  }

  /** The datasheet's sample humidity bytes 0x4E 0x85 (status bits 01 masked
      off) read about 32.3 %RH before compensation. */
  lemma DatasheetHumidity()
    ensures 32.33 < UncompensatedHumidity(RawWord(0x4E, 0x85)) < 32.34
  {
    assert RawWord(0x4E, 0x85) == 20100;
  }
}
