/** The HTU21D driver object: its cached temperature, humidity and
    resolution, and the operations that trigger measurements, set the
    resolution and reset the sensor. The bus is not modelled: each response
    the bus would deliver is a parameter, and each command the driver issues
    and each wait it performs is appended to the log `ops`. */
module Driver {
  import opened Crc8
  import opened Conversion

  /** A float that may be NaN: None stands for NaN ("not available"). */
  datatype Option<T> = None | Some(value: T)

  /** The command codes the driver sends (their byte values live in the
      driver's header). */
  datatype Command =
    | TriggerTempMeasNoHold
    | TriggerHumMeasNoHold
    | WriteUserReg
    | ReadUserReg
    | SoftReset

  /** One bus transaction or wait, in the order the driver performs them. */
  datatype BusOp =
    | Write(cmd: Command)
    | WriteArg(cmd: Command, arg: bv8)
    | Read(count: nat)
    | WriteRead(cmd: Command, count: nat)
    | Wait(ms: nat)

  /** The settling time after a soft reset, independent of the resolution. */
  const ResetWaitMs: nat := 15

  /** The result of a measurement cycle: success and both cached values. */
  datatype Outcome = Outcome(ok: bool, temperature: Option<real>, humidity: Option<real>)

  function TemperatureTransaction(r: Resolution): seq<BusOp> {
    [Write(TriggerTempMeasNoHold), Wait(TemperatureDelay(r)), Read(3)]
  }

  function HumidityTransaction(r: Resolution): seq<BusOp> {
    [Write(TriggerHumMeasNoHold), Wait(HumidityDelay(r)), Read(3)]
  }

  function ResetTransaction(): seq<BusOp> {
    [Write(SoftReset), Wait(ResetWaitMs), WriteRead(ReadUserReg, 3)]
  }

  /** The raw word of a response frame. */
  function Raw(frame: seq<bv8>): Word
    requires |frame| == 3
  {
    RawWord(frame[0], frame[1])
  }

  /** The humidity stored for a valid raw word given the cached temperature:
      a NaN temperature makes the compensated value NaN, and the clamp passes
      NaN through since both of its comparisons are false. */
  function HumidityReading(raw: Word, t: Option<real>): (h: Option<real>)
    ensures h.Some? <==> t.Some?
    ensures h.Some? ==> 0.0 <= h.value <= 100.0
  {
    match t
    case None => None
    case Some(celsius) => Some(Humidity(raw, celsius))
  }

  /** What measure() leaves cached, given the temperature response and the
      humidity response the bus returns. It depends on nothing cached before
      the call: no stale value survives a measurement. */
  function MeasureOutcome(tempFrame: seq<bv8>, humFrame: seq<bv8>): (o: Outcome)
    requires |tempFrame| == 3 && |humFrame| == 3
    ensures o.ok <==> FrameValid(tempFrame) && FrameValid(humFrame)
    ensures !FrameValid(tempFrame) ==> o.temperature == None && o.humidity == None
    ensures FrameValid(tempFrame) ==> o.temperature == Some(Temperature(Raw(tempFrame)))
    ensures o.humidity.Some? <==> o.ok
    ensures o.ok ==> o.humidity == Some(Humidity(Raw(humFrame), Temperature(Raw(tempFrame))))
  {
    if !FrameValid(tempFrame) then Outcome(false, None, None)
    else
      var t := Some(Temperature(Raw(tempFrame)));
      if !FrameValid(humFrame) then Outcome(false, t, None)
      else Outcome(true, t, HumidityReading(Raw(humFrame), t))
  }

  /** The transactions measure() performs: temperature first; humidity is
      triggered only after a temperature response that passed the check. */
  function MeasureOps(r: Resolution, tempFrame: seq<bv8>): (ops: seq<BusOp>)
    requires |tempFrame| == 3
    ensures |ops| == (if FrameValid(tempFrame) then 6 else 3) && ops[0] == Write(TriggerTempMeasNoHold)
    ensures Write(TriggerHumMeasNoHold) in ops <==> FrameValid(tempFrame)
    ensures forall i :: 0 <= i < |ops| && ops[i] == Write(TriggerHumMeasNoHold) ==> i == 3 && ops[2] == Read(3)
  {
    TemperatureTransaction(r) + if FrameValid(tempFrame) then HumidityTransaction(r) else []
  }

  class Htu21d {
    var temperature: Option<real>
    var humidity: Option<real>
    var resolution: Resolution
    /** The bus transactions and waits performed so far. */
    var ops: seq<BusOp>

    /** A cached humidity was computed from a cached temperature and lies in
        the physical range. */
    ghost predicate Valid()
      reads this
    {
      humidity.Some? ==> temperature.Some? && 0.0 <= humidity.value <= 100.0
    }

    constructor ()
      ensures Valid()
      ensures resolution == DefaultResolution
      ensures temperature == None && humidity == None && ops == []
    {
      resolution := DefaultResolution;
      temperature, humidity := None, None;
      ops := [];
    }

    /** measureTemperature: trigger, wait for the level's temperature delay,
        read three bytes; on a passing check cache the converted value. */
    method MeasureTemperature(response: seq<bv8>) returns (ok: bool)
      requires Valid() && |response| == 3
      modifies this
      ensures Valid()
      ensures ok == FrameValid(response)
      ensures temperature == if ok then Some(Temperature(Raw(response))) else old(temperature)
      ensures humidity == old(humidity) && resolution == old(resolution)
      ensures ops == old(ops) + TemperatureTransaction(old(resolution))
    {
      ops := ops + [Write(TriggerTempMeasNoHold)];
      ops := ops + [Wait(TemperatureDelays[resolution])];
      ops := ops + [Read(3)];
      ok := CheckCrc8(response);
      if !ok {
        return;
      }
      var st := RawWord(response[0], response[1]);
      temperature := Some(Temperature(st));
    }

    /** measureHumidity: trigger, wait for the level's humidity delay, read
        three bytes; on a passing check cache the humidity compensated with
        the cached temperature and clamped. */
    method MeasureHumidity(response: seq<bv8>) returns (ok: bool)
      requires Valid() && |response| == 3
      modifies this
      ensures Valid()
      ensures ok == FrameValid(response)
      ensures humidity == if ok then HumidityReading(Raw(response), old(temperature)) else old(humidity)
      ensures temperature == old(temperature) && resolution == old(resolution)
      ensures ops == old(ops) + HumidityTransaction(old(resolution))
    {
      ops := ops + [Write(TriggerHumMeasNoHold)];
      ops := ops + [Wait(HumidityDelays[resolution])];
      ops := ops + [Read(3)];
      ok := CheckCrc8(response);
      if !ok {
        return;
      }
      var srh := RawWord(response[0], response[1]);
      humidity := HumidityReading(srh, temperature);
    }

    /** measure: forget both values, measure temperature, then humidity,
        stopping at the first response that fails the check. */
    method Measure(tempResponse: seq<bv8>, humResponse: seq<bv8>) returns (ok: bool)
      requires Valid() && |tempResponse| == 3 && |humResponse| == 3
      modifies this
      ensures Valid()
      ensures Outcome(ok, temperature, humidity) == MeasureOutcome(tempResponse, humResponse)
      ensures resolution == old(resolution)
      ensures ops == old(ops) + MeasureOps(old(resolution), tempResponse)
    {
      temperature := None;
      humidity := None;
      ok := MeasureTemperature(tempResponse);
      if !ok {
        return;
      }
      ok := MeasureHumidity(humResponse);
    }

    /** setResolution: write the encoded level to the user register and
        cache it, whether or not the write reached the sensor. */
    method SetResolution(r: Resolution)
      requires Valid()
      modifies this
      ensures Valid()
      ensures resolution == r
      ensures temperature == old(temperature) && humidity == old(humidity)
      ensures ops == old(ops) + [WriteArg(WriteUserReg, UserRegister(r))]
    {
      ops := ops + [WriteArg(WriteUserReg, ((r as bv8) & 0x01) | (((r as bv8) & 0x02) << 6) | 0x02)];
      resolution := r;
    }

    function GetResolution(): (r: Resolution)
      reads this
      ensures r == resolution
    {
      resolution
    }

    function GetTemperature(): (t: Option<real>)
      reads this
      ensures t == temperature
    {
      temperature
    }

    function GetHumidity(): (h: Option<real>)
      reads this
      requires Valid()
      ensures h == humidity
      ensures h.Some? ==> 0.0 <= h.value <= 100.0 && GetTemperature().Some?
    {
      humidity
    }

    /** reset: soft-reset the sensor, wait 15 ms, read back the user
        register; only the expected default byte counts as success, and only
        then is the cached level set back to the default. The cached
        measurements are left alone. */
    method Reset(reply: seq<bv8>) returns (ok: bool)
      requires Valid() && |reply| == 3
      modifies this
      ensures Valid()
      ensures ok == (reply[0] == ResetRegisterValue)
      ensures resolution == if ok then DefaultResolution else old(resolution)
      ensures temperature == old(temperature) && humidity == old(humidity)
      ensures ops == old(ops) + ResetTransaction()
    {
      ops := ops + [Write(SoftReset)];
      ops := ops + [Wait(15)];
      ops := ops + [WriteRead(ReadUserReg, 3)];
      if reply[0] != 0x02 {
        return false;
      }
      resolution := DefaultResolution;
      return true;
    }

    /** begin: exactly reset. */
    method Begin(reply: seq<bv8>) returns (ok: bool)
      requires Valid() && |reply| == 3
      modifies this
      ensures Valid()
      ensures ok == (reply[0] == ResetRegisterValue)
      ensures resolution == if ok then DefaultResolution else old(resolution)
      ensures temperature == old(temperature) && humidity == old(humidity)
      ensures ops == old(ops) + ResetTransaction()
    {
      ok := Reset(reply);
    }
  }

  /** A client: a corrupted temperature response (the datasheet's frame with
      its checksum off by one) aborts the cycle before humidity is triggered
      and leaves both values not available. */
  method CorruptTemperatureScenario() {
    var sensor := new Htu21d();
    sensor.SetResolution(3);
    DatasheetExample();
    var ok := sensor.Measure([0x68, 0x3A, 0x7D], [0x68, 0x3A, 0x7C]);
    assert !ok;
    assert sensor.GetTemperature() == None && sensor.GetHumidity() == None;
    assert Write(TriggerHumMeasNoHold) !in sensor.ops;
    ok := sensor.Reset([0x02, 0x00, 0x00]);
    assert ok && sensor.GetResolution() == DefaultResolution;
  }

  /** A client: two passing responses give a temperature of about 24.7 C and
      a humidity in range, compensated with that temperature. */
  method DatasheetScenario() {
    var sensor := new Htu21d();
    DatasheetExample();
    DatasheetTemperature();
    var ok := sensor.Measure([0x68, 0x3A, 0x7C], [0x68, 0x3A, 0x7C]);
    assert ok;
    var t := sensor.GetTemperature();
    assert t.Some? && 24.68 < t.value < 24.69;
    assert sensor.GetHumidity() == Some(Humidity(26680, t.value));
  }
}
