/** The station of main.go: the measurement histories, the plant
    configuration and the pump model, updated in place by the minute tick
    (`updateMinute`) and the hourly tick (`updateWeightAndWatering`), and
    the watering decision `calculateWatering` that the hourly tick runs.
    Locking, MQTT publication, persistence and the timers that call the
    ticks are not part of this model. */
module Station {
  import opened GoInt
  import opened Wrappers
  import opened Bus
  import opened Wuc
  import opened History
  import opened Estimator
  import opened Decision

  /** `measurementData`: a weight history, a watering history and the
      label (hour or minute) of the newest entry. */
  datatype MeasurementData = MeasurementData(weight: seq<int>, watering: seq<int>, time: int)

  /** The weight a tick records when the sensor read failed: the newest
      entry of the history it falls back on, or 0 for an empty one (the
      failed read already yielded 0). */
  function Fallback(reading: Result<int, Fault>, history: seq<int>): (w: int)
    ensures reading.Ok? ==> w == reading.value
    ensures reading.Err? && history != [] ==> w == history[|history| - 1]
    ensures reading.Err? && history == [] ==> w == 0
  {
    if reading.Ok? then reading.value
    else if history != [] then history[|history| - 1]
    else 0
  }

  /** The hour's weight: the median of the minute samples, or, when there
      are none, the direct reading with its fallback on the newest hourly
      weight. */
  function HourReading(minWeights: seq<int>, weights: seq<int>, reading: Result<int, Fault>): (w: int)
    ensures minWeights != [] ==> w in Window(minWeights)
    ensures minWeights == [] ==> w == Fallback(reading, weights)
  {
    if minWeights != [] then HourMedian(minWeights) else Fallback(reading, weights)
  }

  /** `numMins` of `updateMinute`: minutes since the newest minute sample,
      forced to 1 when there is none. */
  function MinutesSince(min: int, last: int, empty: bool): (n: int)
    ensures empty ==> n == 1
    ensures !empty ==> -60 < n < 60 && (min - last - n) % 60 == 0
  {
    if empty then 1 else TruncRem(min - last + 60, 60)
  }

  /** For minute labels of one hour, `numMins` counts the minute
      boundaries from `last` to `min`, wrapping at the full hour: a
      repeated label gives 0, the next minute 1. */
  lemma MinutesSinceWraps(min: int, last: int)
    requires 0 <= min < 60 && 0 <= last < 60
    ensures MinutesSince(min, last, false) == (min - last) % 60
    ensures 0 <= MinutesSince(min, last, false) < 60
    ensures min == last ==> MinutesSince(min, last, false) == 0
    ensures min == (last + 1) % 60 ==> MinutesSince(min, last, false) == 1
  {
    var a := min - last + 60;
    TruncDivFloor(a, 60);
    if a < 60 {
      assert TruncDiv(a, 60) == 0;
    } else {
      assert TruncDiv(a, 60) == 1;
    }
  }

  /** What `calculateWatering` returns once `fit` is the stored model. */
  function PlannedWatering(d: MeasurementData, w: int, fit: PumpModel, cfg: PlantConfig): (p: int)
    ensures cfg.waterStart <= cfg.maxWater ==> cfg.waterStart <= p + fit.offset <= cfg.maxWater
  {
    ClampedPumpTime(d.weight, d.watering, w, Dryout(DrySamples(d.weight, d.watering, |d.watering|)), fit, cfg) - fit.offset
  }

  /** The pump time the hourly tick plans: what `calculateWatering`
      returns at the watering hour, 0 at any other hour. */
  function PlannedAt(d: MeasurementData, w: int, hour: int, fit: PumpModel, cfg: PlantConfig): (p: int)
    ensures hour != cfg.waterHour ==> p == 0
    ensures hour == cfg.waterHour ==> p + fit.offset == ClampedPumpTime(d.weight, d.watering, w,
      Dryout(DrySamples(d.weight, d.watering, |d.watering|)), fit, cfg)
  {
    if hour == cfg.waterHour then PlannedWatering(d, w, fit, cfg) else 0
  }

  /** The watering entry the hourly tick records for the planned time
      `p`: what `DoWatering(offset, p)` reports when `p` is positive, 0
      otherwise. */
  function WateringEntry(p: int, fit: PumpModel, acks: seq<Ack>, replies: seq<Reply>): (e: int)
    ensures e % 250 == 0 && 0 <= e <= 255 * 250
    ensures p <= 0 ==> e == 0
    ensures p > 0 ==> e == WateringOutcome(fit.offset, p, acks, replies)
  {
    WateringReported(fit.offset, p, acks, replies);
    if p > 0 then WateringOutcome(fit.offset, p, acks, replies) else 0
  }

  /** The bus traffic of the watering step: that of `DoWatering` when
      the planned time is positive, none otherwise. */
  function WateringStep(p: int, fit: PumpModel, acks: seq<Ack>, replies: seq<Reply>): Traffic
  {
    if p > 0 then WateringTraffic(fit.offset, p, acks, replies) else Traffic([], acks, replies)
  }

  class Station {
    /** `Data`: hourly weights and waterings, and the hour of the newest entry. */
    var data: MeasurementData
    /** `MinData`: minute weights and the minute of the newest entry. */
    var minData: MeasurementData
    /** `Config`. */
    var config: PlantConfig
    /** `WateringTimeData`: the stored pump model. */
    var pump: PumpModel
    const wuc: Wuc

    /** The station as `main` sets it up before loading any file. */
    constructor (config: PlantConfig, wuc: Wuc, hour: int)
      ensures this.data == MeasurementData([], [], hour)
      ensures this.minData == MeasurementData([], [], 0)
      ensures this.config == config && this.pump == PumpModel(0, 0) && this.wuc == wuc
    {
      this.data := MeasurementData([], [], hour);
      this.minData := MeasurementData([], [], 0);
      this.config := config;
      this.pump := PumpModel(0, 0);
      this.wuc := wuc;
    }

    /** `calculateWatering`: the pump time for this hour, the clamped
        `scale * dw + offset` less the stored offset. `fit` stands for the
        pump model the regression returns; with `save` it becomes the
        stored one first, so the offset subtracted is `fit`'s. */
    method CalculateWatering(hour: int, weight: int, save: bool, fit: PumpModel) returns (r: int)
      modifies this`pump
      ensures pump == if save then fit else old(pump)
      ensures r + pump.offset == ClampedPumpTime(data.weight, data.watering, weight,
        Dryout(DrySamples(data.weight, data.watering, |data.watering|)), fit, config)
      ensures save && config.waterStart <= config.maxWater ==>
        config.waterStart <= r + pump.offset <= config.maxWater
    {
      var durw := HoursSinceWatering(data.watering);
      var prevw := ReferenceWeight(data.weight, durw, weight);
      var dryout := CalculateDryout(data.weight, data.watering);
      var dw := WeightGain(weight, prevw, dryout, durw, config);
      var wt := fit.scale * dw + fit.offset;
      if save {
        pump := fit;
      }
      r := Clamp(wt, config.waterStart, config.maxWater) - pump.offset;
    }

    /** `updateMinute`: reads the weight (falling back on the newest
        minute sample) and pushes it once per minute since the previous
        tick, so that missed minutes are padded with the new reading. */
    method UpdateMinute(min: int)
      modifies this`minData, wuc.conn
      ensures var w := Fallback(WeightReading(old(wuc.conn.acks), old(wuc.conn.replies)), old(minData.weight));
        var n := MinutesSince(min, old(minData.time), old(minData.weight) == []);
        minData.weight == PushRepeat(old(minData.weight), w, if n < 0 then 0 else n, BacklogMinutes)
      ensures minData.time == min && minData.watering == old(minData.watering)
      ensures |old(minData.weight)| <= BacklogMinutes ==> |minData.weight| <= BacklogMinutes
      ensures old(minData.weight) == [] ==> |minData.weight| == 1
      ensures wuc.conn.sent == old(wuc.conn.sent) + [[CmdGetWeight]]
      ensures (wuc.conn.acks, wuc.conn.replies) == AfterQuery(old(wuc.conn.acks), old(wuc.conn.replies))
    {
      var w := MinuteWeight();
      var numMins := TruncRem(min - minData.time + 60, 60);
      if |minData.weight| == 0 {
        numMins := 1;
      }
      assert numMins == MinutesSince(min, old(minData.time), old(minData.weight) == []);
      minData := minData.(time := min);
      PushMinutes(w, numMins);
    }

    /** The weight `updateMinute` records: a fresh reading, or on error
        the newest minute sample. */
    method MinuteWeight() returns (w: int)
      modifies wuc.conn
      ensures w == Fallback(WeightReading(old(wuc.conn.acks), old(wuc.conn.replies)), minData.weight)
      ensures wuc.conn.sent == old(wuc.conn.sent) + [[CmdGetWeight]]
      ensures (wuc.conn.acks, wuc.conn.replies) == AfterQuery(old(wuc.conn.acks), old(wuc.conn.replies))
    {
      var err;
      w, err := wuc.ReadWeight();
      if err.Some? {
        var n := |minData.weight|;
        if n > 0 {
          w := minData.weight[n - 1];
        }
      }
    }

    /** The padding loop of `updateMinute`: `w` pushed `numMins` times. */
    method PushMinutes(w: int, numMins: int)
      modifies this`minData
      ensures var k := if numMins < 0 then 0 else numMins;
        minData == old(minData).(weight := PushRepeat(old(minData.weight), w, k, BacklogMinutes))
      ensures |old(minData.weight)| <= BacklogMinutes ==> |minData.weight| <= BacklogMinutes
      ensures old(minData.weight) == [] && numMins == 1 ==> minData.weight == [w]
    {
      ghost var k: nat := if numMins < 0 then 0 else numMins;
      ghost var start := minData.weight;
      var i := 0;
      while i < numMins
        invariant 0 <= i && (numMins >= 0 ==> i <= numMins) && (numMins < 0 ==> i == 0)
        invariant minData == old(minData).(weight := PushRepeat(start, w, i, BacklogMinutes))
      {
        minData := minData.(weight := PushSlice(minData.weight, w, BacklogMinutes));
        i := i + 1;
      }
      assert i == k;
      if k >= 1 || |start| <= BacklogMinutes {
        PushRepeatKeepsNewest(start, w, k, BacklogMinutes);
      }
    }

    /** The weight `updateWeightAndWatering` records for the hour. */
    method HourWeight() returns (w: int)
      modifies wuc.conn
      ensures w == HourReading(minData.weight, data.weight, WeightReading(old(wuc.conn.acks), old(wuc.conn.replies)))
      ensures wuc.conn.sent == old(wuc.conn.sent) + (if minData.weight == [] then [[CmdGetWeight]] else [])
      ensures (wuc.conn.acks, wuc.conn.replies) ==
        if minData.weight == [] then AfterQuery(old(wuc.conn.acks), old(wuc.conn.replies))
        else (old(wuc.conn.acks), old(wuc.conn.replies))
    {
      if |minData.weight| == 0 {
        var err;
        w, err := wuc.ReadWeight();
        if err.Some? {
          var n := |data.weight|;
          if n > 0 {
            w := data.weight[n - 1];
          }
        }
      } else {
        w := HourMedian(minData.weight);
      }
    }

    /** The watering step of `updateWeightAndWatering`: only at the
        configured hour, and only when the computed pump time is positive,
        is the controller asked to water; the result is what it reports. */
    method WaterIfDue(hour: int, w: int, fit: PumpModel) returns (wt: int, planned: int)
      modifies this`pump, wuc.conn
      ensures pump == if hour == config.waterHour then fit else old(pump)
      ensures planned == PlannedAt(data, w, hour, fit, config)
      ensures wt == WateringEntry(planned, fit, old(wuc.conn.acks), old(wuc.conn.replies))
      ensures var t := WateringStep(planned, fit, old(wuc.conn.acks), old(wuc.conn.replies));
        wuc.conn.sent == old(wuc.conn.sent) + t.sent && wuc.conn.acks == t.acks && wuc.conn.replies == t.replies
    {
      wt := 0;
      if hour == config.waterHour {
        wt := CalculateWatering(hour, w, true, fit);
      }
      planned := wt;
      if wt > 0 {
        wt := wuc.DoWatering(pump.offset, wt);
      } else {
        wt := 0;
      }
    }

    /** `updateWeightAndWatering`: the hour's weight, the watering at the
        configured hour, and one entry appended to each hourly history. */
    method UpdateWeightAndWatering(hour: int, fit: PumpModel)
      modifies this`data, this`pump, wuc.conn
      ensures data.time == hour
      ensures var w := HourReading(minData.weight, old(data.weight), WeightReading(old(wuc.conn.acks), old(wuc.conn.replies)));
        data.weight == PushSlice(old(data.weight), w, MaxHours)
      ensures var w := HourReading(minData.weight, old(data.weight), WeightReading(old(wuc.conn.acks), old(wuc.conn.replies)));
        var q := if minData.weight == [] then AfterQuery(old(wuc.conn.acks), old(wuc.conn.replies))
          else (old(wuc.conn.acks), old(wuc.conn.replies));
        var p := PlannedAt(old(data), w, hour, fit, config);
        var t := WateringStep(p, fit, q.0, q.1);
        data.watering == PushSlice(old(data.watering), WateringEntry(p, fit, q.0, q.1), MaxHours) &&
        wuc.conn.sent == old(wuc.conn.sent) + (if minData.weight == [] then [[CmdGetWeight]] else []) + t.sent &&
        wuc.conn.acks == t.acks && wuc.conn.replies == t.replies
      ensures |old(data.weight)| == |old(data.watering)| ==> |data.weight| == |data.watering|
      ensures pump == if hour == config.waterHour then fit else old(pump)
    {
      ghost var reading := WeightReading(wuc.conn.acks, wuc.conn.replies);
      var w := HourWeight();
      assert w == HourReading(minData.weight, old(data.weight), reading);
      RecordHour(hour, w, fit);
    }

    /** The rest of `updateWeightAndWatering` once the weight `w` is known:
        the watering step, then one entry appended to each history. */
    method RecordHour(hour: int, w: int, fit: PumpModel)
      modifies this`data, this`pump, wuc.conn
      ensures var p := PlannedAt(old(data), w, hour, fit, config);
        data == MeasurementData(
          PushSlice(old(data.weight), w, MaxHours),
          PushSlice(old(data.watering), WateringEntry(p, fit, old(wuc.conn.acks), old(wuc.conn.replies)), MaxHours),
          hour)
      ensures var t := WateringStep(PlannedAt(old(data), w, hour, fit, config), fit, old(wuc.conn.acks), old(wuc.conn.replies));
        wuc.conn.sent == old(wuc.conn.sent) + t.sent && wuc.conn.acks == t.acks && wuc.conn.replies == t.replies
      ensures |old(data.weight)| == |old(data.watering)| ==> |data.weight| == |data.watering|
      ensures pump == if hour == config.waterHour then fit else old(pump)
    {
      var wt, _ := WaterIfDue(hour, w, fit);
      data := MeasurementData(
        PushSlice(data.weight, w, MaxHours),
        PushSlice(data.watering, wt, MaxHours),
        hour);
    }
  }

  /** `update`'s turntable angles for the day `day` (days since the Unix
      epoch): the three picture angles `day`, `day + 120`, `day + 240`,
      then the resting orientation, the fixed one if configured and
      `day * 190` otherwise; all converted to `uint64`. */
  function DailyAngles(day: int, fixed: Option<int>): (a: seq<nat>)
    ensures |a| == 4
    ensures forall i :: 0 <= i < 4 ==> a[i] < TwoTo64
    ensures 0 <= day && day + 240 < TwoTo64 ==> a[0] == day && a[1] == day + 120 && a[2] == day + 240
    ensures fixed.Some? ==> a[3] == U64(fixed.value)
    ensures fixed.None? ==> a[3] == U64(day * 190)
  {
    var angle := U64(day);
    var rest := match fixed
      case Some(o) => U64(o)
      case None => U64(day * 190);
    [angle, U64(angle + 120), U64(angle + 240), rest]
  }

  /** Without a fixed orientation the resting angle advances 190 degrees a
      day, so 36 days later (19 full turns) the plate is back where it
      was. */
  lemma RestingOrientationCycle(day: int)
    requires 0 <= day && ((day + 36) * 190) * CPR < TwoTo64
    ensures EncoderCount(DailyAngles(day + 36, None)[3]) == EncoderCount(DailyAngles(day, None)[3])
  {
    assert (day + 36) * 190 == day * 190 + 360 * 19;
    assert day * 190 <= (day + 36) * 190;
    FullTurns(day * 190, 19);
  }
}
