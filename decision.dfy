/** The per-hour watering rule of `calculateWatering` and `clamp`
    (main.go), on integers. The pump model `(scale, offset)` is an input:
    its least-squares fit is floating point and is not modelled. */
module Decision {
  import opened GoInt
  import opened Wrappers

  /** `plantConfig`. */
  datatype PlantConfig = PlantConfig(
    waterHour: int,
    waterStart: int,
    maxWater: int,
    lowLevel: int,
    highLevel: int,
    dailyRefill: int,
    levelRange: int,
    updateHour: int,
    fixedOrientation: Option<int>)

  /** The configuration `main` starts from when no file overrides it. */
  const DefaultConfig: PlantConfig :=
    PlantConfig(20, 2000, 20000, 1400, 1500, 10, 100, 9, None)

  /** `wateringTimeData`: pump-on time `scale * dw + offset` for a weight gain `dw`. */
  datatype PumpModel = PumpModel(scale: int, offset: int)

  /** `clamp(v, min, max)`. */
  function Clamp(v: int, lo: int, hi: int): (r: int)
    ensures lo <= v <= hi ==> r == v
    ensures v < lo ==> r == lo
    ensures lo <= v && hi < v ==> r == hi
    ensures lo <= hi ==> lo <= r <= hi
  {
    if v < lo then lo else if v > hi then hi else v
  }

  /** Clamping never reverses the order of two durations. */
  lemma ClampMonotone(v1: int, v2: int, lo: int, hi: int)
    requires v1 <= v2 && lo <= hi
    ensures Clamp(v1, lo, hi) <= Clamp(v2, lo, hi)
  {
  }

  /** `durw` of `calculateWatering`: hours since the newest positive
      watering entry, counting that hour; the whole history when no entry
      is positive; 1 for an empty history. */
  function HoursSince(watering: seq<int>): (durw: int)
    ensures watering == [] ==> durw == 1
    ensures watering != [] ==> 1 <= durw <= |watering|
    ensures forall k :: |watering| - durw < k < |watering| ==> watering[k] <= 0
    ensures watering != [] && watering[|watering| - durw] <= 0 ==> durw == |watering|
  {
    if |watering| <= 1 || watering[|watering| - 1] > 0 then 1
    else 1 + HoursSince(watering[..|watering| - 1])
  }

  /** The backward search loop of `calculateWatering`. */
  method HoursSinceWatering(watering: seq<int>) returns (durw: int)
    ensures durw == HoursSince(watering)
  {
    durw := 1;
    if |watering| > 0 {
      var i := |watering| - 1;
      while i >= 0
        invariant -1 <= i < |watering|
        invariant durw == if i == |watering| - 1 then 1 else |watering| - i - 1
        invariant forall k :: i < k < |watering| ==> watering[k] <= 0
        decreases i
      {
        durw := |watering| - i;
        if watering[i] > 0 {
          break;
        }
        i := i - 1;
      }
      HoursSinceDetermined(watering, durw);
    }
  }

  /** The contract of `HoursSince` has exactly one solution. */
  lemma HoursSinceDetermined(watering: seq<int>, d: int)
    requires watering != [] && 1 <= d <= |watering|
    requires forall k :: |watering| - d < k < |watering| ==> watering[k] <= 0
    requires watering[|watering| - d] <= 0 ==> d == |watering|
    ensures d == HoursSince(watering)
  {
  }

  /** `prevw` of `calculateWatering`: the weight recorded `durw - 1` hours
      ago, when there is such an entry and `durw > 1`; otherwise the
      current weight. */
  function ReferenceWeight(weights: seq<int>, durw: int, weight: int): (prevw: int)
    ensures durw > 1 && |weights| >= durw ==> prevw in weights[1..] && prevw == weights[|weights| - (durw - 1)]
    ensures durw <= 1 || |weights| < durw ==> prevw == weight
  {
    if durw > 1 && |weights| >= durw then weights[|weights| - durw + 1] else weight
  }

  /** With aligned histories, the reference weight is the one recorded in
      the hour right after the newest watering. */
  lemma ReferenceAfterLastWatering(weights: seq<int>, watering: seq<int>, i: int, weight: int)
    requires |weights| == |watering|
    requires 0 <= i < |watering| - 1 && watering[i] > 0
    requires forall k :: i < k < |watering| ==> watering[k] <= 0
    ensures ReferenceWeight(weights, HoursSince(watering), weight) == weights[i + 1]
  {
    HoursSinceDetermined(watering, |watering| - i);
  }

  /** `dw` of `calculateWatering`: the desired weight gain. */
  function WeightGain(weight: int, prevw: int, dryout: int, durw: int, cfg: PlantConfig): (dw: int)
    ensures weight > cfg.lowLevel ==> dw <= prevw - weight
    ensures weight <= cfg.lowLevel ==> weight + dw == cfg.highLevel
  {
    if weight > cfg.lowLevel then
      var dw := prevw - TruncDiv(dryout * durw, 24) + cfg.dailyRefill - weight;
      if dw > prevw - weight then prevw - weight else dw
    else
      cfg.highLevel - weight
  }

  /** Above the low level, watering aims at the reference weight less the
      dryout predicted since then plus the daily refill, never above the
      reference weight itself. */
  lemma TargetWeight(weight: int, prevw: int, dryout: int, durw: int, cfg: PlantConfig)
    requires weight > cfg.lowLevel
    ensures weight + WeightGain(weight, prevw, dryout, durw, cfg)
      == Min(prevw, prevw - TruncDiv(dryout * durw, 24) + cfg.dailyRefill)
  {
  }

  /** The clamped pump time `clamp(wts*dw + wto, WaterStart, MaxWater)`
      of `calculateWatering`, for the given histories, current weight,
      dryout rate and pump model. */
  function ClampedPumpTime(weights: seq<int>, watering: seq<int>, weight: int, dryout: int,
                           fit: PumpModel, cfg: PlantConfig): (t: int)
    ensures cfg.waterStart <= cfg.maxWater ==> cfg.waterStart <= t <= cfg.maxWater
  {
    var durw := HoursSince(watering);
    var prevw := ReferenceWeight(weights, durw, weight);
    var dw := WeightGain(weight, prevw, dryout, durw, cfg);
    Clamp(fit.scale * dw + fit.offset, cfg.waterStart, cfg.maxWater)
  }

  /** The critical-low scenario: weight 1000 under the low level 1400 is
      refilled to 1500, so `dw = 500` and the raw time `5*500 + 100 = 2600`
      lies inside the default clamp range. */
  lemma CriticalLowScenario(weights: seq<int>, watering: seq<int>, dryout: int)
    ensures ClampedPumpTime(weights, watering, 1000, dryout, PumpModel(5, 100), DefaultConfig) == 2600
  {
  }
}
