/** The race engine's per-horse formulas (Services/RaceEngineService.cs):
    the start draws, the running-style curves, the stamina and spacing
    corrections, and the traffic checks against a snapshot of the field.
    Each is a pure function of its inputs whose result is closed by a clamp;
    the contracts state those ranges and the case facts the tick relies on. */
module RaceFormulas {
  import opened Numerics
  import opened Seqs
  import opened Domain

  const BodyWidth: real := 0.08
  const LateralStep: real := 0.012
  const BlockDistance: real := 6.0
  const MinGap: real := 3.0
  const SideCheck: real := 5.0
  const RearCheck: real := 2.0
  const AccelCoefMin: real := 0.6
  const AccelCoefMax: real := 1.4
  const BaseAccel: real := 4.0
  const StartBoost: real := 1.3
  const CruiseAccel: real := 6.0
  const StaminaBaseCost: real := 0.0012
  const StaminaSpurtCost: real := 0.006
  const StartSpeedRatio: real := 0.6

  /** Where each running style lines up across the track at the start. */
  function StartLane(s: Style): real {
    match s
    case FrontRunner => 0.22
    case PacePresser => 0.30
    case Closer => 0.52
    case DeepCloser => 0.70
  }

  /** 初期横位置: the style's lane plus noise of at most 0.06 either way,
      given a uniform draw `u` in [0, 1). */
  function InitialLateral(s: Style, u: real): (y: real)
    requires 0.0 <= u < 1.0
    ensures LateralMin <= y <= LateralMax
    ensures StartLane(s) - 0.06 <= y < StartLane(s) + 0.06
  {
    Clamp(StartLane(s) + (u - 0.5) * 0.12, LateralMin, LateralMax)
  }

  /** 不発抽選: only a deep closer can misfire, with a draw below 0.35. */
  function FailedKickDraw(s: Style, u: real): (failed: bool)
    ensures failed <==> s == DeepCloser && u < 0.35
  {
    if s != DeepCloser then false else u < 0.35
  }

  /** The chance of a slow start: 0.20 for gate 0 down to 0.05 for gate 100 and above. */
  function LateStartRate(gate: int): (r: real)
    ensures 0.05 <= r <= 0.20
  {
    0.20 - Clamp(gate as real / 100.0, 0.0, 1.0) * 0.15
  }

  /** スタート遅延抽選: a base delay of 0..5 ticks, plus 6..15 ticks when the
      slow-start draw falls below the gate's rate. */
  function StartDelay(gate: int, baseDelay: int, lateDraw: real, extra: int): (d: int)
    requires 0 <= baseDelay < 6 && 0.0 <= lateDraw < 1.0 && 6 <= extra < 16
    ensures 0 <= d <= 20
    ensures d >= 6 <==> lateDraw < LateStartRate(gate)
    ensures d == baseDelay || d == baseDelay + extra
  {
    if lateDraw < LateStartRate(gate) then baseDelay + extra else baseDelay
  }

  /** 加速正規化. */
  function AccelNorm(acceleration: int): (a: real)
    ensures 0.0 <= a <= 1.0
  {
    Clamp(acceleration as real / 100.0, 0.0, 1.0)
  }

  /** 初期巡航速度: (15 + speed / 20) m/s at the game's 5.5x pace. */
  function InitialCruise(speed: int): (v: real)
    ensures speed >= 0 ==> v >= 82.5
  {
    (15.0 + speed as real / 20.0) * 5.5
  }

  /** The speed a horse still held at the gate is given: its start speed,
      slowed by 3% per remaining delay tick down to half. */
  function DelayedStartSpeed(speed: int, delay: int): (v: real)
    requires delay > 0
    ensures speed >= 0 ==> 0.5 * InitialCruise(speed) * StartSpeedRatio <= v <= InitialCruise(speed) * StartSpeedRatio
  {
    var base := InitialCruise(speed) * StartSpeedRatio;
    var slow := Clamp(1.0 - delay as real * 0.03, 0.5, 1.0);
    ScaleBetween(base, slow);
    base * slow
  }

  lemma ScaleBetween(b: real, s: real)
    requires 0.5 <= s <= 1.0
    ensures b >= 0.0 ==> 0.5 * b <= b * s <= b
  {
    if b >= 0.0 {
      MulMonotone(b, 0.5, s);
      MulMonotone(b, s, 1.0);
    }
  }

  function TargetLaneBase(s: Style): real {
    match s
    case FrontRunner => 0.20
    case PacePresser => 0.28
    case Closer => 0.50
    case DeepCloser => 0.65
  }

  /** 目標横位置算定: the lane a horse steers for, given its progress and its
      rank rate (0 leading, 1 last). */
  function TargetLateral(s: Style, progress: real, rankRate: real): (y: real)
    ensures LateralMin <= y <= LateralMax
  {
    var late := if progress > 0.7 && s == DeepCloser then 0.08
                else if progress > 0.7 && s == FrontRunner then -0.04
                else 0.0;
    var back := if rankRate > 0.6 then 0.05 else 0.0;
    var front := if rankRate < 0.2 then -0.03 else 0.0;
    Clamp(TargetLaneBase(s) + late + back + front, LateralMin, LateralMax)
  }

  /** A horse further back in the field never steers further inside. */
  lemma TargetLateralMonotoneInRank(s: Style, progress: real, r1: real, r2: real)
    requires r1 <= r2
    ensures TargetLateral(s, progress, r1) <= TargetLateral(s, progress, r2)
  {
    var b := TargetLaneBase(s) + (if progress > 0.7 && s == DeepCloser then 0.08
                                 else if progress > 0.7 && s == FrontRunner then -0.04 else 0.0);
    var x1 := b + (if r1 > 0.6 then 0.05 else 0.0) + (if r1 < 0.2 then -0.03 else 0.0);
    var x2 := b + (if r2 > 0.6 then 0.05 else 0.0) + (if r2 < 0.2 then -0.03 else 0.0);
    assert x1 <= x2;
    ClampMonotone(x1, x2, LateralMin, LateralMax);
  }

  /** The running-style curve: a speed multiplier, the extra load of
      moving early, and whether the horse is in its final spurt. */
  datatype Pace = Pace(mult: real, load: real, spurt: bool)

  /** The progress at which a closer (base 0.60, floor 0.45) or a deep
      closer (base 0.70, floor 0.55) kicks: earlier with less acceleration
      and with more stamina left. */
  function KickPoint(baseKick: real, reach: real, floor: real, accelNorm: real, staminaRemain: real): (k: real)
    requires floor <= baseKick
    ensures floor <= k <= baseKick
  {
    Clamp(baseKick - (1.0 - accelNorm) * reach - (staminaRemain - 0.5) * 0.08, floor, baseKick)
  }

  /** The extra load of kicking `lead` before the base kick point, heavier
      for a horse with less acceleration. */
  function EarlyLoad(lead: real, accelNorm: real): (l: real)
    ensures 0.0 <= lead <= 0.15 && 0.0 <= accelNorm <= 1.0 ==> 0.0 <= l <= 0.15
  {
    if 0.0 <= lead <= 0.15 && 0.0 <= accelNorm <= 1.0 then
      MulBounds(lead, 1.0 - accelNorm, 0.15, 1.0);
      lead * (1.0 - accelNorm)
    else lead * (1.0 - accelNorm)
  }

  /** 脚質速度カーブ補正. The multiplier is clamped to [0.75, 1.20]; front
      runners, pace pressers and misfiring deep closers never spurt and
      carry no early load; a spurt starts no earlier than 45% of the race,
      and an early load only arises during a spurt. */
  function PaceCurve(s: Style, progress: real, failed: bool, accelNorm: real, staminaRemain: real): (r: Pace)
    ensures 0.75 <= r.mult <= 1.20
    ensures (s == FrontRunner || s == PacePresser || (s == DeepCloser && failed)) ==> !r.spurt && r.load == 0.0
    ensures r.spurt ==> progress >= 0.45
    ensures r.load != 0.0 ==> r.spurt
    ensures 0.0 <= accelNorm <= 1.0 ==> 0.0 <= r.load <= 0.15
  {
    var p := Clamp(progress, 0.0, 1.0);
    match s
    case FrontRunner =>
      var m := if p < 0.2 then 1.08 else if p < 0.5 then 1.02 else if p < 0.7 then 0.98
               else 0.92 - (p - 0.7) * 0.20;
      Pace(Clamp(m, 0.75, 1.20), 0.0, false)
    case PacePresser =>
      var m := if p < 0.2 then 1.02 else if p < 0.7 then 1.00 else 0.97 - (p - 0.7) * 0.10;
      Pace(Clamp(m, 0.75, 1.20), 0.0, false)
    case Closer =>
      var kick := KickPoint(0.60, 0.08, 0.45, accelNorm, staminaRemain);
      var m := if p < 0.35 then 0.95 else if p < kick then 1.00 else if p < 0.82 then 1.08 else 1.03;
      var load := if p < 0.60 && p >= kick then EarlyLoad(0.60 - p, accelNorm) else 0.0;
      Pace(Clamp(m, 0.75, 1.20), load, p >= kick)
    case DeepCloser =>
      var kick := KickPoint(0.70, 0.10, 0.55, accelNorm, staminaRemain);
      var m := if failed then (if p < 0.6 then 0.90 else if p < 0.85 then 0.98 else 0.94)
               else (if p < 0.5 then 0.88 else if p < kick then 0.98 else if p < 0.85 then 1.14 else 1.06);
      var load := if !failed && p < 0.70 && p >= kick then EarlyLoad(0.70 - p, accelNorm) else 0.0;
      Pace(Clamp(m, 0.75, 1.20), load, !failed && p >= kick)
  }

  /** スタミナ消耗補正. `pow16` stands for p ↦ p^1.6; the result is clamped
      to [0.70, 1.05] whatever it is. */
  function StaminaCorrection(staminaStat: int, progress: real, load: real, staminaRemain: real,
                             pow16: real -> real): (c: real)
    ensures 0.70 <= c <= 1.05
  {
    var cap := 0.75 + staminaRemain * 0.25;
    Clamp(StaminaBase(staminaStat, progress, load, pow16) * cap, 0.70, 1.05)
  }

  /** The uncapped factor of スタミナ消耗補正: the stamina quality, the
      fatigue p^1.6 of the progress and the cost of moving early. */
  function StaminaBase(staminaStat: int, progress: real, load: real, pow16: real -> real): real {
    var quality := Clamp(staminaStat as real / 100.0, 0.4, 1.2);
    var fatigue := pow16(Clamp(progress, 0.0, 1.0));
    var earlyCost := 1.0 + Clamp(load, 0.0, 0.25);
    1.0 - (1.0 - quality) * fatigue * 0.35 * earlyCost
  }

  /** With p^1.6 in [0, 1] the uncapped factor stays positive: the quality
      term is at most 0.21 and the fatigue term at most 1.25. */
  lemma StaminaBasePositive(staminaStat: int, progress: real, load: real, pow16: real -> real)
    requires 0.0 <= pow16(Clamp(progress, 0.0, 1.0)) <= 1.0
    ensures StaminaBase(staminaStat, progress, load, pow16) > 0.0
  {
    var quality := Clamp(staminaStat as real / 100.0, 0.4, 1.2);
    var fatigue := pow16(Clamp(progress, 0.0, 1.0));
    var earlyCost := 1.0 + Clamp(load, 0.0, 0.25);
    var w := (1.0 - quality) * 0.35;
    var t := fatigue * earlyCost;
    MulBounds(fatigue, earlyCost, 1.0, 1.25);
    MulUpper(w, t, 0.21, 1.25);
    Regroup(1.0 - quality, fatigue, earlyCost);
  }

  /** With p^1.6 kept in [0, 1], more stamina left never lowers the
      correction: the uncapped factor is positive, and the cap grows with
      the stamina left. */
  lemma StaminaCorrectionMonotone(staminaStat: int, progress: real, load: real,
                                  s1: real, s2: real, pow16: real -> real)
    requires s1 <= s2
    requires 0.0 <= pow16(Clamp(progress, 0.0, 1.0)) <= 1.0
    ensures StaminaCorrection(staminaStat, progress, load, s1, pow16)
            <= StaminaCorrection(staminaStat, progress, load, s2, pow16)
  {
    var base := StaminaBase(staminaStat, progress, load, pow16);
    StaminaBasePositive(staminaStat, progress, load, pow16);
    MulMonotone(base, 0.75 + s1 * 0.25, 0.75 + s2 * 0.25);
    ClampMonotone(base * (0.75 + s1 * 0.25), base * (0.75 + s2 * 0.25), 0.70, 1.05);
  }

  lemma Regroup(a: real, f: real, e: real)
    ensures a * f * 0.35 * e == (a * 0.35) * (f * e)
  {
  }

  lemma MulBounds(x: real, y: real, xMax: real, yMax: real)
    requires 0.0 <= x <= xMax && 0.0 <= y <= yMax
    ensures 0.0 <= x * y <= xMax * yMax
  {
    assert x * y <= xMax * y;
    assert xMax * y <= xMax * yMax;
  }

  lemma MulUpper(w: real, t: real, wMax: real, tMax: real)
    requires w <= wMax && 0.0 <= t <= tMax && 0.0 <= wMax
    ensures w * t <= wMax * tMax
  {
    assert w * t <= wMax * t;
    assert wMax * t <= wMax * tMax;
  }


  /** A snapshot of the field taken at the start of a tick: the entrants'
      ids in entry order, each one's distance run (progress clamped to
      [0, 1], times the race distance), each one's lane, and the running
      order (ids sorted by distance run, leader first). */
  datatype Field = Field(ids: seq<HorseId>, dist: map<HorseId, real>, lat: map<HorseId, real>,
                         order: seq<HorseId>)
  {
    ghost predicate Covers() {
      forall id :: id in ids ==> id in dist && id in lat
    }

    ghost predicate WellFormed() {
      && Covers()
      && multiset(order) == multiset(ids)
      && SortedDesc(order, DistKey(dist))
      && (forall i :: 0 <= i < |order| ==> order[i] in dist && order[i] in lat)
    }
  }

  /** The distance-run key the running order sorts by. */
  function DistKey(dist: map<HorseId, real>): HorseId -> real {
    id => if id in dist then dist[id] else 0.0
  }

  /** How far another horse has run beyond `self`. */
  function Ahead(f: Field, self: HorseId, other: HorseId): real
    requires self in f.dist && other in f.dist
  {
    f.dist[other] - f.dist[self]
  }

  /** `other` is a different horse up to 6 m ahead of `self`, in a lane
      closer than `width`. */
  ghost predicate InFront(f: Field, self: HorseId, other: HorseId, width: real)
    requires self in f.dist && self in f.lat && other in f.dist && other in f.lat
  {
    other != self && 0.0 < Ahead(f, self, other) <= BlockDistance && AbsR(f.lat[other] - f.lat[self]) < width
  }

  /** ブロック判定: some horse is within 6 m ahead and less than a body width across. */
  predicate Blocked(f: Field, self: HorseId)
    requires f.Covers() && self in f.dist && self in f.lat
  {
    exists k :: 0 <= k < |f.ids| && f.ids[k] != self
      && 0.0 < Ahead(f, self, f.ids[k]) <= BlockDistance
      && AbsR(f.lat[f.ids[k]] - f.lat[self]) < BodyWidth
  }

  /** The shortest gap to a horse in front within `width` across, among the
      first `n` ids of the field, or None when there is none. */
  function NearestAhead(f: Field, self: HorseId, width: real, n: nat): (r: Option<real>)
    requires f.Covers() && self in f.dist && self in f.lat && n <= |f.ids|
    ensures r.None? <==> forall k :: 0 <= k < n ==> !InFront(f, self, f.ids[k], width)
    ensures r.Some? ==> exists k :: 0 <= k < n && InFront(f, self, f.ids[k], width)
                                   && Ahead(f, self, f.ids[k]) == r.value
    ensures r.Some? ==> forall k :: 0 <= k < n && InFront(f, self, f.ids[k], width)
                                   ==> r.value <= Ahead(f, self, f.ids[k])
    decreases n
  {
    if n == 0 then None
    else
      var rest := NearestAhead(f, self, width, n - 1);
      var other := f.ids[n - 1];
      if other != self && 0.0 < Ahead(f, self, other) <= BlockDistance
         && AbsR(f.lat[other] - f.lat[self]) < width then
        var g := Ahead(f, self, other);
        match rest
        case None => Some(g)
        case Some(m) => Some(if g < m then g else m)
      else rest
  }

  /** 車間補正算定: 0.8 within half a metre of the nearest horse in front
      (within 1.35 body widths across), easing linearly to 1.0 at 3 m, and
      1.0 when nobody is in front within 6 m. */
  function GapCorrection(f: Field, self: HorseId): (c: real)
    requires f.Covers() && self in f.dist && self in f.lat
    ensures 0.8 <= c <= 1.0
    ensures (forall k :: 0 <= k < |f.ids| ==> !InFront(f, self, f.ids[k], BodyWidth * 1.35)) ==> c == 1.0
    ensures c < 1.0 ==> exists k :: 0 <= k < |f.ids| && InFront(f, self, f.ids[k], BodyWidth * 1.35)
                                    && Ahead(f, self, f.ids[k]) < MinGap
  {
    match NearestAhead(f, self, BodyWidth * 1.35, |f.ids|)
    case None => 1.0
    case Some(g) =>
      if g <= 0.5 then 0.80
      else if g < MinGap then Clamp(1.0 - 0.2 * ((MinGap - g) / MinGap), 0.8, 1.0)
      else 1.0
  }

  /** 進路空き判定: no other horse between 2 m behind and 5 m ahead is less
      than a body width from the candidate lane. */
  predicate LaneClear(f: Field, self: HorseId, lane: real, selfDist: real)
    requires f.Covers()
  {
    forall k :: 0 <= k < |f.ids| && f.ids[k] != self
      && -RearCheck <= f.dist[f.ids[k]] - selfDist <= SideCheck
      ==> AbsR(f.lat[f.ids[k]] - lane) >= BodyWidth
  }

  function EvadeInside(y: real): real { Clamp(y - 0.10, LateralMin, LateralMax) }
  function EvadeOutside(y: real): real { Clamp(y + 0.10, LateralMin, LateralMax) }

  /** 回避横位置: a lane 0.10 to either side that is clear, preferring the
      outside one when both are clear and it is further from the inner rail
      than the inside one is from the outer rail; None when neither is clear. */
  function Evasion(f: Field, self: HorseId): (r: Option<real>)
    requires f.Covers() && self in f.dist && self in f.lat
    ensures r.Some? ==> LateralMin <= r.value <= LateralMax
    ensures r.Some? ==> r.value == EvadeInside(f.lat[self]) || r.value == EvadeOutside(f.lat[self])
    ensures r.Some? ==> LaneClear(f, self, r.value, f.dist[self])
    ensures r.None? <==> !LaneClear(f, self, EvadeInside(f.lat[self]), f.dist[self])
                         && !LaneClear(f, self, EvadeOutside(f.lat[self]), f.dist[self])
    ensures LaneClear(f, self, EvadeInside(f.lat[self]), f.dist[self]) != LaneClear(f, self, EvadeOutside(f.lat[self]), f.dist[self])
            ==> r.Some? && LaneClear(f, self, r.value, f.dist[self])
    ensures LaneClear(f, self, EvadeInside(f.lat[self]), f.dist[self]) && LaneClear(f, self, EvadeOutside(f.lat[self]), f.dist[self])
            ==> r.Some? && r.value == (if EvadeOutside(f.lat[self]) - LateralMin > LateralMax - EvadeInside(f.lat[self])
                                       then EvadeOutside(f.lat[self]) else EvadeInside(f.lat[self]))
  {
    var y, d := f.lat[self], f.dist[self];
    var inside, outside := EvadeInside(y), EvadeOutside(y);
    var insideClear := LaneClear(f, self, inside, d);
    var outsideClear := LaneClear(f, self, outside, d);
    if insideClear && outsideClear then
      Some(if outside - LateralMin > LateralMax - inside then outside else inside)
    else if outsideClear then Some(outside)
    else if insideClear then Some(inside)
    else None
  }
}
