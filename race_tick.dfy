/** One running tick of a race (the running branch of ゲームループ in
    Services/RaceEngineService.cs): a snapshot of the field, the update of
    each horse still running, and the finish list. The tick is specified
    here as a fold over the entry list; the engine's loop is proved equal to
    it, and the lemmas below state what the fold keeps. */
module RaceTick {
  import opened Numerics
  import opened Seqs
  import opened Domain
  import opened RaceFormulas

  /** The snapshot taken before any horse moves: distance run is progress
      clamped to [0, 1] times the race distance; a missing lane reads 0.5;
      the running order sorts by distance run, leader first. */
  function FieldOf(ids: seq<HorseId>, progress: map<HorseId, real>, lateral: map<HorseId, real>,
                   distance: int): (f: Field)
    requires forall id :: id in ids ==> id in progress
    ensures f.ids == ids && f.WellFormed()
    ensures forall id :: id in ids ==> f.lat[id] == (if id in lateral then lateral[id] else 0.5)
  {
    var dist := map id | id in ids :: Clamp(progress[id], 0.0, 1.0) * distance as real;
    var lat := map id | id in ids :: if id in lateral then lateral[id] else 0.5;
    var f := Field(ids, dist, lat, SortDesc(ids, DistKey(dist)));
    SortedFieldWellFormed(f);
    f
  }

  /** A field whose order is the sorted entry list is well formed. */
  lemma SortedFieldWellFormed(f: Field)
    requires f.Covers() && f.order == SortDesc(f.ids, DistKey(f.dist))
    ensures f.WellFormed()
  {
    PermutationMembers(f.ids, f.order);
  }

  /** The first position of `x` in `s`: a horse's rank in the running order. */
  function IndexOf(s: seq<HorseId>, x: HorseId): (i: nat)
    requires x in s
    ensures i < |s| && s[i] == x
    ensures forall j :: 0 <= j < i ==> s[j] != x
  {
    if s[0] == x then 0 else 1 + IndexOf(s[1..], x)
  }

  /** The rank rate each style aims for (0 leading, 1 last). */
  function RankTarget(s: Style): real {
    match s
    case FrontRunner => 0.1
    case PacePresser => 0.3
    case Closer => 0.65
    case DeepCloser => 0.85
  }

  /** Position-taking: up to 4% faster when behind the style's target
      rank, up to 4% slower when ahead of it. */
  function PositionCorrection(s: Style, rankRate: real): (c: real)
    ensures 0.96 <= c <= 1.04
    ensures rankRate <= RankTarget(s) ==> c >= 1.0
  {
    1.0 + Clamp(RankTarget(s) - rankRate, -0.5, 0.5) * 0.08
  }

  /** Slipstream: up to 3% faster when the horse one place ahead is less
      than 7 m in front. */
  function Slipstream(f: Field, rank: nat): (c: real)
    requires f.WellFormed() && rank < |f.order|
    ensures 1.0 <= c <= 1.03
    ensures rank == 0 ==> c == 1.0
  {
    if rank > 0 then
      var gap := f.dist[f.order[rank - 1]] - f.dist[f.order[rank]];
      if 0.0 < gap < 7.0 then 1.0 + ((7.0 - gap) / 7.0) * 0.03 else 1.0
    else 1.0
  }

  /** Easing off: a leader more than 8 m clear slows by 3%, except in the
      last 15% of the race. */
  function EaseOff(f: Field, rank: nat, progress: real): (c: real)
    requires f.WellFormed() && rank < |f.order|
    ensures c == 0.97 || c == 1.0
    ensures c == 0.97 <==> rank == 0 && |f.order| > 1 && progress < 0.85
                           && f.dist[f.order[0]] - f.dist[f.order[1]] > 8.0
  {
    if rank == 0 && |f.order| > 1 then
      var lead := f.dist[f.order[0]] - f.dist[f.order[1]];
      if lead > 8.0 && progress < 0.85 then 0.97 else 1.0
    else 1.0
  }

  /** The two corners slow every horse by 3%. */
  function CornerFactor(progress: real): (c: real)
    ensures c == 0.97 <==> (0.42 < progress < 0.52) || (0.72 < progress < 0.82)
    ensures c == 0.97 || c == 1.0
  {
    if (progress > 0.42 && progress < 0.52) || (progress > 0.72 && progress < 0.82) then 0.97 else 1.0
  }

  /** Running wide costs up to 5% of the distance. */
  function OutsideLoss(lane: real): (c: real)
    ensures 0.92 <= c <= 1.0
  {
    Clamp(1.0 - ((lane - LateralMin) / (LateralMax - LateralMin)) * 0.05, 0.92, 1.0)
  }

  /** A lane move towards `target` of at most one lateral step, kept on the track. */
  function NextLateral(current: real, target: real): (y: real)
    ensures LateralMin <= y <= LateralMax
    ensures LateralMin <= current <= LateralMax ==> AbsR(y - current) <= LateralStep
  {
    Clamp(current + Clamp(target - current, -LateralStep, LateralStep), LateralMin, LateralMax)
  }

  /** The speed after one tick: towards the target by at most a tenth of
      the acceleration (the cruise acceleration while more than 0.5 m/s
      below cruising speed, the spurt acceleration otherwise, both 1.3 times
      stronger in the first 8%), never negative. */
  function NextSpeed(v: real, cruise: real, target: real, accelNorm: real, progress: real): (w: real)
    requires 0.0 <= accelNorm <= 1.0
    ensures w >= 0.0
    ensures v >= 0.0 ==> -0.78 <= w - v <= 0.78
  {
    var coef := AccelCoefMin + (AccelCoefMax - AccelCoefMin) * accelNorm;
    var boost := if progress < 0.08 then StartBoost else 1.0;
    var cruiseAccel := CruiseAccel * boost;
    var spurtAccel := BaseAccel * coef * boost;
    var accel := if v < cruise - 0.5 then cruiseAccel else spurtAccel;
    assert 0.0 <= accel <= 7.8;
    var maxStep := accel * 0.1;
    MaxR(0.0, v + Clamp(target - v, -maxStep, maxStep))
  }

  /** Stamina spent in one tick: a base cost, plus the spurt cost while
      spurting, scaled down for stronger stayers. */
  function StaminaCost(staminaStat: int, spurt: bool): (c: real)
    ensures 0.0 < c
    ensures spurt ==> c >= (StaminaBaseCost + StaminaSpurtCost) * 0.6
    ensures !spurt ==> c <= StaminaBaseCost * 1.2
  {
    var quality := Clamp(staminaStat as real / 100.0, 0.4, 1.2);
    var scale := Clamp(1.2 - quality * 0.6, 0.6, 1.2);
    (StaminaBaseCost + (if spurt then StaminaSpurtCost else 0.0)) * scale
  }

  /** Progress after moving at `speed` for a tenth of a second, clamped at the line. */
  function AdvanceProgress(progress: real, speed: real, distance: int): (p: real)
    requires distance > 0
    ensures speed >= 0.0 && progress <= 1.0 ==> p >= progress
    ensures progress <= 1.0 ==> p <= 1.0
    ensures p >= 1.0 ==> p == 1.0
  {
    var moved := speed * 0.1;
    var q := progress + moved / distance as real;
    assert speed >= 0.0 ==> moved / distance as real >= 0.0;
    if q >= 1.0 then 1.0 else q
  }

  /** What one tick writes for one horse: a horse still at the gate gets
      its delay counted down and a start speed; a running horse gets a new
      lane, speed, stamina and progress. */
  datatype HorseUpdate =
    | Delayed(delay: int, speed: real)
    | Moved(lateral: real, speed: real, stamina: real, progress: real)

  function StaminaOf(m: SimMaps, id: HorseId): real {
    if id in m.stamina then m.stamina[id] else 1.0
  }

  function SpeedOf(m: SimMaps, id: HorseId): real {
    if id in m.speed then m.speed[id] else 0.0
  }

  /** The update of one horse still short of the line, given the tick's
      snapshot `f`, the current maps `m`, the tick's speed draw `u` in
      [0, 1) and `pow16` for p ↦ p^1.6. */
  function Step(f: Field, h: Horse, m: SimMaps, u: real, distance: int, pow16: real -> real): (r: HorseUpdate)
    requires f.WellFormed() && h.id in f.ids && h.id in m.progress && distance > 0
    requires m.progress[h.id] < 1.0
    ensures r.Delayed? <==> h.id in m.delay && m.delay[h.id] > 0
    ensures r.Delayed? ==> r.delay == m.delay[h.id] - 1
    ensures r.Moved? ==> m.progress[h.id] <= r.progress && r.speed >= 0.0
    ensures r.Moved? ==> r.progress <= 1.0
    ensures r.Moved? && r.progress >= 1.0 ==> r.progress == 1.0
    ensures r.Moved? ==> LateralMin <= r.lateral <= LateralMax
    ensures r.Moved? && LateralMin <= f.lat[h.id] <= LateralMax ==> AbsR(r.lateral - f.lat[h.id]) <= LateralStep
    ensures r.Moved? ==> 0.0 <= r.stamina
    ensures r.Moved? && 0.0 <= StaminaOf(m, h.id) ==> r.stamina < StaminaOf(m, h.id) || r.stamina == 0.0
    ensures r.Moved? && SpeedOf(m, h.id) >= 0.0 ==> -0.78 <= r.speed - SpeedOf(m, h.id) <= 0.78
  {
    var id := h.id;
    if id in m.delay && m.delay[id] > 0 then
      var delay := m.delay[id];
      Delayed(delay - 1, DelayedStartSpeed(h.speed, delay))
    else
      var p := m.progress[id];
      var realSpeed := 15.0 + h.speed as real / 20.0 + (u - 0.5) * 2.0;
      assert id in f.order by { assert id in multiset(f.ids); }
      var rank := IndexOf(f.order, id);
      var rate := rank as real / MaxI(1, |f.ids| - 1) as real;
      var failed := id in m.failedKick && m.failedKick[id];
      var stamina := StaminaOf(m, id);
      var accelNorm := AccelNorm(h.acceleration);
      var pace := PaceCurve(h.style, p, failed, accelNorm, stamina);
      var staminaCorr := StaminaCorrection(h.stamina, p, pace.load, stamina, pow16);
      var current := f.lat[id];
      var target0 := TargetLateral(h.style, p, rate);
      var evasion := if Blocked(f, id) then Evasion(f, id) else None;
      var target := if evasion.Some? then evasion.value else target0;
      var blockCorr := if !Blocked(f, id) then 1.0 else if evasion.Some? then 0.97 else 0.90;
      var lane := NextLateral(current, target);
      var cruise := realSpeed * 5.5
        * PositionCorrection(h.style, rate)
        * staminaCorr
        * Slipstream(f, rank)
        * EaseOff(f, rank, p)
        * CornerFactor(p)
        * blockCorr
        * GapCorrection(f, id)
        * OutsideLoss(lane);
      var speed := NextSpeed(SpeedOf(m, id), cruise, cruise * pace.mult, accelNorm, p);
      var left := MaxR(0.0, stamina - StaminaCost(h.stamina, pace.spurt));
      Moved(lane, speed, left, AdvanceProgress(p, speed, distance))
  }

  /** Writes one horse's update into the maps, and nothing else. */
  function Apply(m: SimMaps, id: HorseId, u: HorseUpdate): (r: SimMaps)
    ensures r.failedKick == m.failedKick
    ensures u.Delayed? ==> r == m.(delay := m.delay[id := u.delay], speed := m.speed[id := u.speed])
    ensures u.Moved? ==> r.delay == m.delay && r.progress == m.progress[id := u.progress]
  {
    match u
    case Delayed(d, v) => m.(delay := m.delay[id := d], speed := m.speed[id := v])
    case Moved(y, v, s, p) =>
      m.(lateral := m.lateral[id := y], speed := m.speed[id := v],
         stamina := m.stamina[id := s], progress := m.progress[id := p])
  }

  /** The maps, the finish list and the all-finished flag part-way through a tick. */
  datatype TickState = TickState(m: SimMaps, finish: seq<HorseId>, allDone: bool)

  /** One horse's turn in the tick: a horse short of the line is
      stepped, clears the all-finished flag, and joins the finish list when
      it reaches the line and is not on it yet; a finished horse is skipped. */
  function Turn(f: Field, h: Horse, draw: real, distance: int, pow16: real -> real, s: TickState): (r: TickState)
    requires f.WellFormed() && h.id in f.ids && h.id in s.m.progress && distance > 0
    ensures r.m.progress.Keys == s.m.progress.Keys
  {
    if s.m.progress[h.id] < 1.0 then
      var m := Apply(s.m, h.id, Step(f, h, s.m, draw, distance, pow16));
      var finish := if m.progress[h.id] >= 1.0 && h.id !in s.finish then s.finish + [h.id] else s.finish;
      TickState(m, finish, false)
    else s
  }

  /** The state after the first `i` horses of the entry list have had their turn. */
  function TickPrefix(f: Field, hs: seq<Horse>, draws: seq<real>, distance: int, pow16: real -> real,
                      s0: TickState, i: nat): (s: TickState)
    requires i <= |hs| && |draws| == |hs| && distance > 0
    requires f.WellFormed() && f.ids == IdsOf(hs)
    requires forall id :: id in f.ids ==> id in s0.m.progress
    ensures s.m.progress.Keys == s0.m.progress.Keys
    decreases i
  {
    if i == 0 then s0
    else
      var s := TickPrefix(f, hs, draws, distance, pow16, s0, i - 1);
      assert hs[i - 1].id == f.ids[i - 1];
      Turn(f, hs[i - 1], draws[i - 1], distance, pow16, s)
  }

  /** `id` has the same entries in `m` as in `m0`. */
  ghost predicate SameAt(m0: SimMaps, m: SimMaps, id: HorseId) {
    && (id in m.progress <==> id in m0.progress) && (id in m.lateral <==> id in m0.lateral)
    && (id in m.speed <==> id in m0.speed) && (id in m.stamina <==> id in m0.stamina)
    && (id in m.delay <==> id in m0.delay) && (id in m.failedKick <==> id in m0.failedKick)
    && (id in m0.progress ==> m.progress[id] == m0.progress[id])
    && (id in m0.lateral ==> m.lateral[id] == m0.lateral[id])
    && (id in m0.speed ==> m.speed[id] == m0.speed[id])
    && (id in m0.stamina ==> m.stamina[id] == m0.stamina[id])
    && (id in m0.delay ==> m.delay[id] == m0.delay[id])
    && (id in m0.failedKick ==> m.failedKick[id] == m0.failedKick[id])
  }

  /** The entries of one horse at the start of a tick, as SimInvariant has them. */
  ghost predicate EntriesValid(m: SimMaps, id: HorseId) {
    && id in m.progress && id in m.lateral && id in m.speed && id in m.stamina
    && id in m.delay && id in m.failedKick
    && 0.0 <= m.progress[id] <= 1.0 && LateralMin <= m.lateral[id] <= LateralMax
    && 0.0 <= m.stamina[id] <= 1.0 && m.delay[id] >= 0
  }

  /** What one tick may do to a horse's entries: progress does not go
      back and stays at most 1, the lane stays on the track and moves at
      most one step, stamina stays in [0, 1] and does not grow, the delay
      stays non-negative and does not grow, the misfire flag is kept. */
  ghost predicate TickRelation(m0: SimMaps, m: SimMaps, id: HorseId) {
    && EntriesValid(m0, id)
    && EntriesValid(m, id)
    && m0.progress[id] <= m.progress[id]
    && AbsR(m.lateral[id] - m0.lateral[id]) <= LateralStep
    && m.stamina[id] <= m0.stamina[id]
    && m.delay[id] <= m0.delay[id]
    && m.failedKick[id] == m0.failedKick[id]
  }

  /** A turn writes only its own horse's entries and finish-list membership. */
  lemma TurnFrame(f: Field, h: Horse, draw: real, distance: int, pow16: real -> real, s: TickState, y: HorseId)
    requires f.WellFormed() && h.id in f.ids && h.id in s.m.progress && distance > 0
    requires y != h.id
    ensures SameAt(s.m, Turn(f, h, draw, distance, pow16, s).m, y)
    ensures y in Turn(f, h, draw, distance, pow16, s).finish <==> y in s.finish
  {
  }

  /** A turn moves its own horse as TickRelation allows, adds it to the
      finish list exactly when it reaches the line, and keeps the list
      free of repeats. */
  lemma TurnOwn(f: Field, h: Horse, draw: real, distance: int, pow16: real -> real, s: TickState, m0: SimMaps)
    requires f.WellFormed() && h.id in f.ids && distance > 0
    requires EntriesValid(m0, h.id) && SameAt(m0, s.m, h.id)
    requires f.lat[h.id] == m0.lateral[h.id]
    requires h.id in s.finish <==> s.m.progress[h.id] == 1.0
    requires Distinct(s.finish)
    ensures var r := Turn(f, h, draw, distance, pow16, s);
            && TickRelation(m0, r.m, h.id)
            && (h.id in r.finish <==> r.m.progress[h.id] == 1.0)
            && Distinct(r.finish) && s.finish <= r.finish
            && (forall y :: y in r.finish ==> y in s.finish || y == h.id)
            && (r.allDone <==> s.allDone && m0.progress[h.id] == 1.0)
  {
    TurnMoves(f, h, draw, distance, pow16, s, m0);
    TurnFinishes(f, h, draw, distance, pow16, s, m0);
  }

  /** The move half of TurnOwn: the horse's entries change as TickRelation
      allows. */
  lemma TurnMoves(f: Field, h: Horse, draw: real, distance: int, pow16: real -> real, s: TickState, m0: SimMaps)
    requires f.WellFormed() && h.id in f.ids && distance > 0
    requires EntriesValid(m0, h.id) && SameAt(m0, s.m, h.id)
    requires f.lat[h.id] == m0.lateral[h.id]
    ensures TickRelation(m0, Turn(f, h, draw, distance, pow16, s).m, h.id)
  {
    var x := h.id;
    var r := Turn(f, h, draw, distance, pow16, s);
    if s.m.progress[x] < 1.0 {
      assert StaminaOf(s.m, x) == m0.stamina[x];
      var u := Step(f, h, s.m, draw, distance, pow16);
      assert r.m == Apply(s.m, x, u);
    }
  }

  /** The finish-list half of TurnOwn. */
  lemma TurnFinishes(f: Field, h: Horse, draw: real, distance: int, pow16: real -> real, s: TickState, m0: SimMaps)
    requires f.WellFormed() && h.id in f.ids && distance > 0
    requires EntriesValid(m0, h.id) && SameAt(m0, s.m, h.id)
    requires h.id in s.finish <==> s.m.progress[h.id] == 1.0
    requires Distinct(s.finish)
    ensures var r := Turn(f, h, draw, distance, pow16, s);
            && (h.id in r.finish <==> r.m.progress[h.id] == 1.0)
            && Distinct(r.finish) && s.finish <= r.finish
            && (forall y :: y in r.finish ==> y in s.finish || y == h.id)
            && (r.allDone <==> s.allDone && m0.progress[h.id] == 1.0)
  {
    var x := h.id;
    var r := Turn(f, h, draw, distance, pow16, s);
    if s.m.progress[x] < 1.0 {
      var u := Step(f, h, s.m, draw, distance, pow16);
      assert r.m == Apply(s.m, x, u);
      assert x !in s.finish;
      if r.m.progress[x] >= 1.0 {
        assert r.finish == s.finish + [x];
        assert Distinct(r.finish) by {
          forall a, b | 0 <= a < b < |r.finish| ensures r.finish[a] != r.finish[b] {
            if b == |s.finish| {
              assert r.finish[a] in s.finish;
            }
          }
        }
      }
    }
  }

  /** The horses after position `i` still have their entries from the
      start of the tick, and those up to it have moved as TickRelation allows. */
  ghost predicate MapsInvariant(ids: seq<HorseId>, m0: SimMaps, m: SimMaps, i: nat) {
    && (forall k :: i <= k < |ids| ==> SameAt(m0, m, ids[k]))
    && (forall k :: 0 <= k < i && k < |ids| ==> TickRelation(m0, m, ids[k]))
  }

  /** The finish list extends the old one, has no repeats, holds only
      entrants, and holds exactly the entrants whose progress is 1. */
  ghost predicate FinishInvariant(ids: seq<HorseId>, finish0: seq<HorseId>, s: TickState) {
    && Distinct(s.finish)
    && finish0 <= s.finish
    && (forall id :: id in s.finish ==> id in ids)
    && (forall k :: 0 <= k < |ids| ==>
          ids[k] in s.m.progress && (ids[k] in s.finish <==> s.m.progress[ids[k]] == 1.0))
  }

  /** The all-finished flag says that every horse so far was already at the line. */
  ghost predicate DoneInvariant(ids: seq<HorseId>, m0: SimMaps, s: TickState, i: nat) {
    s.allDone <==> forall k :: 0 <= k < i && k < |ids| ==> ids[k] in m0.progress && m0.progress[ids[k]] == 1.0
  }

  /** The loop invariant of the tick, `i` horses in. */
  ghost predicate TickInvariant(ids: seq<HorseId>, m0: SimMaps, finish0: seq<HorseId>, s: TickState, i: nat) {
    MapsInvariant(ids, m0, s.m, i) && FinishInvariant(ids, finish0, s) && DoneInvariant(ids, m0, s, i)
  }

  lemma EntriesValidFromInvariant(ids: seq<HorseId>, m0: SimMaps, finish0: seq<HorseId>, id: HorseId)
    requires SimInvariant(ids, m0, finish0) && id in ids
    ensures EntriesValid(m0, id)
  {
  }

  /** The snapshot was taken from `m0`: it covers the entrants and sees
      each one's lane as `m0` has it. */
  ghost predicate SnapshotOf(f: Field, ids: seq<HorseId>, m0: SimMaps) {
    && f.ids == ids && f.WellFormed()
    && forall id :: id in ids ==> id in m0.lateral && f.lat[id] == m0.lateral[id]
  }

  /** The facts about turn `i` that the three parts of the invariant need. */
  lemma TurnFacts(f: Field, hs: seq<Horse>, draws: seq<real>, distance: int,
                  pow16: real -> real, m0: SimMaps, finish0: seq<HorseId>, s: TickState, i: nat)
    requires 0 < i <= |hs| && |draws| == |hs| && distance > 0
    requires Distinct(IdsOf(hs)) && SimInvariant(IdsOf(hs), m0, finish0)
    requires SnapshotOf(f, IdsOf(hs), m0)
    requires TickInvariant(IdsOf(hs), m0, finish0, s, i - 1)
    ensures hs[i - 1].id in f.ids && hs[i - 1].id in s.m.progress
    ensures var r := Turn(f, hs[i - 1], draws[i - 1], distance, pow16, s);
            && TickRelation(m0, r.m, hs[i - 1].id)
            && (hs[i - 1].id in r.finish <==> r.m.progress[hs[i - 1].id] == 1.0)
            && Distinct(r.finish) && s.finish <= r.finish
            && (forall y :: y in r.finish ==> y in s.finish || y == hs[i - 1].id)
            && (r.allDone <==> s.allDone && m0.progress[hs[i - 1].id] == 1.0)
            && (forall k :: 0 <= k < |hs| && k != i - 1 ==>
                  SameAt(s.m, r.m, IdsOf(hs)[k]) && (IdsOf(hs)[k] in r.finish <==> IdsOf(hs)[k] in s.finish))
  {
    var ids := IdsOf(hs);
    var h := hs[i - 1];
    var x := h.id;
    assert x == ids[i - 1];
    assert SameAt(m0, s.m, x);
    EntriesValidFromInvariant(ids, m0, finish0, x);
    assert x in s.m.progress && (x in s.finish <==> s.m.progress[x] == 1.0) by {
      assert ids[i - 1] in s.m.progress;
    }
    TurnOwn(f, h, draws[i - 1], distance, pow16, s, m0);
    forall k | 0 <= k < |ids| && k != i - 1
      ensures SameAt(s.m, Turn(f, h, draws[i - 1], distance, pow16, s).m, ids[k])
      ensures ids[k] in Turn(f, h, draws[i - 1], distance, pow16, s).finish <==> ids[k] in s.finish
    {
      assert ids[k] != x;
      TurnFrame(f, h, draws[i - 1], distance, pow16, s, ids[k]);
    }
  }

  /** One turn keeps the invariant: the horse whose turn it is still has
      its entries from the start of the tick (ids are distinct, and earlier
      turns write only their own horse), and its turn writes only its own
      entries. */
  lemma TurnKeepsInvariant(f: Field, hs: seq<Horse>, draws: seq<real>, distance: int,
                           pow16: real -> real, m0: SimMaps, finish0: seq<HorseId>, s: TickState, i: nat)
    requires 0 < i <= |hs| && |draws| == |hs| && distance > 0
    requires Distinct(IdsOf(hs)) && SimInvariant(IdsOf(hs), m0, finish0)
    requires SnapshotOf(f, IdsOf(hs), m0)
    requires TickInvariant(IdsOf(hs), m0, finish0, s, i - 1)
    ensures hs[i - 1].id in f.ids && hs[i - 1].id in s.m.progress
    ensures TickInvariant(IdsOf(hs), m0, finish0, Turn(f, hs[i - 1], draws[i - 1], distance, pow16, s), i)
  {
    var ids := IdsOf(hs);
    var x := hs[i - 1].id;
    TurnFacts(f, hs, draws, distance, pow16, m0, finish0, s, i);
    var r := Turn(f, hs[i - 1], draws[i - 1], distance, pow16, s);
    assert x == ids[i - 1];
    MapsStep(ids, m0, s.m, r.m, i);
    FinishStep(ids, finish0, s, r, i);
    assert DoneInvariant(ids, m0, r, i);
  }

  lemma MapsStep(ids: seq<HorseId>, m0: SimMaps, m: SimMaps, m': SimMaps, i: nat)
    requires 0 < i <= |ids|
    requires MapsInvariant(ids, m0, m, i - 1)
    requires TickRelation(m0, m', ids[i - 1])
    requires forall k :: 0 <= k < |ids| && k != i - 1 ==> SameAt(m, m', ids[k])
    ensures MapsInvariant(ids, m0, m', i)
  {
    forall k | i <= k < |ids| ensures SameAt(m0, m', ids[k]) {
      assert SameAt(m0, m, ids[k]) && SameAt(m, m', ids[k]);
    }
    forall k | 0 <= k < i - 1 ensures TickRelation(m0, m', ids[k]) {
      assert TickRelation(m0, m, ids[k]) && SameAt(m, m', ids[k]);
    }
  }

  lemma FinishStep(ids: seq<HorseId>, finish0: seq<HorseId>, s: TickState, r: TickState, i: nat)
    requires 0 < i <= |ids|
    requires FinishInvariant(ids, finish0, s)
    requires EntriesValid(r.m, ids[i - 1])
    requires ids[i - 1] in r.finish <==> r.m.progress[ids[i - 1]] == 1.0
    requires Distinct(r.finish) && s.finish <= r.finish
    requires forall y :: y in r.finish ==> y in s.finish || y == ids[i - 1]
    requires forall k :: 0 <= k < |ids| && k != i - 1 ==>
               SameAt(s.m, r.m, ids[k]) && (ids[k] in r.finish <==> ids[k] in s.finish)
    ensures FinishInvariant(ids, finish0, r)
  {
    forall k | 0 <= k < |ids| && k != i - 1
      ensures ids[k] in r.m.progress && (ids[k] in r.finish <==> r.m.progress[ids[k]] == 1.0)
    {
      assert ids[k] in s.m.progress;
    }
  }

  /** The invariant holds after every prefix of the entry list, by
      induction over it. */
  lemma {:induction false} TickPrefixInvariant(f: Field, hs: seq<Horse>, draws: seq<real>, distance: int,
                                               pow16: real -> real, m0: SimMaps, finish0: seq<HorseId>, i: nat)
    requires i <= |hs| && |draws| == |hs| && distance > 0
    requires Distinct(IdsOf(hs)) && SimInvariant(IdsOf(hs), m0, finish0)
    requires SnapshotOf(f, IdsOf(hs), m0)
    ensures TickInvariant(IdsOf(hs), m0, finish0,
                          TickPrefix(f, hs, draws, distance, pow16, TickState(m0, finish0, true), i), i)
    decreases i
  {
    var s0 := TickState(m0, finish0, true);
    if i == 0 {
      assert forall k :: 0 <= k < |hs| ==> SameAt(m0, m0, IdsOf(hs)[k]);
    } else {
      TickPrefixInvariant(f, hs, draws, distance, pow16, m0, finish0, i - 1);
      var s := TickPrefix(f, hs, draws, distance, pow16, s0, i - 1);
      TurnKeepsInvariant(f, hs, draws, distance, pow16, m0, finish0, s, i);
    }
  }

  /** A whole tick keeps the race's simulation invariant, and every entrant
      moves as TickRelation allows; the old finish list stays a prefix of
      the new one; and the all-finished flag is set exactly when every
      entrant had already reached the line. */
  lemma TickSound(f: Field, hs: seq<Horse>, draws: seq<real>, distance: int, pow16: real -> real,
                  m0: SimMaps, finish0: seq<HorseId>)
    requires |draws| == |hs| && distance > 0
    requires Distinct(IdsOf(hs)) && SimInvariant(IdsOf(hs), m0, finish0)
    requires f == FieldOf(IdsOf(hs), m0.progress, m0.lateral, distance)
    ensures var s := TickPrefix(f, hs, draws, distance, pow16, TickState(m0, finish0, true), |hs|);
            && SimInvariant(IdsOf(hs), s.m, s.finish)
            && (forall id :: id in IdsOf(hs) ==> TickRelation(m0, s.m, id))
            && finish0 <= s.finish
            && (s.allDone <==> forall id :: id in IdsOf(hs) ==> m0.progress[id] == 1.0)
  {
    var ids := IdsOf(hs);
    var s := TickPrefix(f, hs, draws, distance, pow16, TickState(m0, finish0, true), |hs|);
    assert SnapshotOf(f, ids, m0);
    TickPrefixInvariant(f, hs, draws, distance, pow16, m0, finish0, |hs|);
    InvariantComplete(ids, m0, finish0, s);
  }

  /** Once every entrant has had its turn, the invariant gives the tick's
      outcome. */
  lemma InvariantComplete(ids: seq<HorseId>, m0: SimMaps, finish0: seq<HorseId>, s: TickState)
    requires SimInvariant(ids, m0, finish0)
    requires TickInvariant(ids, m0, finish0, s, |ids|)
    ensures SimInvariant(ids, s.m, s.finish)
    ensures forall id :: id in ids ==> TickRelation(m0, s.m, id)
    ensures finish0 <= s.finish
    ensures s.allDone <==> forall id :: id in ids ==> m0.progress[id] == 1.0
  {
    forall id | id in ids ensures TickRelation(m0, s.m, id) {
      var k :| 0 <= k < |ids| && ids[k] == id;
    }
    forall id | id in ids ensures id in s.finish <==> s.m.progress[id] == 1.0 {
      var k :| 0 <= k < |ids| && ids[k] == id;
    }
    assert (s.allDone <==> forall id :: id in ids ==> m0.progress[id] == 1.0) by {
      if s.allDone {
        forall id | id in ids ensures m0.progress[id] == 1.0 {
          var k :| 0 <= k < |ids| && ids[k] == id;
        }
      } else {
        var k :| 0 <= k < |ids| && !(ids[k] in m0.progress && m0.progress[ids[k]] == 1.0);
        assert ids[k] in ids;
      }
    }
  }
}
