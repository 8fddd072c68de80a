/** The population of AI-owned horses (Services/PopulationManagerService.cs):
    its generation from random draws, the selection of a race's entrants, and
    the periodic fatigue recovery. Random draws are parameters here, each with
    the range the random generator gives it. */
module Population {
  import opened Numerics
  import opened Seqs
  import opened Domain

  const PopulationSize: nat := 1000
  const Colors: seq<string> := ["#E74C3C", "#8E44AD", "#3498DB", "#1ABC9C", "#F1C40F", "#E67E22", "#95A5A6", "#34495E"]

  /** The draws one generated horse consumes, in the generator's order; the
      id and the three names come from outside (a fresh GUID, the name
      generator). */
  datatype HorseDraw = HorseDraw(id: HorseId, name: string, sireName: string, damName: string,
                                 classDraw: real, sexDraw: int, colorDraw: int, speedDraw: int,
                                 staminaDraw: int, accelDraw: int, styleDraw: int, ageDraw: int,
                                 conditionDraw: int)
  {
    /** The ranges of NextDouble(), Next(2), Next(8), Next(40, 60),
        Next(40, 100), Next(30, 100), Next(4), Next(2, 8) and Next(80, 100). */
    predicate InRange() {
      && 0.0 <= classDraw < 1.0 && 0 <= sexDraw < 2 && 0 <= colorDraw < |Colors|
      && 40 <= speedDraw < 60 && 40 <= staminaDraw < 100 && 30 <= accelDraw < 100
      && 0 <= styleDraw < 4 && 2 <= ageDraw < 8 && 80 <= conditionDraw < 100
    }
  }

  /** The class a generated horse starts in: half maiden, then 20 % 1-win,
      15 % 2-win, 10 % 3-win and 5 % open. Nobody is generated as a debut
      horse. */
  function TierFromDraw(r: real): (c: ClassTier)
    ensures c != Newcomer
    ensures r < 0.5 <==> c == Maiden
    ensures r >= 0.95 <==> c == Open
  {
    if r < 0.5 then Maiden
    else if r < 0.7 then OneWin
    else if r < 0.85 then TwoWin
    else if r < 0.95 then ThreeWin
    else Open
  }

  /** The speed bonus that goes with the class drawn: ten points per class
      above maiden. */
  function SpeedBonus(r: real): (b: int)
    ensures b == 10 * (TierRank(TierFromDraw(r)) - 1)
  {
    if r < 0.5 then 0
    else if r < 0.7 then 10
    else if r < 0.85 then 20
    else if r < 0.95 then 30
    else 40
  }

  /** A generated horse's speed: the base draw plus the class bonus, clamped
      to [1, 100]. A higher class draw never gives a slower horse. */
  function GeneratedSpeed(speedDraw: int, classDraw: real): (s: int)
    ensures 1 <= s <= 100
    ensures 40 <= speedDraw < 60 ==> s == speedDraw + SpeedBonus(classDraw)
  {
    ClampInt(speedDraw + SpeedBonus(classDraw), 1, 100)
  }

  lemma GeneratedSpeedMonotone(speedDraw: int, r1: real, r2: real)
    requires r1 <= r2
    ensures GeneratedSpeed(speedDraw, r1) <= GeneratedSpeed(speedDraw, r2)
  {
  }

  function SexOf(n: int): (s: Sex)
    requires 0 <= n < 2
    ensures s == Male <==> n == 0
  {
    if n == 0 then Male else Female
  }

  /** The cast of an integer in [0, 4) to a running style. */
  function StyleOf(n: int): (s: Style)
    requires 0 <= n < 4
    ensures n == 0 <==> s == FrontRunner
    ensures n == 3 <==> s == DeepCloser
  {
    if n == 0 then FrontRunner else if n == 1 then PacePresser else if n == 2 then Closer else DeepCloser
  }

  /** `h` is the horse generated from draws `d`: the drawn names, class,
      speed (with its class bonus), sex, coat, style, stamina, acceleration,
      age and condition, and otherwise a default horse (active, gate 0,
      price 1000, no fatigue, never ran, no runs, wins or earnings). */
  ghost predicate GeneratedFrom(h: Horse, d: HorseDraw)
    requires d.InRange()
    reads h
  {
    && h.id == d.id && h.name == d.name && h.sireName == d.sireName && h.damName == d.damName
    && h.tier == TierFromDraw(d.classDraw) && h.speed == GeneratedSpeed(d.speedDraw, d.classDraw)
    && h.sex == SexOf(d.sexDraw) && h.coat == Colors[d.colorDraw] && h.style == StyleOf(d.styleDraw)
    && h.stamina == d.staminaDraw && h.acceleration == d.accelDraw
    && h.age == d.ageDraw && h.condition == d.conditionDraw
    && h.gate == 0 && h.price == DefaultPrice && h.status == Active
    && h.fatigue == 0 && h.lastRun == NeverRan && h.runs == 0 && h.wins == 0 && h.earnings == 0.0
  }

  /** 生成: a new active horse built from one set of draws. */
  method Generate(d: HorseDraw) returns (h: Horse)
    requires d.InRange()
    ensures fresh(h) && GeneratedFrom(h, d)
  {
    h := new Horse(d.id, d.name, SexOf(d.sexDraw), Colors[d.colorDraw],
                   GeneratedSpeed(d.speedDraw, d.classDraw), d.staminaDraw, d.accelDraw,
                   StyleOf(d.styleDraw), 0, d.conditionDraw, d.sireName, d.damName,
                   DefaultPrice, d.ageDraw, Active, TierFromDraw(d.classDraw));
  }

  /** A horse may be drawn for a race of the given class: it is of that
      class, active, less than 80 fatigued, and last ran more than 20 seconds
      ago. */
  predicate Selectable(h: Horse, tier: ClassTier, now: real)
    reads h
  {
    h.tier == tier && h.status == Active && h.fatigue < 80 && now - h.lastRun > 20.0
  }

  /** The three Where clauses, keeping list order. */
  function FilterSelectable(hs: seq<Horse>, tier: ClassTier, now: real): (r: seq<Horse>)
    reads hs
    ensures |r| <= |hs|
    ensures forall i :: 0 <= i < |r| ==> r[i] in hs && Selectable(r[i], tier, now)
    ensures forall h :: h in hs && Selectable(h, tier, now) ==> h in r
    decreases |hs|
  {
    if hs == [] then []
    else
      var init := hs[..|hs| - 1];
      var last := hs[|hs| - 1];
      assert forall h :: h in hs ==> h in init || h == last;
      var r0 := FilterSelectable(init, tier, now);
      if Selectable(last, tier, now) then r0 + [last] else r0
  }

  /** The filter keeps the entries with distinct ids. */
  lemma {:induction false} FilterKeepsDistinct(hs: seq<Horse>, tier: ClassTier, now: real)
    requires Distinct(IdsOf(hs))
    ensures Distinct(IdsOf(FilterSelectable(hs, tier, now)))
    decreases |hs|
  {
    if hs != [] {
      var init := hs[..|hs| - 1];
      var last := hs[|hs| - 1];
      assert Distinct(IdsOf(init)) by {
        forall i, j | 0 <= i < j < |init| ensures init[i].id != init[j].id {
          assert IdsOf(hs)[i] != IdsOf(hs)[j];
        }
      }
      FilterKeepsDistinct(init, tier, now);
      var r0 := FilterSelectable(init, tier, now);
      if Selectable(last, tier, now) {
        var r := r0 + [last];
        forall i, j | 0 <= i < j < |r| ensures r[i].id != r[j].id {
          if j == |r0| {
            var k :| 0 <= k < |init| && init[k] == r0[i];
            assert IdsOf(hs)[k] != IdsOf(hs)[|hs| - 1];
          } else {
            assert IdsOf(r0)[i] != IdsOf(r0)[j];
          }
        }
      }
    }
  }

  /** Sorting by the negated tag, largest first, is sorting by the tag,
      smallest first. */
  function ShuffleKey(keys: nat -> int): nat -> real {
    (k: nat) => -(keys(k) as real)
  }

  /** OrderBy(_ => Next()): the k-th candidate is tagged with the k-th draw
      and the positions are sorted by tag, smallest first, keeping ties in
      order. The result lists each position of the candidate list once. */
  function ShuffledPositions(n: nat, keys: nat -> int): (p: seq<nat>)
    ensures |p| == n && Distinct(p)
    ensures forall i :: 0 <= i < n ==> p[i] < n
    ensures SortedDesc(p, ShuffleKey(keys))
  {
    var p := SortDesc<nat>(Range(n), ShuffleKey(keys));
    DistinctPermutation(Range(n), p);
    PermutationMembers(Range(n), p);
    assert forall i :: 0 <= i < n ==> p[i] < n by {
      forall i | 0 <= i < n ensures p[i] < n {
        assert p[i] in Range(n);
      }
    }
    p
  }

  /** 出走馬選出: the selectable horses, shuffled by the key draws, cut to
      at most `count`. */
  function SelectEntrants(hs: seq<Horse>, tier: ClassTier, count: nat, now: real, keys: nat -> int): (r: seq<Horse>)
    reads hs
  {
    var c := FilterSelectable(hs, tier, now);
    var p := ShuffledPositions(|c|, keys);
    seq(MinNat(count, |c|), i requires 0 <= i < MinNat(count, |c|) => c[p[i]])
  }

  /** What the selection promises: at most `count` horses, each one taken
      from the population and selectable, none twice; and the field is short
      only when fewer horses are selectable. */
  lemma SelectEntrantsSound(hs: seq<Horse>, tier: ClassTier, count: nat, now: real, keys: nat -> int)
    requires Distinct(IdsOf(hs))
    ensures var r := SelectEntrants(hs, tier, count, now, keys);
      && |r| <= count
      && (forall i :: 0 <= i < |r| ==> r[i] in hs && Selectable(r[i], tier, now))
      && Distinct(IdsOf(r))
      && (|r| < count ==> forall h :: h in hs && Selectable(h, tier, now) ==> h in r)
  {
    SelectionDistinct(hs, tier, count, now, keys);
    SelectionFull(hs, tier, count, now, keys);
  }

  lemma SelectionDistinct(hs: seq<Horse>, tier: ClassTier, count: nat, now: real, keys: nat -> int)
    requires Distinct(IdsOf(hs))
    ensures Distinct(IdsOf(SelectEntrants(hs, tier, count, now, keys)))
  {
    var c := FilterSelectable(hs, tier, now);
    var p := ShuffledPositions(|c|, keys);
    var r := SelectEntrants(hs, tier, count, now, keys);
    FilterKeepsDistinct(hs, tier, now);
    forall i, j | 0 <= i < j < |r| ensures r[i].id != r[j].id {
      assert IdsOf(c)[p[i]] != IdsOf(c)[p[j]] by {
        if p[i] < p[j] { } else { assert p[j] < p[i]; }
      }
    }
  }

  lemma SelectionFull(hs: seq<Horse>, tier: ClassTier, count: nat, now: real, keys: nat -> int)
    ensures var r := SelectEntrants(hs, tier, count, now, keys);
      |r| < count ==> forall h :: h in hs && Selectable(h, tier, now) ==> h in r
  {
    var c := FilterSelectable(hs, tier, now);
    var p := ShuffledPositions(|c|, keys);
    var r := SelectEntrants(hs, tier, count, now, keys);
    if |r| < count {
      forall h | h in hs && Selectable(h, tier, now) ensures h in r {
        var k :| 0 <= k < |c| && c[k] == h;
        PermutationMembers(Range(|c|), p);
        assert k in Range(|c|) by { assert Range(|c|)[k] == k; }
        var i :| 0 <= i < |p| && p[i] == k;
        assert r[i] == h;
      }
    }
  }

  /** The recovery rule: a fatigued horse sheds 5 points, never going below
      zero; one with no fatigue is left alone. */
  function Recovered(f: int): (g: int)
    ensures f >= 5 ==> g == f - 5
    ensures 0 < f < 5 ==> g == 0
    ensures f > 0 ==> 0 <= g < f
    ensures f <= 0 ==> g == f
  {
    if f > 0 then MaxI(0, f - 5) else f
  }

  /** 馬個体管理サービス: the list of every AI horse. */
  class PopulationManager {
    var horses: seq<Horse>

    ghost predicate Valid()
      reads this
    {
      Distinct(IdsOf(horses))
    }

    /** The service's constructor: generates the initial 1000 horses. */
    constructor (draws: seq<HorseDraw>)
      requires |draws| == PopulationSize
      requires forall i :: 0 <= i < |draws| ==> draws[i].InRange()
      requires Distinct(DrawIds(draws))
      ensures Valid() && |horses| == PopulationSize
      ensures forall i :: 0 <= i < |horses| ==> fresh(horses[i]) && GeneratedFrom(horses[i], draws[i])
    {
      horses := [];
      new;
      Initialize(draws);
    }

    /** 初期化: clears the list and fills it with one generated horse per
        draw, in draw order. */
    method Initialize(draws: seq<HorseDraw>)
      requires forall i :: 0 <= i < |draws| ==> draws[i].InRange()
      requires Distinct(DrawIds(draws))
      modifies this
      ensures Valid() && |horses| == |draws|
      ensures forall i :: 0 <= i < |horses| ==> fresh(horses[i]) && GeneratedFrom(horses[i], draws[i])
    {
      horses := [];
      var i := 0;
      while i < |draws|
        invariant 0 <= i <= |draws| && |horses| == i
        invariant forall k :: 0 <= k < i ==> fresh(horses[k]) && GeneratedFrom(horses[k], draws[k])
      {
        var h := Generate(draws[i]);
        horses := horses + [h];
        i := i + 1;
      }
      assert IdsOf(horses) == DrawIds(draws);
    }

    /** 全頭疲労回復: every horse's fatigue moves to its recovered value;
        nothing else changes. */
    method RecoverAll()
      requires Valid()
      modifies horses`fatigue
      ensures forall i :: 0 <= i < |horses| ==> horses[i].fatigue == Recovered(old(horses[i].fatigue))
    {
      DistinctIdsDistinctHorses(horses);
      var i := 0;
      while i < |horses|
        invariant 0 <= i <= |horses|
        invariant forall k :: 0 <= k < i ==> horses[k].fatigue == Recovered(old(horses[k].fatigue))
        invariant forall k :: i <= k < |horses| ==> horses[k].fatigue == old(horses[k].fatigue)
      {
        var h := horses[i];
        if h.fatigue > 0 {
          h.fatigue := MaxI(0, h.fatigue - 5);
        }
        i := i + 1;
      }
    }
  }

  function DrawIds(draws: seq<HorseDraw>): (ids: seq<HorseId>)
    ensures |ids| == |draws| && forall i :: 0 <= i < |draws| ==> ids[i] == draws[i].id
  {
    seq(|draws|, i requires 0 <= i < |draws| => draws[i].id)
  }
}
