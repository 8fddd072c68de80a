/** The pari-mutuel odds market (Services/OddsMarketService.cs): win and
    place pools for the current race, seeded from the entrants' strength,
    fed by synthetic and player wagers, priced as the payable pool over each
    horse's stake, frozen once per race when it starts running, and settled
    into a profit-and-loss record when it finishes.

    The four live dictionaries and two totals of the service are grouped in
    one value, a Book; the six per-race snapshot dictionaries, which the
    service always writes together, are one map from race id to Book. */
module OddsMarket {
  import opened Numerics
  import opened Seqs
  import opened Domain

  const TakeRate: real := 0.25
  const MinOdds: real := 1.1
  const MaxOdds: real := 200.0
  const WinShare: real := 0.7
  /** The place slot count assumed for a race the market never seeded. */
  const DefaultSlots: int := 3

  /** The live pools: stake per horse and total, per category, and the
      odds last computed from them. */
  datatype Book = Book(winStakes: map<HorseId, real>, placeStakes: map<HorseId, real>,
                       winOdds: map<HorseId, real>, placeOdds: map<HorseId, real>,
                       winPool: real, placePool: real)

  const EmptyBook: Book := Book(map[], map[], map[], map[], 0.0, 0.0)

  /** 市場規模算定's result: expected bettors, bets per second, average
      stake. */
  datatype Scale = Scale(bettors: int, betsPerSecond: int, avgStake: real)

  /** 複勝枠数算定: three paying places for eight or more runners, two for
      five to seven, otherwise one. */
  function PlaceSlots(runners: int): (n: int)
    ensures 1 <= n <= 3
    ensures n == 3 <==> runners >= 8
    ensures n == 1 <==> runners < 5
  {
    if runners >= 8 then 3 else if runners >= 5 then 2 else 1
  }

  /** 市場規模算定: graded races by grade, the others by class. */
  function MarketScale(grade: Grade, tier: ClassTier): (s: Scale)
    ensures s.bettors >= 200 && s.betsPerSecond >= 3 && s.avgStake >= 300.0
    ensures grade != General ==> s.bettors >= 40000
    ensures grade == General ==> s.bettors <= 20000
  {
    match grade
    case G1 => Scale(100000, 500, 2000.0)
    case G2 => Scale(60000, 300, 1500.0)
    case G3 => Scale(40000, 200, 1200.0)
    case General =>
      match tier
      case Open => Scale(20000, 120, 1000.0)
      case ThreeWin => Scale(10000, 80, 800.0)
      case TwoWin => Scale(5000, 40, 600.0)
      case OneWin => Scale(2000, 20, 400.0)
      case Maiden => Scale(500, 6, 300.0)
      case Newcomer => Scale(200, 3, 300.0)
  }

  /** The initial pool, 20 % of what the expected bettors stake on average,
      split 70/30 into win and place. */
  function WinSeed(s: Scale): (w: real)
    ensures s.bettors > 0 && s.avgStake > 0.0 ==> w > 0.0
  {
    (s.bettors as real) * s.avgStake * 0.2 * WinShare
  }

  function PlaceSeed(s: Scale): (p: real)
    ensures p + WinSeed(s) == (s.bettors as real) * s.avgStake * 0.2
    ensures s.bettors > 0 && s.avgStake > 0.0 ==> p > 0.0
  {
    (s.bettors as real) * s.avgStake * 0.2 - WinSeed(s)
  }

  /** 強さスコア: 0.6 speed + 0.2 stamina + 0.25 condition - 0.25 fatigue,
      at least 1. */
  function Strength(h: Horse): (s: real)
    reads h`fatigue
    ensures s >= 1.0
  {
    MaxR(1.0, (h.speed as real) * 0.6 + (h.stamina as real) * 0.2
              + (h.condition as real) * 0.25 - (h.fatigue as real) * 0.25)
  }

  /** The sum of a list of reals, in list order. */
  function SumR(s: seq<real>): real {
    if s == [] then 0.0 else SumR(s[..|s| - 1]) + s[|s| - 1]
  }

  /** The sum of the first n weights. */
  function Prefix(ws: seq<real>, n: nat): real
    requires n <= |ws|
  {
    SumR(ws[..n])
  }

  lemma SumRAppend(s: seq<real>, x: real)
    ensures SumR(s + [x]) == SumR(s) + x
  {
    assert (s + [x])[..|s|] == s;
  }

  /** A list of weights each at least `lo` sums to at least `lo` per entry. */
  lemma {:induction false} SumRAtLeast(s: seq<real>, lo: real)
    requires forall k :: 0 <= k < |s| ==> s[k] >= lo
    ensures SumR(s) >= lo * (|s| as real)
  {
    if s != [] {
      SumRAtLeast(s[..|s| - 1], lo);
    }
  }

  function Strengths(hs: seq<Horse>): (ws: seq<real>)
    reads hs`fatigue
    ensures |ws| == |hs| && forall k :: 0 <= k < |hs| ==> ws[k] == Strength(hs[k])
  {
    if hs == [] then [] else Strengths(hs[..|hs| - 1]) + [Strength(hs[|hs| - 1])]
  }

  /** 合計重み: the entrants' total strength, replaced by 1 when not
      positive (which only an empty field gives). */
  function WeightTotal(ws: seq<real>): (t: real)
    ensures t > 0.0
    ensures ws != [] && (forall k :: 0 <= k < |ws| ==> ws[k] >= 1.0) ==> t == SumR(ws) && t >= |ws| as real
  {
    var t := SumR(ws);
    if ws != [] && (forall k :: 0 <= k < |ws| ==> ws[k] >= 1.0) then
      SumRAtLeast(ws, 1.0);
      if t <= 0.0 then 1.0 else t
    else
      if t <= 0.0 then 1.0 else t
  }

  /** One horse's seed stake: its share of the category's seed by strength,
      at least 1. */
  function SeedShare(seed: real, weight: real, total: real): (s: real)
    requires total > 0.0
    ensures s >= 1.0
    ensures seed * weight / total >= 1.0 ==> s == seed * weight / total
  {
    MaxR(1.0, seed * weight / total)
  }

  /** A stronger horse never gets a smaller seed stake. */
  lemma SeedShareMonotone(seed: real, w1: real, w2: real, total: real)
    requires total > 0.0 && seed >= 0.0 && w1 <= w2
    ensures SeedShare(seed, w1, total) <= SeedShare(seed, w2, total)
  {
    assert seed * w1 <= seed * w2;
    assert seed * w1 / total <= seed * w2 / total;
  }

  /** The sum of a stake map over a list of ids (Values.Sum() over the
      dictionary, whose keys are the ids in insertion order). */
  function Total(ids: seq<HorseId>, m: map<HorseId, real>): real
    requires forall id :: id in ids ==> id in m
  {
    if ids == [] then 0.0 else Total(ids[..|ids| - 1], m) + m[ids[|ids| - 1]]
  }

  /** Changing the stake of a horse not in the list leaves the sum alone. */
  lemma {:induction false} TotalFrame(ids: seq<HorseId>, m: map<HorseId, real>, id: HorseId, v: real)
    requires forall x :: x in ids ==> x in m
    requires id !in ids
    ensures Total(ids, m[id := v]) == Total(ids, m)
  {
    if ids != [] {
      var init := ids[..|ids| - 1];
      assert forall x :: x in init ==> x in ids;
      TotalFrame(init, m, id, v);
    }
  }

  /** Adding an amount to one horse's stake adds it to the sum: a wager
      keeps pool total = sum of stakes. */
  lemma {:induction false} TotalAdd(ids: seq<HorseId>, m: map<HorseId, real>, id: HorseId, a: real)
    requires forall x :: x in ids ==> x in m
    requires Distinct(ids) && id in ids
    ensures Total(ids, m[id := m[id] + a]) == Total(ids, m) + a
  {
    var n := |ids| - 1;
    var init := ids[..n];
    assert forall x :: x in init ==> x in ids;
    DistinctInit(ids);
    if ids[n] == id {
      TotalFrame(init, m, id, m[id] + a);
    } else {
      assert id in init by {
        var k :| 0 <= k < |ids| && ids[k] == id;
        assert k < n && init[k] == id;
      }
      TotalAdd(init, m, id, a);
    }
  }

  /** A horse's odds from the payable pool and its stake: the pool over the
      stake, 200 when nothing is staked, clamped to [1.1, 200] and rounded
      to one decimal place. */
  function OddsFor(payable: real, stake: real): (o: real)
    ensures MinOdds <= o <= MaxOdds && IsTenth(o)
    ensures stake <= 0.0 ==> o == MaxOdds
  {
    var raw := if stake <= 0.0 then MaxOdds else payable / stake;
    var o := RoundTenth(Clamp(raw, MinOdds, MaxOdds));
    assert stake <= 0.0 ==> o == MaxOdds by {
      if stake <= 0.0 {
        assert 1999.5 <= o * 10.0 <= 2000.5;
        assert (o * 10.0).Floor == 2000;
      }
    }
    o
  }

  /** 単勝オッズ再計算's payable pool: 75 % of the win pool, 1 when that is
      not positive. */
  function WinPayable(pool: real): (p: real)
    ensures p > 0.0
    ensures pool > 0.0 ==> p == pool * (1.0 - TakeRate)
  {
    var p := pool * (1.0 - TakeRate);
    if p <= 0.0 then 1.0 else p
  }

  /** 複勝オッズ再計算's payable pool: 75 % of the place pool shared by the
      paying places (at least one), 1 when that is not positive. */
  function PlacePayable(pool: real, slots: int): (p: real)
    ensures p > 0.0
    ensures pool > 0.0 ==> p == pool * (1.0 - TakeRate) / (MaxI(1, slots) as real)
  {
    var p := pool * (1.0 - TakeRate) / (MaxI(1, slots) as real);
    if p <= 0.0 then 1.0 else p
  }

  function WinOdds(pool: real, stake: real): (o: real)
    ensures MinOdds <= o <= MaxOdds && IsTenth(o)
  {
    OddsFor(WinPayable(pool), stake)
  }

  function PlaceOdds(pool: real, slots: int, stake: real): (o: real)
    ensures MinOdds <= o <= MaxOdds && IsTenth(o)
  {
    OddsFor(PlacePayable(pool, slots), stake)
  }

  /** Dividing by a larger positive number gives a smaller quotient. */
  lemma DivAntitone(p: real, s1: real, s2: real)
    requires p >= 0.0 && 0.0 < s1 <= s2
    ensures p / s2 <= p / s1
  {
    var a, b := p / s1, p / s2;
    assert a * s1 == p && b * s2 == p;
    assert a >= 0.0;
  }

  /** More money on a horse never lengthens its odds. */
  lemma OddsAntitone(payable: real, s1: real, s2: real)
    requires payable > 0.0 && 0.0 < s1 <= s2
    ensures OddsFor(payable, s2) <= OddsFor(payable, s1)
  {
    DivAntitone(payable, s1, s2);
    ClampMonotone(payable / s2, payable / s1, MinOdds, MaxOdds);
    RoundTenthMonotone(Clamp(payable / s2, MinOdds, MaxOdds), Clamp(payable / s1, MinOdds, MaxOdds));
  }

  /** A larger payable pool never shortens the odds. */
  lemma OddsMonotoneInPool(p1: real, p2: real, stake: real)
    requires 0.0 < p1 <= p2
    ensures OddsFor(p1, stake) <= OddsFor(p2, stake)
  {
    if stake > 0.0 {
      assert p1 / stake <= p2 / stake;
      ClampMonotone(p1 / stake, p2 / stake, MinOdds, MaxOdds);
      RoundTenthMonotone(Clamp(p1 / stake, MinOdds, MaxOdds), Clamp(p2 / stake, MinOdds, MaxOdds));
    }
  }

  /** Place odds are never longer than win odds on the same pool and stake,
      and equal them when a single place pays. */
  lemma PlaceOddsAtMostWin(pool: real, slots: int, stake: real)
    ensures PlaceOdds(pool, slots, stake) <= WinOdds(pool, stake)
    ensures slots <= 1 ==> PlaceOdds(pool, slots, stake) == WinOdds(pool, stake)
  {
    var q := pool * (1.0 - TakeRate);
    var k := MaxI(1, slots) as real;
    if q > 0.0 {
      DivAntitone(q, 1.0, k);
      OddsMonotoneInPool(PlacePayable(pool, slots), WinPayable(pool), stake);
    } else {
      assert q / k <= 0.0 by { assert q / k * k == q; }
    }
  }

  /** A quotient is at least k when the dividend is at least k times the
      positive divisor. */
  lemma QuotientAtLeast(p: real, s: real, k: real)
    requires s > 0.0 && p >= k * s
    ensures p / s >= k
  {
    var q := p / s;
    assert q * s == p;
    if q < k {
      MulStrict(s, q, k);
      assert false;
    }
  }

  /** Odds at most half a tenth above the quotient pay a stake at most the
      dividend plus half a tenth of the stake. */
  lemma PayoutBound(payable: real, stake: real, o: real)
    requires stake > 0.0 && o <= payable / stake + 0.05
    ensures stake * o <= payable + stake * 0.05
  {
    var raw := payable / stake;
    MulMonotone(stake, o, raw + 0.05);
    assert stake * (raw + 0.05) == stake * raw + stake * 0.05;
    assert stake * raw == payable;
  }

  /** Outside the minimum-odds clamp, a winning stake is paid at most the
      payable pool plus the rounding of the odds: the house keeps its take. */
  lemma WinPayoutWithinPool(pool: real, stake: real)
    requires stake > 0.0 && pool > 0.0
    requires pool * (1.0 - TakeRate) >= MinOdds * stake
    ensures stake * WinOdds(pool, stake) <= pool * (1.0 - TakeRate) + stake * 0.05
  {
    var payable := pool * (1.0 - TakeRate);
    var raw := payable / stake;
    QuotientAtLeast(payable, stake, MinOdds);
    var c := Clamp(raw, MinOdds, MaxOdds);
    assert c <= raw;
    var o := RoundTenth(c);
    assert WinOdds(pool, stake) == o by {
      assert WinPayable(pool) == payable;
    }
    PayoutBound(payable, stake, o);
  }

  /** The odds a query returns: the race's frozen odds when the race has a
      snapshot holding the horse, otherwise the live odds, otherwise 0. */
  function LockedFirst(snapshots: map<RaceId, Book>, rid: RaceId, live: Book, id: HorseId, place: bool): (o: real)
    ensures rid in snapshots && id in (if place then snapshots[rid].placeOdds else snapshots[rid].winOdds)
            ==> o == (if place then snapshots[rid].placeOdds[id] else snapshots[rid].winOdds[id])
    ensures (rid !in snapshots || id !in (if place then snapshots[rid].placeOdds else snapshots[rid].winOdds))
            ==> o == (var m := if place then live.placeOdds else live.winOdds; if id in m then m[id] else 0.0)
  {
    var frozen := if rid in snapshots then (if place then snapshots[rid].placeOdds else snapshots[rid].winOdds)
                  else map[];
    var m := if place then live.placeOdds else live.winOdds;
    if id in frozen then frozen[id] else if id in m then m[id] else 0.0
  }

  /** Every odds value in the book lies in [1.1, 200]. */
  ghost predicate OddsInRange(b: Book) {
    && (forall id :: id in b.winOdds ==> MinOdds <= b.winOdds[id] <= MaxOdds)
    && (forall id :: id in b.placeOdds ==> MinOdds <= b.placeOdds[id] <= MaxOdds)
  }

  /** A query against books whose odds lie in range answers 0 exactly for an
      unknown horse, and otherwise a value in range. */
  lemma LockedFirstRange(snapshots: map<RaceId, Book>, rid: RaceId, live: Book, id: HorseId, place: bool)
    requires OddsInRange(live) && forall r :: r in snapshots ==> OddsInRange(snapshots[r])
    ensures var o := LockedFirst(snapshots, rid, live, id, place);
      && (o == 0.0 || MinOdds <= o <= MaxOdds)
      && (o == 0.0 <==> id !in (if place then live.placeOdds else live.winOdds)
                        && (rid !in snapshots || id !in (if place then snapshots[rid].placeOdds else snapshots[rid].winOdds)))
  {
  }

  /** A uniform draw scales a non-negative total into [0, total]. */
  lemma ScaledWithin(total: real, u: real)
    requires total >= 0.0 && 0.0 <= u <= 1.0
    ensures 0.0 <= u * total <= total
  {
    MulMonotone(total, u, 1.0);
    MulMonotone(total, 0.0, u);
  }

  /** A draw in [0, 1) scales a positive total into [0, total). */
  lemma ScaledBelow(total: real, u: real)
    requires total > 0.0 && 0.0 <= u < 1.0
    ensures 0.0 <= u * total < total
  {
    MulStrict(total, u, 1.0);
    if u > 0.0 {
      MulStrict(total, 0.0, u);
    }
  }

  /** The point a uniform draw u selects on [lo, hi]. */
  function Lerp(lo: real, hi: real, u: real): (x: real)
    ensures lo <= hi && 0.0 <= u <= 1.0 ==> lo <= x <= hi
  {
    var d := hi - lo;
    var p := u * d;
    if lo <= hi && 0.0 <= u <= 1.0 then ScaledWithin(d, u); assert 0.0 <= p <= d; p + lo
    else p + lo
  }

  /** Rounding to a whole number of hundreds moves an amount by at most 50. */
  lemma HundredsNear(amount: real, n: int)
    requires (n as real) - 0.5 <= amount / 100.0 <= (n as real) + 0.5
    ensures amount - 50.0 <= n as real * 100.0 <= amount + 50.0
  {
  }

  /** ランダム賭け額: a stake drawn uniformly between max(100, 0.4 avg) and
      2.5 avg, rounded to a multiple of 100 (ties to even). */
  function RandomStake(avg: real, u: real): (a: real)
    ensures (a / 100.0).Floor as real * 100.0 == a
    ensures 0.0 <= u <= 1.0 && avg >= 40.0 ==> 100.0 <= a && MaxR(100.0, avg * 0.4) - 50.0 <= a <= avg * 2.5 + 50.0
  {
    var lo := MaxR(100.0, avg * 0.4);
    var hi := avg * 2.5;
    var amount := Lerp(lo, hi, u);
    var n := RoundHalfEven(amount / 100.0);
    HundredsNear(amount, n);
    assert (n as real * 100.0) / 100.0 == n as real;
    if 0.0 <= u <= 1.0 && avg >= 40.0 then
      assert lo <= amount <= hi;
      assert amount / 100.0 >= 1.0;
      assert n >= 1;
      n as real * 100.0
    else
      n as real * 100.0
  }

  /** 毎秒更新's bet count: Next(min, max + 1) for min = max(1, avg / 2)
      and max = avg + avg / 2, from a uniform draw in [0, 1). */
  function BetCount(perSecond: int, u: real): (n: int)
    requires perSecond > 0 && 0.0 <= u < 1.0
    ensures MaxI(1, perSecond / 2) <= n <= perSecond + perSecond / 2
  {
    NextInt(MaxI(1, perSecond / 2), perSecond + perSecond / 2 + 1, u)
  }

  /** The most bets one tick can draw: the top of BetCount's range. */
  function MaxBets(perSecond: int): int {
    perSecond + perSecond / 2
  }

  /** Random.Next(lo, hi) from a uniform draw u in [0, 1): lo plus the
      whole part of u times the width. */
  function NextInt(lo: int, hi: int, u: real): (n: int)
    requires lo < hi && 0.0 <= u < 1.0
    ensures lo <= n < hi
  {
    var width := (hi - lo) as real;
    var p := u * width;
    ScaledBelow(width, u);
    lo + p.Floor
  }

  /** The draws one synthetic bet consumes: one noise value per entrant,
      the pick, the amount, and the category (win below 0.7). */
  datatype BetDraw = BetDraw(noise: seq<real>, pick: real, amount: real, kind: real)
  {
    predicate InRange(runners: nat) {
      && |noise| == runners && (forall k :: 0 <= k < |noise| ==> 0.0 <= noise[k] < 1.0)
      && 0.0 <= pick < 1.0 && 0.0 <= amount < 1.0 && 0.0 <= kind < 1.0
    }
  }

  /** ランダムに馬を選ぶ's weights: each entrant's strength plus up to 20
      of noise. */
  function Weights(ss: seq<real>, noise: seq<real>): (ws: seq<real>)
    requires |noise| == |ss|
    ensures |ws| == |ss| && forall k :: 0 <= k < |ss| ==> ws[k] == ss[k] + noise[k] * 20.0
    ensures (forall k :: 0 <= k < |ss| ==> ss[k] >= 1.0) && (forall k :: 0 <= k < |noise| ==> noise[k] >= 0.0)
            ==> forall k :: 0 <= k < |ws| ==> ws[k] >= 1.0
  {
    seq(|ss|, k requires 0 <= k < |ss| => ss[k] + noise[k] * 20.0)
  }

  /** The cumulative draw from entry i on: the first entry whose running
      sum of weights reaches the target, or the last entry when none does. */
  function PickFrom(ws: seq<real>, target: real, i: nat): (k: nat)
    requires i < |ws|
    ensures i <= k < |ws|
    decreases |ws| - i
  {
    if i == |ws| - 1 || target <= Prefix(ws, i + 1) then i else PickFrom(ws, target, i + 1)
  }

  /** Every running sum up to entry i falls short of the target, and entry
      i's own running sum reaches a target within the total. */
  ghost predicate Reaches(ws: seq<real>, target: real, i: nat)
    requires i < |ws|
  {
    && (forall j :: 1 <= j <= i ==> Prefix(ws, j) < target)
    && (target <= SumR(ws) ==> target <= Prefix(ws, i + 1))
  }

  /** Every running sum before the entry the draw picks falls short of the
      target, and the pick's own running sum reaches a target within the
      total. */
  lemma {:induction false} PickFromReaches(ws: seq<real>, target: real, i: nat)
    requires i < |ws|
    requires forall j :: 1 <= j <= i ==> Prefix(ws, j) < target
    ensures Reaches(ws, target, PickFrom(ws, target, i))
    decreases |ws| - i
  {
    if i == |ws| - 1 {
      assert ws[..|ws|] == ws;
    } else if !(target <= Prefix(ws, i + 1)) {
      PickFromReaches(ws, target, i + 1);
    }
  }

  /** The cumulative draw: the first index whose running sum of weights
      reaches the target, or the last index when none does. */
  method PickIndex(ws: seq<real>, target: real) returns (i: nat)
    requires ws != []
    ensures i < |ws|
    ensures forall j :: 1 <= j <= i ==> Prefix(ws, j) < target
    ensures target <= SumR(ws) ==> target <= Prefix(ws, i + 1)
    ensures i < |ws| - 1 ==> target <= Prefix(ws, i + 1)
    ensures i == PickFrom(ws, target, 0)
  {
    var acc := 0.0;
    i := 0;
    while i < |ws|
      invariant 0 <= i <= |ws|
      invariant acc == Prefix(ws, i)
      invariant forall j :: 1 <= j <= i ==> Prefix(ws, j) < target
      invariant i < |ws| ==> PickFrom(ws, target, 0) == PickFrom(ws, target, i)
      invariant i == |ws| ==> PickFrom(ws, target, 0) == |ws| - 1
    {
      assert ws[..i + 1] == ws[..i] + [ws[i]];
      SumRAppend(ws[..i], ws[i]);
      acc := acc + ws[i];
      if target <= acc {
        return;
      }
      i := i + 1;
    }
    assert ws[..|ws|] == ws;
    i := |ws| - 1;
  }

  /** The slice of [0, total) that belongs to entry i of the weights. */
  ghost predicate InSlice(ws: seq<real>, target: real, i: nat)
    requires i < |ws|
  {
    Prefix(ws, i) <= target <= Prefix(ws, i + 1)
  }

  /** With a target in [0, total], the cumulative draw lands on the entry
      whose slice holds the target: the fallback to the last entry never
      applies. */
  lemma PickLandsInSlice(ws: seq<real>, target: real, i: nat)
    requires ws != [] && i < |ws|
    requires Reaches(ws, target, i)
    requires 0.0 <= target <= SumR(ws)
    ensures InSlice(ws, target, i)
  {
    if i == 0 {
      assert ws[..0] == [];
    }
  }

  /** For any target in [0, total], the scan from the first entry stops on
      the entry whose slice holds the target. */
  lemma ScanLandsInSlice(ws: seq<real>, target: real)
    requires ws != [] && 0.0 <= target <= SumR(ws)
    ensures InSlice(ws, target, PickFrom(ws, target, 0))
  {
    PickFromReaches(ws, target, 0);
    PickLandsInSlice(ws, target, PickFrom(ws, target, 0));
  }

  /** A uniform draw scales the total of weights of at least 1 into
      [0, total], so the scan for it lands in its slice. */
  lemma DrawLandsInSlice(ws: seq<real>, u: real)
    requires ws != [] && forall k :: 0 <= k < |ws| ==> ws[k] >= 1.0
    requires 0.0 <= u < 1.0
    ensures InSlice(ws, u * SumR(ws), PickFrom(ws, u * SumR(ws), 0))
  {
    SumRAtLeast(ws, 1.0);
    ScaledWithin(SumR(ws), u);
    ScanLandsInSlice(ws, u * SumR(ws));
  }

  /** Entry i's slice holds u times the total of the weights. */
  ghost predicate PickedAt(ws: seq<real>, u: real, i: nat)
    requires i < |ws|
  {
    InSlice(ws, u * SumR(ws), i)
  }

  /** The entry the cumulative draw picks for u times the total. */
  function PickedIndex(ws: seq<real>, u: real): (i: nat)
    requires ws != []
    ensures i < |ws|
  {
    PickFrom(ws, u * SumR(ws), 0)
  }

  /** Over weights of at least 1 and with a uniform u, the pick's slice of
      the total holds u times the total. */
  lemma PickedIndexInSlice(ws: seq<real>, u: real)
    requires ws != [] && forall k :: 0 <= k < |ws| ==> ws[k] >= 1.0
    requires 0.0 <= u < 1.0
    ensures PickedAt(ws, u, PickedIndex(ws, u))
  {
    DrawLandsInSlice(ws, u);
  }

  /** The cumulative draw over positive weights with a uniform u: the index
      whose slice of the total holds u times the total. */
  method PickWeighted(ws: seq<real>, u: real) returns (i: nat)
    requires ws != [] && forall k :: 0 <= k < |ws| ==> ws[k] >= 1.0
    requires 0.0 <= u < 1.0
    ensures i < |ws| && PickedAt(ws, u, i)
    ensures i == PickedIndex(ws, u)
  {
    i := PickIndex(ws, u * SumR(ws));
    PickedIndexInSlice(ws, u);
  }

  /** ランダムに馬を選ぶ as a function of the draws: none for an empty
      field, otherwise the horse at the picked entry of the noisy
      strengths. */
  function PickedHorse(ids: seq<HorseId>, ss: seq<real>, noise: seq<real>, u: real): (id: Option<HorseId>)
    requires |ss| == |ids| && |noise| == |ids|
    ensures id.None? <==> ids == []
    ensures id.Some? ==> id.value in ids
  {
    if ids == [] then None else Some(ids[PickedIndex(Weights(ss, noise), u)])
  }

  /** ランダムに馬を選ぶ over the entrants' ids and strengths (強さスコア,
      at least 1 each): none for an empty field, otherwise the horse whose
      slice of the noisy strengths' total holds the uniform draw. */
  method PickHorse(ids: seq<HorseId>, ss: seq<real>, noise: seq<real>, u: real) returns (id: Option<HorseId>, ghost at: nat)
    requires |ss| == |ids| && forall k :: 0 <= k < |ss| ==> ss[k] >= 1.0
    requires |noise| == |ids| && (forall k :: 0 <= k < |noise| ==> 0.0 <= noise[k] < 1.0)
    requires 0.0 <= u < 1.0
    ensures id.None? <==> ids == []
    ensures id.Some? ==> at < |ids| && ids[at] == id.value && PickedAt(Weights(ss, noise), u, at)
    ensures id == PickedHorse(ids, ss, noise, u)
  {
    if ids == [] {
      return None, 0;
    }
    var i := PickWeighted(Weights(ss, noise), u);
    id, at := Some(ids[i]), i;
  }

  // ---------------------------------------------------------------------
  // The book invariant and the value-level steps of the market.

  /** A dictionary keyed by exactly the given horses. */
  ghost predicate KeyedBy(ids: seq<HorseId>, m: map<HorseId, real>) {
    forall id :: id in m <==> id in ids
  }

  /** Every odds entry is the odds of its horse's stake on the payable pool. */
  ghost predicate PricedBy(odds: map<HorseId, real>, stakes: map<HorseId, real>, payable: real) {
    forall id :: id in odds ==> id in stakes && odds[id] == OddsFor(payable, stakes[id])
  }

  /** The pools of a book match their stakes over the given horses. */
  ghost predicate Balanced(ids: seq<HorseId>, b: Book) {
    && KeyedBy(ids, b.winStakes) && KeyedBy(ids, b.placeStakes)
    && KeyedBy(ids, b.winOdds) && KeyedBy(ids, b.placeOdds)
    && b.winPool == Total(ids, b.winStakes) && b.placePool == Total(ids, b.placeStakes)
  }

  /** A live book for the horses `ids`: all four dictionaries keyed by them,
      each pool the sum of its stakes, and the odds priced from the pools
      (the place pool shared by `slots` paying places). */
  ghost predicate Sound(ids: seq<HorseId>, b: Book, slots: int) {
    && Balanced(ids, b)
    && PricedBy(b.winOdds, b.winStakes, WinPayable(b.winPool))
    && PricedBy(b.placeOdds, b.placeStakes, PlacePayable(b.placePool, slots))
  }

  /** Stakes that are never negative. */
  ghost predicate NonNegative(b: Book) {
    && (forall id :: id in b.winStakes ==> b.winStakes[id] >= 0.0)
    && (forall id :: id in b.placeStakes ==> b.placeStakes[id] >= 0.0)
  }

  /** A sound book quotes odds in [1.1, 200] only. */
  lemma SoundInRange(ids: seq<HorseId>, b: Book, slots: int)
    requires Sound(ids, b, slots)
    ensures OddsInRange(b)
  {
    forall id | id in b.winOdds ensures MinOdds <= b.winOdds[id] <= MaxOdds {
      assert b.winOdds[id] == OddsFor(WinPayable(b.winPool), b.winStakes[id]);
    }
    forall id | id in b.placeOdds ensures MinOdds <= b.placeOdds[id] <= MaxOdds {
      assert b.placeOdds[id] == OddsFor(PlacePayable(b.placePool, slots), b.placeStakes[id]);
    }
  }

  /** 単勝オッズ再計算 / 複勝オッズ再計算's loop: walks the dictionary's keys
      and overwrites each horse's odds from its stake. */
  method PriceAll(ids: seq<HorseId>, stakes: map<HorseId, real>, odds: map<HorseId, real>, payable: real)
    returns (priced: map<HorseId, real>)
    requires KeyedBy(ids, stakes) && KeyedBy(ids, odds)
    ensures KeyedBy(ids, priced) && PricedBy(priced, stakes, payable)
  {
    priced := odds;
    var i := 0;
    while i < |ids|
      invariant 0 <= i <= |ids|
      invariant KeyedBy(ids, priced)
      invariant forall k :: 0 <= k < i ==> priced[ids[k]] == OddsFor(payable, stakes[ids[k]])
    {
      priced := priced[ids[i] := OddsFor(payable, stakes[ids[i]])];
      i := i + 1;
    }
    forall id | id in priced ensures id in stakes && priced[id] == OddsFor(payable, stakes[id]) {
      var k :| 0 <= k < |ids| && ids[k] == id;
    }
  }

  /** オッズ再計算: reprices both categories from the current pools. */
  method Reprice(ids: seq<HorseId>, b: Book, slots: int) returns (r: Book)
    requires Balanced(ids, b)
    ensures Sound(ids, r, slots)
    ensures r.winStakes == b.winStakes && r.placeStakes == b.placeStakes
    ensures r.winPool == b.winPool && r.placePool == b.placePool
  {
    var w := PriceAll(ids, b.winStakes, b.winOdds, WinPayable(b.winPool));
    var p := PriceAll(ids, b.placeStakes, b.placeOdds, PlacePayable(b.placePool, slots));
    r := b.(winOdds := w, placeOdds := p);
  }

  /** A dictionary from each horse to 0 (ToDictionary(h => h.Id, _ => 0)). */
  function Zeros(ids: seq<HorseId>): (m: map<HorseId, real>)
    ensures KeyedBy(ids, m) && forall id :: id in m ==> m[id] == 0.0
  {
    map id | id in ids :: 0.0
  }

  /** The stakes 初期化's seeding loop leaves: each entrant's share of the
      seed by its strength `ws[k]`, entered in entrant order. */
  ghost function SeedMap(ids: seq<HorseId>, ws: seq<real>, seed: real, total: real): map<HorseId, real>
    requires |ids| == |ws| && total > 0.0
    decreases |ids|
  {
    if ids == [] then map[]
    else SeedMap(ids[..|ids| - 1], ws[..|ws| - 1], seed, total)[ids[|ids| - 1] := SeedShare(seed, ws[|ws| - 1], total)]
  }

  /** The seed dictionary has exactly the entrants as keys. */
  lemma {:induction false} SeedMapKeys(ids: seq<HorseId>, ws: seq<real>, seed: real, total: real)
    requires |ids| == |ws| && total > 0.0
    ensures KeyedBy(ids, SeedMap(ids, ws, seed, total))
    decreases |ids|
  {
    if ids != [] {
      var n := |ids| - 1;
      SeedMapKeys(ids[..n], ws[..n], seed, total);
      assert ids == ids[..n] + [ids[n]];
    }
  }

  /** With distinct entrants, each one's seed stake is its own share. */
  lemma {:induction false} SeedMapAt(ids: seq<HorseId>, ws: seq<real>, seed: real, total: real, k: nat)
    requires |ids| == |ws| && total > 0.0 && Distinct(ids) && k < |ids|
    ensures ids[k] in SeedMap(ids, ws, seed, total)
    ensures SeedMap(ids, ws, seed, total)[ids[k]] == SeedShare(seed, ws[k], total)
    decreases |ids|
  {
    var n := |ids| - 1;
    if k < n {
      DistinctInit(ids);
      SeedMapAt(ids[..n], ws[..n], seed, total, k);
      assert ids[..n][k] == ids[k];
      assert ids[k] != ids[n];
    }
  }

  /** 初期化's seeding loop: each entrant's stake goes from 0 to its share of
      the seed by strength (at least 1). */
  method SeedStakes(ids: seq<HorseId>, ws: seq<real>, seed: real) returns (m: map<HorseId, real>)
    requires |ids| == |ws| && Distinct(ids)
    ensures KeyedBy(ids, m)
    ensures m == SeedMap(ids, ws, seed, WeightTotal(ws))
  {
    var total := WeightTotal(ws);
    m := Zeros(ids);
    var i := 0;
    // Each entry still holds its 0 when the loop reaches it (the ids are
    // distinct), so adding the share is setting it.
    while i < |ids|
      invariant 0 <= i <= |ids|
      invariant KeyedBy(ids, m)
      invariant forall k :: 0 <= k < i ==> m[ids[k]] == SeedShare(seed, ws[k], total)
    {
      m := m[ids[i] := SeedShare(seed, ws[i], total)];
      i := i + 1;
    }
    SeedMapKeys(ids, ws, seed, total);
    forall id | id in m ensures m[id] == SeedMap(ids, ws, seed, total)[id] {
      var k :| 0 <= k < |ids| && ids[k] == id;
      SeedMapAt(ids, ws, seed, total, k);
    }
  }

  /** The place slot count recorded for a race, 3 when none was. */
  function SlotsFor(slots: map<RaceId, int>, rid: RaceId): (n: int)
    ensures rid in slots ==> n == slots[rid]
    ensures rid !in slots ==> n == DefaultSlots
  {
    if rid in slots then slots[rid] else DefaultSlots
  }

  /** A player's or a synthetic wager: the amount goes onto the horse's
      stake and its pool in the chosen category. */
  function Stake(b: Book, id: HorseId, amount: real, place: bool): (r: Book)
    requires id in b.winStakes && id in b.placeStakes
    ensures r.winOdds == b.winOdds && r.placeOdds == b.placeOdds
    ensures place ==> r.winStakes == b.winStakes && r.winPool == b.winPool
                      && r.placeStakes == b.placeStakes[id := b.placeStakes[id] + amount]
                      && r.placePool == b.placePool + amount
    ensures !place ==> r.placeStakes == b.placeStakes && r.placePool == b.placePool
                       && r.winStakes == b.winStakes[id := b.winStakes[id] + amount]
                       && r.winPool == b.winPool + amount
  {
    if place then
      b.(placeStakes := b.placeStakes[id := b.placeStakes[id] + amount], placePool := b.placePool + amount)
    else
      b.(winStakes := b.winStakes[id := b.winStakes[id] + amount], winPool := b.winPool + amount)
  }

  /** A wager on a listed horse keeps the pools equal to the sums of the
      stakes. */
  lemma StakeKeepsTotals(ids: seq<HorseId>, b: Book, id: HorseId, amount: real, place: bool)
    requires Distinct(ids) && id in ids
    requires KeyedBy(ids, b.winStakes) && KeyedBy(ids, b.placeStakes)
    requires b.winPool == Total(ids, b.winStakes) && b.placePool == Total(ids, b.placeStakes)
    ensures var r := Stake(b, id, amount, place);
      && KeyedBy(ids, r.winStakes) && KeyedBy(ids, r.placeStakes)
      && r.winPool == Total(ids, r.winStakes) && r.placePool == Total(ids, r.placeStakes)
  {
    if place {
      TotalAdd(ids, b.placeStakes, id, amount);
    } else {
      TotalAdd(ids, b.winStakes, id, amount);
    }
  }

  /** The stakes 初期化 seeds: each entrant's share of the win and place
      seeds by its strength `ws[k]`. */
  ghost predicate Seeded(ids: seq<HorseId>, ws: seq<real>, b: Book, s: Scale)
    requires |ids| == |ws|
  {
    && b.winStakes == SeedMap(ids, ws, WinSeed(s), WeightTotal(ws))
    && b.placeStakes == SeedMap(ids, ws, PlaceSeed(s), WeightTotal(ws))
  }

  /** On a freshly seeded book the stronger of two entrants never has the
      longer win odds: the market opens with the favourite at the front. */
  lemma SeededFavouriteShorter(ids: seq<HorseId>, ws: seq<real>, b: Book, s: Scale, slots: int, i: nat, j: nat)
    requires |ids| == |ws| && i < |ids| && j < |ids| && Distinct(ids)
    requires Sound(ids, b, slots) && Seeded(ids, ws, b, s)
    requires WinSeed(s) >= 0.0 && ws[i] <= ws[j]
    ensures b.winOdds[ids[j]] <= b.winOdds[ids[i]]
  {
    SeedMapAt(ids, ws, WinSeed(s), WeightTotal(ws), i);
    SeedMapAt(ids, ws, WinSeed(s), WeightTotal(ws), j);
    SeedShareMonotone(WinSeed(s), ws[i], ws[j], WeightTotal(ws));
    OddsAntitone(WinPayable(b.winPool), b.winStakes[ids[i]], b.winStakes[ids[j]]);
  }

  /** 初期化's book: seeded by strength and priced, the place pool shared by
      the race's slot count. */
  method SeedBook(ids: seq<HorseId>, ws: seq<real>, s: Scale, slots: int) returns (b: Book)
    requires |ids| == |ws| && Distinct(ids)
    ensures Sound(ids, b, slots) && Seeded(ids, ws, b, s)
  {
    var w := SeedStakes(ids, ws, WinSeed(s));
    var p := SeedStakes(ids, ws, PlaceSeed(s));
    b := Reprice(ids, Book(w, p, Zeros(ids), Zeros(ids), Total(ids, w), Total(ids, p)), slots);
  }

  /** Every stake and pool of `b` is at most its counterpart in `c`. */
  ghost predicate Grown(b: Book, c: Book) {
    && (forall id :: id in b.winStakes ==> id in c.winStakes && b.winStakes[id] <= c.winStakes[id])
    && (forall id :: id in b.placeStakes ==> id in c.placeStakes && b.placeStakes[id] <= c.placeStakes[id])
    && b.winPool <= c.winPool && b.placePool <= c.placePool
  }

  /** A book whose two stake dictionaries are keyed by exactly `ids`. */
  ghost predicate StakesKeyed(ids: seq<HorseId>, b: Book) {
    KeyedBy(ids, b.winStakes) && KeyedBy(ids, b.placeStakes)
  }

  /** One synthetic bet as a function of the book and its draws, over the
      entrants' ids and strengths: nothing for an empty field, otherwise a
      random stake on the picked horse, on win when the category draw is
      below 0.7 and on place otherwise. The odds are left alone. */
  function BetStep(ids: seq<HorseId>, ss: seq<real>, c: Book, avg: real, d: BetDraw): (e: Book)
    requires StakesKeyed(ids, c) && |ss| == |ids| && d.InRange(|ids|)
    ensures StakesKeyed(ids, e)
    ensures e.winOdds == c.winOdds && e.placeOdds == c.placeOdds
    ensures ids == [] ==> e == c
    ensures ids != [] ==> e.winPool + e.placePool == c.winPool + c.placePool + RandomStake(avg, d.amount)
  {
    match PickedHorse(ids, ss, d.noise, d.pick)
    case None => c
    case Some(id) => Stake(c, id, RandomStake(avg, d.amount), !(d.kind < WinShare))
  }

  /** A synthetic bet keeps a balanced book balanced and only grows it. */
  lemma BetStepKeepsBook(ids: seq<HorseId>, ss: seq<real>, c: Book, avg: real, d: BetDraw)
    requires Distinct(ids) && Balanced(ids, c) && |ss| == |ids| && avg >= 40.0 && d.InRange(|ids|)
    ensures Balanced(ids, BetStep(ids, ss, c, avg, d)) && Grown(c, BetStep(ids, ss, c, avg, d))
  {
    var pick := PickedHorse(ids, ss, d.noise, d.pick);
    if pick.Some? {
      StakeKeepsTotals(ids, c, pick.value, RandomStake(avg, d.amount), !(d.kind < WinShare));
    }
  }

  /** `e` is `c` with the drawn stake put on the entrant whose slice of the
      noisy strengths' total holds the pick draw, on win when the category
      draw is below 0.7 and on place otherwise. */
  ghost predicate StakedOnPick(ids: seq<HorseId>, ss: seq<real>, c: Book, avg: real, d: BetDraw, e: Book)
    requires |ss| == |ids| && |d.noise| == |ids|
  {
    exists at :: 0 <= at < |ids| && PickedAt(Weights(ss, d.noise), d.pick, at)
                 && ids[at] in c.winStakes && ids[at] in c.placeStakes
                 && e == Stake(c, ids[at], RandomStake(avg, d.amount), !(d.kind < WinShare))
  }

  /** With strengths of at least 1, the bet goes on the horse whose slice
      of the noisy strengths' total holds the pick draw. */
  lemma BetStepInSlice(ids: seq<HorseId>, ss: seq<real>, c: Book, avg: real, d: BetDraw)
    requires StakesKeyed(ids, c) && |ss| == |ids| && d.InRange(|ids|)
    requires ids != [] && forall k :: 0 <= k < |ss| ==> ss[k] >= 1.0
    ensures StakedOnPick(ids, ss, c, avg, d, BetStep(ids, ss, c, avg, d))
  {
    PickedIndexInSlice(Weights(ss, d.noise), d.pick);
  }

  /** The stakes the draws name, whatever the field. */
  function StakesDrawn(avg: real, ds: seq<BetDraw>): real {
    if ds == [] then 0.0 else StakesDrawn(avg, ds[..|ds| - 1]) + RandomStake(avg, ds[|ds| - 1].amount)
  }

  /** 毎秒更新's synthetic bets as a function: one per draw, in order; the
      odds stay as they are (repricing comes after) and the pools grow by
      exactly the stakes drawn. */
  function BetsFold(ids: seq<HorseId>, ss: seq<real>, b: Book, avg: real, ds: seq<BetDraw>): (c: Book)
    requires StakesKeyed(ids, b) && |ss| == |ids|
    requires forall i :: 0 <= i < |ds| ==> ds[i].InRange(|ids|)
    ensures StakesKeyed(ids, c)
    ensures c.winOdds == b.winOdds && c.placeOdds == b.placeOdds
    ensures ids == [] ==> c == b
    ensures ids != [] ==> c.winPool + c.placePool == b.winPool + b.placePool + StakesDrawn(avg, ds)
  {
    if ds == [] then b else BetStep(ids, ss, BetsFold(ids, ss, b, avg, ds[..|ds| - 1]), avg, ds[|ds| - 1])
  }

  /** The bets keep a balanced book balanced and only grow it. */
  lemma {:induction false} BetsFoldKeepsBook(ids: seq<HorseId>, ss: seq<real>, b: Book, avg: real, ds: seq<BetDraw>)
    requires Distinct(ids) && Balanced(ids, b) && |ss| == |ids| && avg >= 40.0
    requires forall i :: 0 <= i < |ds| ==> ds[i].InRange(|ids|)
    ensures Balanced(ids, BetsFold(ids, ss, b, avg, ds)) && Grown(b, BetsFold(ids, ss, b, avg, ds))
  {
    if ds != [] {
      var c := BetsFold(ids, ss, b, avg, ds[..|ds| - 1]);
      BetsFoldKeepsBook(ids, ss, b, avg, ds[..|ds| - 1]);
      BetStepKeepsBook(ids, ss, c, avg, ds[|ds| - 1]);
    }
  }

  /** One synthetic bet: a horse picked by noisy strength, a random stake,
      on win when the category draw is below 0.7 and on place otherwise. */
  method OneBet(ids: seq<HorseId>, ss: seq<real>, c: Book, avg: real, d: BetDraw) returns (e: Book, hit: bool)
    requires StakesKeyed(ids, c) && d.InRange(|ids|)
    requires |ss| == |ids| && forall k :: 0 <= k < |ss| ==> ss[k] >= 1.0
    ensures e == BetStep(ids, ss, c, avg, d)
    ensures hit <==> ids != []
    ensures hit ==> StakedOnPick(ids, ss, c, avg, d, e)
  {
    var id, at := PickHorse(ids, ss, d.noise, d.pick);
    if id.None? {
      return c, false;
    }
    var amount := RandomStake(avg, d.amount);
    var place := !(d.kind < WinShare);
    e, hit := Stake(c, id.value, amount, place), true;
  }

  /** Two books holding the same stakes and pools. */
  ghost predicate SameBets(a: Book, b: Book) {
    && a.winStakes == b.winStakes && a.placeStakes == b.placeStakes
    && a.winPool == b.winPool && a.placePool == b.placePool
  }

  /** The stakes and pools of a sound book fix its odds: two sound books for
      the same horses and slot count that hold the same bets are equal. */
  lemma SoundUnique(ids: seq<HorseId>, a: Book, b: Book, slots: int)
    requires Sound(ids, a, slots) && Sound(ids, b, slots) && SameBets(a, b)
    ensures a == b
  {
    assert a.winOdds == b.winOdds;
    assert a.placeOdds == b.placeOdds;
  }

  /** One more draw extends the fold by one step. */
  lemma BetsFoldSnoc(ids: seq<HorseId>, ss: seq<real>, b: Book, avg: real, ds: seq<BetDraw>, i: nat)
    requires StakesKeyed(ids, b) && |ss| == |ids|
    requires i < |ds| && forall k :: 0 <= k < |ds| ==> ds[k].InRange(|ids|)
    ensures BetsFold(ids, ss, b, avg, ds[..i + 1])
         == BetStep(ids, ss, BetsFold(ids, ss, b, avg, ds[..i]), avg, ds[i])
  {
    assert ds[..i + 1][..i] == ds[..i];
  }

  /** 毎秒更新's loop: n synthetic bets, the first draw first, over the
      entrants' ids and strengths (no horse changes during the loop, so the
      caller reads them once). */
  method PlaceBets(ids: seq<HorseId>, ss: seq<real>, b: Book, avg: real, n: int, draws: seq<BetDraw>)
    returns (c: Book, placed: bool)
    requires StakesKeyed(ids, b)
    requires |ss| == |ids| && forall k :: 0 <= k < |ss| ==> ss[k] >= 1.0
    requires n <= |draws| && forall i :: 0 <= i < |draws| ==> draws[i].InRange(|ids|)
    ensures c == BetsFold(ids, ss, b, avg, draws[..MaxI(0, n)])
    ensures placed <==> ids != [] && n > 0
  {
    c, placed := b, false;
    var i := 0;
    while i < n
      invariant 0 <= i <= MaxI(0, n)
      invariant c == BetsFold(ids, ss, b, avg, draws[..i])
      invariant placed <==> ids != [] && 0 < i
    {
      var e, hit := OneBet(ids, ss, c, avg, draws[i]);
      BetsFoldSnoc(ids, ss, b, avg, draws, i);
      c, placed := e, placed || hit;
      i := i + 1;
    }
    assert i == MaxI(0, n);
  }

  /** 毎秒更新's bets followed by the repricing of both pools, which it does
      only when a bet was placed. */
  method BetsThenReprice(ids: seq<HorseId>, ss: seq<real>, b: Book, slots: int, avg: real, n: int,
                         draws: seq<BetDraw>) returns (c: Book, placed: bool)
    requires Distinct(ids) && Sound(ids, b, slots) && avg >= 40.0
    requires |ss| == |ids| && forall k :: 0 <= k < |ss| ==> ss[k] >= 1.0
    requires n <= |draws| && forall i :: 0 <= i < |draws| ==> draws[i].InRange(|ids|)
    ensures Sound(ids, c, slots) && Grown(b, c)
    ensures placed <==> ids != [] && n > 0
    ensures SameBets(c, BetsFold(ids, ss, b, avg, draws[..MaxI(0, n)]))
    ensures !placed ==> c == b
  {
    c, placed := PlaceBets(ids, ss, b, avg, n, draws);
    BetsFoldKeepsBook(ids, ss, b, avg, draws[..MaxI(0, n)]);
    if placed {
      c := Reprice(ids, c, slots);
    } else {
      assert c == b;
    }
  }

  /** A new race's book: seeded from the entrants' strengths at the market
      size `sc`, then one tick of synthetic bets and the repricing. */
  method SeedThenBet(ids: seq<HorseId>, ws: seq<real>, sc: Scale, slots: int, countU: real,
                     draws: seq<BetDraw>) returns (b: Book)
    requires Distinct(ids) && |ws| == |ids| && forall k :: 0 <= k < |ws| ==> ws[k] >= 1.0
    requires sc.betsPerSecond >= 3 && sc.avgStake >= 300.0 && 0.0 <= countU < 1.0
    requires MaxBets(sc.betsPerSecond) <= |draws| && forall i :: 0 <= i < |draws| ==> draws[i].InRange(|ids|)
    ensures Sound(ids, b, slots)
    ensures exists s: Book ::
              && StakesKeyed(ids, s) && Seeded(ids, ws, s, sc)
              && SameBets(b, BetsFold(ids, ws, s, sc.avgStake, draws[..BetCount(sc.betsPerSecond, countU)]))
  {
    var seeded := SeedBook(ids, ws, sc, slots);
    var n := BetCount(sc.betsPerSecond, countU);
    var placed;
    b, placed := BetsThenReprice(ids, ws, seeded, slots, sc.avgStake, n, draws);
    assert StakesKeyed(ids, seeded);
  }

  /** The first `n` entries of a list (Enumerable.Take). */
  function Take<T>(s: seq<T>, n: int): (t: seq<T>)
    ensures |t| == MaxI(0, MinI(n, |s|)) && t <= s
  {
    if n <= 0 then [] else if n >= |s| then s else s[..n]
  }

  /** The odds dictionary of a book for one category. */
  function OddsOf(b: Book, place: bool): (m: map<HorseId, real>)
    ensures m == (if place then b.placeOdds else b.winOdds)
  {
    if place then b.placeOdds else b.winOdds
  }

  /** A horse's payout in one category: stake times odds when the book
      holds both, otherwise nothing. */
  function Payout(stakes: map<HorseId, real>, odds: map<HorseId, real>, id: HorseId): (p: real)
    ensures id !in stakes || id !in odds ==> p == 0.0
    ensures id in stakes && id in odds ==> p == stakes[id] * odds[id]
  {
    if id in stakes && id in odds then stakes[id] * odds[id] else 0.0
  }

  /** レース終了's win payout: the winner's stake times its odds, nothing
      when there is no winner or the book does not know it. */
  function WinPayout(b: Book, finish: seq<HorseId>): (p: real)
    ensures finish == [] || finish[0] == "" ==> p == 0.0
    ensures finish != [] && finish[0] != "" ==> p == Payout(b.winStakes, b.winOdds, finish[0])
  {
    if finish == [] || finish[0] == "" then 0.0 else Payout(b.winStakes, b.winOdds, finish[0])
  }

  /** レース終了's place payout: the sum over the placed horses. */
  function PlacePayout(b: Book, placed: seq<HorseId>): real {
    if placed == [] then 0.0
    else PlacePayout(b, placed[..|placed| - 1]) + Payout(b.placeStakes, b.placeOdds, placed[|placed| - 1])
  }

  /** With stakes never negative, no payout is negative. */
  lemma {:induction false} PlacePayoutNonNegative(b: Book, placed: seq<HorseId>)
    requires OddsInRange(b) && forall id :: id in b.placeStakes ==> b.placeStakes[id] >= 0.0
    ensures PlacePayout(b, placed) >= 0.0
  {
    if placed != [] {
      PlacePayoutNonNegative(b, placed[..|placed| - 1]);
      var id := placed[|placed| - 1];
      if id in b.placeStakes && id in b.placeOdds {
        MulMonotone(b.placeStakes[id], 0.0, b.placeOdds[id]);
      }
    }
  }

  /** Horses the book has no place stake on add nothing to the payout. */
  lemma {:induction false} PlacePayoutUnknown(b: Book, placed: seq<HorseId>)
    requires forall k :: 0 <= k < |placed| ==> placed[k] !in b.placeStakes
    ensures PlacePayout(b, placed) == 0.0
  {
    if placed != [] {
      PlacePayoutUnknown(b, placed[..|placed| - 1]);
    }
  }

  /** The settlement loop over the placed horses. */
  method SumPlacePayout(b: Book, placed: seq<HorseId>) returns (total: real)
    ensures total == PlacePayout(b, placed)
  {
    total := 0.0;
    var i := 0;
    while i < |placed|
      invariant 0 <= i <= |placed|
      invariant total == PlacePayout(b, placed[..i])
    {
      assert placed[..i + 1][..i] == placed[..i];
      total := total + Payout(b.placeStakes, b.placeOdds, placed[i]);
      i := i + 1;
    }
    assert placed[..|placed|] == placed;
  }

  /** The settled win payout of a book whose winner's odds were priced from
      it is at most its payable pool plus the rounding of the odds, unless
      the minimum-odds clamp lifts the winner's odds: the house keeps its
      take. */
  lemma SettledWinWithinPool(b: Book, finish: seq<HorseId>)
    requires finish != [] && finish[0] != "" && finish[0] in b.winStakes && finish[0] in b.winOdds
    requires b.winOdds[finish[0]] == WinOdds(b.winPool, b.winStakes[finish[0]])
    requires b.winStakes[finish[0]] > 0.0 && b.winPool > 0.0
    requires b.winPool * (1.0 - TakeRate) >= MinOdds * b.winStakes[finish[0]]
    ensures WinPayout(b, finish) <= b.winPool * (1.0 - TakeRate) + b.winStakes[finish[0]] * 0.05
  {
    WinPayoutWithinPool(b.winPool, b.winStakes[finish[0]]);
  }

  /** Outside the minimum-odds clamp, a stake priced on a payable pool is
      paid at most that pool plus the rounding of its odds. */
  lemma OddsPayoutBound(payable: real, stake: real)
    requires stake > 0.0 && payable >= MinOdds * stake
    ensures stake * OddsFor(payable, stake) <= payable + stake * 0.05
  {
    QuotientAtLeast(payable, stake, MinOdds);
    assert Clamp(payable / stake, MinOdds, MaxOdds) <= payable / stake;
    PayoutBound(payable, stake, OddsFor(payable, stake));
  }

  /** The stake a dictionary holds on a horse, nothing when it holds none. */
  function StakeOn(stakes: map<HorseId, real>, id: HorseId): real {
    if id in stakes then stakes[id] else 0.0
  }

  /** The win stake on the winner, nothing when there is none. */
  function WinnerStake(b: Book, finish: seq<HorseId>): real {
    if finish == [] || finish[0] == "" then 0.0 else StakeOn(b.winStakes, finish[0])
  }

  /** The place stakes on the placed horses. */
  function PlacedStakes(b: Book, placed: seq<HorseId>): real {
    if placed == [] then 0.0
    else PlacedStakes(b, placed[..|placed| - 1]) + StakeOn(b.placeStakes, placed[|placed| - 1])
  }

  /** Place odds priced on a share of the pool pay each placed horse at
      most that share plus the rounding of its odds, as long as no stake is
      so large that the minimum odds lift its price. */
  lemma {:induction false} PlacePayoutWithinShare(b: Book, placed: seq<HorseId>, payable: real)
    requires payable > 0.0 && PricedBy(b.placeOdds, b.placeStakes, payable)
    requires forall id :: id in b.placeStakes ==> 0.0 <= b.placeStakes[id] && MinOdds * b.placeStakes[id] <= payable
    ensures PlacePayout(b, placed) <= Shares(|placed|, payable) + 0.05 * PlacedStakes(b, placed)
  {
    if placed != [] {
      var init, id := placed[..|placed| - 1], placed[|placed| - 1];
      var a, t := PlacePayout(b, init), Payout(b.placeStakes, b.placeOdds, id);
      var s, u := PlacedStakes(b, init), StakeOn(b.placeStakes, id);
      assert a <= Shares(|init|, payable) + 0.05 * s by {
        PlacePayoutWithinShare(b, init, payable);
      }
      assert t <= payable + 0.05 * u by {
        PayoutWithinShare(b.placeStakes, b.placeOdds, id, payable);
      }
      assert |placed| == |init| + 1;
    }
  }

  /** One placed horse's share of the place payout. */
  lemma PayoutWithinShare(stakes: map<HorseId, real>, odds: map<HorseId, real>, id: HorseId, payable: real)
    requires payable > 0.0 && PricedBy(odds, stakes, payable)
    requires id in stakes ==> 0.0 <= stakes[id] && MinOdds * stakes[id] <= payable
    ensures Payout(stakes, odds, id) <= payable + 0.05 * StakeOn(stakes, id)
  {
    if id in stakes && id in odds {
      var st := stakes[id];
      if st > 0.0 {
        OddsPayoutBound(payable, st);
      } else {
        assert st * odds[id] == 0.0;
      }
    }
  }

  /** `k` shares of `p`, added up one at a time. */
  function Shares(k: nat, p: real): real {
    if k == 0 then 0.0 else Shares(k - 1, p) + p
  }

  /** Added up, `k` shares are `k` times the share. */
  lemma {:induction false} SharesProduct(k: nat, p: real)
    ensures Shares(k, p) == k as real * p
  {
    if k > 0 {
      SharesProduct(k - 1, p);
      assert k as real * p == (k - 1) as real * p + p;
    }
  }

  /** Settling a priced book pays out at most 75 % of the takings plus the
      rounding of the odds on the paid stakes, so the house keeps its 25 %
      take, unless the minimum odds lift the price of a heavily backed
      horse. */
  lemma SettlementKeepsTake(ids: seq<HorseId>, b: Book, slots: int, finish: seq<HorseId>, l: RaceLedger)
    requires Sound(ids, b, slots) && NonNegative(b) && slots >= 1
    requires b.winPool > 0.0 && b.placePool > 0.0
    requires forall id :: id in b.winStakes ==> MinOdds * b.winStakes[id] <= WinPayable(b.winPool)
    requires forall id :: id in b.placeStakes ==> MinOdds * b.placeStakes[id] <= PlacePayable(b.placePool, slots)
    requires l.winSales == b.winPool && l.placeSales == b.placePool
    requires l.winPayout == WinPayout(b, finish) && l.placePayout == PlacePayout(b, Take(finish, slots))
    ensures l.TotalPayout() <= (1.0 - TakeRate) * l.TotalSales()
                               + 0.05 * (WinnerStake(b, finish) + PlacedStakes(b, Take(finish, slots)))
    ensures l.Profit() >= TakeRate * l.TotalSales()
                          - 0.05 * (WinnerStake(b, finish) + PlacedStakes(b, Take(finish, slots)))
  {
    var placed := Take(finish, slots);
    var winStake, placedStake := WinnerStake(b, finish), PlacedStakes(b, placed);
    WinPayoutWithinShare(b, finish);
    assert l.winPayout <= b.winPool * (1.0 - TakeRate) + 0.05 * winStake;
    PlacePayoutWithinShare(b, placed, PlacePayable(b.placePool, slots));
    SharesWithinPool(|placed|, slots, b.placePool);
    assert l.placePayout <= b.placePool * (1.0 - TakeRate) + 0.05 * placedStake;
    assert (1.0 - TakeRate) * l.TotalSales() == b.winPool * (1.0 - TakeRate) + b.placePool * (1.0 - TakeRate);
  }

  /** The winner's share of the win payout. */
  lemma WinPayoutWithinShare(b: Book, finish: seq<HorseId>)
    requires PricedBy(b.winOdds, b.winStakes, WinPayable(b.winPool))
    requires forall id :: id in b.winStakes ==> 0.0 <= b.winStakes[id] && MinOdds * b.winStakes[id] <= WinPayable(b.winPool)
    ensures WinPayout(b, finish) <= WinPayable(b.winPool) + 0.05 * WinnerStake(b, finish)
  {
    if finish != [] && finish[0] != "" {
      PayoutWithinShare(b.winStakes, b.winOdds, finish[0], WinPayable(b.winPool));
    }
  }

  /** At most `slots` shares of the place pool are at most its payable
      75 %. */
  lemma SharesWithinPool(k: nat, slots: int, pool: real)
    requires 1 <= slots && k <= slots && pool > 0.0
    ensures Shares(k, PlacePayable(pool, slots)) <= pool * (1.0 - TakeRate)
  {
    var share := PlacePayable(pool, slots);
    SharesProduct(k, share);
    assert share * slots as real == pool * (1.0 - TakeRate);
    MulMonotone(share, k as real, slots as real);
  }

  // ---------------------------------------------------------------------
  // オッズ市場サービス itself.

  /** Every frozen book quotes odds in range. */
  ghost predicate FrozenInRange(snapshots: map<RaceId, Book>) {
    forall rid :: rid in snapshots ==> OddsInRange(snapshots[rid])
  }

  /** The market's invariant: distinct horses, a sound live book priced
      with the current race's slot count, a market size the sizing table
      can give, and frozen books in range. */
  ghost predicate MarketInvariant(keys: seq<HorseId>, live: Book, slots: int, perSecond: int, avg: real,
                                  snapshots: map<RaceId, Book>) {
    && Distinct(keys) && Sound(keys, live, slots)
    && perSecond >= 3 && avg >= 300.0
    && FrozenInRange(snapshots)
  }

  /** The market for the current race. The timer, the lock and the events
      of the service are not modelled: each handler is a method that the
      caller invokes with the race it concerns and the random draws it
      consumes. */
  class Market {
    /** _現在レースId. */
    var raceId: RaceId
    /** The entrant ids the live dictionaries were built from, in
        insertion order (the order Values.Sum() and Keys walk). */
    var keys: seq<HorseId>
    var live: Book
    /** The per-race snapshots taken when betting closes. */
    var snapshots: map<RaceId, Book>
    /** _複勝枠数ByRace. */
    var slots: map<RaceId, int>
    var betsPerSecond: int
    var avgStake: real
    /** _締切済み. */
    var locked: bool
    /** _収支履歴, newest first. */
    var history: seq<RaceLedger>

    ghost predicate SnapshotsInRange()
      reads this`snapshots
    {
      FrozenInRange(snapshots)
    }

    ghost predicate Valid()
      reads this`keys, this`live, this`slots, this`raceId, this`betsPerSecond, this`avgStake, this`snapshots
    {
      MarketInvariant(keys, live, SlotsFor(slots, raceId), betsPerSecond, avgStake, snapshots)
    }

    /** Installs a new live book for the horses the market holds. */
    method SetLive(b: Book)
      requires MarketInvariant(keys, b, SlotsFor(slots, raceId), betsPerSecond, avgStake, snapshots)
      modifies this`live
      ensures Valid() && live == b
    {
      live := b;
    }

    /** Installs the book of a newly seeded race. */
    method Install(rid: RaceId, ids: seq<HorseId>, b: Book, n: int, sc: Scale)
      requires MarketInvariant(ids, b, n, sc.betsPerSecond, sc.avgStake, snapshots)
      modifies this`raceId, this`keys, this`live, this`slots, this`betsPerSecond, this`avgStake
      ensures Valid()
      ensures raceId == rid && keys == ids && live == b && slots == old(slots)[rid := n]
      ensures betsPerSecond == sc.betsPerSecond && avgStake == sc.avgStake
      ensures snapshots == old(snapshots) && locked == old(locked) && history == old(history)
    {
      raceId, keys, live := rid, ids, b;
      slots := slots[rid := n];
      betsPerSecond, avgStake := sc.betsPerSecond, sc.avgStake;
    }

    /** The constructor seeds the market from the race current at start-up. */
    constructor (r: Race)
      requires Distinct(IdsOf(r.entrants))
      ensures Valid() && raceId == r.id && keys == IdsOf(r.entrants)
      ensures snapshots == map[] && !locked && history == []
      ensures slots == map[r.id := PlaceSlots(|r.entrants|)]
      ensures Seeded(IdsOf(r.entrants), old(Strengths(r.entrants)), live, MarketScale(r.grade, r.tier))
    {
      var sc := MarketScale(r.grade, r.tier);
      var ids := IdsOf(r.entrants);
      var n := PlaceSlots(|ids|);
      var b := SeedBook(ids, Strengths(r.entrants), sc, n);
      raceId, keys, live := r.id, [], EmptyBook;
      snapshots, slots, locked, history := map[], map[], false, [];
      betsPerSecond, avgStake := 0, 0.0;
      new;
      Install(r.id, ids, b, n, sc);
    }

    /** 初期化: builds the four dictionaries from the entrants, records the
        race's place slot count, sizes the market, seeds the pools by
        strength and prices them. */
    method Initialize(r: Race)
      requires Distinct(IdsOf(r.entrants)) && SnapshotsInRange()
      modifies this`raceId, this`keys, this`live, this`slots, this`betsPerSecond, this`avgStake
      ensures Valid()
      ensures raceId == r.id && keys == IdsOf(r.entrants)
      ensures slots == old(slots)[r.id := PlaceSlots(|r.entrants|)]
      ensures betsPerSecond == MarketScale(r.grade, r.tier).betsPerSecond
      ensures avgStake == MarketScale(r.grade, r.tier).avgStake
      ensures Seeded(IdsOf(r.entrants), old(Strengths(r.entrants)), live, MarketScale(r.grade, r.tier))
    {
      var b := SeedBook(IdsOf(r.entrants), Strengths(r.entrants), MarketScale(r.grade, r.tier), PlaceSlots(|r.entrants|));
      Install(r.id, IdsOf(r.entrants), b, PlaceSlots(|r.entrants|), MarketScale(r.grade, r.tier));
    }

    /** レース切替: a new current race reseeds the market and reopens betting. */
    method SwitchRace(r: Race)
      requires Distinct(IdsOf(r.entrants)) && SnapshotsInRange()
      modifies this`raceId, this`keys, this`live, this`slots, this`betsPerSecond, this`avgStake, this`locked
      ensures Valid() && !locked
      ensures raceId == r.id && keys == IdsOf(r.entrants)
      ensures slots == old(slots)[r.id := PlaceSlots(|r.entrants|)]
      ensures Seeded(IdsOf(r.entrants), old(Strengths(r.entrants)), live, MarketScale(r.grade, r.tier))
    {
      ghost var ws := Strengths(r.entrants);
      locked := false;
      assert Strengths(r.entrants) == ws;
      Initialize(r);
    }

    /** 状態変化: when the current race starts running, the first call for
        the race the market holds freezes the live book as that race's
        snapshot and reports that betting closed; every other call changes
        nothing. */
    method OnStateChanged(r: Race) returns (closed: bool)
      requires Valid()
      modifies this`snapshots, this`locked
      ensures Valid()
      ensures closed <==> old(r.state == Running && !locked && raceId == r.id)
      ensures closed ==> locked && snapshots == old(snapshots)[raceId := live]
      ensures !closed ==> locked == old(locked) && snapshots == old(snapshots)
    {
      if r.state != Running || locked || raceId != r.id {
        return false;
      }
      SoundInRange(keys, live, SlotsFor(slots, raceId));
      snapshots := snapshots[raceId := live];
      locked := true;
      closed := true;
    }

    /** What a query answers for a race and a horse: the race's frozen odds
        when its snapshot has the horse, otherwise the live odds entry,
        otherwise 0. */
    ghost predicate Looked(rid: RaceId, id: HorseId, place: bool, o: real)
      reads this`snapshots, this`live
    {
      var frozen := rid in snapshots && id in OddsOf(snapshots[rid], place);
      && (frozen ==> o == OddsOf(snapshots[rid], place)[id])
      && (!frozen && id in OddsOf(live, place) ==> o == OddsOf(live, place)[id])
      && (!frozen && id !in OddsOf(live, place) ==> o == 0.0)
    }

    /** What the answer means in a valid market: a live answer for a listed
        horse is the odds its stake prices on the pool, an unlisted horse
        without frozen odds gets 0, and every other answer is in range. */
    ghost predicate Quoted(rid: RaceId, id: HorseId, place: bool, o: real)
      reads this
    {
      var frozen := rid in snapshots && id in OddsOf(snapshots[rid], place);
      && (frozen ==> o == OddsOf(snapshots[rid], place)[id])
      && (!frozen && id in keys && id in live.winStakes && id in live.placeStakes ==>
            o == (if place then PlaceOdds(live.placePool, SlotsFor(slots, raceId), live.placeStakes[id])
                  else WinOdds(live.winPool, live.winStakes[id])))
      && (!frozen && id !in keys ==> o == 0.0)
      && (o == 0.0 || MinOdds <= o <= MaxOdds)
    }

    /** The four odds queries share this lookup. */
    function Quote(rid: RaceId, id: HorseId, place: bool): (o: real)
      reads this`snapshots, this`live
      ensures Looked(rid, id, place, o)
    {
      LockedFirst(snapshots, rid, live, id, place)
    }

    /** In a valid market every answer is a priced value in range or 0. */
    lemma QuoteSound(rid: RaceId, id: HorseId, place: bool)
      requires Valid()
      ensures Quoted(rid, id, place, Quote(rid, id, place))
    {
      SoundInRange(keys, live, SlotsFor(slots, raceId));
      LockedFirstRange(snapshots, rid, live, id, place);
    }

    /** 現在オッズ. */
    function CurrentWinOdds(id: HorseId): (o: real)
      reads this`snapshots, this`live, this`raceId
      ensures Looked(raceId, id, false, o)
    {
      Quote(raceId, id, false)
    }

    /** 現在複勝オッズ. */
    function CurrentPlaceOdds(id: HorseId): (o: real)
      reads this`snapshots, this`live, this`raceId
      ensures Looked(raceId, id, true, o)
    {
      Quote(raceId, id, true)
    }

    /** 確定単勝オッズ取得. */
    function LockedWinOdds(rid: RaceId, id: HorseId): (o: real)
      reads this`snapshots, this`live
      ensures Looked(rid, id, false, o)
    {
      Quote(rid, id, false)
    }

    /** 確定複勝オッズ取得. */
    function LockedPlaceOdds(rid: RaceId, id: HorseId): (o: real)
      reads this`snapshots, this`live
      ensures Looked(rid, id, true, o)
    {
      Quote(rid, id, true)
    }

    /** プレイヤー投票: a player's stake on a listed horse goes into the place
        pool for a place ticket and into the win pool for every other kind,
        and the market reprices; a horse the market does not list is
        ignored. Betting being closed is not checked. */
    method PlayerWager(id: HorseId, amount: real, kind: TicketKind)
      requires Valid()
      modifies this`live
      ensures Valid()
      ensures id !in keys ==> live == old(live)
      ensures id in keys ==>
        var b := Stake(old(live), id, amount, kind == Place);
        && live.winStakes == b.winStakes && live.placeStakes == b.placeStakes
        && live.winPool == b.winPool && live.placePool == b.placePool
    {
      if id !in live.winStakes {
        return;
      }
      StakeKeepsTotals(keys, live, id, amount, kind == Place);
      var b := Reprice(keys, Stake(live, id, amount, kind == Place), SlotsFor(slots, raceId));
      SetLive(b);
    }

    /** 毎秒更新: only while the current race takes bets; a race the market
        does not hold yet is seeded first; then a random number of synthetic
        bets go in and, if any did, the market reprices. */
    method SecondTick(r: Race, countU: real, draws: seq<BetDraw>) returns (changed: bool)
      requires Valid() && Distinct(IdsOf(r.entrants))
      requires r.id == raceId ==> IdsOf(r.entrants) == keys
      requires 0.0 <= countU < 1.0 && forall i :: 0 <= i < |draws| ==> draws[i].InRange(|r.entrants|)
      requires MaxBets(if r.id == raceId then betsPerSecond else MarketScale(r.grade, r.tier).betsPerSecond) <= |draws|
      modifies this`raceId, this`keys, this`live, this`slots, this`betsPerSecond, this`avgStake
      ensures Valid()
      ensures r.state != AcceptingBets ==>
        !changed && raceId == old(raceId) && keys == old(keys) && live == old(live) && slots == old(slots)
      ensures r.state == AcceptingBets ==> raceId == r.id && keys == IdsOf(r.entrants)
      ensures r.state == AcceptingBets && old(raceId) == r.id ==>
        && slots == old(slots) && betsPerSecond == old(betsPerSecond) && avgStake == old(avgStake)
        && Grown(old(live), live) && (changed <==> r.entrants != [])
      ensures r.state == AcceptingBets && old(raceId) != r.id ==>
        && changed && slots == old(slots)[r.id := PlaceSlots(|r.entrants|)]
        && betsPerSecond == MarketScale(r.grade, r.tier).betsPerSecond
        && avgStake == MarketScale(r.grade, r.tier).avgStake
      ensures r.state == AcceptingBets && old(raceId) == r.id ==>
        SameBets(live, old(BetsFold(keys, Strengths(r.entrants), live, avgStake,
                                    draws[..BetCount(betsPerSecond, countU)])))
      ensures r.state == AcceptingBets && old(raceId) != r.id ==>
        exists s: Book :: StakesKeyed(keys, s) && Seeded(keys, old(Strengths(r.entrants)), s, MarketScale(r.grade, r.tier))
          && SameBets(live, BetsFold(keys, old(Strengths(r.entrants)), s, avgStake,
                                     draws[..BetCount(betsPerSecond, countU)]))
    {
      changed := false;
      if r.state != AcceptingBets {
        return;
      }
      if r.id != raceId {
        SeedAndTakeBets(r, countU, draws);
        changed := true;
      } else {
        changed := TakeBets(r, countU, draws);
      }
    }

    /** 毎秒更新 on a race the market does not hold yet: 初期化 seeds its book,
        then the synthetic bets go in on the seeded book and the market
        reprices. The book is built as a value and installed once, which
        leaves the same state as installing the seeded book first. */
    method SeedAndTakeBets(r: Race, countU: real, draws: seq<BetDraw>)
      requires Distinct(IdsOf(r.entrants)) && SnapshotsInRange()
      requires 0.0 <= countU < 1.0 && forall i :: 0 <= i < |draws| ==> draws[i].InRange(|r.entrants|)
      requires MaxBets(MarketScale(r.grade, r.tier).betsPerSecond) <= |draws|
      modifies this`raceId, this`keys, this`live, this`slots, this`betsPerSecond, this`avgStake
      ensures Valid() && raceId == r.id && keys == IdsOf(r.entrants)
      ensures slots == old(slots)[r.id := PlaceSlots(|r.entrants|)]
      ensures betsPerSecond == MarketScale(r.grade, r.tier).betsPerSecond
      ensures avgStake == MarketScale(r.grade, r.tier).avgStake
      ensures exists s: Book ::
                && StakesKeyed(keys, s) && Seeded(keys, old(Strengths(r.entrants)), s, MarketScale(r.grade, r.tier))
                && SameBets(live, BetsFold(keys, old(Strengths(r.entrants)), s, avgStake,
                                           draws[..BetCount(betsPerSecond, countU)]))
    {
      var ids, ws := IdsOf(r.entrants), Strengths(r.entrants);
      var sc, n := MarketScale(r.grade, r.tier), PlaceSlots(|r.entrants|);
      var b := SeedThenBet(ids, ws, sc, n, countU, draws);
      Install(r.id, ids, b, n, sc);
    }

    /** 毎秒更新 once the market holds the race: a random number of synthetic
        bets, then a repricing if any went in. */
    method TakeBets(r: Race, countU: real, draws: seq<BetDraw>) returns (placed: bool)
      requires Valid() && r.id == raceId && IdsOf(r.entrants) == keys
      requires 0.0 <= countU < 1.0 && MaxBets(betsPerSecond) <= |draws|
      requires forall i :: 0 <= i < |draws| ==> draws[i].InRange(|keys|)
      modifies this`live
      ensures Valid() && Grown(old(live), live)
      ensures placed <==> keys != []
      ensures SameBets(live, old(BetsFold(keys, Strengths(r.entrants), live, avgStake,
                                          draws[..BetCount(betsPerSecond, countU)])))
      ensures !placed ==> live == old(live)
    {
      if betsPerSecond <= 0 {
        return false;
      }
      var n := BetCount(betsPerSecond, countU);
      var ss := Strengths(r.entrants);
      var b;
      b, placed := BetsThenReprice(keys, ss, live, SlotsFor(slots, raceId), avgStake, n, draws);
      if placed {
        SetLive(b);
      }
    }

    /** レース終了: the race settles against its snapshot when betting closed
        on it, otherwise against the live book; the win payout is the
        winner's, the place payout sums over the first (recorded slot count,
        3 by default) finishers; the record goes at the head of the
        history. */
    method Settle(r: Race, now: real) returns (ledger: RaceLedger)
      modifies this`history
      ensures history == [ledger] + old(history)
      ensures var b := if r.id in snapshots then snapshots[r.id] else live;
        && ledger.raceId == r.id && ledger.raceName == r.name && ledger.settledAt == now
        && ledger.winSales == b.winPool && ledger.placeSales == b.placePool
        && ledger.winPayout == WinPayout(b, r.finishOrder)
        && ledger.placePayout == PlacePayout(b, Take(r.finishOrder, SlotsFor(slots, r.id)))
      ensures var b := if r.id in snapshots then snapshots[r.id] else live;
        && ledger.TotalSales() == b.winPool + b.placePool
        && ledger.TotalPayout() == WinPayout(b, r.finishOrder) + PlacePayout(b, Take(r.finishOrder, SlotsFor(slots, r.id)))
      ensures r.id !in snapshots && Valid()
              ==> ledger.TotalSales() == Total(keys, live.winStakes) + Total(keys, live.placeStakes)
    {
      var b := if r.id in snapshots then snapshots[r.id] else live;
      var placePay := SumPlacePayout(b, Take(r.finishOrder, SlotsFor(slots, r.id)));
      ledger := RaceLedger(r.id, r.name, now, b.winPool, b.placePool, WinPayout(b, r.finishOrder), placePay);
      history := [ledger] + history;
    }
  }
}
