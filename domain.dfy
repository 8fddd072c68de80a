/** The domain records of the game (Models/DomainModels.cs): the enumerations,
    the horse, the race with its per-horse simulation maps, the ticket, the
    trader who owns horses and tickets, and the per-race profit-and-loss record.

    A horse is a class because the same horse object is held by the population
    list, by race entry lists and by an owner's list, and is updated in place
    (fatigue, career counters, class, status). Its attributes that nothing
    writes after construction are `const`. A race is a class because the engine
    updates its state and maps in place. A ticket is a value: only the trader's
    ticket list holds it, and the services rewrite that list entry by entry. */
module Domain {
  import opened Seqs

  datatype Option<T> = None | Some(value: T)

  type HorseId = string
  type RaceId = string

  /** 競走馬状態: racing, retired, breeding. */
  datatype HorseStatus = Active | Retired | Breeding
  /** 性別. */
  datatype Sex = Male | Female
  /** レース状態: the three-state race lifecycle. */
  datatype RaceState = AcceptingBets | Running | Finished
  /** 競走馬クラス, in ascending order: debut, maiden, 1-win, 2-win, 3-win, open. */
  datatype ClassTier = Newcomer | Maiden | OneWin | TwoWin | ThreeWin | Open
  /** レースグレード. */
  datatype Grade = General | G3 | G2 | G1
  /** 脚質: front-runner, pace-presser, closer, deep-closer. */
  datatype Style = FrontRunner | PacePresser | Closer | DeepCloser
  /** コース種別: turf, dirt, steeplechase, cyberspace. */
  datatype Course = Turf | Dirt | Steeplechase | Cyberspace
  /** 券種. Only Win and Place are ever priced or paid. */
  datatype TicketKind = Win | Place | QuinellaPlace | Quinella | Exacta | Trio | Trifecta

  /** Position of a class tier in the enumeration's order. */
  function TierRank(c: ClassTier): (r: nat)
    ensures r <= 5
    ensures r == 0 <==> c == Newcomer
    ensures r == 5 <==> c == Open
  {
    match c
    case Newcomer => 0
    case Maiden => 1
    case OneWin => 2
    case TwoWin => 3
    case ThreeWin => 4
    case Open => 5
  }

  /** The promotion a race winner receives: debut and maiden horses move up
      to the 1-win class, the others one class up, and open stays open. */
  function Promote(c: ClassTier): (r: ClassTier)
    ensures c != Open ==> TierRank(c) < TierRank(r)
    ensures c == Open ==> r == Open
    ensures TierRank(r) == if TierRank(c) < 2 then 2 else MinNat(TierRank(c) + 1, 5)
  {
    match c
    case Newcomer => OneWin
    case Maiden => OneWin
    case OneWin => TwoWin
    case TwoWin => ThreeWin
    case ThreeWin => Open
    case Open => Open
  }

  function MinNat(a: nat, b: nat): nat { if a <= b then a else b }

  /** DateTime.MinValue, in seconds relative to the Unix epoch: the last-run
      time of a horse that has never run. Times are real seconds. */
  const NeverRan: real := -62135596800.0

  const DefaultHorseName: string := "名無しの馬"
  const DefaultCoat: string := "#8B4513"
  const UnknownParent: string := "不明"
  const DefaultPrice: real := 1000.0
  const DefaultAge: int := 2
  const DefaultCondition: int := 100

  /** A horse's career record: the fields of 競走馬 that change after it
      is created. */
  datatype Career = Career(lastRun: real, status: HorseStatus, tier: ClassTier, fatigue: int,
                           runs: int, wins: int, earnings: real)

  class Horse {
    const id: HorseId
    const name: string
    const sex: Sex
    const coat: string
    const speed: int
    const stamina: int
    const acceleration: int
    const style: Style
    const gate: int
    const condition: int
    const sireName: string
    const damName: string
    const price: real
    const age: int

    var lastRun: real
    var status: HorseStatus
    var tier: ClassTier
    var fatigue: int
    var runs: int
    var wins: int
    var earnings: real

    /** The part of the horse a race updates. */
    function CareerOf(): Career
      reads this
    {
      Career(lastRun, status, tier, fatigue, runs, wins, earnings)
    }

    /** Writes a whole career record back into the horse. */
    method SetCareer(c: Career)
      modifies this
      ensures CareerOf() == c
    {
      lastRun, status, tier, fatigue := c.lastRun, c.status, c.tier, c.fatigue;
      runs, wins, earnings := c.runs, c.wins, c.earnings;
    }

    /** `new 競走馬()` with every property left at its default. */
    constructor Default(id: HorseId)
      ensures this.id == id && name == DefaultHorseName && sex == Male && coat == DefaultCoat
      ensures speed == 0 && stamina == 0 && acceleration == 0 && style == PacePresser && gate == 0
      ensures condition == DefaultCondition && sireName == UnknownParent && damName == UnknownParent
      ensures price == DefaultPrice && age == DefaultAge
      ensures status == Active && tier == Newcomer && fatigue == 0 && lastRun == NeverRan
      ensures runs == 0 && wins == 0 && earnings == 0.0
    {
      this.id := id;
      name, sex, coat := DefaultHorseName, Male, DefaultCoat;
      speed, stamina, acceleration, style, gate := 0, 0, 0, PacePresser, 0;
      condition, sireName, damName := DefaultCondition, UnknownParent, UnknownParent;
      price, age := DefaultPrice, DefaultAge;
      lastRun, status, tier, fatigue := NeverRan, Active, Newcomer, 0;
      runs, wins, earnings := 0, 0, 0.0;
    }

    /** An object initializer that sets the attributes and leaves the career
        record (fatigue, last run, runs, wins, earnings) at its defaults. */
    constructor (id: HorseId, name: string, sex: Sex, coat: string, speed: int, stamina: int,
                 acceleration: int, style: Style, gate: int, condition: int,
                 sireName: string, damName: string, price: real, age: int,
                 status: HorseStatus, tier: ClassTier)
      ensures this.id == id && this.name == name && this.sex == sex && this.coat == coat
      ensures this.speed == speed && this.stamina == stamina && this.acceleration == acceleration
      ensures this.style == style && this.gate == gate && this.condition == condition
      ensures this.sireName == sireName && this.damName == damName
      ensures this.price == price && this.age == age && this.status == status && this.tier == tier
      ensures fatigue == 0 && lastRun == NeverRan && runs == 0 && wins == 0 && earnings == 0.0
    {
      this.id, this.name, this.sex, this.coat := id, name, sex, coat;
      this.speed, this.stamina, this.acceleration := speed, stamina, acceleration;
      this.style, this.gate, this.condition := style, gate, condition;
      this.sireName, this.damName, this.price, this.age := sireName, damName, price, age;
      this.status, this.tier := status, tier;
      lastRun, fatigue, runs, wins, earnings := NeverRan, 0, 0, 0, 0.0;
    }
  }

  /** The ids of a list of horses, in list order. */
  function IdsOf(hs: seq<Horse>): (ids: seq<HorseId>)
    ensures |ids| == |hs|
    ensures forall i :: 0 <= i < |hs| ==> ids[i] == hs[i].id
  {
    seq(|hs|, i requires 0 <= i < |hs| => hs[i].id)
  }

  /** The career records of a list of horses, in order. */
  function CareersOf(hs: seq<Horse>): (cs: seq<Career>)
    reads hs
    ensures |cs| == |hs| && forall i :: 0 <= i < |hs| ==> cs[i] == hs[i].CareerOf()
  {
    seq(|hs|, i reads hs requires 0 <= i < |hs| => hs[i].CareerOf())
  }

  /** Horses with distinct ids are distinct objects. */
  lemma DistinctIdsDistinctHorses(hs: seq<Horse>)
    requires Distinct(IdsOf(hs))
    ensures Distinct(hs)
  {
    forall i, j | 0 <= i < j < |hs| ensures hs[i] != hs[j] {
      assert IdsOf(hs)[i] != IdsOf(hs)[j];
    }
  }

  const LateralMin: real := 0.08
  const LateralMax: real := 0.92

  /** The per-horse simulation maps of a race, keyed by horse id. */
  datatype SimMaps = SimMaps(progress: map<HorseId, real>, lateral: map<HorseId, real>,
                             speed: map<HorseId, real>, stamina: map<HorseId, real>,
                             delay: map<HorseId, int>, failedKick: map<HorseId, bool>)

  const NoSims: SimMaps := SimMaps(map[], map[], map[], map[], map[], map[])

  /** Every entrant has an entry in each map; progress and remaining stamina
      lie in [0, 1], the lateral position within the track, the start delay is
      not negative; the finish list holds distinct entrants, and exactly those
      whose progress has reached 1. */
  ghost predicate SimInvariant(ids: seq<HorseId>, m: SimMaps, finish: seq<HorseId>) {
    && (forall id :: id in ids ==>
          id in m.progress && id in m.lateral && id in m.speed && id in m.stamina
          && id in m.delay && id in m.failedKick)
    && (forall id :: id in ids ==>
          0.0 <= m.progress[id] <= 1.0 && LateralMin <= m.lateral[id] <= LateralMax
          && 0.0 <= m.stamina[id] <= 1.0 && m.delay[id] >= 0)
    && Distinct(finish)
    && (forall id :: id in finish ==> id in ids)
    && (forall id :: id in ids ==> (id in finish <==> m.progress[id] == 1.0))
  }

  /** A distinct list drawn from a distinct list is no longer than it: the
      finish list never has more entries than the race has entrants. */
  lemma {:induction false} DistinctSubsetLength(f: seq<HorseId>, ids: seq<HorseId>)
    requires Distinct(f) && Distinct(ids)
    requires forall x :: x in f ==> x in ids
    ensures |f| <= |ids|
    decreases |f|
  {
    if f != [] {
      var x := f[|f| - 1];
      assert x in f;
      var k :| 0 <= k < |ids| && ids[k] == x;
      var ids' := ids[..k] + ids[k + 1..];
      var f' := f[..|f| - 1];
      forall y | y in f' ensures y in ids' {
        var a :| 0 <= a < |f'| && f'[a] == y;
        assert y != x;
        assert y in ids;
        var b :| 0 <= b < |ids| && ids[b] == y;
        if b < k { assert ids'[b] == y; } else { assert ids'[b - 1] == y; }
      }
      assert Distinct(ids') by {
        forall a, b | 0 <= a < b < |ids'| ensures ids'[a] != ids'[b] {
          var a0 := if a < k then a else a + 1;
          var b0 := if b < k then b else b + 1;
          assert ids'[a] == ids[a0] && ids'[b] == ids[b0];
        }
      }
      DistinctSubsetLength(f', ids');
    }
  }

  class Race {
    const id: RaceId
    const name: string
    const grade: Grade
    const tier: ClassTier
    const course: Course
    const distance: int

    var entrants: seq<Horse>
    var state: RaceState
    /** The six per-horse dictionaries (進捗, 横位置, 現在速度, スタミナ残量,
        スタート遅延ティック, 不発フラグ), kept together. */
    var sims: SimMaps
    var finishOrder: seq<HorseId>

    /** `new レース()` with its defaults: a 1200 m turf maiden race, open for
        bets, with no entrants, no progress and no finishers. */
    constructor Default(id: RaceId)
      ensures this.id == id && name == "未勝利戦" && grade == General && tier == Maiden
      ensures course == Turf && distance == 1200
      ensures state == AcceptingBets && entrants == [] && finishOrder == [] && sims == NoSims
      ensures Valid()
    {
      this.id, name, grade, tier, course, distance := id, "未勝利戦", General, Maiden, Turf, 1200;
      entrants, state, finishOrder, sims := [], AcceptingBets, [], NoSims;
    }

    /** An object initializer that sets the race's card and leaves the
        entry list, the maps and the finish list empty. */
    constructor (id: RaceId, name: string, grade: Grade, tier: ClassTier, course: Course, distance: int)
      requires distance > 0
      ensures this.id == id && this.name == name && this.grade == grade && this.tier == tier
      ensures this.course == course && this.distance == distance
      ensures state == AcceptingBets && entrants == [] && finishOrder == [] && sims == NoSims
      ensures Valid()
    {
      this.id, this.name, this.grade, this.tier, this.course, this.distance := id, name, grade, tier, course, distance;
      entrants, state, finishOrder, sims := [], AcceptingBets, [], NoSims;
    }

    /** Writes a new state of the maps and the finish list into a race
        that has closed its betting; the new state keeps the invariant. */
    method SetRunState(m: SimMaps, finish: seq<HorseId>)
      requires Valid() && state != AcceptingBets && SimInvariant(IdsOf(entrants), m, finish)
      modifies this`sims, this`finishOrder
      ensures Valid() && sims == m && finishOrder == finish
    {
      sims, finishOrder := m, finish;
    }

    /** Writes a new entry list and its maps into a race still open for
        bets; the new state keeps the invariant. */
    method SetEntries(hs: seq<Horse>, m: SimMaps)
      requires Valid() && state == AcceptingBets
      requires Distinct(IdsOf(hs)) && SimInvariant(IdsOf(hs), m, [])
      modifies this`entrants, this`sims
      ensures Valid() && entrants == hs && sims == m
    {
      entrants, sims := hs, m;
    }

    ghost predicate Valid()
      reads this
    {
      && distance > 0
      && Distinct(IdsOf(entrants))
      && SimInvariant(IdsOf(entrants), sims, finishOrder)
      && (state == AcceptingBets ==> finishOrder == [])
    }
  }

  /** 馬券. `targets` is the target-horse list; an empty one stands for the
      single horse `horseId`. */
  datatype Ticket = Ticket(raceId: RaceId, horseId: HorseId, horseName: string, kind: TicketKind,
                           targets: seq<HorseId>, stake: real, odds: real, settled: bool, payout: real)

  /** `new 馬券()` with its defaults: a win ticket, unsettled, paying nothing. */
  function DefaultTicket(): (t: Ticket)
    ensures t.kind == Win && !t.settled && t.payout == 0.0
    ensures t.raceId == "" && t.horseId == "" && t.targets == [] && t.stake == 0.0 && t.odds == 0.0
  {
    Ticket("", "", "", Win, [], 0.0, 0.0, false, 0.0)
  }

  const InitialBalance: real := 1000000000000.0

  /** 相場師: the player, with a balance, owned horses and bought tickets. */
  class Trader {
    var balance: real
    var ownedHorses: seq<Horse>
    var tickets: seq<Ticket>

    constructor ()
      ensures balance == InitialBalance && ownedHorses == [] && tickets == []
    {
      balance, ownedHorses, tickets := InitialBalance, [], [];
    }
  }

  /** レース収支: what one race took in and paid out, per category. */
  datatype RaceLedger = RaceLedger(raceId: RaceId, raceName: string, settledAt: real,
                                   winSales: real, placeSales: real,
                                   winPayout: real, placePayout: real)
  {
    /** All stakes taken in on the race. */
    function TotalSales(): real {
      winSales + placeSales
    }

    /** All payouts made on the race. */
    function TotalPayout(): real {
      winPayout + placePayout
    }

    /** The house's profit: takings minus payouts. */
    function Profit(): real {
      TotalSales() - TotalPayout()
    }
  }
}
