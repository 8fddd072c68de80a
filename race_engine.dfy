/** The race engine (Services/RaceEngineService.cs): race generation, the
    queue of upcoming races, player registration, and the game loop's three
    phases (fatigue recovery, the voting countdown, the running tick and the
    finish). Timers, DateTime.Now and the random generator are replaced by
    parameters: the caller passes the time and the draws of each call. */
module RaceEngine {
  import opened Numerics
  import opened Seqs
  import opened Domain
  import opened RaceFormulas
  import opened RaceTick
  import opened Population

  const UpcomingCount: nat := 3
  const FieldSize: nat := 8
  const VotingTicks: int := 200
  const RecoveryInterval: int := 100
  const RaceFatigue: int := 30
  const FatigueCap: int := 100
  const WinnerPrize: real := 1000000.0

  /** The draws one entrant's start consumes: the lane noise, the failed-kick
      draw, the base delay, the slow-start draw and the extra delay. */
  datatype EntryDraw = EntryDraw(lateral: real, kick: real, baseDelay: int, late: real, extra: int)
  {
    predicate InRange() {
      0.0 <= lateral < 1.0 && 0.0 <= kick < 1.0 && 0 <= baseDelay < 6 && 0.0 <= late < 1.0 && 6 <= extra < 16
    }
  }

  /** The draws one generated race consumes: its id (a GUID), the clock's
      tick count modulo 1000, the class, grade, course and distance draws,
      the shuffle keys of the entrant selection, and one entry draw per
      selected entrant. */
  datatype RaceDraw = RaceDraw(id: RaceId, serial: nat, classDraw: real, gradeDraw: real,
                               courseDraw: real, distanceDraw: int, keys: nat -> int,
                               entries: seq<EntryDraw>)
  {
    predicate InRange() {
      && serial < 1000 && 0.0 <= classDraw < 1.0 && 0.0 <= gradeDraw < 1.0
      && 0.0 <= courseDraw < 1.0 && 3 <= distanceDraw < 8
      && |entries| >= FieldSize && forall k :: 0 <= k < |entries| ==> entries[k].InRange()
    }
  }

  /** A race's card before its entrants are drawn. */
  datatype Card = Card(tier: ClassTier, grade: Grade, course: Course, suffix: string, distance: int)

  function CourseFromDraw(c: real): Course {
    if c < 0.5 then Turf else if c < 0.9 then Dirt else if c < 0.98 then Steeplechase else Cyberspace
  }

  /** レース生成's card: 40 % maiden, 20 % each of 1-win and 2-win, 10 %
      3-win, 10 % open, of which half are the G1; the course; 400 m times a
      draw in [3, 8). A cyberspace race is always named 電脳賞. */
  function CardOf(d: RaceDraw): (c: Card)
    requires d.InRange()
    ensures c.tier != Newcomer
    ensures c.grade == G1 ==> c.tier == Open
    ensures c.grade == G1 <==> d.classDraw >= 0.9 && d.gradeDraw > 0.5
    ensures c.course == Cyberspace <==> c.suffix == "電脳賞"
    ensures 1200 <= c.distance <= 2800 && c.distance % 400 == 0
  {
    var r := d.classDraw;
    var g := d.gradeDraw;
    var tier := if r < 0.4 then Maiden else if r < 0.6 then OneWin else if r < 0.8 then TwoWin
                else if r < 0.9 then ThreeWin else Open;
    var grade := if r >= 0.9 && g > 0.5 then G1 else General;
    var suffix := if r < 0.4 then "未勝利戦" else if r < 0.6 then "1勝クラス" else if r < 0.8 then "2勝クラス"
                  else if r < 0.9 then "3勝クラス" else if g > 0.5 then "G1 天皇賞" else "オープン特別";
    var course := CourseFromDraw(d.courseDraw);
    Card(tier, grade, course, if course == Cyberspace then "電脳賞" else suffix, d.distanceDraw * 400)
  }

  /** The race name: 第, the serial, 回, a space and the suffix. */
  function RaceName(serial: nat, suffix: string): (s: string)
    ensures |s| == |DecimalText(serial)| + 3 + |suffix|
    ensures s[..1] == "第" && s[1 + |DecimalText(serial)|..3 + |DecimalText(serial)|] == "回 "
    ensures s[|s| - |suffix|..] == suffix
    ensures s[1..1 + |DecimalText(serial)|] == DecimalText(serial)
    ensures ParseDecimal(s[1..1 + |DecimalText(serial)|]) == serial
  {
    var digits := DecimalText(serial);
    DecimalTextRoundTrip(serial);
    var s := "第" + digits + "回 " + suffix;
    assert s[1..1 + |digits|] == digits;
    assert s[1 + |digits|..3 + |digits|] == "回 ";
    assert s[|s| - |suffix|..] == suffix;
    s
  }

  /** The class check of 出走登録: the same class, a debut horse in a maiden
      race, or an open horse in the G1. */
  predicate ClassEligible(horse: ClassTier, tier: ClassTier, grade: Grade) {
    horse == tier || (horse == Newcomer && tier == Maiden) || (horse == Open && grade == G1)
  }

  /** No generated race is for debut horses, so a debut horse can enter a
      generated race exactly when it is a maiden race; and an open horse can
      enter exactly the open races (G1 or not). */
  lemma EligibleForGeneratedRace(d: RaceDraw, horse: ClassTier)
    requires d.InRange()
    ensures horse == Newcomer ==> (ClassEligible(horse, CardOf(d).tier, CardOf(d).grade) <==> CardOf(d).tier == Maiden)
    ensures horse == Open ==> (ClassEligible(horse, CardOf(d).tier, CardOf(d).grade) <==> CardOf(d).tier == Open)
  {
  }

  /** The maps with one entrant's six start entries written: progress 0,
      the start lane, the start speed (60 % of cruise), the start delay, a
      full stamina, and the failed-kick flag. */
  function WithStart(m: SimMaps, h: Horse, e: EntryDraw): (r: SimMaps)
    requires e.InRange()
    ensures r.progress.Keys == m.progress.Keys + {h.id}
  {
    SimMaps(m.progress[h.id := 0.0], m.lateral[h.id := InitialLateral(h.style, e.lateral)],
            m.speed[h.id := InitialCruise(h.speed) * StartSpeedRatio], m.stamina[h.id := 1.0],
            m.delay[h.id := StartDelay(h.gate, e.baseDelay, e.late, e.extra)],
            m.failedKick[h.id := FailedKickDraw(h.style, e.kick)])
  }

  /** The six start entries of an entrant. */
  ghost predicate StartsAt(m: SimMaps, h: Horse, e: EntryDraw)
    requires e.InRange()
  {
    && h.id in m.progress && m.progress[h.id] == 0.0
    && h.id in m.lateral && m.lateral[h.id] == InitialLateral(h.style, e.lateral)
    && h.id in m.failedKick && m.failedKick[h.id] == FailedKickDraw(h.style, e.kick)
    && h.id in m.speed && m.speed[h.id] == InitialCruise(h.speed) * StartSpeedRatio
    && h.id in m.delay && m.delay[h.id] == StartDelay(h.gate, e.baseDelay, e.late, e.extra)
    && h.id in m.stamina && m.stamina[h.id] == 1.0
  }

  /** A newcomer with start entries keeps the invariant of a race whose
      finish list is empty, and has its start entries; the other entrants'
      entries are untouched. */
  lemma WithStartKeepsInvariant(ids: seq<HorseId>, m: SimMaps, h: Horse, e: EntryDraw)
    requires e.InRange() && Distinct(ids) && h.id !in ids
    requires SimInvariant(ids, m, [])
    ensures Distinct(ids + [h.id]) && SimInvariant(ids + [h.id], WithStart(m, h, e), [])
    ensures StartsAt(WithStart(m, h, e), h, e)
  {
    var ids' := ids + [h.id];
    var r := WithStart(m, h, e);
    forall id | id in ids'
      ensures id in r.progress && id in r.lateral && id in r.speed && id in r.stamina
              && id in r.delay && id in r.failedKick
      ensures 0.0 <= r.progress[id] <= 1.0 && LateralMin <= r.lateral[id] <= LateralMax
              && 0.0 <= r.stamina[id] <= 1.0 && r.delay[id] >= 0 && r.progress[id] != 1.0
    {
      if id != h.id { assert id in ids; }
    }
  }

  /** Dropping the last entrant, and its progress entry, keeps the
      invariant of a race whose finish list is empty. */
  lemma DropLastKeepsInvariant(ids: seq<HorseId>, m: SimMaps)
    requires ids != [] && Distinct(ids) && SimInvariant(ids, m, [])
    ensures var ids' := ids[..|ids| - 1];
      Distinct(ids') && SimInvariant(ids', m.(progress := m.progress - {ids[|ids| - 1]}), [])
  {
    var ids' := ids[..|ids| - 1];
    forall id | id in ids' ensures id != ids[|ids| - 1] && id in ids {
      var k :| 0 <= k < |ids'| && ids'[k] == id;
      assert ids[k] == id;
    }
  }

  /** Adds a horse to a race open for bets and writes its six start
      entries; the race stays valid. */
  method Enter(r: Race, h: Horse, e: EntryDraw)
    requires r.Valid() && r.state == AcceptingBets && e.InRange()
    requires h.id !in IdsOf(r.entrants)
    modifies r`entrants, r`sims
    ensures r.Valid() && StartsAt(r.sims, h, e)
    ensures r.entrants == old(r.entrants) + [h]
    ensures r.sims == WithStart(old(r.sims), h, e)
  {
    var ids0 := IdsOf(r.entrants);
    WithStartKeepsInvariant(ids0, r.sims, h, e);
    r.entrants := r.entrants + [h];
    r.sims := WithStart(r.sims, h, e);
    assert IdsOf(r.entrants) == ids0 + [h.id];
  }

  /** The maps after the start entries of `hs` are written in order, the
      k-th entrant using the k-th entry draw. */
  function Starts(m: SimMaps, hs: seq<Horse>, es: seq<EntryDraw>): (r: SimMaps)
    requires |es| == |hs| && forall k :: 0 <= k < |es| ==> es[k].InRange()
    decreases |hs|
  {
    if hs == [] then m
    else
      var n := |hs| - 1;
      var r := WithStart(Starts(m, hs[..n], es[..n]), hs[n], es[n]);
      assert hs == hs[..n] + [hs[n]];
      r
  }

  /** Writing the start entries of horses with distinct ids, from a race
      with no entrants, gives a race whose invariant holds, and every one of
      them has exactly its own six start entries. */
  lemma StartsSound(m: SimMaps, hs: seq<Horse>, es: seq<EntryDraw>)
    requires |es| == |hs| && forall k :: 0 <= k < |es| ==> es[k].InRange()
    requires Distinct(IdsOf(hs))
    ensures SimInvariant(IdsOf(hs), Starts(m, hs, es), [])
    ensures forall k :: 0 <= k < |hs| ==> StartsAt(Starts(m, hs, es), hs[k], es[k])
  {
    StartsEntries(m, hs, es);
    var r := Starts(m, hs, es);
    forall id | id in IdsOf(hs)
      ensures id in r.progress && id in r.lateral && id in r.speed && id in r.stamina
              && id in r.delay && id in r.failedKick
      ensures 0.0 <= r.progress[id] <= 1.0 && LateralMin <= r.lateral[id] <= LateralMax
              && 0.0 <= r.stamina[id] <= 1.0 && r.delay[id] >= 0 && r.progress[id] != 1.0
    {
      var k :| 0 <= k < |hs| && IdsOf(hs)[k] == id;
      assert StartsAt(r, hs[k], es[k]);
    }
  }

  /** The induction behind StartsSound: each horse keeps its own start
      entries while the later ones are written. */
  lemma {:induction false} StartsEntries(m: SimMaps, hs: seq<Horse>, es: seq<EntryDraw>)
    requires |es| == |hs| && forall k :: 0 <= k < |es| ==> es[k].InRange()
    requires Distinct(IdsOf(hs))
    ensures forall k :: 0 <= k < |hs| ==> StartsAt(Starts(m, hs, es), hs[k], es[k])
    decreases |hs|
  {
    if hs != [] {
      var n := |hs| - 1;
      var init, last := hs[..n], hs[n];
      assert IdsOf(init) == IdsOf(hs)[..n];
      DistinctInit(IdsOf(hs));
      StartsEntries(m, init, es[..n]);
      var m0 := Starts(m, init, es[..n]);
      assert Starts(m, hs, es) == WithStart(m0, last, es[n]);
      StartsKept(m0, init, es[..n], last, es[n]);
      WithStartAt(m0, last, es[n]);
    }
  }

  /** Writing one more entrant's start entries leaves the others' alone. */
  lemma StartsKept(m: SimMaps, hs: seq<Horse>, es: seq<EntryDraw>, other: Horse, e: EntryDraw)
    requires |es| == |hs| && forall k :: 0 <= k < |es| ==> es[k].InRange()
    requires e.InRange() && other.id !in IdsOf(hs)
    requires forall k :: 0 <= k < |hs| ==> StartsAt(m, hs[k], es[k])
    ensures forall k :: 0 <= k < |hs| ==> StartsAt(WithStart(m, other, e), hs[k], es[k])
  {
    forall k | 0 <= k < |hs| ensures StartsAt(WithStart(m, other, e), hs[k], es[k]) {
      assert IdsOf(hs)[k] == hs[k].id;
    }
  }

  /** The entrant written last has its start entries. */
  lemma WithStartAt(m: SimMaps, h: Horse, e: EntryDraw)
    requires e.InRange()
    ensures StartsAt(WithStart(m, h, e), h, e)
  {
  }

  /** The entry loop of レース生成: each chosen horse in turn joins the
      race with its own start entries. */
  method EnterAll(r: Race, hs: seq<Horse>, es: seq<EntryDraw>)
    requires r.Valid() && r.state == AcceptingBets && r.entrants == []
    requires |es| == |hs| && forall k :: 0 <= k < |es| ==> es[k].InRange()
    requires Distinct(IdsOf(hs))
    modifies r`entrants, r`sims
    ensures r.Valid() && r.entrants == hs && r.sims == Starts(old(r.sims), hs, es)
  {
    var m0 := r.sims;
    var m := m0;
    var i := 0;
    while i < |hs|
      invariant 0 <= i <= |hs|
      invariant m == Starts(m0, hs[..i], es[..i])
    {
      m := WithStart(m, hs[i], es[i]);
      assert hs[..i + 1][..i] == hs[..i] && es[..i + 1][..i] == es[..i];
      i := i + 1;
    }
    assert hs[..i] == hs && es[..i] == es;
    StartsSound(m0, hs, es);
    r.SetEntries(hs, m);
  }

  /** The id of the race's winner: the first finisher, provided it is an
      entrant (FirstOrDefault on the finish list, then on the entry list). */
  function WinnerId(finish: seq<HorseId>, entrants: seq<Horse>): (w: Option<HorseId>)
    ensures w.Some? <==> finish != [] && finish[0] in IdsOf(entrants)
    ensures w.Some? ==> w.value == finish[0]
  {
    if finish != [] && finish[0] in IdsOf(entrants) then Some(finish[0]) else None
  }

  /** A horse is the winner. */
  predicate IsWinner(w: Option<HorseId>, id: HorseId) {
    w.Some? && w.value == id
  }

  /** The card of the race is the one CardOf draws, and every entrant has
      the start entries of its own entry draw. */
  ghost predicate IsGenerated(r: Race, d: RaceDraw)
    requires d.InRange()
    reads r
  {
    var c := CardOf(d);
    && r.id == d.id && r.name == RaceName(d.serial, c.suffix) && r.grade == c.grade
    && r.tier == c.tier && r.course == c.course && r.distance == c.distance
    && |r.entrants| <= |d.entries|
    && r.sims == Starts(NoSims, r.entrants, d.entries[..|r.entrants|])
    && (forall k :: 0 <= k < |r.entrants| ==> StartsAt(r.sims, r.entrants[k], d.entries[k]))
  }

  /** A new race with the card of `d` and the chosen horses as entrants. */
  method NewRace(d: RaceDraw, chosen: seq<Horse>) returns (r: Race)
    requires d.InRange() && |chosen| <= FieldSize && Distinct(IdsOf(chosen))
    ensures fresh(r) && Queued(r) && r.finishOrder == [] && r.entrants == chosen
    ensures IsGenerated(r, d)
  {
    var c := CardOf(d);
    r := new Race(d.id, RaceName(d.serial, c.suffix), c.grade, c.tier, c.course, c.distance);
    var es := d.entries[..|chosen|];
    EnterAll(r, chosen, es);
    StartsSound(NoSims, chosen, es);
  }

  /** A race in the queue: valid, open for bets, at most eight entrants. */
  ghost predicate Queued(r: Race)
    reads r
  {
    r.Valid() && r.state == AcceptingBets && |r.entrants| <= FieldSize
  }

  ghost predicate AllQueued(rs: seq<Race>)
    reads rs
  {
    forall k :: 0 <= k < |rs| ==> Queued(rs[k])
  }

  /** A queue stays queued when each race either is untouched or is
      queued again. */
  twostate lemma AllQueuedStable(rs: seq<Race>)
    requires old(AllQueued(rs)) && forall k :: 0 <= k < |rs| ==> unchanged(rs[k]) || Queued(rs[k])
    ensures AllQueued(rs)
  {
  }

  /** The conditions under which 出走登録 accepts a horse for a race. */
  predicate CanRegister(h: Horse, r: Race)
    reads h, r
  {
    r.state == AcceptingBets && h.id !in IdsOf(r.entrants) && ClassEligible(h.tier, r.tier, r.grade)
  }

  /** The entrants a field keeps when a newcomer joins: all of them, or all
      but the last when the field is full. */
  function Kept(hs: seq<Horse>): (k: seq<Horse>)
    ensures |hs| < FieldSize ==> k == hs
    ensures |hs| >= FieldSize ==> k == hs[..|hs| - 1]
  {
    if |hs| >= FieldSize then hs[..|hs| - 1] else hs
  }

  /** The maps a field keeps when a newcomer joins: only the progress entry
      of a dropped entrant goes. */
  function KeptSims(hs: seq<Horse>, m: SimMaps): (k: SimMaps)
    ensures |hs| < FieldSize ==> k == m
    ensures |hs| >= FieldSize ==> k == m.(progress := m.progress - {hs[|hs| - 1].id})
  {
    if |hs| >= FieldSize then m.(progress := m.progress - {hs[|hs| - 1].id}) else m
  }

  /** Drops the last entrant of a race open for bets, with its progress
      entry; the race stays valid. */
  method DropLast(r: Race)
    requires r.Valid() && r.state == AcceptingBets && r.entrants != []
    modifies r`entrants, r`sims
    ensures r.Valid() && r.entrants == old(r.entrants)[..|old(r.entrants)| - 1]
    ensures r.sims == old(r.sims).(progress := old(r.sims).progress - {old(r.entrants)[|old(r.entrants)| - 1].id})
  {
    var out := r.entrants[|r.entrants| - 1];
    var ids0 := IdsOf(r.entrants);
    DropLastKeepsInvariant(ids0, r.sims);
    r.entrants := r.entrants[..|r.entrants| - 1];
    r.sims := r.sims.(progress := r.sims.progress - {out.id});
    assert IdsOf(r.entrants) == ids0[..|ids0| - 1];
  }

  /** 出走登録 on a queued race: refused when the race no longer takes
      bets, the horse is already entered, or its class does not fit;
      otherwise a full field loses its last entrant and the horse joins
      with fresh start entries. */
  method RegisterIn(r: Race, h: Horse, e: EntryDraw) returns (ok: bool)
    requires Queued(r) && e.InRange()
    modifies r`entrants, r`sims
    ensures Queued(r)
    ensures ok <==> old(CanRegister(h, r))
    ensures !ok ==> r.entrants == old(r.entrants) && r.sims == old(r.sims)
    ensures ok ==> r.entrants == Kept(old(r.entrants)) + [h]
                   && r.sims == WithStart(KeptSims(old(r.entrants), old(r.sims)), h, e)
  {
    if r.state != AcceptingBets { return false; }
    if h.id in IdsOf(r.entrants) { return false; }
    if !ClassEligible(h.tier, r.tier, r.grade) { return false; }
    if |r.entrants| >= FieldSize {
      DropLast(r);
    }
    Enter(r, h, e);
    ok := true;
  }

  /** レース運用サービス: the current race, the queue of upcoming races, and
      the two tick counters of the game loop. */
  class Engine {
    const population: PopulationManager
    var current: Race
    var upcoming: seq<Race>
    var voteTicks: int
    var recoveryTicks: int

    ghost predicate Valid()
      reads this, population, current, upcoming
    {
      && population.Valid()
      && current.Valid() && |current.entrants| <= FieldSize
      && AllQueued(upcoming)
      && current !in upcoming && Distinct(upcoming) && |upcoming| <= UpcomingCount
      && 0 <= voteTicks <= VotingTicks && 0 <= recoveryTicks < RecoveryInterval
    }

    /** The constructor: generates the current race, then fills the queue. */
    constructor (population: PopulationManager, first: RaceDraw, more: seq<RaceDraw>, now: real)
      requires population.Valid() && first.InRange()
      requires |more| >= UpcomingCount && forall k :: 0 <= k < |more| ==> more[k].InRange()
      ensures Valid() && |upcoming| == UpcomingCount && this.population == population
      ensures voteTicks == 0 && recoveryTicks == 0 && current.state == AcceptingBets
    {
      this.population := population;
      voteTicks, recoveryTicks := 0, 0;
      upcoming := [];
      current := new Race.Default(first.id);
      new;
      current := QueueRace(first, now);
      var added := GenerateRaces(more[..UpcomingCount], now);
      assert current !in added;
      upcoming := added;
    }

    /** レース生成: draws the card, selects up to eight entrants of the
        race's class from the population, and gives each its start entries. */
    method GenerateRace(d: RaceDraw, now: real) returns (r: Race)
      requires population.Valid() && d.InRange()
      ensures fresh(r) && Queued(r) && r.finishOrder == []
      ensures r.id == d.id && r.tier == CardOf(d).tier && IsGenerated(r, d)
      ensures r.entrants == old(SelectEntrants(population.horses, CardOf(d).tier, FieldSize, now, d.keys))
    {
      var chosen := SelectEntrants(population.horses, CardOf(d).tier, FieldSize, now, d.keys);
      SelectEntrantsSound(population.horses, CardOf(d).tier, FieldSize, now, d.keys);
      r := NewRace(d, chosen);
    }

    /** 予定レース補充: generates races at the end of the queue until it
        holds three. */
    method Refill(draws: seq<RaceDraw>, now: real)
      requires Valid()
      requires |draws| >= UpcomingCount - |upcoming| && forall k :: 0 <= k < |draws| ==> draws[k].InRange()
      modifies this`upcoming
      ensures Valid() && |upcoming| == UpcomingCount && upcoming[..|old(upcoming)|] == old(upcoming)
      ensures forall k :: |old(upcoming)| <= k < UpcomingCount ==>
        fresh(upcoming[k]) && upcoming[k].id == draws[k - |old(upcoming)|].id
        && upcoming[k].tier == CardOf(draws[k - |old(upcoming)|]).tier
    {
      var added := GenerateRaces(draws[..UpcomingCount - |upcoming|], now);
      upcoming := upcoming + added;
    }

    /** A generated race, seen only through what the queue needs of it. */
    method QueueRace(d: RaceDraw, now: real) returns (r: Race)
      requires population.Valid() && d.InRange()
      ensures fresh(r) && Queued(r) && r.finishOrder == [] && r.id == d.id && r.tier == CardOf(d).tier
    {
      r := GenerateRace(d, now);
    }

    /** The loop of 予定レース補充: one new race per draw. */
    method GenerateRaces(draws: seq<RaceDraw>, now: real) returns (added: seq<Race>)
      requires population.Valid() && forall k :: 0 <= k < |draws| ==> draws[k].InRange()
      ensures |added| == |draws| && AllQueued(added)
      ensures forall k :: 0 <= k < |added| ==>
        fresh(added[k]) && added[k].id == draws[k].id && added[k].tier == CardOf(draws[k]).tier
      ensures Distinct(added)
    {
      added := [];
      for i := 0 to |draws|
        invariant |added| == i && AllQueued(added) && Distinct(added)
        invariant forall k :: 0 <= k < i ==> fresh(added[k])
        invariant forall k :: 0 <= k < i ==> added[k].id == draws[k].id && added[k].tier == CardOf(draws[k]).tier
      {
        label L:
        var r := QueueRace(draws[i], now);
        AllQueuedStable@L(added);
        added := added + [r];
      }
    }

    /** 次のレース: the head of the queue, if any. */
    function NextRace(): (r: Option<Race>)
      reads this
      ensures r.None? <==> upcoming == []
      ensures r.Some? ==> r.value == upcoming[0]
    {
      if upcoming == [] then None else Some(upcoming[0])
    }

    /** 出走登録 for the player: the horse is registered in the next race
      of the queue, as RegisterIn says; refused when the queue is empty. */
    method Register(h: Horse, e: EntryDraw) returns (ok: bool)
      requires Valid() && e.InRange()
      modifies if |upcoming| > 0 then {upcoming[0]} else {}
      ensures Valid()
      ensures ok <==> |upcoming| > 0 && old(CanRegister(h, upcoming[0]))
      ensures !ok && |upcoming| > 0 ==> unchanged(upcoming[0])
      ensures ok ==> (upcoming[0].entrants == Kept(old(upcoming[0].entrants)) + [h]
                      && upcoming[0].sims == WithStart(KeptSims(old(upcoming[0].entrants), old(upcoming[0].sims)), h, e))
    {
      if upcoming == [] { return false; }
      var r := upcoming[0];
      label L:
      ok := RegisterIn(r, h, e);
      AllQueuedStable@L(upcoming);
    }

    /** 投票残り秒: the whole seconds left to bet, rounded up; zero once the
        current race has closed. */
    function RemainingVoteSeconds(): (s: int)
      reads this, current
      ensures current.state != AcceptingBets ==> s == 0
      ensures current.state == AcceptingBets ==>
        s >= 0 && 10 * s >= MaxI(0, VotingTicks - voteTicks) > 10 * (s - 1)
    {
      if current.state != AcceptingBets then 0
      else (MaxI(0, VotingTicks - voteTicks) + 9) / 10
    }

    /** The fatigue phase of ゲームループ: every hundredth tick, the whole
        population recovers. */
    method RecoveryTick()
      requires Valid()
      modifies this`recoveryTicks, population.horses`fatigue
      ensures Valid()
      ensures recoveryTicks == (old(recoveryTicks) + 1) % RecoveryInterval
      ensures old(recoveryTicks) + 1 == RecoveryInterval ==>
        forall i :: 0 <= i < |population.horses| ==>
          population.horses[i].fatigue == Recovered(old(population.horses[i].fatigue))
      ensures old(recoveryTicks) + 1 < RecoveryInterval ==>
        forall i :: 0 <= i < |population.horses| ==>
          population.horses[i].fatigue == old(population.horses[i].fatigue)
    {
      recoveryTicks := recoveryTicks + 1;
      if recoveryTicks >= RecoveryInterval {
        population.RecoverAll();
        recoveryTicks := 0;
      }
    }

    /** The voting phase of ゲームループ: counts a tick, and after the 200th
        closes betting by starting the race. */
    method VotingTick()
      requires Valid() && current.state == AcceptingBets
      modifies this`voteTicks, current`state
      ensures Valid()
      ensures old(voteTicks) + 1 > VotingTicks ==> current.state == Running && voteTicks == 0
      ensures old(voteTicks) + 1 <= VotingTicks ==> current.state == AcceptingBets && voteTicks == old(voteTicks) + 1
    {
      voteTicks := voteTicks + 1;
      if voteTicks > VotingTicks {
        current.state := Running;
        voteTicks := 0;
      }
    }

    /** The running phase of ゲームループ on the current race: the tick of
        RunTick; it reports whether every entrant had already finished. */
    method RunningTick(draws: seq<real>, pow16: real -> real) returns (allDone: bool)
      requires Valid() && current.state == Running
      requires |draws| == |current.entrants|
      modifies current`sims, current`finishOrder
      ensures Valid() && current.entrants == old(current.entrants)
      ensures TickState(current.sims, current.finishOrder, allDone)
              == TickOf(old(current.entrants), old(current.sims), old(current.finishOrder), current.distance, draws, pow16)
    {
      label L:
      allDone := RunTick(current, draws, pow16);
      AllQueuedStable@L(upcoming);
    }

    /** The end of the running phase, once a tick reports that every
        entrant had finished: the race closes and the entrants' careers are
        updated as RecordFinish says. */
    method FinishRace(now: real)
      requires Valid()
      modifies current`state, current.entrants
      ensures Valid() && current.state == Finished && current.entrants == old(current.entrants)
      ensures FinishedFrom(current.entrants, old(CareersOf(current.entrants)),
                           WinnerId(current.finishOrder, current.entrants), now)
    {
      label L:
      RecordFinish(current, now);
      AllQueuedStable@L(upcoming);
    }

    /** 次のレースへ: the head of the queue (a new race if the queue is
        empty) becomes the current race, the voting countdown restarts, and
        the queue is refilled to three. */
    method Advance(draws: seq<RaceDraw>, now: real)
      requires Valid()
      requires |draws| >= UpcomingCount + 1 && forall k :: 0 <= k < |draws| ==> draws[k].InRange()
      modifies this`current, this`upcoming, this`voteTicks
      ensures Valid() && voteTicks == 0 && |upcoming| == UpcomingCount
      ensures old(upcoming) != [] ==> current == old(upcoming)[0] && upcoming[..|old(upcoming)| - 1] == old(upcoming)[1..]
      ensures old(upcoming) == [] ==> fresh(current) && current.id == draws[0].id
      ensures current.state == AcceptingBets
    {
      var rest := draws;
      if upcoming == [] {
        var r := QueueRace(draws[0], now);
        upcoming := [r];
        rest := draws[1..];
      }
      current := upcoming[0];
      upcoming := upcoming[1..];
      voteTicks := 0;
      Refill(rest, now);
    }
  }

  /** The tick of a race: the fold of Turn over its entry list, against the
      snapshot taken from the maps at the start. */
  function TickOf(hs: seq<Horse>, m0: SimMaps, finish0: seq<HorseId>, distance: int,
                  draws: seq<real>, pow16: real -> real): TickState
    requires |draws| == |hs| && distance > 0
    requires forall id :: id in IdsOf(hs) ==> id in m0.progress
  {
    var f := FieldOf(IdsOf(hs), m0.progress, m0.lateral, distance);
    TickPrefix(f, hs, draws, distance, pow16, TickState(m0, finish0, true), |hs|)
  }

  /** What a tick promises (TickSound): the invariant is kept, every
      entrant moves as TickRelation allows, finishers are only added, and
      the race is over exactly when every entrant had already finished. */
  lemma TickOfSound(hs: seq<Horse>, m0: SimMaps, finish0: seq<HorseId>, distance: int,
                    draws: seq<real>, pow16: real -> real)
    requires |draws| == |hs| && distance > 0
    requires Distinct(IdsOf(hs)) && SimInvariant(IdsOf(hs), m0, finish0)
    ensures var s := TickOf(hs, m0, finish0, distance, draws, pow16);
      && SimInvariant(IdsOf(hs), s.m, s.finish)
      && (forall id :: id in IdsOf(hs) ==> TickRelation(m0, s.m, id))
      && finish0 <= s.finish
      && (s.allDone <==> forall id :: id in IdsOf(hs) ==> m0.progress[id] == 1.0)
  {
    TickSound(FieldOf(IdsOf(hs), m0.progress, m0.lateral, distance), hs, draws, distance, pow16, m0, finish0);
  }

  /** The running branch of ゲームループ for one race: each entrant short of
      the line takes its step against the snapshot, writing its entries in
      the race's maps, and joins the finish list on reaching the line. The
      race's maps and finish list become those of TickOf, and the race stays
      valid. The loop works on a copy of the maps (TickValues), written back
      once at the end; nothing else reads the maps during the loop. */
  method RunTick(r: Race, draws: seq<real>, pow16: real -> real) returns (allDone: bool)
    requires r.Valid() && r.state == Running && |draws| == |r.entrants|
    modifies r`sims, r`finishOrder
    ensures r.Valid() && r.entrants == old(r.entrants)
    ensures TickState(r.sims, r.finishOrder, allDone)
            == TickOf(old(r.entrants), old(r.sims), old(r.finishOrder), r.distance, draws, pow16)
  {
    var hs, m, finish, distance := r.entrants, r.sims, r.finishOrder, r.distance;
    var s := TickValues(hs, m, finish, distance, draws, pow16);
    TickOfSound(hs, m, finish, distance, draws, pow16);
    r.SetRunState(s.m, s.finish);
    allDone := s.allDone;
  }

  /** The loop over the entry list: after i passes the state is the fold
      of the first i turns. */
  method TickValues(hs: seq<Horse>, m0: SimMaps, finish0: seq<HorseId>, distance: int,
                    draws: seq<real>, pow16: real -> real) returns (s: TickState)
    requires |draws| == |hs| && distance > 0
    requires forall id :: id in IdsOf(hs) ==> id in m0.progress
    ensures s == TickOf(hs, m0, finish0, distance, draws, pow16)
  {
    var f := FieldOf(IdsOf(hs), m0.progress, m0.lateral, distance);
    var s0 := TickState(m0, finish0, true);
    s := s0;
    var i := 0;
    while i < |hs|
      invariant 0 <= i <= |hs|
      invariant s == TickPrefix(f, hs, draws, distance, pow16, s0, i)
      invariant s.m.progress.Keys == m0.progress.Keys
    {
      assert hs[i].id == f.ids[i];
      s := TakeTurn(f, hs[i], draws[i], distance, pow16, s);
      i := i + 1;
    }
  }

  /** One pass of the running loop's body: a horse short of the line
      clears the all-finished flag and takes its step (a delayed horse only
      counts its delay down and gets its start speed; a moving one gets a
      new lane, speed, stamina and progress), and joins the finish list on
      reaching the line. */
  method TakeTurn(f: Field, h: Horse, draw: real, distance: int, pow16: real -> real, s: TickState)
    returns (s': TickState)
    requires f.WellFormed() && h.id in f.ids && h.id in s.m.progress && distance > 0
    ensures s' == Turn(f, h, draw, distance, pow16, s)
  {
    var m, finish, allDone := s.m, s.finish, s.allDone;
    if m.progress[h.id] < 1.0 {
      allDone := false;
      var u := Step(f, h, m, draw, distance, pow16);
      match u {
        case Delayed(d, v) =>
          m := m.(delay := m.delay[h.id := d], speed := m.speed[h.id := v]);
        case Moved(y, v, st, p) =>
          m := m.(lateral := m.lateral[h.id := y], speed := m.speed[h.id := v],
                  stamina := m.stamina[h.id := st], progress := m.progress[h.id := p]);
      }
      if m.progress[h.id] >= 1.0 && h.id !in finish {
        finish := finish + [h.id];
      }
    }
    s' := TickState(m, finish, allDone);
  }

  /** One entrant's career after the finish: 30 more fatigue (at most
      100), the time of the run and one more run; a winner also gets a win,
      the prize and a promotion. Nothing else changes. */
  function AfterRace(c: Career, won: bool, now: real): (a: Career)
    ensures a.runs == c.runs + 1 && a.lastRun == now && a.status == c.status
    ensures a.fatigue <= FatigueCap && (a.fatigue == FatigueCap || a.fatigue == c.fatigue + RaceFatigue)
    ensures c.fatigue + RaceFatigue <= FatigueCap ==> a.fatigue == c.fatigue + RaceFatigue
    ensures a.wins == c.wins + 1 <==> won
    ensures won ==> a.earnings == c.earnings + WinnerPrize && a.tier == Promote(c.tier)
    ensures !won ==> a.wins == c.wins && a.earnings == c.earnings && a.tier == c.tier
  {
    var c1 := c.(fatigue := MinI(FatigueCap, c.fatigue + RaceFatigue), lastRun := now, runs := c.runs + 1);
    if won then c1.(wins := c.wins + 1, earnings := c.earnings + WinnerPrize, tier := Promote(c.tier))
    else c1
  }

  /** Every entrant's career is the one AfterRace makes of its career
      `before` the finish. */
  ghost predicate FinishedFrom(hs: seq<Horse>, before: seq<Career>, w: Option<HorseId>, now: real)
    reads hs
  {
    |before| == |hs| && forall k :: 0 <= k < |hs| ==> hs[k].CareerOf() == AfterRace(before[k], IsWinner(w, hs[k].id), now)
  }

  /** The finish of ゲームループ: the race is over, and every entrant's
      career is updated as AfterRace says, the first finisher being the
      winner. */
  method RecordFinish(r: Race, now: real)
    requires r.Valid()
    modifies r`state, r.entrants
    ensures r.Valid() && r.state == Finished && r.entrants == old(r.entrants)
    ensures FinishedFrom(r.entrants, old(CareersOf(r.entrants)), WinnerId(r.finishOrder, r.entrants), now)
  {
    r.state := Finished;
    DistinctIdsDistinctHorses(r.entrants);
    RecordCareers(r.entrants, WinnerId(r.finishOrder, r.entrants), now);
  }

  /** The loop over the entrants that writes each one's new career. */
  method RecordCareers(hs: seq<Horse>, w: Option<HorseId>, now: real)
    requires Distinct(hs)
    modifies set h | h in hs
    ensures FinishedFrom(hs, old(CareersOf(hs)), w, now)
  {
    ghost var before := CareersOf(hs);
    var i := 0;
    while i < |hs|
      invariant 0 <= i <= |hs|
      invariant forall k :: 0 <= k < i ==> hs[k].CareerOf() == AfterRace(before[k], IsWinner(w, hs[k].id), now)
      invariant forall k :: i <= k < |hs| ==> hs[k].CareerOf() == before[k]
    {
      var h := hs[i];
      h.SetCareer(AfterRace(h.CareerOf(), IsWinner(w, h.id), now));
      i := i + 1;
    }
  }
}
