/** The player's wallet and ticket ledger (Services/WalletService.cs): buying
    tickets against the market's current odds, paying for things, rewriting
    the odds of a race's open tickets when its betting closes, and settling a
    finished race's tickets once.

    Tickets are values held in the trader's ticket list; where the service
    mutates a ticket object in place, the model writes the list entry back.
    The balance-changed event is not modelled. */
module Wallets {
  import opened Numerics
  import opened Seqs
  import opened Domain
  import opened OddsMarket

  // ---------------------------------------------------------------------
  // Buying a ticket.

  /** The odds printed on a ticket when the market quotes none: 100/speed
      × 5, rounded to one decimal place. A speed of 0 makes the service's
      decimal division throw, so there is no fallback for it. */
  function FallbackOdds(speed: int): (o: real)
    requires speed != 0
    ensures IsTenth(o)
    ensures 500.0 / (speed as real) - 0.05 <= o <= 500.0 / (speed as real) + 0.05
  {
    var x := 100.0 / (speed as real) * 5.0;
    assert x == 500.0 / (speed as real);
    RoundTenth(x)
  }

  /** A faster horse never gets a longer fallback price. */
  lemma FallbackAntitone(s1: int, s2: int)
    requires 0 < s1 <= s2
    ensures FallbackOdds(s2) <= FallbackOdds(s1)
  {
    DivAntitone(100.0, s1 as real, s2 as real);
    assert 100.0 / (s2 as real) * 5.0 <= 100.0 / (s1 as real) * 5.0;
    RoundTenthMonotone(100.0 / (s2 as real) * 5.0, 100.0 / (s1 as real) * 5.0);
  }

  /** For the speeds horses are generated with, the fallback price lies in
      [5.0, 500.0]: always a real price, never below the market's minimum. */
  lemma FallbackRange(speed: int)
    requires 0 < speed <= 100
    ensures 5.0 <= FallbackOdds(speed) <= 500.0
  {
    FallbackAntitone(speed, 100);
    FallbackAntitone(1, speed);
    assert RoundHalfEven(50.0) == 50;
    assert RoundHalfEven(5000.0) == 5000;
    assert 100.0 / (100 as real) * 5.0 == 5.0;
    assert 100.0 / (1 as real) * 5.0 == 500.0;
  }

  /** The odds a purchase writes on its ticket, from the market's quote:
      the quote when it is positive, otherwise the fallback; None when the
      fallback divides by zero. */
  function TicketOdds(quoted: real, speed: int): (o: Option<real>)
    ensures o.None? <==> quoted <= 0.0 && speed == 0
    ensures quoted > 0.0 ==> o == Some(quoted)
    ensures quoted <= 0.0 && speed != 0 ==> o == Some(FallbackOdds(speed))
  {
    if quoted > 0.0 then Some(quoted)
    else if speed == 0 then None
    else Some(FallbackOdds(speed))
  }

  /** Whatever the market quotes (0 or a price in [1.1, 200]), a horse of
      generated speed always gets a price of at least 1.1 on its ticket. */
  lemma TicketOddsPriced(quoted: real, speed: int)
    requires quoted == 0.0 || MinOdds <= quoted <= MaxOdds
    requires 0 < speed <= 100
    ensures TicketOdds(quoted, speed).Some? && TicketOdds(quoted, speed).value >= MinOdds
  {
    if quoted <= 0.0 {
      FallbackRange(speed);
    }
  }

  /** The ticket a purchase appends: unsettled, nothing paid, the bought
      horse as its only target. */
  function NewTicket(rid: RaceId, h: Horse, kind: TicketKind, amount: real, odds: real): (t: Ticket)
    ensures t.raceId == rid && t.horseId == h.id && t.horseName == h.name && t.targets == [h.id]
    ensures t.kind == kind && t.stake == amount && t.odds == odds && !t.settled && t.payout == 0.0
  {
    Ticket(rid, h.id, h.name, kind, [h.id], amount, odds, false, 0.0)
  }

  /** How a purchase ends: turned away for lack of funds, bought, or
      aborted by the division by zero after the balance was debited. */
  datatype Outcome = Rejected | Bought | Faulted

  /** The stakes and pools of `after` are those of `before` with the wager
      on `id` added in the chosen category. */
  ghost predicate Forwarded(before: Book, after: Book, id: HorseId, amount: real, place: bool) {
    && id in before.winStakes && id in before.placeStakes
    && var b := Stake(before, id, amount, place);
    && after.winStakes == b.winStakes && after.placeStakes == b.placeStakes
    && after.winPool == b.winPool && after.placePool == b.placePool
  }

  // ---------------------------------------------------------------------
  // Settling a finished race.

  /** What a winning ticket pays: its stake times its odds. */
  function PayoutOf(t: Ticket): real {
    t.stake * t.odds
  }

  /** A ticket's target horses; an empty list stands for the bought horse. */
  function TargetsOf(t: Ticket): (ids: seq<HorseId>)
    ensures ids != [] && (t.targets != [] ==> ids == t.targets)
  {
    if t.targets != [] then t.targets else [t.horseId]
  }

  /** The tickets a race's handlers work on: that race's, not yet settled. */
  predicate Due(t: Ticket, rid: RaceId) {
    t.raceId == rid && !t.settled
  }

  /** Some element of one list occurs in the other. */
  predicate Overlaps(xs: seq<HorseId>, ys: seq<HorseId>) {
    exists x :: x in xs && x in ys
  }

  /** A winning ticket: a win ticket naming the winner, or a place ticket
      naming a horse among the placed finishers. Other kinds never win. */
  predicate Hits(t: Ticket, winner: HorseId, placed: seq<HorseId>) {
    || (t.kind == Win && winner in TargetsOf(t))
    || (t.kind == Place && Overlaps(TargetsOf(t), placed))
  }

  /** One ticket after settlement: a due ticket is marked settled and, when
      it wins, pays stake × odds; its other fields stay. */
  function Settle(t: Ticket, rid: RaceId, winner: HorseId, placed: seq<HorseId>): (s: Ticket)
    ensures !Due(t, rid) ==> s == t
    ensures Due(t, rid) ==> s.settled && s == t.(settled := true, payout := s.payout)
    ensures Due(t, rid) && Hits(t, winner, placed) ==> s.payout == PayoutOf(t)
    ensures Due(t, rid) && !Hits(t, winner, placed) ==> s.payout == t.payout
  {
    if !Due(t, rid) then t
    else if Hits(t, winner, placed) then t.(payout := PayoutOf(t), settled := true)
    else t.(settled := true)
  }

  /** What settling one ticket credits to the balance. */
  function Credit(t: Ticket, rid: RaceId, winner: HorseId, placed: seq<HorseId>): (c: real)
    ensures Due(t, rid) && Hits(t, winner, placed) ==> c == Settle(t, rid, winner, placed).payout
    ensures !(Due(t, rid) && Hits(t, winner, placed)) ==> c == 0.0
    ensures t.stake >= 0.0 && t.odds >= 0.0 ==> c >= 0.0
  {
    if Due(t, rid) && Hits(t, winner, placed) then PayoutOf(t) else 0.0
  }

  /** The ticket list after settling a race, entry by entry. */
  function SettleAll(ts: seq<Ticket>, rid: RaceId, winner: HorseId, placed: seq<HorseId>): (r: seq<Ticket>)
    ensures |r| == |ts|
    ensures forall i :: 0 <= i < |ts| ==> r[i] == Settle(ts[i], rid, winner, placed)
    decreases |ts|
  {
    if ts == [] then []
    else SettleAll(ts[..|ts| - 1], rid, winner, placed) + [Settle(ts[|ts| - 1], rid, winner, placed)]
  }

  /** The total credited by settling a race. */
  function Winnings(ts: seq<Ticket>, rid: RaceId, winner: HorseId, placed: seq<HorseId>): real
    decreases |ts|
  {
    if ts == [] then 0.0
    else Winnings(ts[..|ts| - 1], rid, winner, placed) + Credit(ts[|ts| - 1], rid, winner, placed)
  }

  /** Settling never takes money away when stakes and odds are not negative. */
  lemma {:induction false} WinningsNonNegative(ts: seq<Ticket>, rid: RaceId, winner: HorseId, placed: seq<HorseId>)
    requires forall i :: 0 <= i < |ts| ==> ts[i].stake >= 0.0 && ts[i].odds >= 0.0
    ensures Winnings(ts, rid, winner, placed) >= 0.0
    decreases |ts|
  {
    if ts != [] {
      WinningsNonNegative(ts[..|ts| - 1], rid, winner, placed);
    }
  }

  /** After settlement no ticket of the race is due any more. */
  lemma SettledNoneDue(ts: seq<Ticket>, rid: RaceId, winner: HorseId, placed: seq<HorseId>)
    ensures forall i :: 0 <= i < |ts| ==> !Due(SettleAll(ts, rid, winner, placed)[i], rid)
  {
  }

  /** A settled list credits nothing when settled again. */
  lemma {:induction false} NothingDueNoWinnings(ts: seq<Ticket>, rid: RaceId, winner: HorseId, placed: seq<HorseId>)
    requires forall i :: 0 <= i < |ts| ==> !Due(ts[i], rid)
    ensures Winnings(ts, rid, winner, placed) == 0.0
    decreases |ts|
  {
    if ts != [] {
      NothingDueNoWinnings(ts[..|ts| - 1], rid, winner, placed);
    }
  }

  /** Processing the same race twice: the second pass changes no ticket and
      credits nothing. */
  lemma SettleTwice(ts: seq<Ticket>, rid: RaceId, winner: HorseId, placed: seq<HorseId>)
    ensures var once := SettleAll(ts, rid, winner, placed);
      && SettleAll(once, rid, winner, placed) == once
      && Winnings(once, rid, winner, placed) == 0.0
  {
    var once := SettleAll(ts, rid, winner, placed);
    SettledNoneDue(ts, rid, winner, placed);
    NothingDueNoWinnings(once, rid, winner, placed);
  }

  /** A list grown by one ticket credits that ticket's share on top. */
  lemma WinningsStep(ts: seq<Ticket>, i: nat, rid: RaceId, winner: HorseId, placed: seq<HorseId>)
    requires i < |ts|
    ensures Winnings(ts[..i + 1], rid, winner, placed) == Winnings(ts[..i], rid, winner, placed) + Credit(ts[i], rid, winner, placed)
    ensures SettleAll(ts[..i + 1], rid, winner, placed) == SettleAll(ts[..i], rid, winner, placed) + [Settle(ts[i], rid, winner, placed)]
  {
    assert ts[..i + 1][..i] == ts[..i];
  }

  // ---------------------------------------------------------------------
  // Rewriting odds when betting closes.

  /** One ticket when race `rid` closes: a due ticket takes the market's
      locked odds for its horse in its category (place odds for a place
      ticket, win odds for every other kind). */
  function Relock(t: Ticket, rid: RaceId, m: Market): (r: Ticket)
    reads m`snapshots, m`live
    ensures !Due(t, rid) ==> r == t
    ensures Due(t, rid) ==> r == t.(odds := r.odds) && m.Looked(rid, t.horseId, t.kind == Place, r.odds)
  {
    if !Due(t, rid) then t
    else if t.kind == Place then t.(odds := m.LockedPlaceOdds(rid, t.horseId))
    else t.(odds := m.LockedWinOdds(rid, t.horseId))
  }

  /** The ticket list after race `rid` closes. */
  function RelockAll(ts: seq<Ticket>, rid: RaceId, m: Market): (r: seq<Ticket>)
    reads m`snapshots, m`live
    ensures |r| == |ts|
    ensures forall i :: 0 <= i < |ts| ==> r[i] == Relock(ts[i], rid, m)
    decreases |ts|
  {
    if ts == [] then []
    else RelockAll(ts[..|ts| - 1], rid, m) + [Relock(ts[|ts| - 1], rid, m)]
  }

  /** Closing a race touches only its open tickets, and only their odds;
      in a valid market each gets a price in [1.1, 200], or 0 for a horse
      the market does not know; closing again changes nothing more. */
  lemma RelockAllShape(ts: seq<Ticket>, rid: RaceId, m: Market)
    requires m.Valid()
    ensures var r := RelockAll(ts, rid, m);
      && (forall i :: 0 <= i < |ts| && !Due(ts[i], rid) ==> r[i] == ts[i])
      && (forall i :: 0 <= i < |ts| ==> r[i] == ts[i].(odds := r[i].odds))
      && (forall i :: 0 <= i < |ts| ==> r[i].odds == ts[i].odds || r[i].odds == 0.0 || MinOdds <= r[i].odds <= MaxOdds)
      && RelockAll(r, rid, m) == r
  {
    var r := RelockAll(ts, rid, m);
    forall i | 0 <= i < |ts|
      ensures Relock(r[i], rid, m) == r[i]
      ensures r[i].odds == ts[i].odds || r[i].odds == 0.0 || MinOdds <= r[i].odds <= MaxOdds
    {
      if Due(ts[i], rid) {
        m.QuoteSound(rid, ts[i].horseId, ts[i].kind == Place);
        if ts[i].kind == Place {
          assert r[i].odds == m.LockedPlaceOdds(rid, ts[i].horseId);
        } else {
          assert r[i].odds == m.LockedWinOdds(rid, ts[i].horseId);
        }
      }
    }
  }

  /** Relocking against a race's snapshot gives each open ticket whose
      horse the snapshot prices exactly the frozen odds. */
  lemma RelockFrozen(ts: seq<Ticket>, rid: RaceId, m: Market, i: nat)
    requires i < |ts| && Due(ts[i], rid) && rid in m.snapshots
    requires ts[i].horseId in OddsOf(m.snapshots[rid], ts[i].kind == Place)
    ensures RelockAll(ts, rid, m)[i] == ts[i].(odds := OddsOf(m.snapshots[rid], ts[i].kind == Place)[ts[i].horseId])
  {
    assert RelockAll(ts, rid, m)[i] == Relock(ts[i], rid, m);
  }

  /** A winning open ticket of a race that closed and then finished is paid
      its stake times the odds the market locked for its horse. */
  lemma PaidAtLockedOdds(ts: seq<Ticket>, rid: RaceId, m: Market, winner: HorseId, placed: seq<HorseId>, i: nat)
    requires i < |ts| && Due(ts[i], rid)
    requires Hits(ts[i], winner, placed)
    ensures var l := RelockAll(ts, rid, m)[i];
      && m.Looked(rid, ts[i].horseId, ts[i].kind == Place, l.odds)
      && SettleAll(RelockAll(ts, rid, m), rid, winner, placed)[i].settled
      && l.stake == ts[i].stake
      && SettleAll(RelockAll(ts, rid, m), rid, winner, placed)[i].payout == PayoutOf(l)
  {
    var r := RelockAll(ts, rid, m);
    assert r[i] == ts[i].(odds := r[i].odds);
    SettledPays(r, i, rid, winner, placed);
  }

  /** A winning open ticket is paid its stake times its odds. */
  lemma SettledPays(ts: seq<Ticket>, i: nat, rid: RaceId, winner: HorseId, placed: seq<HorseId>)
    requires i < |ts| && Due(ts[i], rid) && Hits(ts[i], winner, placed)
    ensures SettleAll(ts, rid, winner, placed)[i].settled
    ensures SettleAll(ts, rid, winner, placed)[i].payout == PayoutOf(ts[i])
  {
  }

  class Wallet {
    /** ユーザー. */
    const user: Trader
    /** The market the wallet forwards wagers to and reads odds from. */
    const market: Market

    /** The service is built over the market; its user starts with the
        initial balance and nothing bought. */
    constructor (m: Market)
      ensures market == m && fresh(user)
      ensures user.balance == InitialBalance && user.ownedHorses == [] && user.tickets == []
    {
      market := m;
      user := new Trader();
    }

    /** 馬券購入: with the balance below the amount nothing happens;
        otherwise the amount is debited, the ticket is priced at the
        market's current odds for the horse (or the fallback), appended, and
        the same wager goes to the market. An amount of 0 is accepted. */
    method Purchase(r: Race, h: Horse, amount: real, kind: TicketKind) returns (outcome: Outcome)
      requires market.Valid()
      modifies user`balance, user`tickets, market`live
      ensures market.Valid()
      ensures outcome == Rejected <==> old(user.balance) < amount
      ensures outcome == Rejected ==>
        user.balance == old(user.balance) && user.tickets == old(user.tickets) && market.live == old(market.live)
      ensures outcome != Rejected ==> user.balance == old(user.balance) - amount
      ensures var o := old(TicketOdds(market.Quote(market.raceId, h.id, kind == Place), h.speed));
        && (outcome == Faulted <==> outcome != Rejected && o.None?)
        && (outcome == Faulted ==> user.tickets == old(user.tickets) && market.live == old(market.live))
        && (outcome == Bought ==> user.tickets == old(user.tickets) + [NewTicket(r.id, h, kind, amount, o.value)])
      ensures outcome == Bought && h.id in old(market.keys) ==>
        Forwarded(old(market.live), market.live, h.id, amount, kind == Place)
      ensures outcome == Bought && h.id !in old(market.keys) ==> market.live == old(market.live)
    {
      if user.balance < amount {
        return Rejected;
      }
      user.balance := user.balance - amount;
      var quoted := if kind == Place then market.CurrentPlaceOdds(h.id) else market.CurrentWinOdds(h.id);
      var odds := TicketOdds(quoted, h.speed);
      if odds.None? {
        return Faulted;
      }
      user.tickets := user.tickets + [NewTicket(r.id, h, kind, amount, odds.value)];
      market.PlayerWager(h.id, amount, kind);
      outcome := Bought;
    }

    /** 馬券購入 without a kind buys a win ticket. */
    method PurchaseWin(r: Race, h: Horse, amount: real) returns (outcome: Outcome)
      requires market.Valid()
      modifies user`balance, user`tickets, market`live
      ensures market.Valid()
      ensures outcome == Rejected <==> old(user.balance) < amount
      ensures outcome == Rejected ==> user.balance == old(user.balance) && user.tickets == old(user.tickets)
      ensures outcome == Bought ==>
        && user.balance == old(user.balance) - amount
        && |user.tickets| == |old(user.tickets)| + 1 && user.tickets[..|old(user.tickets)|] == old(user.tickets)
        && user.tickets[|old(user.tickets)|].kind == Win
    {
      outcome := Purchase(r, h, amount, Win);
    }

    /** 支払い: debits the amount when the balance covers it. The balance
        therefore never goes below zero through a payment. */
    method Pay(amount: real)
      modifies user`balance
      ensures user.balance == if old(user.balance) < amount then old(user.balance) else old(user.balance) - amount
      ensures old(user.balance) >= 0.0 ==> user.balance >= 0.0
    {
      if user.balance < amount {
        return;
      }
      user.balance := user.balance - amount;
    }

    /** レース結果処理: without a first finisher who is an entrant nothing
        happens; otherwise every open ticket on the race is settled once,
        its winnings credited, and a second call finds none open. */
    method ProcessRaceResult(r: Race)
      modifies user`balance, user`tickets
      ensures r.finishOrder == [] || r.finishOrder[0] !in IdsOf(r.entrants) ==>
        user.balance == old(user.balance) && user.tickets == old(user.tickets)
      ensures r.finishOrder != [] && r.finishOrder[0] in IdsOf(r.entrants) ==>
        var placed := Take(r.finishOrder, PlaceSlots(|r.entrants|));
        && user.tickets == SettleAll(old(user.tickets), r.id, r.finishOrder[0], placed)
        && user.balance == old(user.balance) + Winnings(old(user.tickets), r.id, r.finishOrder[0], placed)
    {
      if r.finishOrder == [] {
        return;
      }
      var winner := r.finishOrder[0];
      if winner !in IdsOf(r.entrants) {
        return;
      }
      var placed := Take(r.finishOrder, PlaceSlots(|r.entrants|));
      var settled, credit := SettleTickets(user.tickets, r.id, winner, placed);
      user.tickets := settled;
      user.balance := user.balance + credit;
    }

    /** レース結果処理's loop over the ticket list: every open ticket on the
        race is settled in place and its winnings summed. */
    method SettleTickets(ts: seq<Ticket>, rid: RaceId, winner: HorseId, placed: seq<HorseId>)
      returns (out: seq<Ticket>, credit: real)
      ensures out == SettleAll(ts, rid, winner, placed)
      ensures credit == Winnings(ts, rid, winner, placed)
    {
      out, credit := ts, 0.0;
      var i := 0;
      while i < |out|
        invariant 0 <= i <= |ts| && |out| == |ts|
        invariant forall k :: 0 <= k < i ==> out[k] == Settle(ts[k], rid, winner, placed)
        invariant forall k :: i <= k < |ts| ==> out[k] == ts[k]
        invariant credit == Winnings(ts[..i], rid, winner, placed)
      {
        var t := out[i];
        if t.raceId == rid && !t.settled {
          var s, c := SettleTicket(t, winner, placed);
          out := out[i := s];
          credit := credit + c;
        }
        WinningsStep(ts, i, rid, winner, placed);
        i := i + 1;
      }
      assert ts[..i] == ts;
    }

    /** The body of レース結果処理's loop for one open ticket: a win ticket
        naming the winner, or a place ticket naming a placed horse, is paid
        stake × odds; every one is marked settled. */
    method SettleTicket(t: Ticket, winner: HorseId, placed: seq<HorseId>) returns (s: Ticket, credit: real)
      requires !t.settled
      ensures s == Settle(t, t.raceId, winner, placed)
      ensures credit == Credit(t, t.raceId, winner, placed)
    {
      s, credit := t, 0.0;
      var targets := if t.targets != [] then t.targets else [t.horseId];
      if t.kind == Win && winner in targets {
        s := s.(payout := t.stake * t.odds);
        credit := s.payout;
      } else if t.kind == Place {
        if Overlaps(targets, placed) {
          s := s.(payout := t.stake * t.odds);
          credit := s.payout;
        }
      }
      s := s.(settled := true);
    }

    /** The locked odds 投票締切処理 writes on one ticket: place odds for a
        place ticket, win odds for every other kind. */
    method LockedOddsFor(rid: RaceId, t: Ticket) returns (odds: real)
      ensures Relock(t, rid, market) == if Due(t, rid) then t.(odds := odds) else t
    {
      odds := if t.kind == Place then market.LockedPlaceOdds(rid, t.horseId)
              else market.LockedWinOdds(rid, t.horseId);
    }

    /** 投票締切処理: every open ticket on the closed race takes the odds the
        market locked for its horse; other tickets stay as they are. */
    method OnBettingLocked(rid: RaceId)
      modifies user`tickets
      ensures user.tickets == RelockAll(old(user.tickets), rid, market)
    {
      user.tickets := RelockTickets(user.tickets, rid);
    }

    /** 投票締切処理's loop over the ticket list: each open ticket on the
        race has its odds rewritten in place. */
    method RelockTickets(ts: seq<Ticket>, rid: RaceId) returns (out: seq<Ticket>)
      ensures out == RelockAll(ts, rid, market)
    {
      out := ts;
      var i := 0;
      while i < |out|
        invariant 0 <= i <= |ts| && |out| == |ts|
        invariant forall k :: 0 <= k < i ==> out[k] == Relock(ts[k], rid, market)
        invariant forall k :: i <= k < |ts| ==> out[k] == ts[k]
      {
        var t := out[i];
        if t.raceId == rid && !t.settled {
          var odds := LockedOddsFor(rid, t);
          out := out[i := t.(odds := odds)];
        }
        i := i + 1;
      }
    }

    /** The market's 状態変化 with the wallet subscribed to its betting-closed
        event: when the market freezes the race, the race's open tickets
        are relocked against the snapshot just taken (RelockFrozen says
        what they then hold). */
    method OnRaceStateChanged(r: Race) returns (closed: bool)
      requires market.Valid()
      modifies market`snapshots, market`locked, user`tickets
      ensures market.Valid()
      ensures closed <==> old(r.state == Running && !market.locked && market.raceId == r.id)
      ensures !closed ==> user.tickets == old(user.tickets) && market.snapshots == old(market.snapshots)
      ensures closed ==> market.snapshots == old(market.snapshots)[r.id := old(market.live)]
      ensures closed ==> user.tickets == RelockAll(old(user.tickets), r.id, market)
    {
      closed := market.OnStateChanged(r);
      if closed {
        OnBettingLocked(r.id);
      }
    }
  }
}
