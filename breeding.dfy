/** Retirement and breeding (Services/BreedingService.cs): an active horse
    retires to stud; two retired horses of opposite sex produce a foal whose
    speed and stamina are the parents' integer average plus a mutation,
    clamped to [1, 100]; the foal joins the player's horses under a name
    built from its parents' names. The random draws are parameters. */
module Breeding {
  import opened Numerics
  import opened Domain
  import opened Population
  import opened Wallets

  const FoalAge: int := 2
  const FoalPrice: real := 0.0

  /** The draws one foal consumes, in the order the service makes them:
      the number ending its name (Next(100)), its sex (Next(2)), the speed
      and stamina mutations (Next(-10, 15)) and which parent's coat it takes
      (Next(2)). The id is a fresh GUID prefix from outside. */
  datatype BreedDraw = BreedDraw(id: HorseId, nameNumber: int, sexDraw: int,
                                 speedMutation: int, staminaMutation: int, coatDraw: int)
  {
    predicate InRange() {
      && 0 <= nameNumber < 100 && 0 <= sexDraw < 2
      && -10 <= speedMutation < 15 && -10 <= staminaMutation < 15
      && 0 <= coatDraw < 2
    }
  }

  /** A foal's stat: the parents' average, truncated as C# int division
      does, plus the mutation, clamped to [1, 100]. */
  function InheritedStat(sire: int, dam: int, mutation: int): (s: int)
    ensures 1 <= s <= 100
    ensures 1 <= TruncDiv(sire + dam, 2) + mutation <= 100 ==> s == TruncDiv(sire + dam, 2) + mutation
  {
    ClampInt(TruncDiv(sire + dam, 2) + mutation, 1, 100)
  }

  /** A foal of parents with stats in [1, 100] lands within ten points
      below the weaker parent and fourteen above the stronger one. */
  lemma InheritedNearParents(sire: int, dam: int, mutation: int)
    requires 1 <= sire <= 100 && 1 <= dam <= 100 && -10 <= mutation < 15
    ensures MaxI(1, MinI(sire, dam) - 10) <= InheritedStat(sire, dam, mutation)
    ensures InheritedStat(sire, dam, mutation) <= MinI(100, MaxI(sire, dam) + 14)
  {
    var avg := TruncDiv(sire + dam, 2);
    assert avg == (sire + dam) / 2;
    assert MinI(sire, dam) <= avg <= MaxI(sire, dam);
  }

  /** A larger mutation never gives a weaker foal. */
  lemma InheritedMonotone(sire: int, dam: int, m1: int, m2: int)
    requires m1 <= m2
    ensures InheritedStat(sire, dam, m1) <= InheritedStat(sire, dam, m2)
  {
  }

  /** The first two characters of the sire's name, or all of a shorter one. */
  function SireHead(name: string): (h: string)
    ensures |h| == MinNat(|name|, 2) && h == name[..|h|]
  {
    if |name| > 2 then name[..2] else name
  }

  /** The last two characters of the dam's name, or all of a shorter one. */
  function DamTail(name: string): (t: string)
    ensures |t| == MinNat(|name|, 2) && t == name[|name| - |t|..]
  {
    if |name| > 2 then name[|name| - 2..] else name
  }

  /** 幼名生成: sire's head, dam's tail, then the drawn number in decimal;
      at most six characters for a number below 100. */
  function FoalName(sire: string, dam: string, n: nat): (name: string)
    ensures |SireHead(sire)| + |DamTail(dam)| < |name|
    ensures n < 100 ==> |name| <= 6
  {
    SireHead(sire) + DamTail(dam) + DecimalText(n)
  }

  /** A foal's name can be read back: it starts with the sire's head,
      continues with the dam's tail, and its remaining characters are the
      digits of the drawn number. */
  lemma FoalNameReadsBack(sire: string, dam: string, n: nat)
    ensures var name, k := FoalName(sire, dam, n), |SireHead(sire)|;
      && name[..k] == SireHead(sire)
      && name[k..k + |DamTail(dam)|] == DamTail(dam)
      && (forall i :: k + |DamTail(dam)| <= i < |name| ==> '0' <= name[i] <= '9')
      && ParseDecimal(name[k + |DamTail(dam)|..]) == n
  {
    var h, t, d := SireHead(sire), DamTail(dam), DecimalText(n);
    var name := FoalName(sire, dam, n);
    assert name == h + t + d;
    assert name[..|h|] == h;
    assert name[|h|..|h| + |t|] == t;
    assert name[|h| + |t|..] == d;
    DecimalTextRoundTrip(n);
  }

  /** `f` is the foal of `sire` and `dam` made with draws `d`: named after
      its parents, of the drawn sex and coat, with inherited speed and
      stamina, an active two-year-old debut horse that cost nothing and has
      not run yet; every other property keeps its initialiser (先行, gate 0,
      condition 100, no acceleration, no fatigue, never ran). */
  ghost predicate Foaled(f: Horse, sire: Horse, dam: Horse, d: BreedDraw)
    requires d.InRange()
    reads f
  {
    && f.id == d.id && f.name == FoalName(sire.name, dam.name, d.nameNumber)
    && f.sex == SexOf(d.sexDraw)
    && f.speed == InheritedStat(sire.speed, dam.speed, d.speedMutation)
    && f.stamina == InheritedStat(sire.stamina, dam.stamina, d.staminaMutation)
    && f.coat == (if d.coatDraw == 0 then sire.coat else dam.coat)
    && f.age == FoalAge && f.status == Active && f.price == FoalPrice
    && f.sireName == sire.name && f.damName == dam.name
    && f.style == PacePresser && f.gate == 0 && f.condition == DefaultCondition && f.acceleration == 0
    && f.tier == Newcomer && f.fatigue == 0 && f.lastRun == NeverRan
    && f.runs == 0 && f.wins == 0 && f.earnings == 0.0
  }

  /** 繁殖サービス over the wallet whose user owns the foals. */
  class Breeder {
    const wallet: Wallet

    constructor (w: Wallet)
      ensures wallet == w
    {
      wallet := w;
    }

    /** 引退させる: an active horse becomes retired; any other horse is left
        as it is. */
    method Retire(h: Horse)
      modifies h`status
      ensures h.status == if old(h.status) == Active then Retired else old(h.status)
    {
      if h.status != Active {
        return;
      }
      h.status := Retired;
    }

    /** 繁殖させる: unless both parents are retired and of opposite sex, no
        foal and no change; otherwise a new active, two-year-old, free foal
        with inherited stats, named after its parents, is appended to the
        user's horses and returned. */
    method Breed(sire: Horse, dam: Horse, d: BreedDraw) returns (foal: Option<Horse>)
      requires d.InRange()
      modifies wallet.user`ownedHorses
      ensures foal.None? <==> sire.status != Retired || dam.status != Retired || sire.sex == dam.sex
      ensures foal.None? ==> wallet.user.ownedHorses == old(wallet.user.ownedHorses)
      ensures foal.Some? ==> fresh(foal.value) && wallet.user.ownedHorses == old(wallet.user.ownedHorses) + [foal.value]
      ensures foal.Some? ==> Foaled(foal.value, sire, dam, d)
    {
      if sire.status != Retired || dam.status != Retired {
        return None;
      }
      if sire.sex == dam.sex {
        return None;
      }
      var speed := TruncDiv(sire.speed + dam.speed, 2);
      var stamina := TruncDiv(sire.stamina + dam.stamina, 2);
      var f := new Horse(d.id, FoalName(sire.name, dam.name, d.nameNumber), SexOf(d.sexDraw),
                         if d.coatDraw == 0 then sire.coat else dam.coat,
                         ClampInt(speed + d.speedMutation, 1, 100), ClampInt(stamina + d.staminaMutation, 1, 100),
                         0, PacePresser, 0, DefaultCondition, sire.name, dam.name,
                         FoalPrice, FoalAge, Active, Newcomer);
      wallet.user.ownedHorses := wallet.user.ownedHorses + [f];
      foal := Some(f);
    }
  }
}
