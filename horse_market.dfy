/** The horse market (Services/HorseMarketService.cs): a sale list of five
    freshly generated two-year-olds priced by ability, refreshed on demand,
    from which the player buys a horse with the wallet's money. The random
    draws and the generated names are parameters. */
module HorseMarkets {
  import opened Seqs
  import opened Domain
  import opened Population
  import opened Wallets

  /** How many horses a refresh puts on sale. */
  const SaleCount: nat := 5
  const SaleAge: int := 2

  /** The draws one sale horse consumes: speed and stamina (Next(50, 200)),
      sex (Next(2)), running style (Next(4)) and coat (Next(8)); the id is a
      fresh GUID prefix and the three names come from the name generator. */
  datatype SaleDraw = SaleDraw(id: HorseId, name: string, sireName: string, damName: string,
                               speed: int, stamina: int, sexDraw: int, styleDraw: int, colorDraw: int)
  {
    predicate InRange() {
      && 50 <= speed < 200 && 50 <= stamina < 200
      && 0 <= sexDraw < 2 && 0 <= styleDraw < 4 && 0 <= colorDraw < |Colors|
    }
  }

  /** The asking price: ten per point of speed plus stamina. */
  function SalePrice(speed: int, stamina: int): (p: real)
    ensures p == 10.0 * (speed as real) + 10.0 * (stamina as real)
  {
    ((speed + stamina) * 10) as real
  }

  /** Every horse a refresh can produce costs between 1000 and 3980. */
  lemma SalePriceRange(d: SaleDraw)
    requires d.InRange()
    ensures 1000.0 <= SalePrice(d.speed, d.stamina) <= 3980.0
  {
  }

  /** `h` is the sale horse made from draw `d`: the drawn names, sex, coat,
      style, speed and stamina, priced by SalePrice, two years old, and
      otherwise a default horse (active newcomer, gate 0, condition 100,
      never raced). */
  ghost predicate OnSaleFrom(h: Horse, d: SaleDraw)
    requires d.InRange()
    reads h
  {
    && h.id == d.id && h.name == d.name && h.sireName == d.sireName && h.damName == d.damName
    && h.sex == SexOf(d.sexDraw) && h.style == StyleOf(d.styleDraw) && h.coat == Colors[d.colorDraw]
    && h.speed == d.speed && h.stamina == d.stamina && h.acceleration == 0
    && h.price == SalePrice(d.speed, d.stamina) && h.age == SaleAge
    && h.gate == 0 && h.condition == DefaultCondition && h.status == Active && h.tier == Newcomer
    && h.fatigue == 0 && h.lastRun == NeverRan && h.runs == 0 && h.wins == 0 && h.earnings == 0.0
  }

  /** The object initializer of one sale horse. */
  method NewSaleHorse(d: SaleDraw) returns (h: Horse)
    requires d.InRange()
    ensures fresh(h) && OnSaleFrom(h, d)
  {
    h := new Horse(d.id, d.name, SexOf(d.sexDraw), Colors[d.colorDraw], d.speed, d.stamina,
                   0, StyleOf(d.styleDraw), 0, DefaultCondition, d.sireName, d.damName,
                   SalePrice(d.speed, d.stamina), SaleAge, Active, Newcomer);
  }

  /** 馬市場サービス over the wallet that pays for and owns the horses. */
  class HorseMarket {
    const wallet: Wallet
    var forSale: seq<Horse>

    /** The sale list never holds the same horse twice. */
    ghost predicate Valid()
      reads this
    {
      Distinct(forSale)
    }

    /** The service opens with a refreshed sale list. */
    constructor (w: Wallet, draws: seq<SaleDraw>)
      requires |draws| == SaleCount && forall i :: 0 <= i < |draws| ==> draws[i].InRange()
      ensures wallet == w && Valid()
      ensures |forSale| == SaleCount
      ensures forall i :: 0 <= i < SaleCount ==> fresh(forSale[i]) && OnSaleFrom(forSale[i], draws[i])
    {
      wallet := w;
      forSale := [];
      new;
      Refresh(draws);
    }

    /** 市場更新: the old list is dropped and exactly five new horses, one
        per draw and in draw order, go on sale. */
    method Refresh(draws: seq<SaleDraw>)
      requires |draws| == SaleCount && forall i :: 0 <= i < |draws| ==> draws[i].InRange()
      modifies this`forSale
      ensures Valid() && |forSale| == SaleCount
      ensures forall i :: 0 <= i < SaleCount ==> fresh(forSale[i]) && OnSaleFrom(forSale[i], draws[i])
    {
      var list: seq<Horse> := [];
      for i := 0 to SaleCount
        invariant |list| == i && Distinct(list)
        invariant forall k :: 0 <= k < i ==> fresh(list[k]) && OnSaleFrom(list[k], draws[k])
      {
        var h := NewSaleHorse(draws[i]);
        list := list + [h];
      }
      forSale := list;
    }

    /** 馬購入: refused, with nothing changed, when the balance is below the
        price or the horse is not on sale; otherwise the price is debited,
        the horse is appended to the user's horses and its first occurrence
        leaves the sale list. */
    method Buy(h: Horse) returns (bought: bool)
      requires Valid()
      modifies wallet.user`balance, wallet.user`ownedHorses, this`forSale
      ensures Valid()
      ensures bought <==> old(wallet.user.balance) >= h.price && h in old(forSale)
      ensures !bought ==> && wallet.user.balance == old(wallet.user.balance)
                          && wallet.user.ownedHorses == old(wallet.user.ownedHorses)
                          && forSale == old(forSale)
      ensures bought ==> && wallet.user.balance == old(wallet.user.balance) - h.price
                         && wallet.user.ownedHorses == old(wallet.user.ownedHorses) + [h]
                         && forSale == RemoveFirst(old(forSale), h)
                         && h !in forSale
    {
      if wallet.user.balance < h.price {
        return false;
      }
      if h !in forSale {
        return false;
      }
      wallet.Pay(h.price);
      wallet.user.ownedHorses := wallet.user.ownedHorses + [h];
      RemoveFirstDistinct(forSale, h);
      forSale := RemoveFirst(forSale, h);
      bought := true;
    }
  }
}
