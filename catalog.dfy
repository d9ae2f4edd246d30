/**
 * generate_commodities: the seller-to-verticals index, the pool of sellers
 * that have a vertical, and one commodity per draw whose vertical is taken
 * from its seller's own verticals.
 */
module Catalog {
  import opened Opt
  import opened Seqs
  import opened Fixed
  import opened Domain
  import opened Links

  lemma VerticalIdsAppend(ls: seq<SellerVertical>, l: SellerVertical)
    ensures VerticalIds(ls + [l]) == VerticalIds(ls) + [l.verticalId]
  {
  }

  /** Adding one link extends the linked verticals of its seller and of no other seller. */
  lemma LinkedVerticalsAppend(links: seq<SellerVertical>, l: SellerVertical, sid: Id)
    ensures LinkedVerticals(links + [l], sid) ==
      if l.sellerId == sid then LinkedVerticals(links, sid) + [l.verticalId] else LinkedVerticals(links, sid)
  {
    assert (links + [l])[..|links + [l]| - 1] == links;
    var r := Filter(links, SellerIs(sid));
    VerticalIdsAppend(r, l);
  }

  /** seller_to_verticals: every seller id that has links, mapped to its linked vertical ids in table order. */
  method BuildSellerIndex(links: seq<SellerVertical>) returns (index: map<Id, seq<Id>>)
    ensures forall sid :: sid in index <==> LinkedVerticals(links, sid) != []
    ensures forall sid :: sid in index ==> index[sid] == LinkedVerticals(links, sid)
  {
    index := map[];
    var i := 0;
    while i < |links|
      invariant 0 <= i <= |links|
      invariant IndexMatches(index, links[..i])
    {
      var l := links[i];
      var current := if l.sellerId in index then index[l.sellerId] else [];
      IndexStep(index, links, i);
      index := index[l.sellerId := current + [l.verticalId]];
      i := i + 1;
    }
    assert links[..i] == links;
  }

  /** The index holds exactly the sellers with links, each with its linked verticals. */
  ghost predicate IndexMatches(index: map<Id, seq<Id>>, links: seq<SellerVertical>) {
    forall sid :: (sid in index <==> LinkedVerticals(links, sid) != []) && (sid in index ==> index[sid] == LinkedVerticals(links, sid))
  }

  /** Appending one link's vertical to its seller's entry keeps the index matching the longer prefix of the table. */
  lemma IndexStep(index: map<Id, seq<Id>>, links: seq<SellerVertical>, i: nat)
    requires i < |links| && IndexMatches(index, links[..i])
    ensures var l := links[i];
      IndexMatches(index[l.sellerId := (if l.sellerId in index then index[l.sellerId] else []) + [l.verticalId]], links[..i + 1])
  {
    var l := links[i];
    assert links[..i + 1] == links[..i] + [l];
    forall sid ensures LinkedVerticals(links[..i + 1], sid) ==
      if l.sellerId == sid then LinkedVerticals(links[..i], sid) + [l.verticalId] else LinkedVerticals(links[..i], sid)
    {
      LinkedVerticalsAppend(links[..i], l, sid);
    }
  }

  function HasVerticals(links: seq<SellerVertical>): Seller -> bool {
    (s: Seller) => LinkedVerticals(links, s.id) != []
  }

  /** sellers_with_verticals, or every seller when none has a vertical. */
  function SellerPool(sellers: seq<Seller>, links: seq<SellerVertical>): (pool: seq<Seller>)
    ensures pool == [] ==> sellers == []
    ensures forall k :: 0 <= k < |pool| ==> pool[k] in sellers
  {
    var withVerticals := Filter(sellers, HasVerticals(links));
    if withVerticals == [] then sellers else withVerticals
  }

  /** A commodity draw: its id, the seller and vertical positions, the price, the cost factor and the stock. */
  datatype CommodityDraw = CommodityDraw(
    id: Id,
    seller: nat,
    vertical: nat,
    price: Money,
    costFactor: int,
    quantity: nat)

  /**
   * The ranges the source draws from: a seller of the pool, a vertical of
   * that seller (of all verticals when it has none), price in [5, 2000],
   * cost factor in [0.4, 0.8] and stock in 0..5000.
   */
  predicate ValidCommodityDraw(d: CommodityDraw, pool: seq<Seller>, links: seq<SellerVertical>, verticals: seq<Vertical>) {
    && d.seller < |pool|
    && (var linked := LinkedVerticals(links, pool[d.seller].id);
        if linked != [] then d.vertical < |linked| else d.vertical < |verticals|)
    && 50000 <= d.price <= 20000000
    && 4000 <= d.costFactor <= 8000
    && d.quantity <= 5000
  }

  predicate ValidCommodityDraws(draws: seq<CommodityDraw>, sellers: seq<Seller>, links: seq<SellerVertical>, verticals: seq<Vertical>) {
    forall k :: 0 <= k < |draws| ==> ValidCommodityDraw(draws[k], SellerPool(sellers, links), links, verticals)
  }

  /** The cost price: price times the factor (eight decimals), quantized to four. */
  function CostPrice(price: Money, factor: int): Money {
    Quantize(price * factor, 2 * MoneyScale, MoneyScale)
  }

  /** One commodity: the derived counters start at zero. */
  function MakeCommodity(d: CommodityDraw, pool: seq<Seller>, links: seq<SellerVertical>, verticals: seq<Vertical>): Commodity
    requires ValidCommodityDraw(d, pool, links, verticals)
  {
    var seller := pool[d.seller];
    var linked := LinkedVerticals(links, seller.id);
    var vid := if linked != [] then linked[d.vertical] else verticals[d.vertical].id;
    Commodity(d.id, seller.id, vid, d.price, CostPrice(d.price, d.costFactor), d.quantity, 0, 0, 0, 0)
  }

  function Commodities(sellers: seq<Seller>, links: seq<SellerVertical>, verticals: seq<Vertical>, draws: seq<CommodityDraw>): (r: seq<Commodity>)
    requires ValidCommodityDraws(draws, sellers, links, verticals)
    ensures |r| == |draws|
  {
    seq(|draws|, k requires 0 <= k < |draws| => MakeCommodity(draws[k], SellerPool(sellers, links), links, verticals))
  }

  /** generate_commodities. */
  method GenerateCommodities(sellers: seq<Seller>, verticals: seq<Vertical>, links: seq<SellerVertical>, draws: seq<CommodityDraw>)
    returns (commodities: seq<Commodity>)
    requires ValidCommodityDraws(draws, sellers, links, verticals)
    ensures commodities == Commodities(sellers, links, verticals, draws)
  {
    var index := BuildSellerIndex(links);
    var pool := Filter(sellers, HasVerticals(links));
    if pool == [] {
      pool := sellers;
    }
    assert pool == SellerPool(sellers, links);
    commodities := CommodityLoop(index, pool, links, verticals, draws);
  }

  /** The commodity loop over a fixed index and pool: one commodity per draw, in order. */
  method CommodityLoop(index: map<Id, seq<Id>>, pool: seq<Seller>, links: seq<SellerVertical>, verticals: seq<Vertical>, draws: seq<CommodityDraw>)
    returns (commodities: seq<Commodity>)
    requires forall sid :: sid in index <==> LinkedVerticals(links, sid) != []
    requires forall sid :: sid in index ==> index[sid] == LinkedVerticals(links, sid)
    requires forall k :: 0 <= k < |draws| ==> ValidCommodityDraw(draws[k], pool, links, verticals)
    ensures |commodities| == |draws|
    ensures forall k :: 0 <= k < |draws| ==> commodities[k] == MakeCommodity(draws[k], pool, links, verticals)
  {
    commodities := [];
    var k := 0;
    while k < |draws|
      invariant 0 <= k <= |draws|
      invariant |commodities| == k
      invariant forall j :: 0 <= j < k ==> commodities[j] == MakeCommodity(draws[j], pool, links, verticals)
    {
      var c := CommodityOf(index, pool, links, verticals, draws[k]);
      commodities := commodities + [c];
      k := k + 1;
    }
  }

  /** One iteration of the commodity loop: the vertical looked up in the index, else drawn from all verticals. */
  method CommodityOf(index: map<Id, seq<Id>>, pool: seq<Seller>, links: seq<SellerVertical>, verticals: seq<Vertical>, d: CommodityDraw)
    returns (c: Commodity)
    requires forall sid :: sid in index <==> LinkedVerticals(links, sid) != []
    requires forall sid :: sid in index ==> index[sid] == LinkedVerticals(links, sid)
    requires ValidCommodityDraw(d, pool, links, verticals)
    ensures c == MakeCommodity(d, pool, links, verticals)
  {
    var seller := pool[d.seller];
    var vid;
    if seller.id in index {
      vid := index[seller.id][d.vertical];
    } else {
      vid := verticals[d.vertical].id;
    }
    c := Commodity(d.id, seller.id, vid, d.price, CostPrice(d.price, d.costFactor), d.quantity, 0, 0, 0, 0);
  }

  /**
   * When some seller has a vertical, every commodity's seller has one and the
   * commodity's vertical is one of that seller's linked verticals.
   */
  lemma CommodityVerticalLinked(sellers: seq<Seller>, links: seq<SellerVertical>, verticals: seq<Vertical>, draws: seq<CommodityDraw>, k: nat)
    requires ValidCommodityDraws(draws, sellers, links, verticals) && k < |draws|
    requires exists s :: s in sellers && LinkedVerticals(links, s.id) != []
    ensures var c := Commodities(sellers, links, verticals, draws)[k];
      && c.verticalId in LinkedVerticals(links, c.sellerId)
      && SellerVertical(c.sellerId, c.verticalId) in links
  {
    var s :| s in sellers && LinkedVerticals(links, s.id) != [];
    var withVerticals := Filter(sellers, HasVerticals(links));
    FilterKeeps(sellers, HasVerticals(links), s);
    assert SellerPool(sellers, links) == withVerticals;
    var d := draws[k];
    var seller := withVerticals[d.seller];
    assert HasVerticals(links)(seller);
    var c := Commodities(sellers, links, verticals, draws)[k];
    LinkedVerticalIn(links, c.sellerId, d.vertical);
  }

  /** When no seller in the table has a linked vertical (links may still name other seller ids), a commodity's vertical is one of all verticals. */
  lemma CommodityVerticalFallback(sellers: seq<Seller>, links: seq<SellerVertical>, verticals: seq<Vertical>, draws: seq<CommodityDraw>, k: nat)
    requires ValidCommodityDraws(draws, sellers, links, verticals) && k < |draws|
    requires forall s :: s in sellers ==> LinkedVerticals(links, s.id) == []
    ensures var c := Commodities(sellers, links, verticals, draws)[k];
      && c.sellerId in (set s | s in sellers :: s.id)
      && exists v :: 0 <= v < |verticals| && c.verticalId == verticals[v].id
  {
    var pool := SellerPool(sellers, links);
    var d := draws[k];
    assert pool[d.seller] in sellers;
    assert Commodities(sellers, links, verticals, draws)[k].verticalId == verticals[d.vertical].id;
  }

  /** An element that qualifies is selected. */
  lemma {:induction false} FilterKeeps<T>(s: seq<T>, p: T -> bool, x: T)
    requires x in s && p(x)
    ensures Filter(s, p) != []
    decreases |s|
  {
    var n := |s| - 1;
    if s[n] != x {
      assert x in s[..n];
      FilterKeeps(s[..n], p, x);
    }
  }

  /** The j-th linked vertical of a seller comes from one of its links. */
  lemma LinkedVerticalIn(links: seq<SellerVertical>, sid: Id, j: nat)
    requires j < |LinkedVerticals(links, sid)|
    ensures SellerVertical(sid, LinkedVerticals(links, sid)[j]) in links
  {
    var r := Filter(links, SellerIs(sid));
    assert r[j] in links && SellerIs(sid)(r[j]);
    assert r[j] == SellerVertical(sid, LinkedVerticals(links, sid)[j]);
  }

  /** cost_price is price times the factor rounded half-up to four decimals, hence between 40% and 80% of the price up to that rounding. */
  lemma CostPriceBounds(price: Money, factor: int)
    requires price >= 0 && 4000 <= factor <= 8000
    ensures IsHalfUpRounding(price * factor, 10000, CostPrice(price, factor))
    ensures 4 * price - 5 <= 10 * CostPrice(price, factor) <= 8 * price + 5
  {
    var c := CostPrice(price, factor);
    assert Pow10(2 * MoneyScale - MoneyScale) == 10000;
    assert IsHalfUpRounding(price * factor, 10000, c);
    MulMonotone(4000, factor, price);
    MulMonotone(factor, 8000, price);
    assert price * factor == factor * price;
  }
}
