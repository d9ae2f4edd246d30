/**
 * generate_orders_and_related as the source runs it: one pass over the
 * order draws that appends to the four output tables and updates the three
 * running stats maps, then the in-place write-back of the derived fields into
 * the consumer, seller and commodity records.
 */
module OrderGraph {
  import opened Opt
  import opened Seqs
  import opened Fixed
  import opened Domain
  import opened Links
  import opened Orders
  import opened OrderBundles
  import opened Rollup

  /** The entries of consumer_stats, seller_stats and commodity_stats. */
  datatype ConsumerStats = ConsumerStats(orders: nat, spent: Money, firstOrder: Option<Time>)
  datatype SellerStats = SellerStats(orders: nat, sales: Money, ratings: seq<nat>)
  datatype CommodityStats = CommodityStats(sold: nat, ratings: seq<nat>)

  /** A defaultdict read: a missing key reads as the zero entry. */
  function ConsumerEntry(m: map<Id, ConsumerStats>, id: Id): ConsumerStats {
    if id in m then m[id] else ConsumerStats(0, 0, None)
  }

  function SellerEntry(m: map<Id, SellerStats>, id: Id): SellerStats {
    if id in m then m[id] else SellerStats(0, 0, [])
  }

  function CommodityEntry(m: map<Id, CommodityStats>, id: Id): CommodityStats {
    if id in m then m[id] else CommodityStats(0, [])
  }

  datatype Tables = Tables(orders: seq<Order>, lines: seq<OrderLine>, transactions: seq<Transaction>, reviews: seq<Review>)

  datatype Tally = Tally(
    consumers: map<Id, ConsumerStats>,
    sellers: map<Id, SellerStats>,
    commodities: map<Id, CommodityStats>)

  function TablesOf(bs: seq<Bundle>): Tables {
    Tables(OrdersOf(bs), LinesOf(bs), TransactionsOf(bs), ReviewsOf(bs))
  }

  /** The bundles a list of draws adds: the bundle of the draw, or nothing when its consumer has no address. */
  function Emitted(ctx: Context, d: OrderDraw): seq<Bundle>
    requires ValidOrderDraw(ctx, d)
  {
    match StepBundle(ctx, d) case None => [] case Some(b) => [b]
  }

  /** Every consumer_stats entry holds the recomputed count, spend and first order of the orders table. */
  ghost predicate ConsumersMatch(m: map<Id, ConsumerStats>, orders: seq<Order>) {
    forall cid :: ConsumerEntry(m, cid) ==
      ConsumerStats(ConsumerOrderCount(orders, cid), ConsumerSpent(orders, cid), FirstOrder(orders, cid))
  }

  /** Every seller_stats entry holds the recomputed count and sales of the orders table and the ratings of the reviews table. */
  ghost predicate SellersMatch(m: map<Id, SellerStats>, orders: seq<Order>, reviews: seq<Review>) {
    forall sid :: SellerEntry(m, sid) ==
      SellerStats(SellerOrderCount(orders, sid), SellerSales(orders, sid), SellerRatings(reviews, sid))
  }

  /** Every commodity_stats entry holds the recomputed units sold and the ratings of the reviews table. */
  ghost predicate CommoditiesMatch(m: map<Id, CommodityStats>, bs: seq<Bundle>, reviews: seq<Review>) {
    forall mid :: CommodityEntry(m, mid) == CommodityStats(QuantitySold(bs, mid), CommodityRatings(reviews, mid))
  }

  /** Every stats entry holds what recomputation over the tables generated so far gives. */
  ghost predicate TallyMatches(t: Tally, bs: seq<Bundle>) {
    && ConsumersMatch(t.consumers, OrdersOf(bs))
    && SellersMatch(t.sellers, OrdersOf(bs), ReviewsOf(bs))
    && CommoditiesMatch(t.commodities, bs, ReviewsOf(bs))
  }

  /** consumer_addresses: every user id with addresses mapped to them in table order. */
  method GroupAddresses(addresses: seq<Address>) returns (index: map<Id, seq<Address>>)
    ensures forall uid :: uid in index <==> AddressesOfUser(addresses, uid) != []
    ensures forall uid :: uid in index ==> index[uid] == AddressesOfUser(addresses, uid)
  {
    index := map[];
    var i := 0;
    while i < |addresses|
      invariant 0 <= i <= |addresses|
      invariant GroupedBy(index, addresses[..i])
    {
      var a := addresses[i];
      var current := if a.userId in index then index[a.userId] else [];
      GroupStep(index, addresses, i);
      index := index[a.userId := current + [a]];
      i := i + 1;
    }
    assert addresses[..i] == addresses;
  }

  /** The index holds exactly the users with addresses, each with its addresses in table order. */
  ghost predicate GroupedBy(index: map<Id, seq<Address>>, addresses: seq<Address>) {
    forall uid :: (uid in index <==> AddressesOfUser(addresses, uid) != []) && (uid in index ==> index[uid] == AddressesOfUser(addresses, uid))
  }

  /** Appending one address to its user's entry keeps the index matching the longer prefix of the table. */
  lemma GroupStep(index: map<Id, seq<Address>>, addresses: seq<Address>, i: nat)
    requires i < |addresses| && GroupedBy(index, addresses[..i])
    ensures var a := addresses[i];
      GroupedBy(index[a.userId := (if a.userId in index then index[a.userId] else []) + [a]], addresses[..i + 1])
  {
    var a := addresses[i];
    assert addresses[..i + 1] == addresses[..i] + [a];
    forall uid ensures AddressesOfUser(addresses[..i + 1], uid) ==
      if a.userId == uid then AddressesOfUser(addresses[..i], uid) + [a] else AddressesOfUser(addresses[..i], uid)
    {
      FilterAppend(addresses[..i], a, UserIs(uid));
    }
  }

  /**
   * The review loop of one order: a review per line whose draw is present,
   * its rate appended to the ratings of the order's seller and of the line's
   * commodity, so that the ratings keep matching the reviews table.
   */
  method EmitReviews(
    o: Order, lines: seq<OrderLine>, draws: seq<Option<ReviewDraw>>,
    reviews: seq<Review>, sellers: map<Id, SellerStats>, commodities: map<Id, CommodityStats>,
    ghost orders: seq<Order>, ghost bs: seq<Bundle>)
    returns (reviews': seq<Review>, sellers': map<Id, SellerStats>, commodities': map<Id, CommodityStats>)
    requires |draws| == |lines| && o.delivered.Some?
    requires SellersMatch(sellers, orders, reviews) && CommoditiesMatch(commodities, bs, reviews)
    ensures reviews' == reviews + OrderReviews(o, o.delivered.value, lines, draws)
    ensures SellersMatch(sellers', orders, reviews') && CommoditiesMatch(commodities', bs, reviews')
  {
    var delivered := o.delivered.value;
    reviews', sellers', commodities' := reviews, sellers, commodities;
    var k := 0;
    while k < |lines|
      invariant 0 <= k <= |lines|
      invariant reviews' == reviews + OrderReviews(o, delivered, lines[..k], draws[..k])
      invariant SellersMatch(sellers', orders, reviews') && CommoditiesMatch(commodities', bs, reviews')
    {
      OrderReviewsStep(o, delivered, lines, draws, k);
      if draws[k].Some? {
        var r := MakeReview(o, delivered, lines[k], draws[k].value);
        var s := SellerEntry(sellers', r.sellerId);
        var c := CommodityEntry(commodities', r.commodityId);
        var sellers2 := sellers'[r.sellerId := s.(ratings := s.ratings + [r.rate])];
        var commodities2 := commodities'[r.commodityId := c.(ratings := c.ratings + [r.rate])];
        SellerRated(sellers', sellers2, orders, reviews', r);
        CommodityRated(commodities', commodities2, bs, reviews', r);
        reviews', sellers', commodities' := reviews' + [r], sellers2, commodities2;
      }
      k := k + 1;
    }
    assert lines[..k] == lines;
    assert draws[..k] == draws;
  }

  /** The reviews of one more line: its review, when its draw is present, follows those of the lines before. */
  lemma OrderReviewsStep(o: Order, delivered: Time, lines: seq<OrderLine>, draws: seq<Option<ReviewDraw>>, k: nat)
    requires |draws| == |lines| && k < |lines|
    ensures OrderReviews(o, delivered, lines[..k + 1], draws[..k + 1]) ==
      OrderReviews(o, delivered, lines[..k], draws[..k]) + match draws[k] case None => [] case Some(d) => [MakeReview(o, delivered, lines[k], d)]
  {
    assert lines[..k + 1][..k] == lines[..k];
    assert draws[..k + 1][..k] == draws[..k];
    assert lines[..k + 1][k] == lines[k];
  }

  /** Appending a review's rate to its seller's ratings keeps the seller stats matching the longer reviews table. */
  lemma SellerRated(m: map<Id, SellerStats>, m': map<Id, SellerStats>, orders: seq<Order>, reviews: seq<Review>, r: Review)
    requires SellersMatch(m, orders, reviews)
    requires var s := SellerEntry(m, r.sellerId); m' == m[r.sellerId := s.(ratings := s.ratings + [r.rate])]
    ensures SellersMatch(m', orders, reviews + [r])
  {
    forall id
      ensures SellerEntry(m', id) == SellerStats(SellerOrderCount(orders, id), SellerSales(orders, id), SellerRatings(reviews + [r], id))
    {
      RatingsAppend(reviews, r, id);
      if id == r.sellerId {
        assert SellerEntry(m', id).ratings == SellerRatings(reviews, id) + [r.rate];
      } else {
        assert SellerEntry(m', id) == SellerEntry(m, id);
      }
    }
  }

  /** Appending a review's rate to its commodity's ratings keeps the commodity stats matching the longer reviews table. */
  lemma CommodityRated(m: map<Id, CommodityStats>, m': map<Id, CommodityStats>, bs: seq<Bundle>, reviews: seq<Review>, r: Review)
    requires CommoditiesMatch(m, bs, reviews)
    requires var c := CommodityEntry(m, r.commodityId); m' == m[r.commodityId := c.(ratings := c.ratings + [r.rate])]
    ensures CommoditiesMatch(m', bs, reviews + [r])
  {
    forall id
      ensures CommodityEntry(m', id) == CommodityStats(QuantitySold(bs, id), CommodityRatings(reviews + [r], id))
    {
      RatingsAppend(reviews, r, id);
      if id == r.commodityId {
        assert CommodityEntry(m', id).ratings == CommodityRatings(reviews, id) + [r.rate];
      } else {
        assert CommodityEntry(m', id) == CommodityEntry(m, id);
      }
    }
  }

  /** The sold counter of every commodity of a fulfilled order grows by the line's quantity. */
  method AddSold(lines: seq<OrderLine>, commodities: map<Id, CommodityStats>, ghost bs: seq<Bundle>, ghost b: Bundle, ghost reviews: seq<Review>)
    returns (commodities': map<Id, CommodityStats>)
    requires b.lines == lines && IsFulfilled(b.order.status)
    requires CommoditiesMatch(commodities, bs, reviews)
    ensures CommoditiesMatch(commodities', bs + [b], reviews)
  {
    commodities' := commodities;
    var k := 0;
    while k < |lines|
      invariant 0 <= k <= |lines|
      invariant forall mid :: CommodityEntry(commodities', mid) ==
                              CommodityStats(QuantitySold(bs, mid) + LineQuantity(lines[..k], mid), CommodityRatings(reviews, mid))
    {
      var l := lines[k];
      var c := CommodityEntry(commodities', l.commodityId);
      commodities' := commodities'[l.commodityId := c.(sold := c.sold + l.quantity)];
      assert lines[..k + 1] == lines[..k] + [l];
      forall mid
        ensures CommodityEntry(commodities', mid) ==
                CommodityStats(QuantitySold(bs, mid) + LineQuantity(lines[..k + 1], mid), CommodityRatings(reviews, mid))
      {
        LineQuantityAppend(lines[..k], l, mid);
      }
      k := k + 1;
    }
    assert lines[..k] == lines;
    forall mid ensures CommodityEntry(commodities', mid) == CommodityStats(QuantitySold(bs + [b], mid), CommodityRatings(reviews, mid)) {
      QuantitySoldAppend(bs, b, mid);
    }
  }

  /** The counters of a delivered or done order: its consumer's count, spend and first order, its seller's count and sales. */
  method CountFulfilled(o: Order, consumers: map<Id, ConsumerStats>, sellers: map<Id, SellerStats>, ghost orders: seq<Order>, ghost reviews: seq<Review>)
    returns (consumers': map<Id, ConsumerStats>, sellers': map<Id, SellerStats>)
    requires IsFulfilled(o.status)
    requires ConsumersMatch(consumers, orders) && SellersMatch(sellers, orders, reviews)
    ensures ConsumersMatch(consumers', orders + [o]) && SellersMatch(sellers', orders + [o], reviews)
  {
    var c := ConsumerEntry(consumers, o.consumerId);
    consumers' := consumers[o.consumerId :=
      ConsumerStats(c.orders + 1, c.spent + o.total, if c.firstOrder.None? then Some(o.created) else c.firstOrder)];
    ConsumerCounted(consumers, consumers', orders, o);
    var s := SellerEntry(sellers, o.sellerId);
    sellers' := sellers[o.sellerId := s.(orders := s.orders + 1, sales := s.sales + o.total)];
    SellerCounted(sellers, sellers', orders, reviews, o);
  }

  lemma ConsumerCounted(m: map<Id, ConsumerStats>, m': map<Id, ConsumerStats>, orders: seq<Order>, o: Order)
    requires IsFulfilled(o.status) && ConsumersMatch(m, orders)
    requires var c := ConsumerEntry(m, o.consumerId);
      m' == m[o.consumerId := ConsumerStats(c.orders + 1, c.spent + o.total, if c.firstOrder.None? then Some(o.created) else c.firstOrder)]
    ensures ConsumersMatch(m', orders + [o])
  {
    forall id
      ensures ConsumerEntry(m', id) ==
        ConsumerStats(ConsumerOrderCount(orders + [o], id), ConsumerSpent(orders + [o], id), FirstOrder(orders + [o], id))
    {
      ConsumerFiguresAppend(orders, o, id);
      if id == o.consumerId {
        assert FulfilledBy(id)(o);
      } else {
        assert !FulfilledBy(id)(o);
      }
    }
  }

  lemma SellerCounted(m: map<Id, SellerStats>, m': map<Id, SellerStats>, orders: seq<Order>, reviews: seq<Review>, o: Order)
    requires IsFulfilled(o.status) && SellersMatch(m, orders, reviews)
    requires var s := SellerEntry(m, o.sellerId);
      m' == m[o.sellerId := s.(orders := s.orders + 1, sales := s.sales + o.total)]
    ensures SellersMatch(m', orders + [o], reviews)
  {
    forall id
      ensures SellerEntry(m', id) ==
        SellerStats(SellerOrderCount(orders + [o], id), SellerSales(orders + [o], id), SellerRatings(reviews, id))
    {
      SellerFiguresAppend(orders, o, id);
      if id == o.sellerId {
        assert FulfilledFor(id)(o);
      } else {
        assert !FulfilledFor(id)(o);
      }
    }
  }

  /** An order that is neither delivered nor done changes no recomputed figure. */
  lemma UnfulfilledChangesNothing(t: Tally, bs: seq<Bundle>, b: Bundle, reviews: seq<Review>)
    requires !IsFulfilled(b.order.status)
    requires ConsumersMatch(t.consumers, OrdersOf(bs))
    requires SellersMatch(t.sellers, OrdersOf(bs), reviews) && CommoditiesMatch(t.commodities, bs, reviews)
    ensures ConsumersMatch(t.consumers, OrdersOf(bs) + [b.order])
    ensures SellersMatch(t.sellers, OrdersOf(bs) + [b.order], reviews) && CommoditiesMatch(t.commodities, bs + [b], reviews)
  {
    forall id
      ensures ConsumerEntry(t.consumers, id) ==
        ConsumerStats(ConsumerOrderCount(OrdersOf(bs) + [b.order], id), ConsumerSpent(OrdersOf(bs) + [b.order], id), FirstOrder(OrdersOf(bs) + [b.order], id))
      ensures SellerEntry(t.sellers, id) ==
        SellerStats(SellerOrderCount(OrdersOf(bs) + [b.order], id), SellerSales(OrdersOf(bs) + [b.order], id), SellerRatings(reviews, id))
      ensures CommodityEntry(t.commodities, id) == CommodityStats(QuantitySold(bs + [b], id), CommodityRatings(reviews, id))
    {
      ConsumerFiguresAppend(OrdersOf(bs), b.order, id);
      SellerFiguresAppend(OrdersOf(bs), b.order, id);
      QuantitySoldAppend(bs, b, id);
    }
  }

  /** One iteration of the order loop: the tables grow by what the draw emits and the stats keep matching them. */
  method GenerateOrder(ctx: Context, index: map<Id, seq<Address>>, d: OrderDraw, tables: Tables, tally: Tally, ghost bs: seq<Bundle>)
    returns (tables': Tables, tally': Tally)
    requires ValidOrderDraw(ctx, d)
    requires forall uid :: uid in index <==> AddressesOfUser(ctx.addresses, uid) != []
    requires forall uid :: uid in index ==> index[uid] == AddressesOfUser(ctx.addresses, uid)
    requires tables == TablesOf(bs) && TallyMatches(tally, bs)
    ensures tables' == TablesOf(bs + Emitted(ctx, d)) && TallyMatches(tally', bs + Emitted(ctx, d))
  {
    var consumer := ctx.consumers[d.consumer];
    var seller := ctx.sellers[d.seller];
    var addrs := if consumer.id in index then index[consumer.id] else [];
    assert addrs == AddressesOfUser(ctx.addresses, consumer.id);
    if addrs == [] {
      assert bs + Emitted(ctx, d) == bs;
      return tables, tally;
    }
    var address := addrs[d.address];
    var lines, subtotal := BuildLines(d.orderId, ctx.commodities, d.picks, d.lines);
    var o := MakeOrder(d.orderId, consumer.id, seller.id, d.status, address.id, subtotal, d.shipping, d.discount, d.created, d.lifecycle);
    var txn := TransactionFor(o, CardsLookup(ctx.cardsMap, consumer.id), d.txn);
    var transactions := tables.transactions;
    if txn.Some? {
      transactions := transactions + [txn.value];
    }
    ghost var b := Bundle(o, lines, txn, ReviewsFor(o, lines, d.reviewed, d.reviews));
    assert StepBundle(ctx, d) == Some(b);
    assert Emitted(ctx, d) == [b];
    OrdersOfAppend(bs, b);
    var reviews, sellers, commodities := tables.reviews, tally.sellers, tally.commodities;
    if IsFulfilled(o.status) && d.reviewed && o.delivered.Some? {
      reviews, sellers, commodities := EmitReviews(o, lines, d.reviews, reviews, sellers, commodities, OrdersOf(bs), bs);
    } else {
      assert reviews + b.reviews == reviews;
    }
    assert reviews == ReviewsOf(bs + [b]);
    var consumers := tally.consumers;
    if IsFulfilled(o.status) {
      consumers, sellers := CountFulfilled(o, consumers, sellers, OrdersOf(bs), reviews);
      commodities := AddSold(lines, commodities, bs, b, reviews);
    } else {
      UnfulfilledChangesNothing(Tally(consumers, sellers, commodities), bs, b, reviews);
    }
    tables' := Tables(tables.orders + [o], tables.lines + lines, transactions, reviews);
    tally' := Tally(consumers, sellers, commodities);
  }

  /** The bundles of a prefix of the draws followed by one more draw. */
  lemma BundlesStep(ctx: Context, draws: seq<OrderDraw>, i: nat)
    requires ValidOrderDraws(ctx, draws) && i < |draws|
    ensures ValidOrderDraws(ctx, draws[..i]) && ValidOrderDraws(ctx, draws[..i + 1])
    ensures Bundles(ctx, draws[..i + 1]) == Bundles(ctx, draws[..i]) + Emitted(ctx, draws[i])
  {
    assert draws[..i + 1][..i] == draws[..i];
    assert forall k :: 0 <= k < i ==> draws[..i][k] == draws[k];
    assert forall k :: 0 <= k <= i ==> draws[..i + 1][k] == draws[k];
  }

  /**
   * generate_orders_and_related: the four tables are the flattened bundles of
   * the draws, and afterwards every consumer, seller and commodity record
   * holds the aggregates recomputed from those tables, every other field
   * unchanged.
   */
  method GenerateOrdersAndRelated(
    consumers: array<Consumer>, sellers: array<Seller>, commodities: array<Commodity>,
    cardsMap: map<Id, seq<Card>>, addresses: seq<Address>, draws: seq<OrderDraw>)
    returns (orders: seq<Order>, lines: seq<OrderLine>, transactions: seq<Transaction>, reviews: seq<Review>)
    requires ValidOrderDraws(Context(consumers[..], sellers[..], commodities[..], cardsMap, addresses), draws)
    modifies consumers, sellers, commodities
    ensures var bs := Bundles(Context(old(consumers[..]), old(sellers[..]), old(commodities[..]), cardsMap, addresses), draws);
      && orders == OrdersOf(bs) && lines == LinesOf(bs) && transactions == TransactionsOf(bs) && reviews == ReviewsOf(bs)
      && (forall k :: 0 <= k < consumers.Length ==> consumers[k] == UpdatedConsumer(old(consumers[k]), orders))
      && (forall k :: 0 <= k < sellers.Length ==> sellers[k] == UpdatedSeller(old(sellers[k]), orders, reviews))
      && (forall k :: 0 <= k < commodities.Length ==> commodities[k] == UpdatedCommodity(old(commodities[k]), bs, reviews))
  {
    var ctx := Context(consumers[..], sellers[..], commodities[..], cardsMap, addresses);
    var tables, tally := RunOrders(ctx, draws);
    ghost var bs := Bundles(ctx, draws);
    orders, lines, transactions, reviews := tables.orders, tables.lines, tables.transactions, tables.reviews;
    WriteBackConsumers(consumers, tally.consumers, orders);
    WriteBackSellers(sellers, tally.sellers, orders, reviews);
    WriteBackCommodities(commodities, tally.commodities, bs, reviews);
  }

  /**
   * What the write-back leaves in the records, over the generated tables: a
   * consumer's spend is never negative and reaches the threshold of its
   * segment and no higher one, and every seller's and commodity's rating
   * average is 0 without reviews and otherwise in [1.00, 5.00].
   */
  lemma WrittenBackRecords(ctx: Context, draws: seq<OrderDraw>, c: Consumer, s: Seller, m: Commodity)
    requires ValidOrderDraws(ctx, draws) && PricesNonNegative(ctx.commodities)
    ensures var bs := Bundles(ctx, draws);
      var u := UpdatedConsumer(c, OrdersOf(bs));
      var v := UpdatedSeller(s, OrdersOf(bs), ReviewsOf(bs));
      var w := UpdatedCommodity(m, bs, ReviewsOf(bs));
      && 0 <= u.totalSpent && SegmentThreshold(u.segment) <= u.totalSpent
      && (forall t: Segment :: SegmentRank(t) > SegmentRank(u.segment) ==> u.totalSpent < SegmentThreshold(t))
      && (v.ratingAvg == 0 || 100 <= v.ratingAvg <= 500)
      && (w.ratingAvg == 0 <==> w.reviewCount == 0)
      && (w.reviewCount > 0 ==> 100 <= w.ratingAvg <= 500)
  {
    var bs := Bundles(ctx, draws);
    GeneratedTotalsNonNegative(ctx, draws);
    GeneratedTablesReferToContext(ctx, draws);
    assert forall r :: r in ReviewsOf(bs) ==> 1 <= r.rate <= 5;
    WrittenBackOver(OrdersOf(bs), bs, ReviewsOf(bs), c, s, m);
  }

  /** The write-back facts over any orders with non-negative totals and reviews rated 1..5. */
  lemma WrittenBackOver(orders: seq<Order>, bs: seq<Bundle>, reviews: seq<Review>, c: Consumer, s: Seller, m: Commodity)
    requires forall k :: 0 <= k < |orders| ==> orders[k].total >= 0
    requires forall r :: r in reviews ==> 1 <= r.rate <= 5
    ensures var u := UpdatedConsumer(c, orders);
      var v := UpdatedSeller(s, orders, reviews);
      var w := UpdatedCommodity(m, bs, reviews);
      && 0 <= u.totalSpent && SegmentThreshold(u.segment) <= u.totalSpent
      && (forall t: Segment :: SegmentRank(t) > SegmentRank(u.segment) ==> u.totalSpent < SegmentThreshold(t))
      && (v.ratingAvg == 0 || 100 <= v.ratingAvg <= 500)
      && (w.ratingAvg == 0 <==> w.reviewCount == 0)
      && (w.reviewCount > 0 ==> 100 <= w.ratingAvg <= 500)
  {
    UpdatedConsumerFacts(c, orders);
    UpdatedSellerFacts(s, orders, reviews);
    UpdatedCommodityFacts(m, bs, reviews);
    var f := Filter(orders, FulfilledBy(c.id));
    assert forall k :: 0 <= k < |f| ==> f[k].total >= 0;
    SumTotalsNonNegative(f);
  }

  /** The order loop: the tables and the stats maps after every draw. */
  method RunOrders(ctx: Context, draws: seq<OrderDraw>) returns (tables: Tables, tally: Tally)
    requires ValidOrderDraws(ctx, draws)
    ensures tables == TablesOf(Bundles(ctx, draws)) && TallyMatches(tally, Bundles(ctx, draws))
  {
    var index := GroupAddresses(ctx.addresses);
    tables := Tables([], [], [], []);
    tally := Tally(map[], map[], map[]);
    assert draws[..0] == [];
    var i := 0;
    while i < |draws|
      invariant 0 <= i <= |draws|
      invariant ValidOrderDraws(ctx, draws[..i])
      invariant tables == TablesOf(Bundles(ctx, draws[..i])) && TallyMatches(tally, Bundles(ctx, draws[..i]))
    {
      BundlesStep(ctx, draws, i);
      tables, tally := GenerateOrder(ctx, index, draws[i], tables, tally, Bundles(ctx, draws[..i]));
      i := i + 1;
    }
    assert draws[..i] == draws;
  }

  /** The write-back into the consumer records: counts, spend, segment, and the first-order date when there is one. */
  method WriteBackConsumers(consumers: array<Consumer>, stats: map<Id, ConsumerStats>, ghost orders: seq<Order>)
    requires ConsumersMatch(stats, orders)
    modifies consumers
    ensures forall k :: 0 <= k < consumers.Length ==> consumers[k] == UpdatedConsumer(old(consumers[k]), orders)
  {
    for k := 0 to consumers.Length
      invariant forall j :: 0 <= j < k ==> consumers[j] == UpdatedConsumer(old(consumers[j]), orders)
      invariant forall j :: k <= j < consumers.Length ==> consumers[j] == old(consumers[j])
    {
      var c := consumers[k];
      var s := ConsumerEntry(stats, c.id);
      var first := if s.firstOrder.Some? then Some(s.firstOrder.value / Day) else c.firstOrderDate;
      consumers[k] := c.(totalOrders := s.orders, totalSpent := s.spent, segment := CustomerSegment(s.spent), firstOrderDate := first);
    }
  }

  /** The write-back into the seller records: counts, sales and the rating average (0 without ratings). */
  method WriteBackSellers(sellers: array<Seller>, stats: map<Id, SellerStats>, ghost orders: seq<Order>, ghost reviews: seq<Review>)
    requires SellersMatch(stats, orders, reviews)
    modifies sellers
    ensures forall k :: 0 <= k < sellers.Length ==> sellers[k] == UpdatedSeller(old(sellers[k]), orders, reviews)
  {
    for k := 0 to sellers.Length
      invariant forall j :: 0 <= j < k ==> sellers[j] == UpdatedSeller(old(sellers[j]), orders, reviews)
      invariant forall j :: k <= j < sellers.Length ==> sellers[j] == old(sellers[j])
    {
      var s := sellers[k];
      var st := SellerEntry(stats, s.id);
      sellers[k] := s.(totalOrders := st.orders, totalSales := st.sales, ratingAvg := RatingAvg(st.ratings));
    }
  }

  /** The write-back into the commodity records: units sold, review count and the rating average (0 without ratings). */
  method WriteBackCommodities(commodities: array<Commodity>, stats: map<Id, CommodityStats>, ghost bs: seq<Bundle>, ghost reviews: seq<Review>)
    requires CommoditiesMatch(stats, bs, reviews)
    modifies commodities
    ensures forall k :: 0 <= k < commodities.Length ==> commodities[k] == UpdatedCommodity(old(commodities[k]), bs, reviews)
  {
    for k := 0 to commodities.Length
      invariant forall j :: 0 <= j < k ==> commodities[j] == UpdatedCommodity(old(commodities[j]), bs, reviews)
      invariant forall j :: k <= j < commodities.Length ==> commodities[j] == old(commodities[j])
    {
      var m := commodities[k];
      var st := CommodityEntry(stats, m.id);
      commodities[k] := m.(totalSold := st.sold, reviewCount := |st.ratings|, ratingAvg := RatingAvg(st.ratings));
    }
  }
}
