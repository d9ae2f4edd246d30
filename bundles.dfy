/**
 * One iteration of the order loop of generate_orders_and_related, as a value:
 * the order a draw produces together with its lines, its transaction and its
 * reviews (a bundle), and the tables as the concatenation of the bundles.
 */
module OrderBundles {
  import opened Opt
  import opened Fixed
  import opened Domain
  import opened Links
  import opened Orders

  /** What the order loop reads: the records generated before it. */
  datatype Context = Context(
    consumers: seq<Consumer>,
    sellers: seq<Seller>,
    commodities: seq<Commodity>,
    cardsMap: map<Id, seq<Card>>,
    addresses: seq<Address>)

  /**
   * The draws of one iteration: the order id, the consumer, seller and
   * address positions, the creation time, the status, the sampled commodity
   * positions with one line draw each, the fee and the order discount, the
   * lifecycle offsets, the transaction, whether the order is reviewed (the
   * 30% draw) and, per line, the review it gets (the 50% draw).
   */
  datatype OrderDraw = OrderDraw(
    orderId: Id,
    consumer: nat,
    seller: nat,
    address: nat,
    created: Time,
    status: OrderStatus,
    picks: seq<nat>,
    lines: seq<LineDraw>,
    shipping: Money,
    discount: Money,
    lifecycle: LifecycleDraw,
    txn: TxnDraw,
    reviewed: bool,
    reviews: seq<Option<ReviewDraw>>)

  /** cards_map.get(consumer_id, []). */
  function CardsLookup(cardsMap: map<Id, seq<Card>>, cid: Id): seq<Card> {
    if cid in cardsMap then cardsMap[cid] else []
  }

  /** The ranges the source draws from; random.choice needs a non-empty list, so a consumer and a seller must exist. */
  predicate ValidOrderDraw(ctx: Context, d: OrderDraw) {
    && d.consumer < |ctx.consumers|
    && d.seller < |ctx.sellers|
    && (var addrs := AddressesOfUser(ctx.addresses, ctx.consumers[d.consumer].id);
        addrs != [] ==> d.address < |addrs|)
    && ValidLinePicks(d.picks, d.lines, ctx.commodities)
    && ValidTotalsDraw(SumLineTotals(OrderLines(d.orderId, ctx.commodities, d.picks, d.lines)), d.shipping, d.discount)
    && ValidLifecycleDraw(d.lifecycle)
    && ValidTxnDraw(d.txn)
    && (var cards := CardsLookup(ctx.cardsMap, ctx.consumers[d.consumer].id);
        cards != [] ==> d.txn.card < |cards|)
    && |d.reviews| == |d.picks|
    && (forall k :: 0 <= k < |d.reviews| && d.reviews[k].Some? ==> ValidReviewDraw(d.reviews[k].value))
  }

  predicate ValidOrderDraws(ctx: Context, draws: seq<OrderDraw>) {
    forall k :: 0 <= k < |draws| ==> ValidOrderDraw(ctx, draws[k])
  }

  /** Commodities generated from the price range have non-negative prices. */
  predicate PricesNonNegative(commodities: seq<Commodity>) {
    forall k :: 0 <= k < |commodities| ==> commodities[k].price >= 0
  }

  datatype Bundle = Bundle(order: Order, lines: seq<OrderLine>, txn: Option<Transaction>, reviews: seq<Review>)

  /** The order record: its totals from the subtotal and its timestamps from the status. */
  function MakeOrder(
    id: Id, consumerId: Id, sellerId: Id, status: OrderStatus, addressId: Id,
    subtotal: Money, shipping: Money, discount: Money, created: Time, d: LifecycleDraw): Order
  {
    var t := OrderTotals(subtotal, shipping, discount);
    var tl := Lifecycle(status, created, d);
    Order(id, consumerId, sellerId, status, addressId, subtotal, t.tax, t.shipping, t.discount, t.total, created,
      tl.confirmed, tl.paid, tl.shipped, tl.delivered, tl.completed, tl.daysToShip, tl.daysToDeliver)
  }

  /** The timestamps of an order record. */
  function TimelineOf(o: Order): Timeline {
    Timeline(o.confirmed, o.paid, o.shipped, o.delivered, o.completed, o.daysToShip, o.daysToDeliver)
  }

  /** The reviews of an order: only a delivered or done order that won the 30% draw is reviewed. */
  function ReviewsFor(o: Order, lines: seq<OrderLine>, reviewed: bool, draws: seq<Option<ReviewDraw>>): seq<Review>
    requires |draws| == |lines|
  {
    if IsFulfilled(o.status) && reviewed && o.delivered.Some? then OrderReviews(o, o.delivered.value, lines, draws) else []
  }

  /** One iteration: nothing when the consumer has no address, else the order and what comes with it. */
  function StepBundle(ctx: Context, d: OrderDraw): Option<Bundle>
    requires ValidOrderDraw(ctx, d)
  {
    var consumer := ctx.consumers[d.consumer];
    var addrs := AddressesOfUser(ctx.addresses, consumer.id);
    if addrs == [] then None
    else
      var lines := OrderLines(d.orderId, ctx.commodities, d.picks, d.lines);
      var o := MakeOrder(d.orderId, consumer.id, ctx.sellers[d.seller].id, d.status, addrs[d.address].id,
        SumLineTotals(lines), d.shipping, d.discount, d.created, d.lifecycle);
      var txn := TransactionFor(o, CardsLookup(ctx.cardsMap, consumer.id), d.txn);
      Some(Bundle(o, lines, txn, ReviewsFor(o, lines, d.reviewed, d.reviews)))
  }

  /** The bundles of all iterations, in generation order. */
  function Bundles(ctx: Context, draws: seq<OrderDraw>): seq<Bundle>
    requires ValidOrderDraws(ctx, draws)
    decreases |draws|
  {
    if draws == [] then []
    else
      var n := |draws| - 1;
      Bundles(ctx, draws[..n]) + match StepBundle(ctx, draws[n]) case None => [] case Some(b) => [b]
  }

  function OrdersOf(bs: seq<Bundle>): seq<Order>
    decreases |bs|
  {
    if bs == [] then [] else OrdersOf(bs[..|bs| - 1]) + [bs[|bs| - 1].order]
  }

  function LinesOf(bs: seq<Bundle>): seq<OrderLine>
    decreases |bs|
  {
    if bs == [] then [] else LinesOf(bs[..|bs| - 1]) + bs[|bs| - 1].lines
  }

  function TransactionsOf(bs: seq<Bundle>): seq<Transaction>
    decreases |bs|
  {
    if bs == [] then []
    else TransactionsOf(bs[..|bs| - 1]) + match bs[|bs| - 1].txn case None => [] case Some(t) => [t]
  }

  function ReviewsOf(bs: seq<Bundle>): seq<Review>
    decreases |bs|
  {
    if bs == [] then [] else ReviewsOf(bs[..|bs| - 1]) + bs[|bs| - 1].reviews
  }

  function ConsumerIds(cs: seq<Consumer>): set<Id> {
    set c | c in cs :: c.id
  }

  function SellerIds(ss: seq<Seller>): set<Id> {
    set s | s in ss :: s.id
  }

  function CommodityIds(ms: seq<Commodity>): set<Id> {
    set m | m in ms :: m.id
  }

  function OrderIds(os: seq<Order>): set<Id> {
    set o | o in os :: o.id
  }

  function CardIds(cs: seq<Card>): set<Id> {
    set c | c in cs :: c.id
  }

  /** The card ids of every consumer in the cards map. */
  function MapCardIds(cardsMap: map<Id, seq<Card>>): set<Id> {
    set cid, c | cid in cardsMap && c in cardsMap[cid] :: c.id
  }

  // ---------------------------------------------------------------------------
  // What one iteration produces
  // ---------------------------------------------------------------------------

  /** An order is emitted exactly when the consumer has an address; it names the drawn consumer, seller and one of the consumer's addresses. */
  lemma BundleShape(ctx: Context, d: OrderDraw)
    requires ValidOrderDraw(ctx, d)
    ensures var consumer := ctx.consumers[d.consumer];
      && (StepBundle(ctx, d).None? <==> AddressesOfUser(ctx.addresses, consumer.id) == [])
      && (StepBundle(ctx, d).Some? ==>
            var o := StepBundle(ctx, d).value.order;
            && o.id == d.orderId && o.consumerId == consumer.id && o.sellerId == ctx.sellers[d.seller].id
            && o.status == d.status && o.created == d.created
            && (exists a :: a in ctx.addresses && a.userId == consumer.id && a.id == o.addressId)
            && TimelineOf(o) == Lifecycle(d.status, d.created, d.lifecycle))
  {
    var consumer := ctx.consumers[d.consumer];
    var addrs := AddressesOfUser(ctx.addresses, consumer.id);
    if addrs != [] {
      var a := addrs[d.address];
      assert a in ctx.addresses && UserIs(consumer.id)(a);
    }
  }

  /** The lines of an emitted order belong to it, price drawn commodities and carry the line arithmetic; the subtotal is their sum. */
  lemma BundleLines(ctx: Context, d: OrderDraw)
    requires ValidOrderDraw(ctx, d) && PricesNonNegative(ctx.commodities)
    requires StepBundle(ctx, d).Some?
    ensures var b := StepBundle(ctx, d).value;
      && |b.lines| <= 5 && (ctx.commodities != [] ==> 1 <= |b.lines|)
      && b.order.subtotal == SumLineTotals(b.lines) >= 0
      && forall l :: l in b.lines ==>
        && l.orderId == b.order.id
        && (exists m :: m in ctx.commodities && m.id == l.commodityId && m.price == l.unitPrice)
        && 1 <= l.quantity <= 5
        && l.lineTotal == l.unitPrice * l.quantity - l.discountApplied
        && 0 <= l.lineTotal
  {
    var b := StepBundle(ctx, d).value;
    OrderLinesFacts(d.orderId, ctx.commodities, d.picks, d.lines);
    SubtotalNonNegative(b.lines);
    forall l | l in b.lines
      ensures exists m :: m in ctx.commodities && m.id == l.commodityId && m.price == l.unitPrice
    {
      var k :| 0 <= k < |b.lines| && b.lines[k] == l;
      assert ctx.commodities[d.picks[k]] in ctx.commodities;
    }
  }

  /** The totals of an emitted order: 8% tax rounded half-up, the exact sum, and a discount of at most the subtotal. */
  lemma BundleTotals(ctx: Context, d: OrderDraw)
    requires ValidOrderDraw(ctx, d) && PricesNonNegative(ctx.commodities)
    requires StepBundle(ctx, d).Some?
    ensures var o := StepBundle(ctx, d).value.order;
      && IsHalfUpRounding(o.subtotal * 8, 100, o.tax)
      && o.shipping == d.shipping && o.discount == d.discount
      && o.total == o.subtotal + o.tax + o.shipping - o.discount
      && 0 <= o.discount <= o.subtotal
      && o.total >= o.tax + o.shipping >= 0
  {
    BundleLines(ctx, d);
    var o := StepBundle(ctx, d).value.order;
    TotalsArithmetic(o.subtotal, d.shipping, d.discount);
  }

  /** A transaction comes with exactly the paid orders of consumers with a card, pays the total with one of their cards and is captured. */
  lemma BundleTransaction(ctx: Context, d: OrderDraw)
    requires ValidOrderDraw(ctx, d)
    requires StepBundle(ctx, d).Some?
    ensures var b := StepBundle(ctx, d).value;
      var cards := CardsLookup(ctx.cardsMap, b.order.consumerId);
      && (b.txn.Some? <==> IsPaid(b.order.status) && cards != [])
      && (b.txn.Some? ==>
            && b.txn.value.orderId == b.order.id
            && b.txn.value.cardId in CardIds(cards)
            && b.txn.value.amount == b.order.total
            && b.txn.value.status == Captured)
  {
    var b := StepBundle(ctx, d).value;
    var cards := CardsLookup(ctx.cardsMap, b.order.consumerId);
    TransactionFacts(b.order, cards, d.txn);
    if b.txn.Some? {
      assert cards[d.txn.card] in cards;
    }
  }

  /**
   * When the card map is the one the card generator builds over consumers
   * with distinct ids, a transaction's card is a card of the cards table that
   * belongs to the order's consumer.
   */
  lemma TransactionCardOwned(ctx: Context, cardDraws: seq<seq<CardDraw>>, hash: string -> string, d: OrderDraw)
    requires ValidOrderDraw(ctx, d) && StepBundle(ctx, d).Some?
    requires |cardDraws| == |ctx.consumers| && DistinctConsumers(ctx.consumers)
    requires ctx.cardsMap == CardsMap(ctx.consumers, cardDraws, hash)
    ensures var b := StepBundle(ctx, d).value;
      b.txn.Some? ==>
        exists c :: c in AllCards(ctx.consumers, cardDraws, hash) && c.id == b.txn.value.cardId && c.consumerId == b.order.consumerId
  {
    var b := StepBundle(ctx, d).value;
    if b.txn.Some? {
      var cid := ctx.consumers[d.consumer].id;
      CardsMapEntry(ctx.consumers, cardDraws, hash, d.consumer);
      var cards := CardsLookup(ctx.cardsMap, cid);
      assert cards == CardsOfConsumer(AllCards(ctx.consumers, cardDraws, hash), cid);
      var c := cards[d.txn.card];
      assert b.txn.value.cardId == c.id;
      assert CardOwnerIs(cid)(c) && c in AllCards(ctx.consumers, cardDraws, hash);
    }
  }

  /** Only delivered or done orders are reviewed; a review is about one of the order's commodities and rates it 1..5. */
  lemma BundleReviews(ctx: Context, d: OrderDraw)
    requires ValidOrderDraw(ctx, d)
    requires StepBundle(ctx, d).Some?
    ensures var b := StepBundle(ctx, d).value;
      && (b.reviews != [] ==> IsFulfilled(b.order.status) && d.reviewed)
      && |b.reviews| <= |b.lines|
      && forall r :: r in b.reviews ==>
        && r.orderId == b.order.id && r.consumerId == b.order.consumerId && r.sellerId == b.order.sellerId
        && (exists l :: l in b.lines && l.commodityId == r.commodityId)
        && 1 <= r.rate <= 5
  {
    var b := StepBundle(ctx, d).value;
    if IsFulfilled(b.order.status) && d.reviewed && b.order.delivered.Some? {
      OrderReviewsFacts(b.order, b.order.delivered.value, b.lines, d.reviews);
      forall r | r in b.reviews
        ensures exists l :: l in b.lines && l.commodityId == r.commodityId
      {
        var k :| 0 <= k < |b.lines| && r.commodityId == b.lines[k].commodityId;
        assert b.lines[k] in b.lines;
      }
    }
  }

  // ---------------------------------------------------------------------------
  // The tables
  // ---------------------------------------------------------------------------

  /** Every foreign key the generated tables carry names a record that exists. */
  ghost predicate TablesReferToContext(ctx: Context, bs: seq<Bundle>) {
    && (forall o :: o in OrdersOf(bs) ==> o.consumerId in ConsumerIds(ctx.consumers) && o.sellerId in SellerIds(ctx.sellers))
    && (forall l :: l in LinesOf(bs) ==> l.orderId in OrderIds(OrdersOf(bs)) && l.commodityId in CommodityIds(ctx.commodities))
    && (forall t :: t in TransactionsOf(bs) ==> t.orderId in OrderIds(OrdersOf(bs)) && t.cardId in MapCardIds(ctx.cardsMap))
    && (forall r :: r in ReviewsOf(bs) ==> 1 <= r.rate <= 5)
  }

  /** The generated orders, lines, transactions and reviews only refer to records that exist, and every rate is 1..5. */
  lemma {:induction false} GeneratedTablesReferToContext(ctx: Context, draws: seq<OrderDraw>)
    requires ValidOrderDraws(ctx, draws)
    ensures TablesReferToContext(ctx, Bundles(ctx, draws))
    decreases |draws|
  {
    if draws != [] {
      var n := |draws| - 1;
      var bs := Bundles(ctx, draws[..n]);
      assert ValidOrderDraws(ctx, draws[..n]) by {
        forall k | 0 <= k < n ensures ValidOrderDraw(ctx, draws[..n][k]) {
          assert draws[..n][k] == draws[k];
        }
      }
      GeneratedTablesReferToContext(ctx, draws[..n]);
      var d := draws[n];
      match StepBundle(ctx, d)
      case None =>
        assert Bundles(ctx, draws) == bs;
      case Some(b) =>
        assert Bundles(ctx, draws) == bs + [b];
        BundleAppendRefers(ctx, bs, b, d);
    }
  }

  /** Over commodities with non-negative prices, every generated order has a non-negative total. */
  lemma {:induction false} GeneratedTotalsNonNegative(ctx: Context, draws: seq<OrderDraw>)
    requires ValidOrderDraws(ctx, draws) && PricesNonNegative(ctx.commodities)
    ensures forall k :: 0 <= k < |OrdersOf(Bundles(ctx, draws))| ==> OrdersOf(Bundles(ctx, draws))[k].total >= 0
    decreases |draws|
  {
    if draws != [] {
      var n := |draws| - 1;
      var bs := Bundles(ctx, draws[..n]);
      assert ValidOrderDraws(ctx, draws[..n]) by {
        forall k | 0 <= k < n ensures ValidOrderDraw(ctx, draws[..n][k]) {
          assert draws[..n][k] == draws[k];
        }
      }
      GeneratedTotalsNonNegative(ctx, draws[..n]);
      match StepBundle(ctx, draws[n])
      case None =>
        assert Bundles(ctx, draws) == bs;
      case Some(b) =>
        var bs' := bs + [b];
        assert Bundles(ctx, draws) == bs';
        assert bs'[..|bs'| - 1] == bs;
        assert OrdersOf(bs') == OrdersOf(bs) + [b.order];
        BundleTotals(ctx, draws[n]);
    }
  }

  /** Appending the bundle of one draw keeps the tables' references valid. */
  lemma BundleAppendRefers(ctx: Context, bs: seq<Bundle>, b: Bundle, d: OrderDraw)
    requires ValidOrderDraw(ctx, d) && StepBundle(ctx, d) == Some(b)
    requires TablesReferToContext(ctx, bs)
    ensures TablesReferToContext(ctx, bs + [b])
  {
    var bs' := bs + [b];
    assert bs'[..|bs'| - 1] == bs;
    assert OrdersOf(bs') == OrdersOf(bs) + [b.order];
    assert LinesOf(bs') == LinesOf(bs) + b.lines;
    assert ReviewsOf(bs') == ReviewsOf(bs) + b.reviews;
    BundleShape(ctx, d);
    BundleLinesRefer(ctx, d);
    BundleTransaction(ctx, d);
    BundleReviews(ctx, d);
    assert ctx.consumers[d.consumer] in ctx.consumers;
    assert ctx.sellers[d.seller] in ctx.sellers;
    forall l | l in LinesOf(bs')
      ensures l.orderId in OrderIds(OrdersOf(bs'))
    {
      if l in LinesOf(bs) {
        var o :| o in OrdersOf(bs) && o.id == l.orderId;
        assert o in OrdersOf(bs');
      } else {
        assert b.order in OrdersOf(bs');
      }
    }
    match b.txn
    case None =>
      assert TransactionsOf(bs') == TransactionsOf(bs);
      forall t | t in TransactionsOf(bs')
        ensures t.orderId in OrderIds(OrdersOf(bs'))
      {
        var o :| o in OrdersOf(bs) && o.id == t.orderId;
        assert o in OrdersOf(bs');
      }
    case Some(t) =>
      assert TransactionsOf(bs') == TransactionsOf(bs) + [t];
      var cid := b.order.consumerId;
      var c :| c in CardsLookup(ctx.cardsMap, cid) && c.id == t.cardId;
      assert t.cardId in MapCardIds(ctx.cardsMap);
      assert b.order in OrdersOf(bs');
      forall t' | t' in TransactionsOf(bs')
        ensures t'.orderId in OrderIds(OrdersOf(bs'))
      {
        if t' in TransactionsOf(bs) {
          var o :| o in OrdersOf(bs) && o.id == t'.orderId;
          assert o in OrdersOf(bs');
        }
      }
  }

  /** The lines of one bundle name its order and commodities that exist. */
  lemma BundleLinesRefer(ctx: Context, d: OrderDraw)
    requires ValidOrderDraw(ctx, d) && StepBundle(ctx, d).Some?
    ensures var b := StepBundle(ctx, d).value;
      forall l :: l in b.lines ==> l.orderId == b.order.id && l.commodityId in CommodityIds(ctx.commodities)
  {
    var b := StepBundle(ctx, d).value;
    forall l | l in b.lines
      ensures l.orderId == b.order.id && l.commodityId in CommodityIds(ctx.commodities)
    {
      var k :| 0 <= k < |b.lines| && b.lines[k] == l;
      assert ctx.commodities[d.picks[k]] in ctx.commodities;
    }
  }
}
