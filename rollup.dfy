/**
 * The denormalised aggregates of generate_orders_and_related, defined by
 * recomputation over the generated tables: what consumer_stats, seller_stats
 * and commodity_stats must hold, and what the write-back stores.
 */
module Rollup {
  import opened Opt
  import opened Seqs
  import opened Fixed
  import opened Domain
  import opened OrderBundles

  // ---------------------------------------------------------------------------
  // Recomputation over the tables
  // ---------------------------------------------------------------------------

  /** A delivered or done order of the consumer. */
  function FulfilledBy(cid: Id): Order -> bool {
    (o: Order) => o.consumerId == cid && IsFulfilled(o.status)
  }

  /** A delivered or done order of the seller. */
  function FulfilledFor(sid: Id): Order -> bool {
    (o: Order) => o.sellerId == sid && IsFulfilled(o.status)
  }

  function SumTotals(os: seq<Order>): Money
    decreases |os|
  {
    if os == [] then 0 else SumTotals(os[..|os| - 1]) + os[|os| - 1].total
  }

  function ConsumerOrderCount(orders: seq<Order>, cid: Id): nat {
    |Filter(orders, FulfilledBy(cid))|
  }

  function ConsumerSpent(orders: seq<Order>, cid: Id): Money {
    SumTotals(Filter(orders, FulfilledBy(cid)))
  }

  /** The creation time of the consumer's first fulfilled order in generation order (not the earliest one). */
  function FirstOrder(orders: seq<Order>, cid: Id): Option<Time> {
    var f := Filter(orders, FulfilledBy(cid));
    if f == [] then None else Some(f[0].created)
  }

  function SellerOrderCount(orders: seq<Order>, sid: Id): nat {
    |Filter(orders, FulfilledFor(sid))|
  }

  function SellerSales(orders: seq<Order>, sid: Id): Money {
    SumTotals(Filter(orders, FulfilledFor(sid)))
  }

  function ReviewBySeller(sid: Id): Review -> bool {
    (r: Review) => r.sellerId == sid
  }

  function ReviewOfCommodity(mid: Id): Review -> bool {
    (r: Review) => r.commodityId == mid
  }

  function Rates(rs: seq<Review>): (r: seq<nat>)
    ensures |r| == |rs| && forall k :: 0 <= k < |rs| ==> r[k] == rs[k].rate
  {
    seq(|rs|, k requires 0 <= k < |rs| => rs[k].rate)
  }

  /** The rates of the seller's reviews, in table order. */
  function SellerRatings(reviews: seq<Review>, sid: Id): seq<nat> {
    Rates(Filter(reviews, ReviewBySeller(sid)))
  }

  /** The rates of the commodity's reviews, in table order. */
  function CommodityRatings(reviews: seq<Review>, mid: Id): seq<nat> {
    Rates(Filter(reviews, ReviewOfCommodity(mid)))
  }

  /** The units of a commodity in a list of lines. */
  function LineQuantity(lines: seq<OrderLine>, mid: Id): nat
    decreases |lines|
  {
    if lines == [] then 0
    else
      var l := lines[|lines| - 1];
      LineQuantity(lines[..|lines| - 1], mid) + if l.commodityId == mid then l.quantity else 0
  }

  /** The units of a commodity sold in delivered or done orders. */
  function QuantitySold(bs: seq<Bundle>, mid: Id): nat
    decreases |bs|
  {
    if bs == [] then 0
    else
      var b := bs[|bs| - 1];
      QuantitySold(bs[..|bs| - 1], mid) + if IsFulfilled(b.order.status) then LineQuantity(b.lines, mid) else 0
  }

  function Sum(rates: seq<nat>): nat
    decreases |rates|
  {
    if rates == [] then 0 else Sum(rates[..|rates| - 1]) + rates[|rates| - 1]
  }

  /**
   * The mean of the ratings quantized half-up to two decimals, in units of
   * 10^-2; 0 when there are none.
   */
  function RatingAvg(rates: seq<nat>): int {
    if rates == [] then 0 else RoundHalfUp(Sum(rates) * Pow10(RatingScale), |rates|)
  }

  // ---------------------------------------------------------------------------
  // Properties of the recomputation
  // ---------------------------------------------------------------------------

  /**
   * The average is the mean rounded half-up to two decimals; of ratings in
   * 1..5 it lies in [1.00, 5.00].
   */
  lemma RatingAvgBounds(rates: seq<nat>)
    requires forall k :: 0 <= k < |rates| ==> 1 <= rates[k] <= 5
    ensures rates == [] ==> RatingAvg(rates) == 0
    ensures rates != [] ==> IsHalfUpRounding(Sum(rates) * 100, |rates|, RatingAvg(rates))
    ensures rates != [] ==> 100 <= RatingAvg(rates) <= 500
  {
    if rates != [] {
      var n := |rates|;
      SumBounds(rates);
      assert Pow10(RatingScale) == 100;
      RoundHalfUpMonotone(100 * n, Sum(rates) * 100, n);
      RoundHalfUpMonotone(Sum(rates) * 100, 500 * n, n);
      RoundHalfUpExact(100, n);
      RoundHalfUpExact(500, n);
    }
  }

  /** n ratings in 1..5 sum to between n and 5n. */
  lemma {:induction false} SumBounds(rates: seq<nat>)
    requires forall k :: 0 <= k < |rates| ==> 1 <= rates[k] <= 5
    ensures |rates| <= Sum(rates) <= 5 * |rates|
    decreases |rates|
  {
    if rates != [] {
      SumBounds(rates[..|rates| - 1]);
    }
  }

  /** Ratings all equal to r average exactly r. */
  lemma {:induction false} RatingAvgConstant(rates: seq<nat>, r: nat)
    requires rates != [] && forall k :: 0 <= k < |rates| ==> rates[k] == r
    ensures RatingAvg(rates) == 100 * r
  {
    SumConstant(rates, r);
    assert Pow10(RatingScale) == 100;
    assert Sum(rates) * 100 == (100 * r) * |rates|;
    RoundHalfUpExact(100 * r, |rates|);
  }

  lemma {:induction false} SumConstant(rates: seq<nat>, r: nat)
    requires forall k :: 0 <= k < |rates| ==> rates[k] == r
    ensures Sum(rates) == r * |rates|
    decreases |rates|
  {
    if rates != [] {
      SumConstant(rates[..|rates| - 1], r);
    }
  }

  /** Totals that are never negative add up to a spend that is never negative. */
  lemma {:induction false} SumTotalsNonNegative(os: seq<Order>)
    requires forall k :: 0 <= k < |os| ==> os[k].total >= 0
    ensures SumTotals(os) >= 0
    decreases |os|
  {
    if os != [] {
      SumTotalsNonNegative(os[..|os| - 1]);
    }
  }

  // ---------------------------------------------------------------------------
  // How the recomputation changes when a table grows by one record
  // ---------------------------------------------------------------------------

  lemma SumTotalsAppend(os: seq<Order>, o: Order)
    ensures SumTotals(os + [o]) == SumTotals(os) + o.total
  {
    assert (os + [o])[..|os + [o]| - 1] == os;
  }

  /** A new order changes the consumer figures of its own consumer only, and only when it is fulfilled. */
  lemma ConsumerFiguresAppend(orders: seq<Order>, o: Order, cid: Id)
    ensures FulfilledBy(cid)(o) ==>
      && ConsumerOrderCount(orders + [o], cid) == ConsumerOrderCount(orders, cid) + 1
      && ConsumerSpent(orders + [o], cid) == ConsumerSpent(orders, cid) + o.total
      && FirstOrder(orders + [o], cid) == (if FirstOrder(orders, cid).None? then Some(o.created) else FirstOrder(orders, cid))
    ensures !FulfilledBy(cid)(o) ==>
      && ConsumerOrderCount(orders + [o], cid) == ConsumerOrderCount(orders, cid)
      && ConsumerSpent(orders + [o], cid) == ConsumerSpent(orders, cid)
      && FirstOrder(orders + [o], cid) == FirstOrder(orders, cid)
  {
    FilterAppend(orders, o, FulfilledBy(cid));
    SumTotalsAppend(Filter(orders, FulfilledBy(cid)), o);
  }

  /** A new order changes the seller figures of its own seller only, and only when it is fulfilled. */
  lemma SellerFiguresAppend(orders: seq<Order>, o: Order, sid: Id)
    ensures FulfilledFor(sid)(o) ==>
      && SellerOrderCount(orders + [o], sid) == SellerOrderCount(orders, sid) + 1
      && SellerSales(orders + [o], sid) == SellerSales(orders, sid) + o.total
    ensures !FulfilledFor(sid)(o) ==>
      && SellerOrderCount(orders + [o], sid) == SellerOrderCount(orders, sid)
      && SellerSales(orders + [o], sid) == SellerSales(orders, sid)
  {
    FilterAppend(orders, o, FulfilledFor(sid));
    SumTotalsAppend(Filter(orders, FulfilledFor(sid)), o);
  }

  /** A new review adds its rate to its own seller's and its own commodity's ratings and to no others. */
  lemma RatingsAppend(reviews: seq<Review>, r: Review, id: Id)
    ensures SellerRatings(reviews + [r], id) ==
      if r.sellerId == id then SellerRatings(reviews, id) + [r.rate] else SellerRatings(reviews, id)
    ensures CommodityRatings(reviews + [r], id) ==
      if r.commodityId == id then CommodityRatings(reviews, id) + [r.rate] else CommodityRatings(reviews, id)
  {
    FilterAppend(reviews, r, ReviewBySeller(id));
    FilterAppend(reviews, r, ReviewOfCommodity(id));
  }

  lemma LineQuantityAppend(lines: seq<OrderLine>, l: OrderLine, mid: Id)
    ensures LineQuantity(lines + [l], mid) == LineQuantity(lines, mid) + if l.commodityId == mid then l.quantity else 0
  {
    assert (lines + [l])[..|lines + [l]| - 1] == lines;
  }

  lemma QuantitySoldAppend(bs: seq<Bundle>, b: Bundle, mid: Id)
    ensures QuantitySold(bs + [b], mid) == QuantitySold(bs, mid) + if IsFulfilled(b.order.status) then LineQuantity(b.lines, mid) else 0
  {
    assert (bs + [b])[..|bs + [b]| - 1] == bs;
  }

  lemma OrdersOfAppend(bs: seq<Bundle>, b: Bundle)
    ensures OrdersOf(bs + [b]) == OrdersOf(bs) + [b.order]
    ensures LinesOf(bs + [b]) == LinesOf(bs) + b.lines
    ensures ReviewsOf(bs + [b]) == ReviewsOf(bs) + b.reviews
    ensures TransactionsOf(bs + [b]) == TransactionsOf(bs) + match b.txn case None => [] case Some(t) => [t]
  {
    assert (bs + [b])[..|bs + [b]| - 1] == bs;
  }

  // ---------------------------------------------------------------------------
  // The write-back
  // ---------------------------------------------------------------------------

  /**
   * A consumer after the write-back: its fulfilled-order count and spend, the
   * segment of that spend, and the date of its first fulfilled order when it
   * has one (else the date it had).
   */
  function UpdatedConsumer(c: Consumer, orders: seq<Order>): Consumer {
    var spent := ConsumerSpent(orders, c.id);
    c.(
      totalOrders := ConsumerOrderCount(orders, c.id),
      totalSpent := spent,
      segment := CustomerSegment(spent),
      firstOrderDate := match FirstOrder(orders, c.id) case None => c.firstOrderDate case Some(t) => Some(t / Day))
  }

  /** A seller after the write-back: its fulfilled-order count, its sales and its rating average. */
  function UpdatedSeller(s: Seller, orders: seq<Order>, reviews: seq<Review>): Seller {
    s.(
      totalOrders := SellerOrderCount(orders, s.id),
      totalSales := SellerSales(orders, s.id),
      ratingAvg := RatingAvg(SellerRatings(reviews, s.id)))
  }

  /** A commodity after the write-back: units sold, number of reviews and rating average. */
  function UpdatedCommodity(m: Commodity, bs: seq<Bundle>, reviews: seq<Review>): Commodity {
    var ratings := CommodityRatings(reviews, m.id);
    m.(totalSold := QuantitySold(bs, m.id), reviewCount := |ratings|, ratingAvg := RatingAvg(ratings))
  }

  /**
   * The write-back of a consumer changes no field but the four derived ones;
   * a spend over a table of orders with non-negative totals reaches the
   * threshold of its segment, and a consumer without a fulfilled order keeps
   * its first-order date and is one-time.
   */
  lemma UpdatedConsumerFacts(c: Consumer, orders: seq<Order>)
    requires forall k :: 0 <= k < |orders| ==> orders[k].total >= 0
    ensures var u := UpdatedConsumer(c, orders);
      && u.id == c.id
      && u.totalSpent >= SegmentThreshold(u.segment)
      && (forall t: Segment :: SegmentRank(t) > SegmentRank(u.segment) ==> u.totalSpent < SegmentThreshold(t))
      && (u.totalOrders == 0 ==> u.firstOrderDate == c.firstOrderDate && u.totalSpent == 0 && u.segment == OneTime)
      && (u.totalOrders > 0 ==> u.firstOrderDate.Some?)
  {
    var f := Filter(orders, FulfilledBy(c.id));
    assert forall k :: 0 <= k < |f| ==> f[k].total >= 0;
    SumTotalsNonNegative(f);
  }

  /** The write-back of a seller changes no field but the three derived ones; its rating average is 0 or in [1.00, 5.00]. */
  lemma UpdatedSellerFacts(s: Seller, orders: seq<Order>, reviews: seq<Review>)
    requires forall r :: r in reviews ==> 1 <= r.rate <= 5
    ensures var u := UpdatedSeller(s, orders, reviews);
      && u.id == s.id && u.kind == s.kind && u.introduction == s.introduction
      && (SellerRatings(reviews, s.id) == [] ==> u.ratingAvg == 0)
      && (SellerRatings(reviews, s.id) != [] ==> 100 <= u.ratingAvg <= 500)
  {
    RatingAvgBounds(SellerRatings(reviews, s.id));
  }

  /**
   * The write-back of a commodity changes no field but the three derived
   * ones; its review count is the number of its reviews and its rating
   * average is 0 or in [1.00, 5.00].
   */
  lemma UpdatedCommodityFacts(m: Commodity, bs: seq<Bundle>, reviews: seq<Review>)
    requires forall r :: r in reviews ==> 1 <= r.rate <= 5
    ensures var u := UpdatedCommodity(m, bs, reviews);
      && u.id == m.id && u.sellerId == m.sellerId && u.verticalId == m.verticalId
      && u.price == m.price && u.costPrice == m.costPrice
      && u.quantity == m.quantity && u.reservedQuantity == m.reservedQuantity
      && u.reviewCount == |Filter(reviews, ReviewOfCommodity(m.id))|
      && (u.reviewCount == 0 ==> u.ratingAvg == 0)
      && (u.reviewCount > 0 ==> 100 <= u.ratingAvg <= 500)
  {
    RatingAvgBounds(CommodityRatings(reviews, m.id));
  }
}
