/**
 * The per-order part of generate_orders_and_related: the line items and the
 * running subtotal, the order totals, the status-driven timestamps, the
 * transaction and the reviews of one order.
 */
module Orders {
  import opened Opt
  import opened Fixed
  import opened Domain

  // ---------------------------------------------------------------------------
  // Line items
  // ---------------------------------------------------------------------------

  /** The draws of one line: random.randint(1, 5) units and the discount. */
  datatype LineDraw = LineDraw(quantity: nat, discount: Money)

  /** The discount is drawn from [0, 20% of the gross line amount]: at most that bound rounded to four decimals. */
  predicate ValidLineDraw(d: LineDraw, price: Money) {
    && 1 <= d.quantity <= 5
    && 0 <= d.discount <= Quantize(2 * (price * d.quantity), 5, MoneyScale)
  }

  /**
   * The commodities of an order: random.sample of min(n, |commodities|)
   * distinct positions for some n in 1..5, with one line draw each.
   */
  predicate ValidLinePicks(picks: seq<nat>, draws: seq<LineDraw>, commodities: seq<Commodity>) {
    && |picks| <= 5
    && |picks| <= |commodities|
    && (commodities != [] ==> 1 <= |picks|)
    && (forall k :: 0 <= k < |picks| ==> picks[k] < |commodities|)
    && (forall j, k :: 0 <= j < k < |picks| ==> picks[j] != picks[k])
    && |draws| == |picks|
    && (forall k :: 0 <= k < |picks| ==> ValidLineDraw(draws[k], commodities[picks[k]].price))
  }

  /** unit_cost: the cost price when it is filled in, else 60% of the price; quantized to four decimals. */
  function UnitCost(cost: Option<Money>, price: Money): Money {
    match cost
    case Some(c) => Quantize(c, MoneyScale, MoneyScale)
    case None => Quantize(price * 6, MoneyScale + 1, MoneyScale)
  }

  /** One line item: the unit price is the commodity's price and the line total is net of the discount. */
  function MakeLine(orderId: Id, c: Commodity, d: LineDraw): OrderLine {
    var gross := c.price * d.quantity;
    var discount := Quantize(d.discount, MoneyScale, MoneyScale);
    var net := Quantize(gross - discount, MoneyScale, MoneyScale);
    OrderLine(orderId, c.id, d.quantity, c.price, UnitCost(Some(c.costPrice), c.price), net, discount)
  }

  function OrderLines(orderId: Id, commodities: seq<Commodity>, picks: seq<nat>, draws: seq<LineDraw>): (r: seq<OrderLine>)
    requires |draws| == |picks| && forall k :: 0 <= k < |picks| ==> picks[k] < |commodities|
    ensures |r| == |picks|
  {
    seq(|picks|, k requires 0 <= k < |picks| => MakeLine(orderId, commodities[picks[k]], draws[k]))
  }

  /** The sum of the line totals. */
  function SumLineTotals(lines: seq<OrderLine>): Money
    decreases |lines|
  {
    if lines == [] then 0 else SumLineTotals(lines[..|lines| - 1]) + lines[|lines| - 1].lineTotal
  }

  /** The line items of one order with the running subtotal, quantized after every addition. */
  method BuildLines(orderId: Id, commodities: seq<Commodity>, picks: seq<nat>, draws: seq<LineDraw>)
    returns (lines: seq<OrderLine>, subtotal: Money)
    requires ValidLinePicks(picks, draws, commodities)
    ensures lines == OrderLines(orderId, commodities, picks, draws)
    ensures subtotal == SumLineTotals(lines)
  {
    lines, subtotal := [], 0;
    var k := 0;
    while k < |picks|
      invariant 0 <= k <= |picks|
      invariant lines == OrderLines(orderId, commodities, picks, draws)[..k]
      invariant subtotal == SumLineTotals(lines)
    {
      var c := commodities[picks[k]];
      var d := draws[k];
      var unitPrice := c.price;
      var unitCost := UnitCost(Some(c.costPrice), unitPrice);
      var gross := unitPrice * d.quantity;
      var discount := Quantize(d.discount, MoneyScale, MoneyScale);
      var net := Quantize(gross - discount, MoneyScale, MoneyScale);
      var line := OrderLine(orderId, c.id, d.quantity, unitPrice, unitCost, net, discount);
      assert line == MakeLine(orderId, c, d);
      lines := lines + [line];
      assert lines[..|lines| - 1] == OrderLines(orderId, commodities, picks, draws)[..k];
      subtotal := Quantize(subtotal + net, MoneyScale, MoneyScale);
      k := k + 1;
    }
  }

  /**
   * A line's arithmetic: the unit price and cost come from the commodity,
   * the line total is the gross amount less the discount, and the discount
   * is at most 20% of the gross amount (up to the last digit's rounding), so
   * the line total is never negative.
   */
  lemma LineArithmetic(orderId: Id, c: Commodity, d: LineDraw)
    requires ValidLineDraw(d, c.price) && c.price >= 0
    ensures var l := MakeLine(orderId, c, d);
      && l.orderId == orderId && l.commodityId == c.id && l.quantity == d.quantity
      && l.unitPrice == c.price && l.unitCost == c.costPrice
      && l.lineTotal == l.unitPrice * l.quantity - l.discountApplied
      && 0 <= l.discountApplied && 10 * l.discountApplied <= 2 * (l.unitPrice * l.quantity) + 5
      && 0 <= l.lineTotal <= l.unitPrice * l.quantity
  {
    var gross := c.price * d.quantity;
    assert Pow10(MoneyScale + 1 - MoneyScale) == 10;
    RoundHalfUpAtMost(2 * gross, 10, gross);
  }

  /** The lines of an order belong to it and carry the arithmetic of LineArithmetic. */
  lemma OrderLinesFacts(orderId: Id, commodities: seq<Commodity>, picks: seq<nat>, draws: seq<LineDraw>)
    requires ValidLinePicks(picks, draws, commodities)
    requires forall k :: 0 <= k < |commodities| ==> commodities[k].price >= 0
    ensures var lines := OrderLines(orderId, commodities, picks, draws);
      && 1 <= |lines| + (if commodities == [] then 1 else 0) && |lines| <= 5
      && (forall k :: 0 <= k < |lines| ==>
            && lines[k].orderId == orderId
            && lines[k].commodityId == commodities[picks[k]].id
            && 1 <= lines[k].quantity <= 5
            && lines[k].unitPrice == commodities[picks[k]].price
            && lines[k].lineTotal == lines[k].unitPrice * lines[k].quantity - lines[k].discountApplied
            && 0 <= lines[k].lineTotal)
  {
    var lines := OrderLines(orderId, commodities, picks, draws);
    forall k | 0 <= k < |lines|
      ensures lines[k].lineTotal == lines[k].unitPrice * lines[k].quantity - lines[k].discountApplied
      ensures 0 <= lines[k].lineTotal
    {
      LineArithmetic(orderId, commodities[picks[k]], draws[k]);
    }
  }

  /** Line totals that are never negative sum to a subtotal that is never negative. */
  lemma {:induction false} SubtotalNonNegative(lines: seq<OrderLine>)
    requires forall k :: 0 <= k < |lines| ==> lines[k].lineTotal >= 0
    ensures SumLineTotals(lines) >= 0
    decreases |lines|
  {
    if lines != [] {
      SubtotalNonNegative(lines[..|lines| - 1]);
    }
  }

  // ---------------------------------------------------------------------------
  // Order totals
  // ---------------------------------------------------------------------------

  datatype Totals = Totals(tax: Money, shipping: Money, discount: Money, total: Money)

  /** shipping fee drawn from [0, 20]; discount from [0, 10% of the subtotal], rounded to four decimals. */
  predicate ValidTotalsDraw(subtotal: Money, shipping: Money, discount: Money) {
    && 0 <= shipping <= 20 * Pow10(MoneyScale)
    && 0 <= discount <= Quantize(subtotal, MoneyScale + 1, MoneyScale)
  }

  /** tax is 8% of the subtotal (six decimals) quantized to four; the total adds tax and shipping and takes off the discount. */
  function OrderTotals(subtotal: Money, shipping: Money, discount: Money): Totals {
    var tax := Quantize(subtotal * 8, MoneyScale + 2, MoneyScale);
    var fee := Quantize(shipping, MoneyScale, MoneyScale);
    var off := Quantize(discount, MoneyScale, MoneyScale);
    Totals(tax, fee, off, Quantize(subtotal + tax + fee - off, MoneyScale, MoneyScale))
  }

  /**
   * The tax is 8% of the subtotal rounded half-up to four decimals, the total
   * is exactly subtotal + tax + shipping - discount, the order discount is at
   * most the subtotal, and so the total is at least tax + shipping.
   */
  lemma TotalsArithmetic(subtotal: Money, shipping: Money, discount: Money)
    requires subtotal >= 0 && ValidTotalsDraw(subtotal, shipping, discount)
    ensures var t := OrderTotals(subtotal, shipping, discount);
      && IsHalfUpRounding(subtotal * 8, 100, t.tax)
      && t.shipping == shipping && t.discount == discount
      && t.total == subtotal + t.tax + t.shipping - t.discount
      && 0 <= t.tax && 0 <= t.discount <= subtotal
      && t.total >= t.tax + t.shipping >= 0
  {
    assert Pow10(MoneyScale + 2 - MoneyScale) == 100;
    assert Pow10(MoneyScale + 1 - MoneyScale) == 10;
    RoundHalfUpAtMost(subtotal, 10, subtotal);
  }

  // ---------------------------------------------------------------------------
  // Lifecycle timestamps
  // ---------------------------------------------------------------------------

  /** Hour and day offsets: confirm 1..24 h, pay 1..48 h after creation, ship 1..5 d, deliver 1..7 d, complete 7..14 d. */
  datatype LifecycleDraw = LifecycleDraw(confirmHours: int, payHours: int, shipDays: int, deliverDays: int, completeDays: int)

  predicate ValidLifecycleDraw(d: LifecycleDraw) {
    && 1 <= d.confirmHours <= 24
    && 1 <= d.payHours <= 48
    && 1 <= d.shipDays <= 5
    && 1 <= d.deliverDays <= 7
    && 7 <= d.completeDays <= 14
  }

  datatype Timeline = Timeline(
    confirmed: Option<Time>,
    paid: Option<Time>,
    shipped: Option<Time>,
    delivered: Option<Time>,
    completed: Option<Time>,
    daysToShip: Option<int>,
    daysToDeliver: Option<int>)

  /** The timestamps set for an order of the given status, each stage counted from the one before. */
  function Lifecycle(status: OrderStatus, created: Time, d: LifecycleDraw): Timeline {
    var confirmed := if status != Draft then Some(created + d.confirmHours * Hour) else None;
    if !IsPaid(status) then
      Timeline(confirmed, None, None, None, None, None, None)
    else
      var paid := created + d.payHours * Hour;
      if !IsShipped(status) then
        Timeline(confirmed, Some(paid), None, None, None, None, None)
      else
        var shipped := paid + d.shipDays * Day;
        var daysToShip := (shipped - paid) / Day;
        if !IsFulfilled(status) then
          Timeline(confirmed, Some(paid), Some(shipped), None, None, Some(daysToShip), None)
        else
          var delivered := shipped + d.deliverDays * Day;
          var daysToDeliver := (delivered - shipped) / Day;
          var completed := if status == Done then Some(delivered + d.completeDays * Day) else None;
          Timeline(confirmed, Some(paid), Some(shipped), Some(delivered), completed, Some(daysToShip), Some(daysToDeliver))
  }

  /** Which timestamps a status sets, and that each set stage lies strictly after the one before. */
  lemma LifecycleFacts(status: OrderStatus, created: Time, d: LifecycleDraw)
    requires ValidLifecycleDraw(d)
    ensures var t := Lifecycle(status, created, d);
      && (t.confirmed.Some? <==> status != Draft)
      && (t.paid.Some? <==> IsPaid(status))
      && (t.shipped.Some? <==> IsShipped(status))
      && (t.daysToShip.Some? <==> IsShipped(status))
      && (t.delivered.Some? <==> IsFulfilled(status))
      && (t.daysToDeliver.Some? <==> IsFulfilled(status))
      && (t.completed.Some? <==> status == Done)
      && (t.confirmed.Some? ==> created + Hour <= t.confirmed.value <= created + 24 * Hour)
      && (t.paid.Some? ==> created + Hour <= t.paid.value <= created + 48 * Hour)
      && (t.shipped.Some? ==>
            && t.paid.Some? && t.daysToShip.Some?
            && t.shipped.value == t.paid.value + t.daysToShip.value * Day
            && 1 <= t.daysToShip.value <= 5)
      && (t.delivered.Some? ==>
            && t.shipped.Some? && t.daysToDeliver.Some?
            && t.delivered.value == t.shipped.value + t.daysToDeliver.value * Day
            && 1 <= t.daysToDeliver.value <= 7)
      && (t.completed.Some? ==>
            && t.delivered.Some?
            && t.delivered.value + 7 * Day <= t.completed.value <= t.delivered.value + 14 * Day)
  {
    DaysBetween(d.shipDays);
    DaysBetween(d.deliverDays);
  }

  /** timedelta(days=k).days is k. */
  lemma DaysBetween(k: int)
    ensures (k * Day) / Day == k
  {
  }

  /** paid_at is drawn from the creation time, not from confirmed_at, so an order can be paid before it is confirmed. */
  lemma PaidBeforeConfirmed()
    ensures var t := Lifecycle(InProgress, 0, LifecycleDraw(24, 1, 1, 1, 7));
      t.paid.Some? && t.confirmed.Some? && t.paid.value < t.confirmed.value
  {
  }

  // ---------------------------------------------------------------------------
  // Transactions
  // ---------------------------------------------------------------------------

  /** The status as it is written to the orders table. */
  function StatusName(s: OrderStatus): string {
    match s
    case Draft => "draft"
    case InProgress => "inprogress"
    case Pending => "pending"
    case Shipped => "shipped"
    case Delivered => "delivered"
    case Done => "done"
    case Cancelled => "cancelled"
    case Abandoned => "abandoned"
  }

  /** The statuses for which a transaction is generated, as the source lists them. */
  const TransactionStatuses: seq<string> := ["inprogress", "shipped", "delivered", "done", "captured"]

  /** The statuses whose transaction is captured. */
  const CapturedStatuses: seq<string> := ["inprogress", "shipped", "delivered", "done"]

  /** 'captured' is not an order status: the transaction statuses are exactly the paid ones. */
  lemma TransactionStatusesArePaid(s: OrderStatus)
    ensures StatusName(s) in TransactionStatuses <==> IsPaid(s)
    ensures StatusName(s) in CapturedStatuses <==> IsPaid(s)
  {
  }

  /** The draws of a transaction: its id, the card, 0..2 h after creation, authorised 1..60 s and completed 60..300 s later, and the status the weighted choice would give. */
  datatype TxnDraw = TxnDraw(id: Id, card: nat, hours: int, authSeconds: int, captureSeconds: int, fallback: TransStatus)

  predicate ValidTxnDraw(d: TxnDraw) {
    && 0 <= d.hours <= 2
    && 1 <= d.authSeconds <= 60
    && 60 <= d.captureSeconds <= 300
  }

  /** The transaction of an order, when its status is one of the listed ones and the consumer has a card. */
  function TransactionFor(o: Order, cards: seq<Card>, d: TxnDraw): Option<Transaction>
    requires StatusName(o.status) in TransactionStatuses && cards != [] ==> d.card < |cards|
  {
    if StatusName(o.status) in TransactionStatuses && cards != [] then
      var created := o.created + d.hours * Hour;
      var status := if StatusName(o.status) in CapturedStatuses then Captured else d.fallback;
      Some(Transaction(
        d.id, o.id, cards[d.card].id, Quantize(o.total, MoneyScale, MoneyScale), status, created,
        if status != TransDraft then Some(created + d.authSeconds) else None,
        if status == Captured then Some(created + d.captureSeconds) else None))
    else
      None
  }

  /**
   * A transaction exists exactly for a paid order of a consumer with a card;
   * it pays the order total with one of that consumer's cards and is always
   * captured, authorised and completed within minutes of its creation.
   */
  lemma TransactionFacts(o: Order, cards: seq<Card>, d: TxnDraw)
    requires IsPaid(o.status) && cards != [] ==> d.card < |cards|
    requires ValidTxnDraw(d)
    ensures StatusName(o.status) in TransactionStatuses && cards != [] ==> d.card < |cards|
    ensures var t := TransactionFor(o, cards, d);
      && (t.Some? <==> IsPaid(o.status) && cards != [])
      && (t.Some? ==>
            && t.value.orderId == o.id
            && t.value.cardId == cards[d.card].id
            && t.value.amount == o.total
            && t.value.status == Captured
            && o.created <= t.value.created <= o.created + 2 * Hour
            && t.value.authorized == Some(t.value.created + d.authSeconds)
            && t.value.completed == Some(t.value.created + d.captureSeconds))
  {
    TransactionStatusesArePaid(o.status);
  }

  // ---------------------------------------------------------------------------
  // Reviews
  // ---------------------------------------------------------------------------

  /** The draws of one review: its id, the rate 1..5, created 1..30 and published 1..31 days after delivery. */
  datatype ReviewDraw = ReviewDraw(id: Id, rate: nat, createdDays: int, publishedDays: int)

  predicate ValidReviewDraw(d: ReviewDraw) {
    && 1 <= d.rate <= 5
    && 1 <= d.createdDays <= 30
    && 1 <= d.publishedDays <= 31
  }

  /** The review of one line, written by the order's consumer about the order's seller. */
  function MakeReview(o: Order, delivered: Time, line: OrderLine, d: ReviewDraw): Review {
    Review(d.id, o.id, line.commodityId, o.consumerId, o.sellerId, d.rate,
      delivered + d.createdDays * Day, delivered + d.publishedDays * Day)
  }

  /** The reviews of an order: one for each line whose draw is present (a line is picked with probability one half). */
  function OrderReviews(o: Order, delivered: Time, lines: seq<OrderLine>, draws: seq<Option<ReviewDraw>>): seq<Review>
    requires |draws| == |lines|
    decreases |lines|
  {
    if lines == [] then []
    else
      var n := |lines| - 1;
      OrderReviews(o, delivered, lines[..n], draws[..n]) +
        match draws[n]
        case None => []
        case Some(d) => [MakeReview(o, delivered, lines[n], d)]
  }

  /** Every review of an order names the order, one of its lines' commodities, its consumer and seller, and a rate 1..5. */
  lemma {:induction false} OrderReviewsFacts(o: Order, delivered: Time, lines: seq<OrderLine>, draws: seq<Option<ReviewDraw>>)
    requires |draws| == |lines|
    requires forall k :: 0 <= k < |draws| && draws[k].Some? ==> ValidReviewDraw(draws[k].value)
    ensures var rs := OrderReviews(o, delivered, lines, draws);
      && |rs| <= |lines|
      && forall r :: r in rs ==>
        && r.orderId == o.id && r.consumerId == o.consumerId && r.sellerId == o.sellerId
        && (exists k :: 0 <= k < |lines| && r.commodityId == lines[k].commodityId)
        && 1 <= r.rate <= 5
        && delivered + Day <= r.created <= delivered + 30 * Day
        && delivered + Day <= r.published <= delivered + 31 * Day
    decreases |lines|
  {
    if lines != [] {
      var n := |lines| - 1;
      OrderReviewsFacts(o, delivered, lines[..n], draws[..n]);
      var rs := OrderReviews(o, delivered, lines, draws);
      forall r | r in rs
        ensures exists k :: 0 <= k < |lines| && r.commodityId == lines[k].commodityId
      {
        if r in OrderReviews(o, delivered, lines[..n], draws[..n]) {
          var k :| 0 <= k < n && r.commodityId == lines[..n][k].commodityId;
          assert lines[..n][k] == lines[k];
        } else {
          assert r.commodityId == lines[n].commodityId;
        }
      }
    }
  }

  /** published_at is drawn independently of created_at, so a review can be published before it is written. */
  lemma PublishedBeforeCreated(o: Order, line: OrderLine)
    ensures var r := MakeReview(o, 0, line, ReviewDraw("r", 5, 30, 1));
      r.published < r.created
  {
  }
}
