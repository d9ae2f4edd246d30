/**
 * The records the generator produces, reduced to the fields its logic reads
 * or computes. Identifiers are opaque strings (freshly drawn UUIDs), times
 * are whole seconds, money is in units of 10^-4 and rating averages in
 * units of 10^-2.
 */
module Domain {
  import opened Opt
  import opened Fixed

  type Id = string

  /** A point in time, in whole seconds. */
  type Time = int

  const Hour: int := 3600
  const Day: int := 86400

  datatype OrderStatus = Draft | InProgress | Pending | Shipped | Delivered | Done | Cancelled | Abandoned

  /** Statuses whose order has been paid: inprogress, shipped, delivered, done. */
  predicate IsPaid(s: OrderStatus) {
    s == InProgress || s == Shipped || s == Delivered || s == Done
  }

  /** Statuses whose order has left the seller: shipped, delivered, done. */
  predicate IsShipped(s: OrderStatus) {
    s == Shipped || s == Delivered || s == Done
  }

  /** Statuses that count as a completed sale: delivered, done. */
  predicate IsFulfilled(s: OrderStatus) {
    s == Delivered || s == Done
  }

  lemma StatusStages(s: OrderStatus)
    ensures IsFulfilled(s) ==> IsShipped(s)
    ensures IsShipped(s) ==> IsPaid(s)
    ensures IsPaid(s) ==> s != Draft
  {
  }

  datatype TransStatus = TransDraft | Authorized | Captured | Failed | Refunded | TransCancelled

  datatype SellerType = Vendor | AuthorizedSeller

  datatype Segment = OneTime | Occasional | Regular | Vip

  /** Lifetime spend, in money units, from which a segment applies: 100, 1000 and 5000. */
  function SegmentThreshold(s: Segment): Money {
    match s
    case OneTime => 0
    case Occasional => 100 * Pow10(MoneyScale)
    case Regular => 1000 * Pow10(MoneyScale)
    case Vip => 5000 * Pow10(MoneyScale)
  }

  function SegmentRank(s: Segment): nat {
    match s
    case OneTime => 0
    case Occasional => 1
    case Regular => 2
    case Vip => 3
  }

  /**
   * calculate_customer_segment: the highest segment whose threshold the
   * spend reaches. The source compares float(spent) with integer thresholds;
   * for a value with four decimals that comparison agrees with the exact one.
   */
  function CustomerSegment(spent: Money): (s: Segment)
    ensures spent >= 0 ==> spent >= SegmentThreshold(s)
    ensures forall t: Segment :: SegmentRank(t) > SegmentRank(s) ==> spent < SegmentThreshold(t)
  {
    if spent >= SegmentThreshold(Vip) then Vip
    else if spent >= SegmentThreshold(Regular) then Regular
    else if spent >= SegmentThreshold(Occasional) then Occasional
    else OneTime
  }

  /** Spending more never moves a customer to a lower segment. */
  lemma CustomerSegmentMonotone(a: Money, b: Money)
    requires a <= b
    ensures SegmentRank(CustomerSegment(a)) <= SegmentRank(CustomerSegment(b))
  {
  }

  datatype Vertical = Vertical(id: Id, name: string)

  datatype Seller = Seller(
    id: Id,
    kind: SellerType,
    introduction: string,
    ratingAvg: int,
    totalSales: Money,
    totalOrders: nat)

  datatype Consumer = Consumer(
    id: Id,
    firstOrderDate: Option<int>,
    totalOrders: nat,
    totalSpent: Money,
    segment: Segment)

  datatype SellerVertical = SellerVertical(sellerId: Id, verticalId: Id)

  datatype Address = Address(id: Id, userId: Id, isDefault: bool)

  datatype Card = Card(id: Id, consumerId: Id, token: string, last4: string, isDefault: bool)

  datatype Commodity = Commodity(
    id: Id,
    sellerId: Id,
    verticalId: Id,
    price: Money,
    costPrice: Money,
    quantity: nat,
    reservedQuantity: nat,
    ratingAvg: int,
    reviewCount: nat,
    totalSold: nat)

  datatype Order = Order(
    id: Id,
    consumerId: Id,
    sellerId: Id,
    status: OrderStatus,
    addressId: Id,
    subtotal: Money,
    tax: Money,
    shipping: Money,
    discount: Money,
    total: Money,
    created: Time,
    confirmed: Option<Time>,
    paid: Option<Time>,
    shipped: Option<Time>,
    delivered: Option<Time>,
    completed: Option<Time>,
    daysToShip: Option<int>,
    daysToDeliver: Option<int>)

  datatype OrderLine = OrderLine(
    orderId: Id,
    commodityId: Id,
    quantity: nat,
    unitPrice: Money,
    unitCost: Money,
    lineTotal: Money,
    discountApplied: Money)

  datatype Transaction = Transaction(
    id: Id,
    orderId: Id,
    cardId: Id,
    amount: Money,
    status: TransStatus,
    created: Time,
    authorized: Option<Time>,
    completed: Option<Time>)

  datatype Review = Review(
    id: Id,
    orderId: Id,
    commodityId: Id,
    consumerId: Id,
    sellerId: Id,
    rate: nat,
    created: Time,
    published: Time)

  /** The identifiers of a list of records are pairwise distinct. */
  predicate DistinctIds(ids: seq<Id>) {
    forall i, j :: 0 <= i < j < |ids| ==> ids[i] != ids[j]
  }
}
