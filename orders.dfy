/**
 * The order service: item and order totals, the final amount with optional
 * discount, tax and shipping, status updates on stored orders, period
 * analytics with a HALF_UP average, the request and period anomaly scores,
 * the checks that log suspicious requests, and the bounded security-event log.
 *
 * Money is an integer number of cents (`BigDecimal` at scale 2); instants are
 * integers and the clock is a parameter `now`.
 */
module Orders {
  import opened Wrappers
  import opened Bounded
  import opened Sorting
  import opened Text
  import Stats

  datatype OrderStatus = Pending | Confirmed | Processing | Shipped | Delivered | Cancelled | Refunded

  const AllStatuses: seq<OrderStatus> := [Pending, Confirmed, Processing, Shipped, Delivered, Cancelled, Refunded]

  /** An item of a request or of an order; the order copies the request's fields unchanged. */
  datatype OrderItem = OrderItem(productId: string, productName: string, quantity: nat, unitPrice: int, discountAmount: Option<int>)

  datatype Order = Order(
    orderNumber: string, customerId: string, status: OrderStatus, totalAmount: int,
    discountAmount: Option<int>, taxAmount: Option<int>, shippingCost: Option<int>,
    items: seq<OrderItem>, notes: Option<string>, deliveredAt: Option<int>)

  /** A `null` amount contributes nothing. */
  function Amount(a: Option<int>): int
  {
    if a.Some? then a.value else 0
  }

  // ---------------------------------------------------------------------
  // Totals

  /** `OrderItem.getTotalPrice`: price times quantity, less the item's discount if any. */
  function ItemTotal(item: OrderItem): int
  {
    item.unitPrice * item.quantity - Amount(item.discountAmount)
  }

  /** The total of `createOrder`: the item totals summed from zero. */
  function OrderTotal(items: seq<OrderItem>): int
    decreases |items|
  {
    if |items| == 0 then 0 else OrderTotal(items[..|items| - 1]) + ItemTotal(items[|items| - 1])
  }

  /** Totals add up over concatenation, so an order's total does not depend on how its items are grouped. */
  lemma {:induction false} OrderTotalAppend(a: seq<OrderItem>, b: seq<OrderItem>)
    ensures OrderTotal(a + b) == OrderTotal(a) + OrderTotal(b)
    decreases |b|
  {
    if |b| > 0 {
      assert (a + b)[..|a + b| - 1] == a + b[..|b| - 1];
      assert (a + b)[|a + b| - 1] == b[|b| - 1];
      OrderTotalAppend(a, b[..|b| - 1]);
    } else {
      assert a + b == a;
    }
  }

  /** When no discount exceeds its line, the total is not negative. */
  lemma {:induction false} OrderTotalNonNegative(items: seq<OrderItem>)
    requires forall i :: 0 <= i < |items| ==> items[i].unitPrice >= 0 && Amount(items[i].discountAmount) <= items[i].unitPrice * items[i].quantity
    ensures OrderTotal(items) >= 0
    decreases |items|
  {
    if |items| > 0 {
      OrderTotalNonNegative(items[..|items| - 1]);
    }
  }

  /** `calculateFinalAmount`: total less discount, plus tax and shipping. */
  function FinalAmount(o: Order): (f: int)
    ensures o.discountAmount.None? && o.taxAmount.None? && o.shippingCost.None? ==> f == o.totalAmount
  {
    var afterDiscount := if o.discountAmount.Some? then o.totalAmount - o.discountAmount.value else o.totalAmount;
    var afterTax := if o.taxAmount.Some? then afterDiscount + o.taxAmount.value else afterDiscount;
    if o.shippingCost.Some? then afterTax + o.shippingCost.value else afterTax
  }

  /** Setting a component moves the final amount by exactly that component, in its direction. */
  lemma FinalAmountComponents(o: Order, d: int, t: int, s: int)
    ensures FinalAmount(o.(discountAmount := Some(d))) == FinalAmount(o.(discountAmount := None)) - d
    ensures FinalAmount(o.(taxAmount := Some(t))) == FinalAmount(o.(taxAmount := None)) + t
    ensures FinalAmount(o.(shippingCost := Some(s))) == FinalAmount(o.(shippingCost := None)) + s
  {
  }

  /** The order `createOrder` saves: pending, with the items' total and no discount, tax or shipping. */
  function NewOrder(orderNumber: string, customerId: string, items: seq<OrderItem>, notes: Option<string>): (o: Order)
    ensures o.status == Pending && o.items == items && o.totalAmount == OrderTotal(items)
    ensures FinalAmount(o) == OrderTotal(items)
  {
    Order(orderNumber, customerId, Pending, OrderTotal(items), None, None, None, items, notes, None)
  }

  // ---------------------------------------------------------------------
  // Stored orders

  /** The order after `updateOrderStatus` has applied its setters. */
  function WithStatus(o: Order, status: OrderStatus, notes: Option<string>, now: int): (u: Order)
    ensures u.status == status
    ensures u.notes == if notes.Some? then notes else o.notes
    ensures u.deliveredAt == if status == Delivered then Some(now) else o.deliveredAt
    ensures u.(status := o.status, notes := o.notes, deliveredAt := o.deliveredAt) == o
  {
    var withNotes := if notes.Some? then o.(status := status, notes := notes) else o.(status := status);
    if status == Delivered then withNotes.(deliveredAt := Some(now)) else withNotes
  }

  class OrderRepository {
    var orders: map<string, Order>

    constructor ()
      ensures orders == map[]
    {
      orders := map[];
    }

    /** `save` of a newly created order. */
    method CreateOrder(orderNumber: string, customerId: string, items: seq<OrderItem>, notes: Option<string>) returns (o: Order)
      modifies this
      ensures o == NewOrder(orderNumber, customerId, items, notes)
      ensures orders == old(orders)[orderNumber := o]
    {
      o := NewOrder(orderNumber, customerId, items, notes);
      orders := orders[orderNumber := o];
    }

    /**
     * `updateOrderStatus`: any status may follow any other. Returns the saved
     * order and the previous status that the change event carries.
     */
    method UpdateOrderStatus(orderNumber: string, status: OrderStatus, notes: Option<string>, now: int)
      returns (r: Result<(Order, OrderStatus), string>)
      modifies this
      ensures orderNumber !in old(orders) ==> r == Err("Order not found: " + orderNumber) && orders == old(orders)
      ensures orderNumber in old(orders) ==>
        r == Ok((WithStatus(old(orders)[orderNumber], status, notes, now), old(orders)[orderNumber].status))
        && orders == old(orders)[orderNumber := r.value.0]
    {
      if orderNumber !in orders {
        return Err("Order not found: " + orderNumber);
      }
      var order := orders[orderNumber];
      var previous := order.status;
      order := order.(status := status);
      if notes.Some? {
        order := order.(notes := notes);
      }
      if status == Delivered {
        order := order.(deliveredAt := Some(now));
      }
      orders := orders[orderNumber := order];
      r := Ok((order, previous));
    }

    /** `cancelOrder`: a status update to cancelled whose notes record the reason. */
    method CancelOrder(orderNumber: string, reason: string, now: int) returns (r: Result<(), string>)
      modifies this
      ensures orderNumber !in old(orders) ==> r == Err("Order not found: " + orderNumber) && orders == old(orders)
      ensures orderNumber in old(orders) ==>
                r.Ok? && orders.Keys == old(orders).Keys
                && orders[orderNumber].status == Cancelled && orders[orderNumber].notes == Some("Cancelled: " + reason)
                && orders[orderNumber].deliveredAt == old(orders)[orderNumber].deliveredAt
      ensures orderNumber in old(orders) ==>
                orders == old(orders)[orderNumber := WithStatus(old(orders)[orderNumber], Cancelled, Some("Cancelled: " + reason), now)]
    {
      var updated := UpdateOrderStatus(orderNumber, Cancelled, Some("Cancelled: " + reason), now);
      if updated.Err? {
        return Err(updated.error);
      }
      r := Ok(());
    }
  }

  // ---------------------------------------------------------------------
  // Analytics

  /** `value.divide(n, 2, HALF_UP)` on cents: the nearest integer, halves away from zero. */
  function HalfUpDivide(a: int, n: int): (q: int)
    requires n > 0
  {
    if a >= 0 then (2 * a + n) / (2 * n) else -((2 * -a + n) / (2 * n))
  }

  function Abs(x: int): int
  {
    if x < 0 then -x else x
  }

  /** The HALF_UP quotient is within half a unit of the exact one, and a tie goes away from zero. */
  lemma HalfUpDivideNearest(a: int, n: int)
    requires n > 0
    ensures var q := HalfUpDivide(a, n);
            2 * Abs(a - q * n) <= n && (2 * Abs(a - q * n) == n ==> Abs(q * n) > Abs(a))
  {
    var b := if a >= 0 then a else -a;
    var p := (2 * b + n) / (2 * n);
    var rem := (2 * b + n) % (2 * n);
    assert 2 * b + n == p * (2 * n) + rem;
    assert 2 * (b - p * n) == rem - n;
    if a < 0 {
      assert HalfUpDivide(a, n) * n == -(p * n);
    }
  }

  function CountStatus(orders: seq<Order>, s: OrderStatus): (c: nat)
    ensures c <= |orders|
    decreases |orders|
  {
    if |orders| == 0 then 0
    else CountStatus(orders[..|orders| - 1], s) + (if orders[|orders| - 1].status == s then 1 else 0)
  }

  /** `groupingBy(status, counting())`: only statuses that occur get an entry. */
  function StatusBreakdown(orders: seq<Order>): (m: map<OrderStatus, nat>)
    ensures forall s :: s in m <==> CountStatus(orders, s) > 0
    ensures forall s :: s in m ==> m[s] == CountStatus(orders, s)
  {
    map s | s in AllStatuses && CountStatus(orders, s) > 0 :: CountStatus(orders, s)
  }

  /** The breakdown's counts, summed over every status. */
  function BreakdownTotal(m: map<OrderStatus, nat>, statuses: seq<OrderStatus>): nat
    decreases |statuses|
  {
    if |statuses| == 0 then 0
    else BreakdownTotal(m, statuses[..|statuses| - 1]) + (var s := statuses[|statuses| - 1]; if s in m then m[s] else 0)
  }

  function CountsOver(orders: seq<Order>, statuses: seq<OrderStatus>): nat
    decreases |statuses|
  {
    if |statuses| == 0 then 0
    else CountsOver(orders, statuses[..|statuses| - 1]) + CountStatus(orders, statuses[|statuses| - 1])
  }

  lemma CountStatusStep(orders: seq<Order>, o: Order, s: OrderStatus)
    ensures CountStatus(orders + [o], s) == CountStatus(orders, s) + (if o.status == s then 1 else 0)
  {
    assert (orders + [o])[..|orders|] == orders;
  }

  lemma {:induction false} CountsOverStep(orders: seq<Order>, o: Order, statuses: seq<OrderStatus>)
    ensures CountsOver(orders + [o], statuses) == CountsOver(orders, statuses) + Occurrences(statuses, o.status)
    decreases |statuses|
  {
    if |statuses| > 0 {
      CountsOverStep(orders, o, statuses[..|statuses| - 1]);
      CountStatusStep(orders, o, statuses[|statuses| - 1]);
    }
  }

  function Occurrences(statuses: seq<OrderStatus>, s: OrderStatus): nat
    decreases |statuses|
  {
    if |statuses| == 0 then 0 else Occurrences(statuses[..|statuses| - 1], s) + (if statuses[|statuses| - 1] == s then 1 else 0)
  }

  /** Each status appears once in the list of all statuses. */
  lemma OccursOnce(s: OrderStatus)
    ensures Occurrences(AllStatuses, s) == 1
  {
    assert s in AllStatuses by {
      match s
      case Pending => assert AllStatuses[0] == s;
      case Confirmed => assert AllStatuses[1] == s;
      case Processing => assert AllStatuses[2] == s;
      case Shipped => assert AllStatuses[3] == s;
      case Delivered => assert AllStatuses[4] == s;
      case Cancelled => assert AllStatuses[5] == s;
      case Refunded => assert AllStatuses[6] == s;
    }
    OccurrencesOfDistinct(AllStatuses, s);
  }

  lemma {:induction false} OccurrencesOfDistinct(statuses: seq<OrderStatus>, s: OrderStatus)
    requires forall i, j :: 0 <= i < j < |statuses| ==> statuses[i] != statuses[j]
    ensures Occurrences(statuses, s) == if s in statuses then 1 else 0
    decreases |statuses|
  {
    if |statuses| > 0 {
      var init := statuses[..|statuses| - 1];
      OccurrencesOfDistinct(init, s);
      assert statuses == init + [statuses[|statuses| - 1]];
    }
  }

  lemma {:induction false} CountsOverNothing(statuses: seq<OrderStatus>)
    ensures CountsOver([], statuses) == 0
    decreases |statuses|
  {
    if |statuses| > 0 {
      CountsOverNothing(statuses[..|statuses| - 1]);
    }
  }

  lemma {:induction false} CountsOverAll(orders: seq<Order>)
    ensures CountsOver(orders, AllStatuses) == |orders|
    decreases |orders|
  {
    if |orders| > 0 {
      var init := orders[..|orders| - 1];
      var o := orders[|orders| - 1];
      assert orders == init + [o];
      CountsOverAll(init);
      CountsOverStep(init, o, AllStatuses);
      OccursOnce(o.status);
    } else {
      CountsOverNothing(AllStatuses);
    }
  }

  lemma {:induction false} BreakdownMatchesCounts(orders: seq<Order>, statuses: seq<OrderStatus>)
    ensures BreakdownTotal(StatusBreakdown(orders), statuses) == CountsOver(orders, statuses)
    decreases |statuses|
  {
    if |statuses| > 0 {
      BreakdownMatchesCounts(orders, statuses[..|statuses| - 1]);
    }
  }

  /** The revenue of delivered orders. */
  function DeliveredRevenue(orders: seq<Order>): int
    decreases |orders|
  {
    if |orders| == 0 then 0
    else DeliveredRevenue(orders[..|orders| - 1]) + (var o := orders[|orders| - 1]; if o.status == Delivered then o.totalAmount else 0)
  }

  /** Orders that were not delivered add nothing to the revenue. */
  lemma {:induction false} UndeliveredAddNoRevenue(orders: seq<Order>)
    requires forall i :: 0 <= i < |orders| ==> orders[i].status != Delivered
    ensures DeliveredRevenue(orders) == 0
    decreases |orders|
  {
    if |orders| > 0 {
      UndeliveredAddNoRevenue(orders[..|orders| - 1]);
    }
  }

  datatype Analytics = Analytics(totalOrders: nat, totalRevenue: int, averageOrderValue: int, statusBreakdown: map<OrderStatus, nat>)

  /** `getOrderAnalytics`: the average spreads delivered revenue over all orders, and is 0 with none. */
  function OrderAnalytics(orders: seq<Order>): (a: Analytics)
    ensures a.totalOrders == |orders| && a.totalRevenue == DeliveredRevenue(orders)
    ensures |orders| == 0 ==> a.averageOrderValue == 0
    ensures |orders| > 0 ==> 2 * Abs(a.totalRevenue - a.averageOrderValue * |orders|) <= |orders|
    ensures BreakdownTotal(a.statusBreakdown, AllStatuses) == |orders|
  {
    var n := |orders|;
    var revenue := DeliveredRevenue(orders);
    var average := if n > 0 then HalfUpDivide(revenue, n) else 0;
    assert n > 0 ==> 2 * Abs(revenue - average * n) <= n by {
      if n > 0 {
        HalfUpDivideNearest(revenue, n);
      }
    }
    assert BreakdownTotal(StatusBreakdown(orders), AllStatuses) == n by {
      BreakdownMatchesCounts(orders, AllStatuses);
      CountsOverAll(orders);
    }
    Analytics(n, revenue, average, StatusBreakdown(orders))
  }

  // ---------------------------------------------------------------------
  // Security monitoring

  datatype SecurityEvent = SecurityEvent(eventType: string, sourceIp: string, userId: string, details: string, severity: string, timestamp: int)

  const SecurityLogCap: nat := 1000

  function Timestamp(e: SecurityEvent): int
  {
    e.timestamp
  }

  class SecurityMonitoringService {
    var securityEvents: seq<SecurityEvent>
    /** Every event logged since construction. */
    ghost var logged: seq<SecurityEvent>

    ghost predicate Valid()
      reads this
    {
      securityEvents == KeepLast(logged, SecurityLogCap)
    }

    constructor ()
      ensures Valid() && logged == []
    {
      securityEvents, logged := [], [];
    }

    /** `logSecurityEvent`: append, then clear the oldest surplus beyond 1000. */
    method LogSecurityEvent(eventType: string, sourceIp: string, userId: string, details: string, severity: string, now: int)
      requires Valid()
      modifies this
      ensures Valid() && |securityEvents| <= SecurityLogCap
      ensures logged == old(logged) + [SecurityEvent(eventType, sourceIp, userId, details, severity, now)]
    {
      var event := SecurityEvent(eventType, sourceIp, userId, details, severity, now);
      KeepLastPush(logged, event, SecurityLogCap);
      securityEvents := securityEvents + [event];
      if |securityEvents| > SecurityLogCap {
        securityEvents := securityEvents[|securityEvents| - SecurityLogCap..];
      }
      logged := logged + [event];
    }

    /** `getRecentSecurityEvents`: at most `limit` logged events, newest first. */
    function RecentSecurityEvents(limit: nat): (r: seq<SecurityEvent>)
      reads this
      ensures |r| <= limit && |r| <= |securityEvents|
      ensures forall i, j :: 0 <= i < j < |r| ==> r[i].timestamp >= r[j].timestamp
      ensures multiset(r) <= multiset(securityEvents)
      ensures |r| == if limit < |securityEvents| then limit else |securityEvents|
      ensures forall x, y :: x in r && y in multiset(securityEvents) - multiset(r) ==> x.timestamp >= y.timestamp
    {
      NewestFirstDominates(securityEvents, Timestamp, limit);
      NewestFirst(securityEvents, Timestamp, limit)
    }
  }

  // ---------------------------------------------------------------------
  // Enhanced order service

  /** The item-count threshold of `validateOrderRequest`. */
  const ExcessiveItems: nat := 100
  /** 10000.00 and 5000.00, in cents. */
  const HighValueOrder: int := 1_000_000
  const AnomalousValue: int := 500_000

  /** The request value the security checks use: price times quantity, discounts ignored. */
  function RequestValue(items: seq<OrderItem>): int
    decreases |items|
  {
    if |items| == 0 then 0 else RequestValue(items[..|items| - 1]) + items[|items| - 1].unitPrice * items[|items| - 1].quantity
  }

  /** A cent amount as `BigDecimal.toString` prints it at scale 2. */
  function CentsToString(c: nat): string
  {
    NatToString(c / 100) + "." + [Digit(c % 100 / 10), Digit(c % 10)]
  }

  /** The events `validateOrderRequest` logs, in order. */
  function ValidationEvents(items: seq<OrderItem>, sourceIp: string, userId: string, now: int): (es: seq<SecurityEvent>)
    ensures |es| <= 2
    ensures (exists e :: e in es && e.eventType == "excessive_order_items") <==> |items| > ExcessiveItems
    ensures (exists e :: e in es && e.eventType == "high_value_order") <==> RequestValue(items) > HighValueOrder
    ensures forall e :: e in es ==> e.severity == "medium"
  {
    var tooMany := if |items| > ExcessiveItems
      then [SecurityEvent("excessive_order_items", sourceIp, userId, "Order with " + NatToString(|items|) + " items", "medium", now)]
      else [];
    var value := RequestValue(items);
    var highValue := if value > HighValueOrder
      then [SecurityEvent("high_value_order", sourceIp, userId, "Order value: " + CentsToString(value), "medium", now)]
      else [];
    tooMany + highValue
  }

  predicate HasDuplicateProduct(items: seq<OrderItem>)
  {
    exists i, j :: 0 <= i < j < |items| && items[i].productId == items[j].productId
  }

  /** `calculateAnomalyScore`: 0.3 for over 50 items, 0.2 for a value over 5000, 0.2 for a repeated product, capped at 1. */
  function AnomalyScore(items: seq<OrderItem>): (score: real)
    ensures 0.0 <= score <= 0.7
    ensures score == 0.0 <==> |items| <= 50 && RequestValue(items) <= AnomalousValue && !HasDuplicateProduct(items)
  {
    var score := (if |items| > 50 then 0.3 else 0.0)
      + (if RequestValue(items) > AnomalousValue then 0.2 else 0.0)
      + (if HasDuplicateProduct(items) then 0.2 else 0.0);
    if score < 1.0 then score else 1.0
  }

  /** The score never reaches the 0.8 that `createOrder` treats as a high anomaly. */
  lemma HighAnomalyUnreachable(items: seq<OrderItem>)
    ensures !(AnomalyScore(items) > 0.8)
  {
  }

  /** The duplicate scan of `calculateAnomalyScore`: a set of product ids seen, stopping at the first repeat. */
  method FindDuplicateProduct(items: seq<OrderItem>) returns (found: bool)
    ensures found <==> HasDuplicateProduct(items)
  {
    var seen: set<string> := {};
    found := false;
    var i := 0;
    while i < |items|
      invariant 0 <= i <= |items|
      invariant seen == set j | 0 <= j < i :: items[j].productId
      invariant !exists a, b :: 0 <= a < b < i && items[a].productId == items[b].productId
    {
      if items[i].productId in seen {
        var j :| 0 <= j < i && items[j].productId == items[i].productId;
        return true;
      }
      seen := seen + {items[i].productId};
      i := i + 1;
    }
  }

  method CalculateAnomalyScore(items: seq<OrderItem>) returns (score: real)
    ensures score == AnomalyScore(items)
  {
    score := 0.0;
    if |items| > 50 {
      score := score + 0.3;
    }
    if RequestValue(items) > AnomalousValue {
      score := score + 0.2;
    }
    var duplicate := FindDuplicateProduct(items);
    if duplicate {
      score := score + 0.2;
    }
    score := if score < 1.0 then score else 1.0;
  }

  /**
   * The checks at the start of the enhanced `createOrder`: log the validation
   * events, compute the anomaly score (whose high branch never fires), and
   * build the pending order.
   */
  method CreateOrderChecked(monitor: SecurityMonitoringService, orderNumber: string, customerId: string,
                            items: seq<OrderItem>, notes: Option<string>, sourceIp: string, userId: string, now: int)
    returns (o: Order)
    requires monitor.Valid()
    modifies monitor
    ensures monitor.Valid()
    ensures monitor.logged == old(monitor.logged) + ValidationEvents(items, sourceIp, userId, now)
    ensures o == NewOrder(orderNumber, customerId, items, notes)
  {
    if |items| > ExcessiveItems {
      monitor.LogSecurityEvent("excessive_order_items", sourceIp, userId, "Order with " + NatToString(|items|) + " items", "medium", now);
    }
    var value := RequestValue(items);
    if value > HighValueOrder {
      monitor.LogSecurityEvent("high_value_order", sourceIp, userId, "Order value: " + CentsToString(value), "medium", now);
    }
    var score := CalculateAnomalyScore(items);
    HighAnomalyUnreachable(items);
    if score > 0.8 {
      assert false;
    }
    o := NewOrder(orderNumber, customerId, items, notes);
  }

  function HighValueCount(orders: seq<Order>): (c: nat)
    ensures c <= |orders|
    decreases |orders|
  {
    if |orders| == 0 then 0
    else HighValueCount(orders[..|orders| - 1]) + (if orders[|orders| - 1].totalAmount > 100_000 then 1 else 0)
  }

  lemma RatioAbove(c: nat, n: nat)
    requires n > 0
    ensures c as real / n as real > 0.3 ==> 10 * c > 3 * n
  {
    if c as real / n as real > 0.3 {
      Stats.DivAbove(c as real, n as real, 0.3);
    }
  }

  /** `calculatePeriodAnomalyScore`: 0.3 above 1000 orders, 0.2 when over 30% exceed 1000.00; 0 for none. */
  function PeriodAnomalyScore(orders: seq<Order>): (score: real)
    ensures |orders| == 0 ==> score == 0.0
    ensures 0.0 <= score <= 0.5
    ensures score > 0.0 ==> |orders| > 1000 || 10 * HighValueCount(orders) > 3 * |orders|
  {
    if |orders| == 0 then 0.0
    else
      var ratio := HighValueCount(orders) as real / |orders| as real;
      assert ratio > 0.3 ==> 10 * HighValueCount(orders) > 3 * |orders| by {
        RatioAbove(HighValueCount(orders), |orders|);
      }
      var score := (if |orders| > 1000 then 0.3 else 0.0) + (if ratio > 0.3 then 0.2 else 0.0);
      if score < 1.0 then score else 1.0
  }
}
