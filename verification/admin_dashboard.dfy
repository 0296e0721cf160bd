/**
 The platform admin's dashboard figures: gross merchandise value and the
 Delivered / Active / Cancelled breakdown of the orders, each offset by the
 dashboard's fixed historical numbers. Money is integer cents.
 */
module AdminDashboard {
  import opened Types
  import opened Store
  import Seqs

  /** Historical GMV added to the live orders: R125000. */
  const HistoricalGmv: int := 12_500_000
  const HistoricalDelivered: nat := 420
  const HistoricalActive: nat := 32
  const HistoricalCancelled: nat := 12

  function SumTotalFee(orders: seq<Order>): int {
    if |orders| == 0 then 0 else orders[0].totalFee + SumTotalFee(orders[1..])
  }

  function TotalGmv(orders: seq<Order>): (g: int)
    ensures |orders| == 0 ==> g == HistoricalGmv
  {
    SumTotalFee(orders) + HistoricalGmv
  }

  predicate IsDelivered(o: Order) {
    o.status == Delivered
  }

  predicate IsCancelled(o: Order) {
    o.status == Cancelled
  }

  /** "Active" is everything that is neither delivered nor cancelled. */
  predicate IsActive(o: Order) {
    o.status != Delivered && o.status != Cancelled
  }

  function DeliveredCount(orders: seq<Order>): nat {
    |Seqs.Filter(orders, IsDelivered)|
  }

  function ActiveCount(orders: seq<Order>): nat {
    |Seqs.Filter(orders, IsActive)|
  }

  function CancelledCount(orders: seq<Order>): nat {
    |Seqs.Filter(orders, IsCancelled)|
  }

  /** Every order falls in exactly one of the three buckets. */
  lemma {:induction false} BucketsPartition(orders: seq<Order>)
    ensures DeliveredCount(orders) + ActiveCount(orders) + CancelledCount(orders) == |orders|
  {
    if |orders| > 0 {
      BucketsPartition(orders[1..]);
    }
  }

  /** The figure in the middle of the chart: the sum of the three bucket values. */
  function TotalTrips(orders: seq<Order>): (t: nat)
    ensures t == |orders| + HistoricalDelivered + HistoricalActive + HistoricalCancelled
  {
    BucketsPartition(orders);
    (DeliveredCount(orders) + HistoricalDelivered)
    + (ActiveCount(orders) + HistoricalActive)
    + (CancelledCount(orders) + HistoricalCancelled)
  }

  lemma {:induction false} SumTotalFeeAppend(a: seq<Order>, b: seq<Order>)
    ensures SumTotalFee(a + b) == SumTotalFee(a) + SumTotalFee(b)
  {
    if |a| == 0 {
      assert a + b == b;
    } else {
      assert (a + b)[1..] == a[1..] + b;
      SumTotalFeeAppend(a[1..], b);
    }
  }

  /** Placing an order raises GMV by exactly that order's total. */
  lemma PlaceOrderRaisesGmv(s: AppState, o: Order)
    ensures TotalGmv(PlaceOrder(s, o).orders) == TotalGmv(s.orders) + o.totalFee
  {
    assert PlaceOrder(s, o).orders == [o] + s.orders;
    SumTotalFeeAppend([o], s.orders);
  }

  /** A status update never changes GMV, since it leaves every fee as it was. */
  lemma {:induction false} UpdateKeepsGmv(s: AppState, id: string, status: OrderStatus,
                                          driverId: Option<string>, now: string)
    ensures TotalGmv(UpdateOrderStatus(s, id, status, driverId, now).orders) == TotalGmv(s.orders)
  {
    SameFeesSameSum(s.orders, UpdateOrderStatus(s, id, status, driverId, now).orders);
  }

  lemma {:induction false} SameFeesSameSum(a: seq<Order>, b: seq<Order>)
    requires |a| == |b|
    requires forall i :: 0 <= i < |a| ==> a[i].totalFee == b[i].totalFee
    ensures SumTotalFee(a) == SumTotalFee(b)
  {
    if |a| > 0 {
      SameFeesSameSum(a[1..], b[1..]);
    }
  }

  /** Logout leaves the order list, and so GMV, exactly as it was. */
  lemma LogoutKeepsGmv(s: AppState)
    ensures TotalGmv(Logout(s).orders) == TotalGmv(s.orders)
  {
  }
}
