/** The Purchase page: the order-status chart derived from the KPI bundle.
    The in-transit and cancelled counts are the literals 10 and 5 in the
    page, not values from the bundle. */
module Purchase {
  import Seqs
  import opened Charts

  /** The purchase KPI bundle (fetched or fallback). */
  datatype Kpis = Kpis(totalPurchaseValue: int, totalOrders: int, averageOrderValue: int,
                       pendingOrders: int, supplierCount: int, onTimeDeliveryRate: real)

  /** The page's bundle: its KPIs and its by-supplier chart. */
  datatype Bundle = Bundle(kpis: Kpis, purchaseBySupplier: CountChart)

  const Fallback: Kpis := Kpis(120000, 250, 1200, 15, 25, 92.5)
  const FallbackBundle: Bundle := Bundle(Fallback,
    CountChart(["Supplier A", "Supplier B", "Supplier C", "Supplier D"], [5000, 8000, 4000, 6000]))

  /** The order-status chart: delivered, in transit, pending, cancelled.
      Delivered is what remains of the total; it is not clamped at zero. */
  function OrderStatus(k: Kpis): (c: CountChart)
    ensures c.labels == ["Delivered", "In Transit", "Pending", "Cancelled"]
    ensures |c.data| == |c.labels| == 4
    ensures Seqs.Sum(c.data) == k.totalOrders
    ensures c.data[1] == 10 && c.data[2] == k.pendingOrders && c.data[3] == 5
    ensures c.data[0] >= 0 <==> k.totalOrders >= k.pendingOrders + 15
  {
    var data := [k.totalOrders - k.pendingOrders - 10 - 5, 10, k.pendingOrders, 5];
    assert Seqs.Sum(data) == data[0] + Seqs.Sum(data[1..]);
    assert Seqs.Sum(data[1..]) == data[1] + Seqs.Sum(data[2..]);
    assert Seqs.Sum(data[2..]) == data[2] + Seqs.Sum(data[3..]);
    assert Seqs.Sum(data[3..]) == data[3] + Seqs.Sum(data[4..]);
    CountChart(["Delivered", "In Transit", "Pending", "Cancelled"], data)
  }

  /** The page's two charts: purchases by supplier, as the bundle gives it,
      and the order status derived from the KPIs, whose buckets account for
      every order. */
  function PageCharts(b: Bundle): (r: (CountChart, CountChart))
    ensures r.0 == b.purchaseBySupplier
    ensures |r.1.data| == |r.1.labels| == 4 && Seqs.Sum(r.1.data) == b.kpis.totalOrders
  {
    (CountChart(b.purchaseBySupplier.labels, b.purchaseBySupplier.data), OrderStatus(b.kpis))
  }

  lemma DeliveredIsRemainder(k: Kpis)
    ensures OrderStatus(k).data[0] == k.totalOrders - k.pendingOrders - 10 - 5
  {
  }

  /** In-transit and cancelled do not depend on the bundle at all. */
  lemma FixedBucketsIgnoreInput(k1: Kpis, k2: Kpis)
    ensures OrderStatus(k1).data[1] == OrderStatus(k2).data[1]
    ensures OrderStatus(k1).data[3] == OrderStatus(k2).data[3]
  {
  }

  lemma FallbackOrderStatus()
    ensures PageCharts(FallbackBundle).1.data == [220, 10, 15, 5]
  {
  }

  /** Within the ranges the backend draws its values from, delivered cannot
      go negative. */
  lemma BackendRangesKeepDeliveredNonNegative(k: Kpis)
    requires 100 <= k.totalOrders <= 500 && 5 <= k.pendingOrders <= 30
    ensures OrderStatus(k).data[0] >= 0
  {
  }

  lemma DeliveredCanBeNegative()
    ensures OrderStatus(Kpis(0, 20, 0, 10, 0, 0.0)).data[0] == -5
  {
  }
}
