/** The Inventory page: the stock-status chart derived from the KPI bundle,
    and the by-category chart passed through from the bundle. */
module Inventory {
  import Seqs
  import opened Charts

  /** The inventory KPI bundle (fetched or fallback). */
  datatype Kpis = Kpis(totalItems: int, lowStockItems: int, outOfStock: int,
                       inventoryValue: int, inventoryTurnover: real, averageDaysInInventory: int)

  /** The page's bundle: its KPIs and its by-category chart. */
  datatype Bundle = Bundle(kpis: Kpis, inventoryByCategory: CountChart)

  /** The bundle the page falls back to when the fetch fails. */
  const Fallback: Kpis := Kpis(3500, 25, 12, 125000, 5.2, 35)
  const FallbackBundle: Bundle := Bundle(Fallback,
    CountChart(["Electronics", "Clothing", "Food", "Furniture", "Books"], [350, 420, 180, 250, 300]))

  /** The stock-status chart: in stock, low stock, out of stock. The first
      bucket is what remains of the total; it is not clamped at zero. */
  function StockStatus(k: Kpis): (c: CountChart)
    ensures c.labels == ["In Stock", "Low Stock", "Out of Stock"]
    ensures |c.data| == |c.labels| == 3
    ensures Seqs.Sum(c.data) == k.totalItems
    ensures c.data[1] == k.lowStockItems && c.data[2] == k.outOfStock
    ensures c.data[0] >= 0 <==> k.lowStockItems + k.outOfStock <= k.totalItems
  {
    var data := [k.totalItems - k.lowStockItems - k.outOfStock, k.lowStockItems, k.outOfStock];
    assert Seqs.Sum(data) == data[0] + Seqs.Sum(data[1..]);
    assert Seqs.Sum(data[1..]) == data[1] + Seqs.Sum(data[2..]);
    assert Seqs.Sum(data[2..]) == data[2] + Seqs.Sum(data[3..]);
    CountChart(["In Stock", "Low Stock", "Out of Stock"], data)
  }

  /** The page's two charts: items by category, as the bundle gives it, and
      the stock status derived from the KPIs, whose buckets account for every
      item. */
  function PageCharts(b: Bundle): (r: (CountChart, CountChart))
    ensures r.0 == b.inventoryByCategory
    ensures |r.1.data| == |r.1.labels| == 3 && Seqs.Sum(r.1.data) == b.kpis.totalItems
  {
    (CountChart(b.inventoryByCategory.labels, b.inventoryByCategory.data), StockStatus(b.kpis))
  }

  /** The in-stock bucket is exactly the total less the other two buckets. */
  lemma InStockIsRemainder(k: Kpis)
    ensures StockStatus(k).data[0] == k.totalItems - k.lowStockItems - k.outOfStock
  {
  }

  lemma FallbackStockStatus()
    ensures PageCharts(FallbackBundle).1.data == [3463, 25, 12]
  {
  }

  /** Within the ranges the backend draws its values from, the in-stock
      bucket cannot go negative. */
  lemma BackendRangesKeepInStockNonNegative(k: Kpis)
    requires 1000 <= k.totalItems <= 5000
    requires 10 <= k.lowStockItems <= 50 && 5 <= k.outOfStock <= 20
    ensures StockStatus(k).data[0] >= 0
  {
  }

  /** Outside them it can: the chart then shows a negative bar. */
  lemma InStockCanBeNegative()
    ensures StockStatus(Kpis(30, 25, 12, 0, 0.0, 0)).data[0] == -7
  {
  }
}
