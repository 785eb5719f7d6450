/** The Reports page: which growth KPIs each role sees, who sees profit
    data, the Growth Trends chart filter and the Top Performing Products
    table. `user` is the record read from the storage slot on mount. */
module Reports {
  import opened Session
  import Seqs
  import opened Charts

  /** The KPI cards of the page, in layout order. */
  const KpiNames: seq<string> :=
    ["revenue_growth", "profit_growth", "customer_growth",
     "average_order_growth", "inventory_turnover_change", "return_rate_change"]

  /** Whether the card for `kpi` is shown to `user`. */
  predicate ShouldShowKpi(user: Option<User>, kpi: string)
  {
    if user.None? then true
    else if user.value.role == "admin" then true
    else if user.value.role == "manager" then kpi !in ["profit_growth"]
    else if user.value.role == "analyst" then kpi in ["customer_growth", "average_order_growth"]
    else true
  }

  /** Profit figures: shown with no user or to an admin. */
  predicate CanSeeProfitData(user: Option<User>)
  {
    user.None? || user.value.role == "admin"
  }

  /** The KPI cards rendered for `user`, in layout order. */
  function VisibleKpis(user: Option<User>): seq<string>
  {
    Seqs.Filter(KpiNames, k => ShouldShowKpi(user, k))
  }

  lemma NoUserSeesEveryKpi(kpi: string)
    ensures ShouldShowKpi(None, kpi)
  {
  }

  /** Admins, and every role the page does not name, see every KPI. */
  lemma AdminAndUnknownRolesSeeEveryKpi(u: User, kpi: string)
    requires u.role != "manager" && u.role != "analyst"
    ensures ShouldShowKpi(Some(u), kpi)
  {
  }

  lemma ManagerSeesAllButProfitGrowth(u: User, kpi: string)
    requires u.role == "manager"
    ensures ShouldShowKpi(Some(u), kpi) <==> kpi != "profit_growth"
  {
  }

  lemma AnalystSeesOnlyCustomerAndOrderGrowth(u: User, kpi: string)
    requires u.role == "analyst"
    ensures ShouldShowKpi(Some(u), kpi) <==> kpi == "customer_growth" || kpi == "average_order_growth"
  {
  }

  lemma VisibilityMonotone(analyst: User, manager: User, admin: User, kpi: string)
    requires analyst.role == "analyst" && manager.role == "manager" && admin.role == "admin"
    ensures ShouldShowKpi(Some(analyst), kpi) ==> ShouldShowKpi(Some(manager), kpi)
    ensures ShouldShowKpi(Some(manager), kpi) ==> ShouldShowKpi(Some(admin), kpi)
  {
  }

  lemma CanSeeProfitDataExactly(user: Option<User>)
    ensures CanSeeProfitData(user) <==> user.None? || user.value.role == "admin"
    ensures user.Some? && user.value.role in {"manager", "analyst"} ==> !CanSeeProfitData(user)
  {
  }

  /** The profit rule and the KPI rule agree on the profit-growth card. */
  lemma ProfitCardFollowsProfitRule(user: Option<User>)
    requires user.None? || user.value.role in {"admin", "manager", "analyst"}
    ensures ShouldShowKpi(user, "profit_growth") <==> CanSeeProfitData(user)
  {
  }

  lemma {:induction false} NoUserCards()
    ensures VisibleKpis(None) == KpiNames
  {
    Seqs.FilterKeepsAll(KpiNames, k => ShouldShowKpi(None, k));
  }

  lemma {:induction false} AdminCards(u: User)
    requires u.role == "admin"
    ensures VisibleKpis(Some(u)) == KpiNames
  {
    Seqs.FilterKeepsAll(KpiNames, k => ShouldShowKpi(Some(u), k));
  }

  lemma {:induction false} ManagerCards(u: User)
    requires u.role == "manager"
    ensures VisibleKpis(Some(u)) == ["revenue_growth", "customer_growth", "average_order_growth",
                                     "inventory_turnover_change", "return_rate_change"]
  {
    Seqs.FilterSix("revenue_growth", "profit_growth", "customer_growth",
                   "average_order_growth", "inventory_turnover_change", "return_rate_change",
                   k => ShouldShowKpi(Some(u), k));
  }

  lemma {:induction false} AnalystCards(u: User)
    requires u.role == "analyst"
    ensures VisibleKpis(Some(u)) == ["customer_growth", "average_order_growth"]
  {
    Seqs.FilterSix("revenue_growth", "profit_growth", "customer_growth",
                   "average_order_growth", "inventory_turnover_change", "return_rate_change",
                   k => ShouldShowKpi(Some(u), k));
  }

  /** The analyst notes above the cards and under the charts. */
  predicate ShowAnalystNotes(user: Option<User>)
  {
    user.Some? && user.value.role == "analyst"
  }

  // Growth Trends chart

  const ProfitGrowth: string := "Profit Growth"

  /** The filter's test: a dataset is drawn unless it is the profit series
      and `user` may not see profit data. */
  predicate ShowsDataset(user: Option<User>, d: Dataset)
  {
    d.legend != ProfitGrowth || CanSeeProfitData(user)
  }

  /** The datasets the Growth Trends chart plots for `user`. */
  function GrowthTrends(user: Option<User>, datasets: seq<Dataset>): seq<Dataset>
  {
    Seqs.Filter(datasets, d => ShowsDataset(user, d))
  }

  /** The filter keeps the datasets in order and drops exactly the
      "Profit Growth" ones, and those only for a user barred from profit data. */
  lemma {:induction false} GrowthTrendsDropsOnlyProfit(user: Option<User>, datasets: seq<Dataset>)
    ensures var r := GrowthTrends(user, datasets);
            var idx := Seqs.KeptFrom(datasets, d => ShowsDataset(user, d), 0);
            && Seqs.SelectsInOrder(r, datasets, idx, 0)
            && (forall k :: 0 <= k < |datasets| ==>
                  (k !in idx <==> datasets[k].legend == ProfitGrowth && !CanSeeProfitData(user)))
    ensures CanSeeProfitData(user) ==> GrowthTrends(user, datasets) == datasets
    ensures forall d :: d in GrowthTrends(user, datasets) ==>
              d in datasets && (d.legend == ProfitGrowth ==> CanSeeProfitData(user))
  {
    var keep := d => ShowsDataset(user, d);
    Seqs.FilterSelectsInOrder(datasets, keep);
    Seqs.FilterMembers(datasets, keep);
    if CanSeeProfitData(user) {
      Seqs.FilterKeepsAll(datasets, keep);
    }
  }

  /** The three series the page draws. */
  const GrowthTrendData: seq<Dataset> := [
    Dataset("Revenue Growth", [2.5, 3.2, 4.1, 5.3, 7.2, 8.5]),
    Dataset("Profit Growth", [1.8, 2.5, 3.5, 4.8, 6.5, 7.2]),
    Dataset("Customer Growth", [1.2, 2.0, 2.8, 3.5, 4.5, 5.8])
  ]

  /** Managers and analysts see the revenue and customer series only. */
  lemma {:induction false} GrowthTrendsForRoles(user: Option<User>)
    ensures CanSeeProfitData(user) ==> GrowthTrends(user, GrowthTrendData) == GrowthTrendData
    ensures !CanSeeProfitData(user) ==>
              GrowthTrends(user, GrowthTrendData) == [GrowthTrendData[0], GrowthTrendData[2]]
  {
    var keep := d => ShowsDataset(user, d);
    var a, b, c := GrowthTrendData[0], GrowthTrendData[1], GrowthTrendData[2];
    Seqs.FilterStep(c, [], keep);
    Seqs.FilterStep(b, [c], keep);
    Seqs.FilterStep(a, [b, c], keep);
    assert [c] + [] == [c] && [b] + [c] == [b, c] && [a] + [b, c] == GrowthTrendData;
    assert a.legend != ProfitGrowth && c.legend != ProfitGrowth;
  }

  // Top Performing Products table

  datatype Product = Product(id: int, name: string, sales: int, revenue: int, profit: int)

  const TopProducts: seq<Product> := [
    Product(1, "Product A", 1250, 25000, 8750),
    Product(2, "Product B", 980, 19600, 6860),
    Product(3, "Product C", 850, 17000, 5950),
    Product(4, "Product D", 720, 14400, 5040),
    Product(5, "Product E", 650, 13000, 4550)
  ]

  /** A table cell: a text, an amount, or the margin of a profit over a
      revenue (kept as the pair; `MarginPercent` gives its value). */
  datatype Cell = Text(text: string) | Amount(amount: int) | Margin(profit: int, revenue: int)

  datatype Table = Table(header: seq<string>, rows: seq<seq<Cell>>)

  /** The table is rendered only for a logged-in admin or manager. */
  predicate ShowTopProducts(user: Option<User>)
  {
    user.Some? && (user.value.role == "admin" || user.value.role == "manager")
  }

  function Header(user: Option<User>): seq<string>
  {
    ["Product Name", "Sales", "Revenue"]
    + (if CanSeeProfitData(user) then ["Profit"] else [])
    + (if CanSeeProfitData(user) then ["Profit Margin"] else [])
  }

  function Row(user: Option<User>, p: Product): seq<Cell>
  {
    [Text(p.name), Amount(p.sales), Amount(p.revenue)]
    + (if CanSeeProfitData(user) then [Amount(p.profit)] else [])
    + (if CanSeeProfitData(user) then [Margin(p.profit, p.revenue)] else [])
  }

  /** The table rendered for `user`, or `None` when it is not rendered. */
  function TopProductsTable(user: Option<User>, products: seq<Product>): (t: Option<Table>)
    ensures t.Some? <==> ShowTopProducts(user)
    ensures t.Some? ==>
              && |t.value.rows| == |products|
              && |t.value.header| == (if CanSeeProfitData(user) then 5 else 3)
              && (forall i :: 0 <= i < |products| ==>
                    |t.value.rows[i]| == |t.value.header|
                    && t.value.rows[i][..3] ==
                         [Text(products[i].name), Amount(products[i].sales), Amount(products[i].revenue)])
    ensures t.Some? && CanSeeProfitData(user) ==>
              forall i :: 0 <= i < |products| ==>
                t.value.rows[i][3..] == [Amount(products[i].profit),
                                         Margin(products[i].profit, products[i].revenue)]
  {
    if ShowTopProducts(user) then
      Some(Table(Header(user), seq(|products|, i requires 0 <= i < |products| => Row(user, products[i]))))
    else None
  }

  /** Admins get the five-column table, managers the three-column one without
      profit, and an absent user or an analyst no table at all. */
  lemma TableByRole(user: Option<User>, products: seq<Product>)
    ensures user.None? ==> TopProductsTable(user, products).None?
    ensures user.Some? && user.value.role == "analyst" ==> TopProductsTable(user, products).None?
    ensures user.Some? && user.value.role == "admin" ==>
              TopProductsTable(user, products).Some?
              && TopProductsTable(user, products).value.header ==
                   ["Product Name", "Sales", "Revenue", "Profit", "Profit Margin"]
    ensures user.Some? && user.value.role == "manager" ==>
              TopProductsTable(user, products).Some?
              && TopProductsTable(user, products).value.header == ["Product Name", "Sales", "Revenue"]
  {
  }

  /** An absent user sees profit data (cards and chart) but not the table. */
  lemma AbsentUserSeesProfitButNoTable(products: seq<Product>)
    ensures CanSeeProfitData(None) && ShouldShowKpi(None, "profit_growth")
    ensures TopProductsTable(None, products).None?
  {
  }

  /** The margin cell's value: profit as a percentage of revenue. */
  function MarginPercent(profit: int, revenue: int): (m: real)
    requires revenue != 0
    ensures m * (revenue as real) == 100.0 * (profit as real)
  {
    (profit as real / revenue as real) * 100.0
  }

  /** A role the page does not name falls through to the open default of the
      KPI rule but not of the profit rule: it gets the Profit Growth card, yet
      the profit series is dropped from the chart and no table is shown. */
  lemma {:induction false} UnknownRoleSeesProfitCardOnly(u: User)
    requires u.role !in {"admin", "manager", "analyst"}
    ensures ShouldShowKpi(Some(u), "profit_growth")
    ensures !CanSeeProfitData(Some(u))
    ensures GrowthTrends(Some(u), GrowthTrendData) == [GrowthTrendData[0], GrowthTrendData[2]]
    ensures TopProductsTable(Some(u), TopProducts).None?
  {
    GrowthTrendsForRoles(Some(u));
  }

  /** The analyst notes show exactly for analysts, and an analyst gets the
      two growth cards, no profit series and no products table. */
  lemma {:induction false} AnalystNotesGoWithRestrictedView(user: Option<User>, products: seq<Product>)
    ensures ShowAnalystNotes(user) <==> user.Some? && user.value.role == "analyst"
    ensures ShowAnalystNotes(user) ==>
              && VisibleKpis(user) == ["customer_growth", "average_order_growth"]
              && GrowthTrends(user, GrowthTrendData) == [GrowthTrendData[0], GrowthTrendData[2]]
              && TopProductsTable(user, products).None?
  {
    if ShowAnalystNotes(user) {
      AnalystCards(user.value);
      GrowthTrendsForRoles(user);
    }
  }

  /** Every product of the page's list has a 35% margin. */
  lemma TopProductsMargins()
    ensures forall p :: p in TopProducts ==> p.revenue > 0 && MarginPercent(p.profit, p.revenue) == 35.0
  {
  }
}
