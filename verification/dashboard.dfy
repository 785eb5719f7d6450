/** The Dashboard page: which KPI cards each role sees, the welcome title,
    the role banners and the administrator notes. `user` is the record read
    from the storage slot when the page mounts. */
module Dashboard {
  import opened Session
  import Seqs

  /** The KPI cards of the page, in the order they are laid out. */
  const KpiNames: seq<string> :=
    ["total_sales", "total_orders", "total_customers",
     "average_order_value", "conversion_rate", "revenue_growth"]

  const AnalystKpis: seq<string> := ["total_sales", "total_orders", "total_customers"]

  /** Whether the card for `kpi` is shown to `user`. */
  predicate ShouldShowKpi(user: Option<User>, kpi: string)
  {
    if user.None? then true
    else if user.value.role == "admin" then true
    else if user.value.role == "manager" then kpi != "conversion_rate"
    else if user.value.role == "analyst" then kpi in AnalystKpis
    else true
  }

  /** The KPI cards rendered for `user`, in layout order. */
  function VisibleKpis(user: Option<User>): seq<string>
  {
    Seqs.Filter(KpiNames, k => ShouldShowKpi(user, k))
  }

  /** A card is laid out exactly when it is one of the page's six and the
      predicate lets `user` see it. */
  lemma VisibleKpisExactly(user: Option<User>, kpi: string)
    ensures kpi in VisibleKpis(user) <==> kpi in KpiNames && ShouldShowKpi(user, kpi)
  {
    Seqs.FilterMembers(KpiNames, k => ShouldShowKpi(user, k));
  }

  lemma NoUserSeesEveryKpi(kpi: string)
    ensures ShouldShowKpi(None, kpi)
  {
  }

  /** Admins, and every role the page does not name, see every KPI. */
  lemma AdminAndUnknownRolesSeeEveryKpi(u: User, kpi: string)
    requires u.role != "manager" && u.role != "analyst"
    ensures ShouldShowKpi(Some(u), kpi)
  {
  }

  lemma ManagerSeesAllButConversionRate(u: User, kpi: string)
    requires u.role == "manager"
    ensures ShouldShowKpi(Some(u), kpi) <==> kpi != "conversion_rate"
  {
  }

  lemma AnalystSeesOnlyBasicKpis(u: User, kpi: string)
    requires u.role == "analyst"
    ensures ShouldShowKpi(Some(u), kpi) <==>
              kpi == "total_sales" || kpi == "total_orders" || kpi == "total_customers"
  {
  }

  /** Whatever an analyst sees a manager sees, and whatever a manager sees an
      admin sees. */
  lemma VisibilityMonotone(analyst: User, manager: User, admin: User, kpi: string)
    requires analyst.role == "analyst" && manager.role == "manager" && admin.role == "admin"
    ensures ShouldShowKpi(Some(analyst), kpi) ==> ShouldShowKpi(Some(manager), kpi)
    ensures ShouldShowKpi(Some(manager), kpi) ==> ShouldShowKpi(Some(admin), kpi)
  {
  }

  lemma {:induction false} NoUserCards()
    ensures VisibleKpis(None) == KpiNames
  {
    Seqs.FilterKeepsAll(KpiNames, k => ShouldShowKpi(None, k));
  }

  lemma {:induction false} AdminCards(u: User)
    requires u.role == "admin"
    ensures VisibleKpis(Some(u)) == KpiNames
  {
    Seqs.FilterKeepsAll(KpiNames, k => ShouldShowKpi(Some(u), k));
  }

  lemma {:induction false} ManagerCards(u: User)
    requires u.role == "manager"
    ensures VisibleKpis(Some(u)) == ["total_sales", "total_orders", "total_customers",
                                     "average_order_value", "revenue_growth"]
  {
    Seqs.FilterSix("total_sales", "total_orders", "total_customers",
                   "average_order_value", "conversion_rate", "revenue_growth",
                   k => ShouldShowKpi(Some(u), k));
  }

  lemma {:induction false} AnalystCards(u: User)
    requires u.role == "analyst"
    ensures VisibleKpis(Some(u)) == AnalystKpis
  {
    Seqs.FilterSix("total_sales", "total_orders", "total_customers",
                   "average_order_value", "conversion_rate", "revenue_growth",
                   k => ShouldShowKpi(Some(u), k));
  }

  /** The page title: the greeting for no user, otherwise the role's title
      followed by the user's name. */
  function WelcomeMessage(user: Option<User>): (r: string)
    ensures user.None? ==> r == "Welcome to Dashboard AI"
    ensures user.Some? && user.value.role == "admin" ==> r == "Welcome, Administrator " + user.value.name
    ensures user.Some? && user.value.role == "manager" ==> r == "Welcome, Manager " + user.value.name
    ensures user.Some? && user.value.role == "analyst" ==> r == "Welcome, Analyst " + user.value.name
    ensures user.Some? && user.value.role !in {"admin", "manager", "analyst"} ==>
              r == "Welcome, " + user.value.name
  {
    if user.None? then "Welcome to Dashboard AI"
    else
      var u := user.value;
      "Welcome, " + RolePrefix(u.role) + u.name
  }

  /** The word the greeting puts before the name, with its trailing space. */
  function RolePrefix(role: string): (p: string)
    ensures role == "admin" ==> p == "Administrator "
    ensures role == "manager" ==> p == "Manager "
    ensures role == "analyst" ==> p == "Analyst "
    ensures p == "" <==> role != "admin" && role != "manager" && role != "analyst"
  {
    if role == "admin" then "Administrator "
    else if role == "manager" then "Manager "
    else if role == "analyst" then "Analyst "
    else ""
  }

  /** Two users with different named roles are greeted differently, whatever
      their names. */
  lemma {:induction false} GreetingNamesTheRole(u: User, v: User)
    requires u.name == v.name
    requires u.role in {"admin", "manager", "analyst"} && v.role in {"admin", "manager", "analyst"}
    requires u.role != v.role
    ensures WelcomeMessage(Some(u)) != WelcomeMessage(Some(v))
  {
    var a, b := WelcomeMessage(Some(u)), WelcomeMessage(Some(v));
    // "Welcome, " is nine characters; the tenth tells the three titles apart.
    assert a[9] == RolePrefix(u.role)[0];
    assert b[9] == RolePrefix(v.role)[0];
  }

  /** The three role banners. */
  datatype Banner = FullAccess | OperationalAccess | BasicAccess

  /** The wording of each banner. */
  function BannerText(b: Banner): string
  {
    match b
    case FullAccess => "You have full access to all dashboard features and data"
    case OperationalAccess => "You have access to operational data and limited financial insights"
    case BasicAccess => "You have access to basic sales and customer data for analysis"
  }

  /** The three banners have three different wordings. */
  lemma {:induction false} BannerTextsDistinct(b: Banner, c: Banner)
    requires b != c
    ensures BannerText(b) != BannerText(c)
  {
    // The three wordings differ in length.
    assert |BannerText(FullAccess)| == 55;
    assert |BannerText(OperationalAccess)| == 66;
    assert |BannerText(BasicAccess)| == 61;
  }

  /** The role banners under the title, in page order. */
  function Banners(user: Option<User>): (r: seq<Banner>)
    ensures |r| <= 1
    ensures |r| == 1 <==>
              user.Some? && user.value.role in {"admin", "manager", "analyst"}
    ensures user.Some? && user.value.role == "admin" ==> r == [FullAccess]
    ensures user.Some? && user.value.role == "manager" ==> r == [OperationalAccess]
    ensures user.Some? && user.value.role == "analyst" ==> r == [BasicAccess]
  {
    (if user.Some? && user.value.role == "admin" then [FullAccess] else [])
    + (if user.Some? && user.value.role == "manager" then [OperationalAccess] else [])
    + (if user.Some? && user.value.role == "analyst" then [BasicAccess] else [])
  }

  /** The administrator notes at the foot of the page. */
  predicate ShowAdminNotes(user: Option<User>)
  {
    user.Some? && user.value.role == "admin"
  }

  /** Notes and the full-access banner go together, and only to admins. */
  lemma AdminNotesOnlyForAdmin(user: Option<User>)
    ensures ShowAdminNotes(user) <==> Banners(user) == [FullAccess]
  {
    if ShowAdminNotes(user) {
      assert user.value.role != "manager" && user.value.role != "analyst";
      assert Banners(user) == [FullAccess] + [] + [];
    } else if Banners(user) != [] {
      assert Banners(user)[0] != FullAccess;
    }
  }
}
