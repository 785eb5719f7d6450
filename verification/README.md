# Dashboard AI — role-based visibility and metric derivation

Dashboard AI is a browser client for a business-analytics dashboard. A user signs in against a built-in list of demo accounts. The client keeps a session record in the browser's storage slot `user`. It then shows five pages (Dashboard, Inventory, Sales, Purchase, Reports) of KPI cards and charts. The data comes from a backend that serves random figures, with a fixed fallback bundle per page when the fetch fails.

This project models the client's decision logic in Dafny:

- **Visibility policy.** Each page has its own hand-written rules for which KPI cards, chart series and table columns a role sees. `Dashboard.ShouldShowKpi`, `Reports.ShouldShowKpi`, `Reports.CanSeeProfitData`, the Growth Trends filter and the Top Performing Products gate are modelled separately, as the source writes them. Roles stay plain strings: `"admin"`, `"manager"`, `"analyst"`, or any other string. An absent user is `None`.
- **Metric derivation.** This covers the stock-status buckets (Inventory), the order-status buckets with the literal counts 10 and 5 (Purchase), and the profit series synthesised from monthly revenue and the profit-margin KPI (Sales). The fallback bundles of Inventory, Purchase and Sales, whose figures feed the derived charts, are modelled as constants.
- **Session and navigation.**
  - The credential lookup and the submit handler (Login).
  - The shell's `user`/`loading`/`menuOpen` state, its handlers and the route table (App).
  - The role label, avatar initial, active link and logout handler (Sidebar).
  - The trend logic of the KPI card.

The pure parts are functions and lemmas. State that the source updates in place is kept in classes:
- `Shell.App` holds the shell state.
- `Login.LoginForm` holds the form fields and error.
- `Session.Browser` holds the storage slot, the current location and an ordered log of the steps a handler takes.

The handlers' `ensures` clauses state the new state and the exact order of the steps.

Modules, one per source file: `Session`, `Seqs` and `Charts` (shared), `KpiCard`, `Dashboard`, `Reports`, `Inventory`, `Purchase`, `Sales`, `Login`, `Shell` (App.js), `Sidebar`.

Facts about the code that the model keeps as they are:
- Each page keeps its own visibility predicate; no rule is shared between pages.
- A negative in-stock or delivered bucket is passed to the chart unclamped and unreported.
- The margin column divides profit by revenue with no guard against a zero revenue.
- The in-transit (10) and cancelled (5) order counts are literals in the page.
- The two Reports rules disagree for a role the page does not name, such as "guest". The KPI rule falls through to its open default, so that user gets the Profit Growth card. The profit rule admits only no user or an admin, so the same user loses the profit series and gets no products table (`Reports.UnknownRoleSeesProfitCardOnly`).

## Model

| member | source | states |
|---|---|---|
| `Dashboard.NoUserSeesEveryKpi` | frontend/src/pages/Dashboard.js:139-140 | with no stored user every Dashboard KPI is shown |
| `Dashboard.AdminAndUnknownRolesSeeEveryKpi` | frontend/src/pages/Dashboard.js:139-156 | admin, and any role other than manager or analyst (fail-open default), sees every KPI |
| `Dashboard.ManagerSeesAllButConversionRate` | frontend/src/pages/Dashboard.js:146-148 | a manager sees a KPI iff it is not `conversion_rate` |
| `Dashboard.AnalystSeesOnlyBasicKpis` | frontend/src/pages/Dashboard.js:151-153 | an analyst sees a KPI iff it is `total_sales`, `total_orders` or `total_customers` |
| `Dashboard.VisibilityMonotone` | frontend/src/pages/Dashboard.js:139-156 | analyst-visible implies manager-visible implies admin-visible, for every KPI name |
| `Dashboard.VisibleKpisExactly` | frontend/src/pages/Dashboard.js:180-252 | a card is laid out iff it is one of the six and the predicate allows it |
| `Dashboard.NoUserCards` | frontend/src/pages/Dashboard.js:180-252 | with no user all six cards are laid out, in page order |
| `Dashboard.AdminCards` | frontend/src/pages/Dashboard.js:180-252 | an admin gets all six cards in page order |
| `Dashboard.ManagerCards` | frontend/src/pages/Dashboard.js:180-252 | a manager gets the five cards other than Conversion Rate, in page order |
| `Dashboard.AnalystCards` | frontend/src/pages/Dashboard.js:180-252 | an analyst gets exactly Total Sales, Total Orders, Total Customers |
| `Dashboard.WelcomeMessage` | frontend/src/pages/Dashboard.js:123-135 | "Welcome to Dashboard AI" with no user; "Welcome, Administrator ", "Welcome, Manager " or "Welcome, Analyst " followed by the name for the three roles; "Welcome, " and the name for any other role |
| `Dashboard.RolePrefix` | frontend/src/pages/Dashboard.js:126-135 | admin gets "Administrator ", manager "Manager ", analyst "Analyst "; the word is empty iff the role is none of the three |
| `Dashboard.GreetingNamesTheRole` | frontend/src/pages/Dashboard.js:123-135 | two users with the same name and different named roles get different greetings |
| `Dashboard.BannerTextsDistinct` | frontend/src/pages/Dashboard.js:162-177 | the full-access, operational and basic banners have three different wordings |
| `Dashboard.Banners` | frontend/src/pages/Dashboard.js:162-178 | admin gets exactly the full-access banner, manager the operational one, analyst the basic one; any other user or no user gets none |
| `Dashboard.AdminNotesOnlyForAdmin` | frontend/src/pages/Dashboard.js:162-281 | administrator notes show iff the full-access banner is the one banner, i.e. only for admins |
| `Reports.NoUserSeesEveryKpi` | frontend/src/pages/Reports.js:174-175 | with no stored user every Reports KPI is shown |
| `Reports.AdminAndUnknownRolesSeeEveryKpi` | frontend/src/pages/Reports.js:174-191 | admin, and any role other than manager or analyst, sees every KPI |
| `Reports.ManagerSeesAllButProfitGrowth` | frontend/src/pages/Reports.js:181-183 | a manager sees a KPI iff it is not `profit_growth` |
| `Reports.AnalystSeesOnlyCustomerAndOrderGrowth` | frontend/src/pages/Reports.js:186-188 | an analyst sees a KPI iff it is `customer_growth` or `average_order_growth` |
| `Reports.VisibilityMonotone` | frontend/src/pages/Reports.js:174-191 | analyst-visible implies manager-visible implies admin-visible |
| `Reports.CanSeeProfitDataExactly` | frontend/src/pages/Reports.js:194-196 | profit data is visible iff there is no user or the role is admin; managers and analysts never see it |
| `Reports.ProfitCardFollowsProfitRule` | frontend/src/pages/Reports.js:174-196 | for no user and the three named roles, the Profit Growth card shows iff profit data is visible |
| `Reports.NoUserCards` | frontend/src/pages/Reports.js:208-280 | with no user all six cards are laid out |
| `Reports.AdminCards` | frontend/src/pages/Reports.js:208-280 | an admin gets all six cards |
| `Reports.ManagerCards` | frontend/src/pages/Reports.js:208-280 | a manager gets every card but Profit Growth, in page order |
| `Reports.AnalystCards` | frontend/src/pages/Reports.js:208-280 | an analyst gets exactly Customer Growth and Average Order Growth |
| `Reports.GrowthTrendsDropsOnlyProfit` | frontend/src/pages/Reports.js:289-291 | the chart keeps the datasets in their order, drops a dataset iff it is "Profit Growth" and profit data is hidden, and returns its input unchanged when profit data is visible |
| `Reports.GrowthTrendsForRoles` | frontend/src/pages/Reports.js:107-132 | for the page's three series: all three when profit data is visible, otherwise Revenue Growth then Customer Growth |
| `Reports.TopProductsTable` | frontend/src/pages/Reports.js:307-342 | the table exists iff a user with role admin or manager is logged in; one row per product; every row as wide as the header (5 with profit data, else 3); the first three cells are name, sales, revenue, then profit and margin |
| `Reports.TableByRole` | frontend/src/pages/Reports.js:307-320 | no table for an absent user or an analyst; admins get the five-column header, managers the three-column one |
| `Reports.AbsentUserSeesProfitButNoTable` | frontend/src/pages/Reports.js:174-307 | an absent user sees the profit card and series but gets no products table |
| `Reports.MarginPercent` | frontend/src/pages/Reports.js:331 | the margin times the revenue equals 100 times the profit |
| `Reports.UnknownRoleSeesProfitCardOnly` | frontend/src/pages/Reports.js:174-196 | a role other than admin, manager and analyst gets the Profit Growth card, but not profit data: the chart drops the profit series and no products table is shown |
| `Reports.AnalystNotesGoWithRestrictedView` | frontend/src/pages/Reports.js:202-206 | the analyst notes show iff the user is an analyst, and then the cards are Customer Growth and Average Order Growth, the chart has no profit series and there is no products table |
| `Reports.TopProductsMargins` | frontend/src/pages/Reports.js:135-141 | every listed product has positive revenue and a 35% margin |
| `Inventory.StockStatus` | frontend/src/pages/Inventory.js:98-121 | labels In Stock, Low Stock, Out of Stock; three buckets summing to `total_items`; low and out-of-stock unchanged; in-stock non-negative iff low + out <= total |
| `Inventory.PageCharts` | frontend/src/pages/Inventory.js:69-121 | the category chart is the bundle's chart unchanged; the stock chart has three labels and three buckets summing to `total_items` |
| `Inventory.InStockIsRemainder` | frontend/src/pages/Inventory.js:104 | in-stock is `total_items - low_stock_items - out_of_stock` |
| `Inventory.FallbackStockStatus` | frontend/src/pages/Inventory.js:41-56 | the fallback bundle's stock chart is [3463, 25, 12] |
| `Inventory.BackendRangesKeepInStockNonNegative` | backend/app.py:62-64 | within the backend's value ranges the in-stock bucket is non-negative |
| `Inventory.InStockCanBeNegative` | frontend/src/pages/Inventory.js:104 | nothing clamps the bucket: total 30, low 25, out 12 gives -7 |
| `Purchase.OrderStatus` | frontend/src/pages/Purchase.js:96-122 | labels Delivered, In Transit, Pending, Cancelled; four buckets summing to `total_orders`; 10 in transit, pending unchanged, 5 cancelled; delivered non-negative iff total >= pending + 15 |
| `Purchase.PageCharts` | frontend/src/pages/Purchase.js:69-122 | the supplier chart is the bundle's chart unchanged; the order-status chart has four labels and four buckets summing to `total_orders` |
| `Purchase.DeliveredIsRemainder` | frontend/src/pages/Purchase.js:102 | delivered is `total_orders - pending_orders - 10 - 5` |
| `Purchase.FixedBucketsIgnoreInput` | frontend/src/pages/Purchase.js:103-105 | in-transit and cancelled are the same for every bundle |
| `Purchase.FallbackOrderStatus` | frontend/src/pages/Purchase.js:41-56 | the fallback bundle gives [220, 10, 15, 5] |
| `Purchase.BackendRangesKeepDeliveredNonNegative` | backend/app.py:105-107 | within the backend's value ranges delivered is non-negative |
| `Purchase.DeliveredCanBeNegative` | frontend/src/pages/Purchase.js:102 | nothing clamps the bucket: 20 orders with 10 pending gives -5 |
| `Sales.ProfitSeriesPointwise` | frontend/src/pages/Sales.js:87 | the profit series has the revenue series' length and each point is `revenue[i] * (margin / 100)` |
| `Sales.ProfitSeriesOfNothing` | frontend/src/pages/Sales.js:87 | empty revenue gives an empty profit series |
| `Sales.RevenueChart` | frontend/src/pages/Sales.js:74-94 | shared labels; two datasets, Revenue (the input unchanged) then Profit (same length, pointwise scaled) |
| `Sales.FallbackProfit` | frontend/src/pages/Sales.js:44-94 | with the fallback bundle the chart has twelve month labels and twelve revenue points, and margin 30 maps the revenue [15000, 18000, …] to the profit line [4500, 5400, …] |
| `KpiCard.Render` | frontend/src/components/KPICard.js:4-15 | a trend line exists iff a trend is given; it is positive with the up arrow iff trend > 0 strictly; magnitude is the absolute value; border defaults to #1976d2 and the label to "" |
| `KpiCard.Abs` | frontend/src/components/KPICard.js:15 | the magnitude is non-negative and equals the trend or its negation |
| `KpiCard.ZeroTrendShowsDown` | frontend/src/components/KPICard.js:5-15 | a zero trend is drawn with the down arrow and the negative class |
| `KpiCard.OppositeTrendsSameMagnitude` | frontend/src/components/KPICard.js:15 | a non-zero trend and its negation show the same magnitude with opposite arrows |
| `Login.Find` | frontend/src/pages/Login.js:22-24 | None iff no entry matches both username and password exactly; otherwise the first matching entry |
| `Login.UsernamesDistinct` | frontend/src/pages/Login.js:12-16 | no two demo accounts share a username |
| `Login.AtMostOneMatch` | frontend/src/pages/Login.js:12-24 | at most one demo account matches a username and password |
| `Login.DemoAccounts` | frontend/src/pages/Login.js:12-16 | admin/admin123, manager/manager123 and analyst/analyst123 log in as admin, manager and analyst |
| `Login.WrongPasswordFails` | frontend/src/pages/Login.js:22-24 | a known username with another account's password does not log in |
| `Login.SessionRecord` | frontend/src/pages/Login.js:28-32 | the stored record holds username, role and name, never the password |
| `Login.StoredRecordDecidesAlike` | frontend/src/pages/Login.js:28-32 | the pages' decisions from the stored record equal those from the matched entry |
| `Login.LoginForm.constructor` | frontend/src/pages/Login.js:6-8 | the form starts with empty username, password and error |
| `Login.LoginForm.SetUsername` | frontend/src/pages/Login.js:61 | typing sets the username only |
| `Login.LoginForm.SetPassword` | frontend/src/pages/Login.js:73 | typing sets the password only |
| `Login.LoginForm.HandleSubmit` | frontend/src/pages/Login.js:18-42 | on a match: store the record, hand the entry to the shell, navigate to /dashboard, in that order; on no match: the error becomes "Invalid username or password" and nothing else changes |
| `Shell.Protected` | frontend/src/App.js:39-43 | loading shows the placeholder whatever the user; otherwise redirect to /login iff there is no user, else the page |
| `Shell.RouteTable` | frontend/src/App.js:58-95 | /login redirects to /dashboard with a user and shows the form without one; "/" and unknown paths redirect to /login; each of /dashboard, /inventory, /sales, /purchase, /reports is `Protected` around its own page, so once loaded a logged-in user gets that page |
| `Shell.EveryPathSettles` | frontend/src/App.js:58-95 | once loaded, every path reaches a page within two redirects: the login form iff there is no user; for a logged-in user the protected path's own page, and the dashboard from any other path |
| `Shell.ChromeIffLoginRedirects` | frontend/src/App.js:48-61 | sidebar and toggle render exactly when a user exists, which is exactly when /login redirects to /dashboard |
| `Shell.App.constructor` | frontend/src/App.js:13-15 | initially no user, loading, menu closed |
| `Shell.App.Mount` | frontend/src/App.js:17-24 | restores the user from the storage slot when one is stored, then clears `loading`; menu unchanged |
| `Shell.App.HandleLogin` | frontend/src/App.js:26-28 | sets the user; `loading` and `menuOpen` unchanged |
| `Shell.App.HandleLogout` | frontend/src/App.js:30-32 | clears the user; `loading` and `menuOpen` unchanged |
| `Shell.App.ToggleMenu` | frontend/src/App.js:34-36 | negates `menuOpen` (so two toggles restore it); user and loading unchanged |
| `Sidebar.RoleLabel` | frontend/src/components/Sidebar.js:21-32 | Administrator, Manager, Data Analyst for the three roles, "User" for any other |
| `Sidebar.RoleLabelsDistinct` | frontend/src/components/Sidebar.js:21-32 | the three named roles get three different labels, none of them "User" |
| `Sidebar.AvatarInitial` | frontend/src/components/Sidebar.js:42 | the avatar is the first character of the name (empty for an empty name) |
| `Sidebar.AtMostOneActive` | frontend/src/components/Sidebar.js:50-90 | at most one navigation link is highlighted, and one is iff the current path is one of the five |
| `Sidebar.HandleLogout` | frontend/src/components/Sidebar.js:9-18 | clears the storage slot, clears the shell user, navigates to /login, in that order; `loading` and `menuOpen` unchanged |

## Left out

- The fetch of each bundle (axios), the try/catch/finally fallback flow and the `loading` flags of the pages. Each page's bundle is an input value. The Inventory, Purchase and Sales fallback bundles are constants; the Dashboard and Reports fallback bundles are not modelled, because their figures only fill card values and, on the Dashboard, the Monthly Sales and Daily Sales charts, which pass the bundle's data through unchanged; neither those charts nor the fallback figures are modelled. The code applies a late response whenever it arrives and never discards a stale one; the model has no responses or timing, so this is not captured.
- The backend. It serves random values and dates. Its value ranges appear only as the preconditions of `Inventory.BackendRangesKeepInStockNonNegative` and `Purchase.BackendRangesKeepDeliveredNonNegative`.
- JSON serialisation of the storage slot. Storing a record and reading it back is modelled as the identity.
- Number formatting: `toLocaleString`, `toFixed(1)` of the margin, the `%` and `$` strings. No rounding claim is made.
- JavaScript numbers are modelled as `int` for counts and `real` for trends, margins and series. Floating-point error, `NaN` and `Infinity` are not modelled.
- `Reports.MarginPercent`: requires a non-zero revenue. The source divides unguarded and would show `Infinity` or `NaN`, which reals cannot represent. The table keeps each margin cell as the pair (profit, revenue).
- Chart.js registration, chart options, colours, CSS and layout. The fixed Performance Metrics radar data of the Reports page and the fixed Sales Distribution data are not modelled. The ChartContainer wrapper is not modelled.
- The Dashboard, Reports, Inventory, Purchase and Sales KPI cards' titles, values and literal trend figures. Only the visibility decisions and the card's trend logic are modelled.
- The menu toggle's glyph (a cross when open, a hamburger when closed) is not modelled; `Shell.App.ToggleMenu` models the state it shows. `Shell.ShowsChrome` carries no contract of its own; `Shell.ChromeIffLoginRedirects` states the chrome rule.
- `Shell.RouteTable`: paths are compared as exact strings. The router also accepts a path that differs in letter case or has a trailing slash ("/Reports", "/dashboard/"); the model sends such paths to the catch-all redirect.
- `Login.LoginForm.HandleSubmit`: the inputs' `required` attribute, which keeps the browser from submitting an empty field, is not modelled. The model runs the lookup on empty fields too, and it finds no match.
- `Sidebar.AvatarInitial`: takes the first character of the name as a whole code point. `charAt(0)` takes one UTF-16 code unit, which differs only for a name that starts with a character outside the Basic Multilingual Plane.
- React re-rendering and hook scheduling. Each handler's state updates are applied at once, in program order.
