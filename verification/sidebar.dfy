/** The sidebar: the role label and avatar of the user profile, which
    navigation link is active, and the logout handler. */
module Sidebar {
  import opened Session
  import Shell

  /** The label shown under the user's name. */
  function RoleLabel(role: string): (text: string)
    ensures role == "admin" ==> text == "Administrator"
    ensures role == "manager" ==> text == "Manager"
    ensures role == "analyst" ==> text == "Data Analyst"
    ensures role !in {"admin", "manager", "analyst"} ==> text == "User"
  {
    match role
    case "admin" => "Administrator"
    case "manager" => "Manager"
    case "analyst" => "Data Analyst"
    case _ => "User"
  }

  /** Distinct named roles get distinct labels, none of them the default. */
  lemma RoleLabelsDistinct()
    ensures RoleLabel("admin") != RoleLabel("manager")
    ensures RoleLabel("admin") != RoleLabel("analyst")
    ensures RoleLabel("manager") != RoleLabel("analyst")
    ensures "User" !in {RoleLabel("admin"), RoleLabel("manager"), RoleLabel("analyst")}
  {
  }

  /** `name.charAt(0)`: the first character, or the empty string. */
  function AvatarInitial(name: string): (s: string)
    ensures |s| == (if name == "" then 0 else 1)
    ensures s <= name
  {
    if name == "" then "" else [name[0]]
  }

  /** The navigation links, in order. */
  const NavPaths: seq<string> := ["/dashboard", "/inventory", "/sales", "/purchase", "/reports"]

  /** A link is highlighted when its path is the current one. */
  predicate IsActive(link: string, pathname: string)
  {
    link == pathname
  }

  /** At most one link is highlighted at a time, and exactly one on a page
      the sidebar links to. */
  lemma AtMostOneActive(pathname: string)
    ensures forall i, j :: 0 <= i < j < |NavPaths| && IsActive(NavPaths[i], pathname) ==>
              !IsActive(NavPaths[j], pathname)
    ensures pathname in NavPaths <==> exists i :: 0 <= i < |NavPaths| && IsActive(NavPaths[i], pathname)
  {
  }

  /** `handleLogout`: clear the storage slot, tell the shell, go to the login
      page, in that order. */
  method HandleLogout(app: Shell.App, browser: Browser)
    modifies app, browser
    ensures browser.slot == None && app.user == None && browser.location == "/login"
    ensures browser.steps == old(browser.steps) + [SessionRemoved, LogoutCallback, Navigated("/login")]
    ensures app.loading == old(app.loading) && app.menuOpen == old(app.menuOpen)
  {
    browser.Remove();
    browser.Note(LogoutCallback);
    app.HandleLogout();
    browser.Navigate("/login");
  }
}
