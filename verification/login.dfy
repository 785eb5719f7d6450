/** The login page: the demo credential list, the lookup of a username and
    password in it, and the submit handler. */
module Login {
  import opened Session
  import Shell
  import Dashboard
  import Reports

  /** The demo accounts. */
  const Users: seq<User> := [
    User("admin", Some("admin123"), "admin", "Admin User"),
    User("manager", Some("manager123"), "manager", "Manager User"),
    User("analyst", Some("analyst123"), "analyst", "Analyst User")
  ]

  const InvalidCredentials: string := "Invalid username or password"

  predicate Matches(u: User, username: string, password: string)
  {
    u.username == username && u.password == Some(password)
  }

  /** `users.find(...)`: the first entry whose username and password both
      match exactly, or `None`. */
  function Find(users: seq<User>, username: string, password: string): (r: Option<User>)
    ensures r.None? <==> forall i :: 0 <= i < |users| ==> !Matches(users[i], username, password)
    ensures r.Some? ==>
              exists i :: 0 <= i < |users| && users[i] == r.value && Matches(r.value, username, password)
                          && forall j :: 0 <= j < i ==> !Matches(users[j], username, password)
  {
    if users == [] then None
    else if Matches(users[0], username, password) then Some(users[0])
    else
      var r := Find(users[1..], username, password);
      assert forall i :: 1 <= i < |users| ==> users[i] == users[1..][i - 1];
      if r.Some? then
        var i :| 0 <= i < |users[1..]| && users[1..][i] == r.value && Matches(r.value, username, password)
                 && forall j :: 0 <= j < i ==> !Matches(users[1..][j], username, password);
        assert users[i + 1] == r.value;
        r
      else r
  }

  /** No two demo accounts share a username. */
  lemma UsernamesDistinct()
    ensures forall i, j :: 0 <= i < j < |Users| ==> Users[i].username != Users[j].username
  {
  }

  /** Hence at most one demo account matches any username and password. */
  lemma AtMostOneMatch(username: string, password: string, i: int, j: int)
    requires 0 <= i < |Users| && 0 <= j < |Users|
    requires Matches(Users[i], username, password) && Matches(Users[j], username, password)
    ensures i == j
  {
    UsernamesDistinct();
  }

  /** The three demo accounts log in with their documented passwords and roles. */
  lemma DemoAccounts()
    ensures Find(Users, "admin", "admin123") == Some(Users[0]) && Users[0].role == "admin"
    ensures Find(Users, "manager", "manager123") == Some(Users[1]) && Users[1].role == "manager"
    ensures Find(Users, "analyst", "analyst123") == Some(Users[2]) && Users[2].role == "analyst"
  {
  }

  /** A wrong password for a known username fails. */
  lemma WrongPasswordFails()
    ensures Find(Users, "admin", "manager123") == None
  {
  }

  /** The record written to the storage slot: username, role and name, and
      never the password. */
  function SessionRecord(u: User): (r: User)
    ensures r.password == None
    ensures r.username == u.username && r.role == u.role && r.name == u.name
  {
    User(u.username, None, u.role, u.name)
  }

  /** The pages decide from the stored record; it keeps the role, so they
      decide exactly as they would from the matched entry itself. */
  lemma StoredRecordDecidesAlike(u: User, kpi: string)
    ensures Dashboard.ShouldShowKpi(Some(SessionRecord(u)), kpi) == Dashboard.ShouldShowKpi(Some(u), kpi)
    ensures Reports.ShouldShowKpi(Some(SessionRecord(u)), kpi) == Reports.ShouldShowKpi(Some(u), kpi)
    ensures Reports.CanSeeProfitData(Some(SessionRecord(u))) == Reports.CanSeeProfitData(Some(u))
  {
  }

  class LoginForm {
    var username: string
    var password: string
    var error: string

    constructor ()
      ensures username == "" && password == "" && error == ""
    {
      username := "";
      password := "";
      error := "";
    }

    method SetUsername(s: string)
      modifies this
      ensures username == s && password == old(password) && error == old(error)
    {
      username := s;
    }

    method SetPassword(s: string)
      modifies this
      ensures password == s && username == old(username) && error == old(error)
    {
      password := s;
    }

    /** `handleSubmit`. On a match: store the session record, hand the
        matched entry to the shell, go to the dashboard, in that order. On no
        match: set the error and touch nothing else. */
    method HandleSubmit(app: Shell.App, browser: Browser)
      modifies this, app, browser
      ensures username == old(username) && password == old(password)
      ensures app.loading == old(app.loading) && app.menuOpen == old(app.menuOpen)
      ensures var found := Find(Users, old(username), old(password));
              if found.Some? then
                && browser.slot == Some(SessionRecord(found.value))
                && app.user == found
                && browser.location == "/dashboard"
                && browser.steps == old(browser.steps)
                     + [SessionStored(SessionRecord(found.value)), LoginCallback(found.value),
                        Navigated("/dashboard")]
                && error == old(error)
              else
                && error == InvalidCredentials
                && browser.slot == old(browser.slot) && browser.location == old(browser.location)
                && browser.steps == old(browser.steps)
                && app.user == old(app.user)
    {
      var found := Find(Users, username, password);
      if found.Some? {
        browser.Store(SessionRecord(found.value));
        browser.Note(LoginCallback(found.value));
        app.HandleLogin(found.value);
        browser.Navigate("/dashboard");
      } else {
        error := InvalidCredentials;
      }
    }
  }
}
