/** The application shell: the logged-in role selects the page shown. */
module App {
  import opened Common

  /** The page the shell renders. */
  datatype Page = LoginPage | AdminDashboardPage | UserDashboardPage

  /** The role-to-page selection: no role shows the login page, each role its dashboard. */
  function PageFor(role: Option<Role>): (p: Page)
    ensures p == LoginPage <==> role.None?
    ensures p == AdminDashboardPage <==> role == Some(Admin)
    ensures p == UserDashboardPage <==> role == Some(User)
  {
    match role
    case None => LoginPage
    case Some(Admin) => AdminDashboardPage
    case Some(User) => UserDashboardPage
  }

  class Shell {
    var loggedInRole: Option<Role>

    constructor ()
      ensures loggedInRole.None? && Shown() == LoginPage
    {
      loggedInRole := None;
    }

    /** The page rendered for the current role. */
    function Shown(): (p: Page)
      reads this
      ensures p == LoginPage <==> loggedInRole.None?
      ensures p == AdminDashboardPage <==> loggedInRole == Some(Admin)
      ensures p == UserDashboardPage <==> loggedInRole == Some(User)
    {
      PageFor(loggedInRole)
    }

    /** `handleLogin`. */
    method HandleLogin(r: Role)
      modifies this
      ensures loggedInRole == Some(r)
    {
      loggedInRole := Some(r);
    }

    /** `handleLogout`. */
    method HandleLogout()
      modifies this
      ensures loggedInRole.None? && Shown() == LoginPage
    {
      loggedInRole := None;
    }
  }

  /** A fresh shell: log in as `r`, then log out. The dashboard for `r` is
      shown in between, and logging out restores the initial page. */
  method LoginThenLogout(r: Role) returns (before: Page, during: Page, after: Page)
    ensures before == LoginPage && after == before
    ensures during != LoginPage && (during == AdminDashboardPage <==> r == Admin)
  {
    var app := new Shell();
    before := app.Shown();
    app.HandleLogin(r);
    during := app.Shown();
    app.HandleLogout();
    after := app.Shown();
  }
}
