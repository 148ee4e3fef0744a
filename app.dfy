/**
 * One rerun of the dashboard script: initialise the session state, handle the
 * Login button, stop at the guard when not logged in, otherwise build the
 * role's menu and run the selected section (of which the analytics section is
 * modelled).
 */
module App {

  import opened Wrappers
  import opened Credentials
  import opened Sessions
  import opened Navigation
  import opened Analytics

  /** How a rerun ends: halted at the guard, or with a menu, a selection and what it rendered. */
  datatype Outcome = Stopped | Navigated(menu: seq<string>, selected: string, dashboard: Option<Dashboard>)

  /** The sidebar messages the login flow shows on one rerun. */
  function LoginNotices(pressed: bool, username: string, password: string, after: State): (ns: seq<Notice>)
    ensures pressed ==> |ns| >= 1 && ns[0] == (if Authenticates(Users, username, password) then Welcome(username) else InvalidCredentials)
    ensures PleaseLogIn in ns <==> !GuardPasses(after)
    ensures |ns| == (if pressed then 1 else 0) + (if GuardPasses(after) then 0 else 1)
    ensures !GuardPasses(after) ==> ns[|ns| - 1] == PleaseLogIn
  {
    (if pressed then [if Authenticates(Users, username, password) then Welcome(username) else InvalidCredentials] else [])
    + (if GuardPasses(after) then [] else [PleaseLogIn])
  }

  /**
   * The script from the credential table to the end of the analytics section.
   * `picked` is the radio selection; the three tables are the results of the
   * analytics queries (None when a query failed).
   */
  method RunScript(session: Session, pressed: bool, username: string, password: string, picked: string,
                   attendance: Option<Table>, tasks: Option<Table>, departments: Option<Table>)
    returns (notices: seq<Notice>, outcome: Outcome)
    requires Valid(Users, session.View())
    modifies session
    ensures session.View() == Rerun(Users, old(session.View()), Interaction(pressed, username, password))
    ensures Valid(Users, session.View())
    ensures notices == LoginNotices(pressed, username, password, session.View())
    ensures outcome.Stopped? <==> !GuardPasses(session.View())
    ensures outcome.Navigated? ==>
      && session.userRole.Present? && session.userRole.value.Some?
      && RoleOf(session.View()) in UserRoles
      && outcome.menu == Sections(RoleOf(session.View()))
      && outcome.selected == RadioChoice(outcome.menu, picked)
      && (outcome.dashboard.Some? <==> outcome.selected == AnalyticsSection)
      && (outcome.dashboard.Some? ==>
            outcome.dashboard.value == ShowDashboard(username, RoleOf(session.View()), attendance, tasks, departments))
  {
    ghost var before := session.View();
    session.Init();
    notices := [];
    if pressed {
      var n := session.Login(Users, username, password);
      notices := [n];
    }
    RerunKeepsValid(Users, before, Interaction(pressed, username, password));

    // the stop guard
    if !session.loggedIn.value {
      notices := notices + [PleaseLogIn];
      outcome := Stopped;
      return;
    }

    UsersRolesHavePermissions();
    GuardedRoleHasPermissions(Users, session.View());
    var role := session.userRole.value.value;
    // the in-place `sections += [...]` of the menu; the ensures proves it equal to Sections(role)
    var sections := BaseSections;
    if AddPermission in UserRoles[role] {
      sections := sections + AddSections;
    }
    var selected := RadioChoice(sections, picked);
    var dashboard := None;
    if selected == AnalyticsSection {
      dashboard := Some(ShowDashboard(username, role, attendance, tasks, departments));
    }
    outcome := Navigated(sections, selected, dashboard);
  }

  /** A client: a fresh session that logs in as admin and opens the analytics section. */
  method AdminOpensAnalytics(attendance: Option<Table>) returns (outcome: Outcome)
    ensures outcome.Navigated? && |outcome.menu| == 15
    ensures outcome.dashboard.Some?
    ensures outcome.dashboard.value.audit == [ViewAnalyticsEntry("admin_user", "admin")]
  {
    var session := new Session();
    FreshIsValid(Users);
    var notices;
    notices, outcome := RunScript(session, true, "admin_user", "admin123", AnalyticsSection, attendance, None, None);
    AdminAndUserMenus();
  }

  /** A client: a logged-in session that retries Login with a wrong password is logged out and stops. */
  method WrongPasswordLogsOut(session: Session) returns (outcome: Outcome)
    requires Valid(Users, session.View())
    modifies session
    ensures outcome == Stopped
    ensures session.View() == LoggedOut
  {
    var notices;
    notices, outcome := RunScript(session, true, "admin_user", "user123", AnalyticsSection, None, None, None);
  }
}
