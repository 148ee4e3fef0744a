# HR dashboard: session and access-control model

A Dafny model of the login, role-gating and analytics logic of the HR
Performance Tracking dashboard (`HR.py`), a Streamlit script that reruns from
the top on every interaction. The model covers:

- the static credential table `USERS` and permission table `USER_ROLES`;
- the session-state dictionary, its two keys `logged_in` and `user_role`,
  their initialisation when absent, and the Login button that overwrites both;
- the stop guard, which halts a rerun when the session is not logged in;
- the sidebar menu: eight view sections, then seven "Add …" sections exactly
  when the role's permissions contain `add`;
- the Real-Time Analytics section: each of three panels shows a chart only for
  a query result that is present and non-empty, otherwise its own placeholder
  text, and then one "View Analytics" audit action is issued.

Modules: `Wrappers` (Option), `Credentials` (the two tables and the credential
check), `Sessions` (the session state as a value, the rerun step, the session
invariant and a `Session` class holding the two keys), `Navigation` (menu and
radio selection), `Analytics` (panels, audit entry), `App` (one whole rerun of
the script as a method, and two clients).

The central invariant (`Sessions.Valid`): whenever `logged_in` is true,
`user_role` holds a role that some entry of `USERS` grants. Every role of
`USERS` is a key of `USER_ROLES`, so the lookup `USER_ROLES[user_role]` that
builds the menu can never miss once the guard has passed. `ReplayKeepsValid`
extends this to every session state reachable by any sequence of reruns.

Roles are kept as strings, as in the source, so that this lookup is a real
map access that needs the invariant.

`HR.py` has no logout and keeps no username in the session state; the model
follows the script. The audit entry carries the current content
of the username text box (line 96), not the name that logged in.

## Model

| member | source | states |
|---|---|---|
| Credentials.Authenticates | HR.py:44 | the credentials are accepted exactly when the username is a key of the table and its stored password equals the one given |
| Credentials.StoredRolesOfUsers | HR.py:26-29 | the credential table grants exactly the roles `admin` and `user` |
| Credentials.UsersRolesHavePermissions | HR.py:26-29 | every role the credential table grants is a key of `USER_ROLES` (line 59), so the role lookup is defined |
| Credentials.UserPermissionsWithinAdmin | HR.py:59 | the `user` permissions are a subset of the `admin` ones; only `admin` has `add` |
| Sessions.Initialize | HR.py:37-41 | afterwards both keys are present; a present key keeps its value; an absent one gets `False` / `None` |
| Sessions.InitializeIdempotent | HR.py:37-41 | a rerun with existing state leaves both keys unchanged |
| Sessions.LoginResult | HR.py:43-51 | logged in iff the username is in the table and its password matches, with the stored role; otherwise exactly LoggedOut (`False`, `None`) |
| Sessions.Rerun | HR.py:36-51 | one rerun: without Login pressed the state is only initialised; with it the state is the login result, whatever it was before |
| Sessions.NoticeText | HR.py:45 | the welcome message is "Welcome, " followed by the username and "!" |
| Sessions.NoticeTextInjective | HR.py:45-55 | the welcome, invalid-credentials and please-log-in texts are never confused, and a welcome text determines the username |
| Sessions.GuardPasses | HR.py:54-56 | the script goes on past the stop guard exactly when `logged_in` is present and true |
| Sessions.LoginSuccessRule | HR.py:44-47 | after pressing Login the guard passes iff the credentials match, and the stored role is then the table's role for that user |
| Sessions.LoginFailureRule | HR.py:48-51 | any failed login gives LoggedOut from any prior state; unknown usernames and wrong passwords have the same effect |
| Sessions.FreshIsValid | HR.py:37-41 | a new session satisfies the session invariant |
| Sessions.RerunKeepsValid | HR.py:43-51 | one rerun keeps the invariant: logged in implies the role is one the table grants |
| Sessions.ReplayKeepsValid | HR.py:36-56 | every state reachable by any sequence of reruns satisfies the invariant |
| Sessions.GuardedRoleHasPermissions | HR.py:54-71 | past the guard, the session role is a key of `USER_ROLES` |
| Sessions.IdleRerunsKeepState | HR.py:37-43 | reruns without pressing Login do not modify an initialised session state |
| Sessions.LastLoginDecides | HR.py:43-51 | after any sequence of reruns the state is the result of the last Login press |
| Sessions.Session.constructor | HR.py:37-41 | a new browser session holds neither key |
| Sessions.Session.Init | HR.py:37-41 | the fields become the initialised state of their old values |
| Sessions.Session.Login | HR.py:43-51 | the fields become the login result; returns the welcome notice on success, the error notice otherwise |
| Navigation.SectionListsDisjoint | HR.py:66-75 | no "Add …" section is also a view section |
| Navigation.Sections | HR.py:66-75 | the menu is the eight view sections in order, followed, exactly when the role has `add`, by the seven "Add …" sections in order |
| Navigation.AddSectionsIffPermission | HR.py:71-75 | an "Add …" section is on a role's menu iff the role's permissions contain `add` |
| Navigation.MenuPrefix | HR.py:66-70 | every role's menu begins with the eight view sections; the `user` menu is exactly those |
| Navigation.AdminAndUserMenus | HR.py:59-75 | admin sees 15 sections and user 8; the user menu is a prefix of the admin menu; no "Add …" section is on the user menu |
| Navigation.RadioChoice | HR.py:77 | the selection is always one of the menu's options |
| Analytics.IsEmpty | HR.py:117 | a query result is empty, as pandas `.empty`, when it has no columns or no rows |
| Analytics.Placeholder | HR.py:121-150 | each panel's own placeholder text: attendance, task and department |
| Analytics.ShowPanel | HR.py:116-121 | a chart of the result iff the result is present and not empty; otherwise that panel's placeholder text |
| Analytics.ViewAnalyticsEntry | HR.py:90-101 | the audit entry has action type "View Analytics", the current username and the session role |
| Analytics.ShowDashboard | HR.py:104-153 | each of the three panels is decided from its own result, charts that result itself, or shows its own placeholder; exactly one "View Analytics" audit action follows |
| Analytics.PlaceholdersDistinct | HR.py:121-150 | the three placeholder texts differ |
| Analytics.AuditIndependentOfPanels | HR.py:152-153 | the audit action is the same whatever the panels showed |
| App.LoginNotices | HR.py:43-56 | exactly one welcome-or-error notice, and only when Login is pressed; "Please log in" is shown, last, iff the guard stops; nothing else |
| App.RunScript | HR.py:36-153 | one rerun: the session becomes the rerun step of the old state and stays valid; it stops iff not logged in; otherwise the menu is the role's sections, the selection one of them, and the dashboard is rendered iff the analytics section is selected |
| App.AdminOpensAnalytics | HR.py:26-27 | a fresh session logging in as `admin_user` sees 15 sections and the analytics section issues one audit action |
| App.WrongPasswordLogsOut | HR.py:48-56 | a wrong password logs out even a logged-in session and the rerun stops |

## Left out

- The warehouse connection, `fetch_table_data` and the SQL text of the three queries (lines 18-19, 80-88, 109-145) are foreign database calls; a query result is an input `Option<Table>`, `None` standing for a query that raised.
- The audit insert and the file logging (lines 90-101) are I/O whose exceptions are swallowed; the model records the audit entry that would be inserted.
- The attendance percentage (line 118) is floating-point data-frame arithmetic; the attendance chart carries the query result as it is.
- Charts, sidebar messages and layout are UI; the model keeps only the chart-or-placeholder decision and the sidebar notices of the login flow.
- Sections other than Real-Time Analytics have no code in `HR.py`; selecting one renders nothing in the model.
- Navigation.RadioChoice: the Streamlit radio widget is not modelled; a pick that is not among the options is taken to fall back to the first option, the widget's default.
- `st_on_hover_tabs/__init__.py` is a wrapper over a front-end component with no logic of its own beyond passing `tabName[default_choice]` as the default; it is not part of this model.
