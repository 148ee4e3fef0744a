/**
 * The session-state dictionary of the dashboard and the login state machine.
 * Streamlit keeps `st.session_state` across reruns of the script; the script
 * reads and writes two of its keys, `logged_in` and `user_role`.
 */
module Sessions {

  import opened Wrappers
  import opened Credentials

  /** A key of the session-state dictionary: absent, or present with a value. */
  datatype Slot<T> = Absent | Present(value: T)

  /** The two keys the script uses; `user_role` holds a role or Python's `None`. */
  datatype State = State(loggedIn: Slot<bool>, userRole: Slot<Option<string>>)

  /** A new browser session: neither key has been written. */
  const Fresh: State := State(Absent, Absent)

  /** The state a failed login forces, whatever came before. */
  const LoggedOut: State := State(Present(false), Present(None))

  /** The sidebar messages of the login flow. */
  datatype Notice = Welcome(username: string) | InvalidCredentials | PleaseLogIn

  function NoticeText(n: Notice): (t: string)
    ensures n.Welcome? ==> t == "Welcome, " + n.username + "!"
  {
    match n
    case Welcome(u) => "Welcome, " + u + "!"
    case InvalidCredentials => "Invalid username or password."
    case PleaseLogIn => "Please log in to continue."
  }

  /**
   * The three sidebar texts cannot be confused, and a welcome text determines
   * the username it greets.
   */
  lemma NoticeTextInjective(m: Notice, n: Notice)
    requires NoticeText(m) == NoticeText(n)
    ensures m == n
  {
    var t := NoticeText(m);
    if m.Welcome? && n.Welcome? {
      assert m.username == t[9..|t| - 1] == n.username;
    } else {
      assert NoticeText(m)[0] == NoticeText(n)[0];
    }
  }

  /** True when both keys are present, as they are after the initialisation step. */
  predicate Initialised(s: State)
  {
    s.loggedIn.Present? && s.userRole.Present?
  }

  /** The initialisation step: each key gets its default only when it is absent. */
  function Initialize(s: State): (r: State)
    ensures Initialised(r)
    ensures s.loggedIn.Present? ==> r.loggedIn == s.loggedIn
    ensures s.userRole.Present? ==> r.userRole == s.userRole
    ensures s.loggedIn.Absent? ==> r.loggedIn == Present(false)
    ensures s.userRole.Absent? ==> r.userRole == Present(None)
  {
    State(if s.loggedIn.Absent? then Present(false) else s.loggedIn,
          if s.userRole.Absent? then Present(None) else s.userRole)
  }

  /**
   * The state after pressing Login. It does not depend on the state before:
   * success stores the role of the credential entry, failure forces LoggedOut.
   */
  function LoginResult(users: map<string, Credential>, username: string, password: string): (r: State)
    ensures Initialised(r)
    ensures r.loggedIn == Present(true) <==> username in users && users[username].password == password
    ensures r.loggedIn == Present(true) ==> r.userRole == Present(Some(users[username].role))
    ensures r.loggedIn != Present(true) ==> r == LoggedOut
  {
    if Authenticates(users, username, password) then
      State(Present(true), Present(Some(users[username].role)))
    else
      LoggedOut
  }

  /** The stop guard `if not st.session_state['logged_in']`: true when the script goes on. */
  predicate GuardPasses(s: State)
  {
    s.loggedIn == Present(true)
  }

  /** One interaction: whether Login was pressed and the two text inputs at that time. */
  datatype Interaction = Interaction(pressed: bool, username: string, password: string)

  /** The session state after one rerun of the script, up to the stop guard. */
  function Rerun(users: map<string, Credential>, s: State, i: Interaction): (r: State)
    ensures Initialised(r)
    ensures !i.pressed ==> r == Initialize(s)
    ensures i.pressed ==> r == LoginResult(users, i.username, i.password)
  {
    var s' := Initialize(s);
    if i.pressed then LoginResult(users, i.username, i.password) else s'
  }

  /** The session state after a whole sequence of reruns. */
  function Replay(users: map<string, Credential>, s: State, runs: seq<Interaction>): State
    decreases |runs|
  {
    if runs == [] then s else Replay(users, Rerun(users, s, runs[0]), runs[1..])
  }

  /**
   * The session invariant: whenever `logged_in` is true, `user_role` holds a
   * role that some entry of the credential table grants.
   */
  ghost predicate Valid(users: map<string, Credential>, s: State)
  {
    s.loggedIn == Present(true) ==>
      s.userRole.Present? && s.userRole.value.Some? && s.userRole.value.value in StoredRoles(users)
  }

  /** The role of a session that passed the guard. */
  function RoleOf(s: State): string
    requires s.userRole.Present? && s.userRole.value.Some?
  {
    s.userRole.value.value
  }

  /** Login succeeds exactly for a known username with its stored password, and stores that role. */
  lemma LoginSuccessRule(users: map<string, Credential>, s: State, username: string, password: string)
    ensures var r := Rerun(users, s, Interaction(true, username, password));
      (GuardPasses(r) <==> username in users && users[username].password == password) &&
      (GuardPasses(r) ==> RoleOf(r) == users[username].role)
  {
  }

  /**
   * A failed login gives LoggedOut whatever the previous state, so an unknown
   * username and a wrong password have the same effect.
   */
  lemma LoginFailureRule(users: map<string, Credential>, s1: State, s2: State,
                         u1: string, p1: string, u2: string, p2: string)
    requires !Authenticates(users, u1, p1) && !Authenticates(users, u2, p2)
    ensures Rerun(users, s1, Interaction(true, u1, p1)) == LoggedOut
    ensures Rerun(users, s1, Interaction(true, u1, p1)) == Rerun(users, s2, Interaction(true, u2, p2))
  {
  }

  /** Rerunning the initialisation on existing keys changes nothing. */
  lemma InitializeIdempotent(s: State)
    ensures Initialize(Initialize(s)) == Initialize(s)
    ensures Initialised(s) ==> Initialize(s) == s
  {
  }

  /** One rerun keeps the session invariant. */
  lemma RerunKeepsValid(users: map<string, Credential>, s: State, i: Interaction)
    requires Valid(users, s)
    ensures Valid(users, Rerun(users, s, i))
  {
  }

  /** A new session is valid. */
  lemma FreshIsValid(users: map<string, Credential>)
    ensures Valid(users, Fresh)
  {
  }

  /** Every session state reachable from a valid one by reruns is valid. */
  lemma {:induction false} ReplayKeepsValid(users: map<string, Credential>, s: State, runs: seq<Interaction>)
    requires Valid(users, s)
    ensures Valid(users, Replay(users, s, runs))
    decreases |runs|
  {
    if runs != [] {
      RerunKeepsValid(users, s, runs[0]);
      ReplayKeepsValid(users, Rerun(users, s, runs[0]), runs[1..]);
    }
  }

  /**
   * Past the guard, the role lookup in the permission table is defined: the
   * session invariant and the credential table's roles together rule out a miss.
   */
  lemma GuardedRoleHasPermissions(users: map<string, Credential>, s: State)
    requires RolesHavePermissions(users)
    requires Valid(users, s) && GuardPasses(s)
    ensures s.userRole.Present? && s.userRole.value.Some? && RoleOf(s) in UserRoles
  {
  }

  /** Replaying two sequences one after the other is replaying their concatenation. */
  lemma {:induction false} ReplayAppend(users: map<string, Credential>, s: State, a: seq<Interaction>, b: seq<Interaction>)
    ensures Replay(users, s, a + b) == Replay(users, Replay(users, s, a), b)
    decreases |a|
  {
    if a == [] {
      assert a + b == b;
    } else {
      assert (a + b)[0] == a[0];
      assert (a + b)[1..] == a[1..] + b;
      ReplayAppend(users, Rerun(users, s, a[0]), a[1..], b);
    }
  }

  /** Without pressing Login, reruns leave an initialised session state as it is. */
  lemma {:induction false} IdleRerunsKeepState(users: map<string, Credential>, s: State, runs: seq<Interaction>)
    requires Initialised(s)
    requires forall j :: 0 <= j < |runs| ==> !runs[j].pressed
    ensures Replay(users, s, runs) == s
    decreases |runs|
  {
    if runs != [] {
      InitializeIdempotent(s);
      IdleRerunsKeepState(users, Rerun(users, s, runs[0]), runs[1..]);
    }
  }

  /**
   * The last press of Login decides the session state: after it, reruns
   * without a press change nothing.
   */
  lemma LastLoginDecides(users: map<string, Credential>, s: State, runs: seq<Interaction>, k: nat)
    requires k < |runs| && runs[k].pressed
    requires forall j :: k < j < |runs| ==> !runs[j].pressed
    ensures Replay(users, s, runs) == LoginResult(users, runs[k].username, runs[k].password)
  {
    var before, tail := runs[..k], runs[k + 1..];
    assert runs == before + ([runs[k]] + tail);
    ReplayAppend(users, s, before, [runs[k]] + tail);
    var t := Replay(users, s, before);
    assert ([runs[k]] + tail)[1..] == tail;
    assert Replay(users, t, [runs[k]] + tail) == Replay(users, Rerun(users, t, runs[k]), tail);
    IdleRerunsKeepState(users, Rerun(users, t, runs[k]), tail);
  }

  /** The object that holds `st.session_state`'s two keys across reruns. */
  class Session {
    var loggedIn: Slot<bool>
    var userRole: Slot<Option<string>>

    /** The value of the two keys. */
    function View(): State
      reads this
    {
      State(loggedIn, userRole)
    }

    /** A new browser session holds neither key. */
    constructor ()
      ensures View() == Fresh
    {
      loggedIn := Absent;
      userRole := Absent;
    }

    /** The initialisation step at the top of every rerun. */
    method Init()
      modifies this
      ensures View() == Initialize(old(View()))
    {
      if loggedIn.Absent? {
        loggedIn := Present(false);
      }
      if userRole.Absent? {
        userRole := Present(None);
      }
    }

    /** The Login button: check the inputs against the table and overwrite both keys. */
    method Login(users: map<string, Credential>, username: string, password: string) returns (notice: Notice)
      modifies this
      ensures View() == LoginResult(users, username, password)
      ensures notice == if Authenticates(users, username, password) then Welcome(username) else InvalidCredentials
    {
      if username in users && users[username].password == password {
        notice := Welcome(username);
        loggedIn := Present(true);
        userRole := Present(Some(users[username].role));
      } else {
        notice := InvalidCredentials;
        loggedIn := Present(false);
        userRole := Present(None);
      }
    }
  }
}
