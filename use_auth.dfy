/**
 * The authentication context (`AuthProvider` and `useAuth`): the state
 * `{user, session, role, loading}` that the authentication listener, the
 * initial `getSession` and the deferred role lookup overwrite, and the
 * actions `signUp`, `signIn`, `signOut` and `updateRole`.
 *
 * Every asynchronous callback is an event. A notification that carries a
 * user schedules a deferred role lookup (`setTimeout(.., 0)`); the queue of
 * scheduled lookups is `pending`, each entry the user id the lookup was
 * issued for. Lookups may finish in any order, so a completion names the
 * queue entry it belongs to.
 */
module AuthContext {
  import opened Js
  import opened Roles
  import opened Backend

  /** A live session; the authentication client always attaches its user. */
  datatype Session = Session(accessToken: string, user: User)

  /** How the deferred `user_roles` query ended. */
  datatype RoleLookup =
    | RowFound(role: AppRole)  // `.single()` returned a row
    | NoRow                    // no row: `roleData` is null
    | LookupThrew              // the query threw; the `catch` branch ran

  datatype Event =
    | AuthStateChanged(session: Option<Session>)   // the `onAuthStateChange` listener
    | InitialSessionLoaded(session: Option<Session>)  // `getSession().then(..)`
    | RoleLookupDone(task: nat, outcome: RoleLookup)  // the deferred role task

  /** The provider's state, plus the queue of deferred role lookups. */
  datatype State = State(
    user: Option<User>,
    session: Option<Session>,
    role: Option<AppRole>,
    loading: bool,
    pending: seq<UserId>)

  /** The state on mount: loading, and nobody known yet. */
  const Initial := State(None, None, None, true, [])

  /** `session?.user ?? null` */
  function UserOf(session: Option<Session>): Option<User> {
    match session
    case None => None
    case Some(s) => Some(s.user)
  }

  /**
   * The role a finished lookup writes: the row's role, and `customer` both
   * when there is no row and when the query threw.
   */
  function ResolvedRole(outcome: RoleLookup): (r: AppRole)
    ensures r == Customer <==> (outcome.RowFound? ==> outcome.role == Customer)
  {
    match outcome
    case RowFound(role) => role
    case NoRow => Customer
    case LookupThrew => Customer
  }

  function RemoveAt<T>(s: seq<T>, k: nat): (r: seq<T>)
    requires k < |s|
    ensures |r| == |s| - 1
  {
    s[..k] + s[k + 1..]
  }

  /**
   * One event folded into the state, as the handlers in the provider do it.
   * A completion naming no scheduled lookup cannot happen and changes
   * nothing.
   */
  function Step(s: State, e: Event): State {
    match e
    case AuthStateChanged(session) =>
      var user := UserOf(session);
      s.(session := session, user := user,
         role := if user.Some? then s.role else None,
         pending := if user.Some? then s.pending + [user.value.id] else s.pending,
         loading := false)
    case InitialSessionLoaded(session) =>
      s.(session := session, user := UserOf(session), loading := false)
    case RoleLookupDone(task, outcome) =>
      if task < |s.pending|
      then s.(role := Some(ResolvedRole(outcome)), pending := RemoveAt(s.pending, task))
      else s
  }

  /** A sequence of events folded into the state, first event first. */
  function Run(s: State, events: seq<Event>): State
    decreases |events|
  {
    if events == [] then s else Run(Step(s, events[0]), events[1..])
  }

  predicate IsSessionEvent(e: Event) {
    e.AuthStateChanged? || e.InitialSessionLoaded?
  }

  /** The session carried by the last session event, if there is one. */
  function LastSession(events: seq<Event>): Option<Option<Session>> {
    if events == [] then None
    else if IsSessionEvent(events[|events| - 1]) then Some(events[|events| - 1].session)
    else LastSession(events[..|events| - 1])
  }

  lemma {:induction false} RunAppend(s: State, events: seq<Event>, e: Event)
    ensures Run(s, events + [e]) == Step(Run(s, events), e)
    decreases |events|
  {
    if events != [] {
      assert (events + [e])[1..] == events[1..] + [e];
      RunAppend(Step(s, events[0]), events[1..], e);
    }
  }

  /** Once `loading` is false it is never set back to true. */
  lemma {:induction false} LoadingStaysCleared(s: State, events: seq<Event>)
    requires !s.loading
    ensures !Run(s, events).loading
    decreases |events|
  {
    if events != [] {
      LoadingStaysCleared(Step(s, events[0]), events[1..]);
    }
  }

  /**
   * `loading` is still true exactly when it was true before and no
   * notification and no `getSession` completion has arrived: the role
   * lookup never clears it, so `loading` turns false before the role is
   * known.
   */
  lemma {:induction false} LoadingUntilSessionEvent(s: State, events: seq<Event>)
    ensures Run(s, events).loading <==>
      s.loading && forall i :: 0 <= i < |events| ==> !IsSessionEvent(events[i])
    decreases |events|
  {
    if events != [] {
      LoadingUntilSessionEvent(Step(s, events[0]), events[1..]);
      if !Step(s, events[0]).loading {
        LoadingStaysCleared(Step(s, events[0]), events[1..]);
      }
      forall i | 1 <= i < |events| ensures events[i] == events[1..][i - 1] { }
    }
  }

  /**
   * After any sequence of events, session and user are those of the last
   * notification or `getSession` completion (the user being the session's
   * user or null), or unchanged when there was none.
   */
  lemma {:induction false} SessionFollowsLastSessionEvent(s: State, events: seq<Event>)
    ensures var r := Run(s, events);
      match LastSession(events)
      case None => r.session == s.session && r.user == s.user
      case Some(session) => r.session == session && r.user == UserOf(session)
    decreases |events|
  {
    if events != [] {
      var front := events[..|events| - 1];
      var last := events[|events| - 1];
      assert events == front + [last];
      RunAppend(s, front, last);
      SessionFollowsLastSessionEvent(s, front);
    }
  }

  /** Signing in from the initial state and finishing its lookup gives the resolved role. */
  lemma SignInThenLookup(session: Session, outcome: RoleLookup)
    ensures Run(Initial, [AuthStateChanged(Some(session)), RoleLookupDone(0, outcome)])
      == State(Some(session.user), Some(session), Some(ResolvedRole(outcome)), false, [])
  {
    var events := [AuthStateChanged(Some(session)), RoleLookupDone(0, outcome)];
    var s1 := Step(Initial, events[0]);
    var s2 := Step(s1, events[1]);
    assert Run(Initial, events) == Run(s1, events[1..]);
    assert Run(s1, events[1..]) == Run(s2, []);
  }

  /**
   * The deferred role write is not checked against the current user: a
   * sign-in whose lookup finishes after a sign-out leaves no user but a
   * role.
   */
  lemma StaleLookupResurrectsRole(s: State, session: Session, outcome: RoleLookup)
    ensures var r := Run(s, [AuthStateChanged(Some(session)), AuthStateChanged(None),
                             RoleLookupDone(|s.pending|, outcome)]);
      r.user == None && r.session == None && r.role == Some(ResolvedRole(outcome))
  {
    var s1 := Step(s, AuthStateChanged(Some(session)));
    var s2 := Step(s1, AuthStateChanged(None));
    assert s2.user == None && |s2.pending| == |s.pending| + 1;
    var events := [AuthStateChanged(Some(session)), AuthStateChanged(None),
                   RoleLookupDone(|s.pending|, outcome)];
    var s3 := Step(s2, events[2]);
    assert Run(s, events) == Run(s1, events[1..]);
    assert Run(s1, events[1..]) == Run(s2, events[2..]);
    assert Run(s2, events[2..]) == Run(s3, []);
  }

  /** A notification without a session signs out, and a second one changes nothing. */
  lemma SignOutIdempotent(s: State)
    ensures var out := Step(s, AuthStateChanged(None));
      out.user == None && out.session == None && out.role == None && !out.loading
      && Step(out, AuthStateChanged(None)) == out
  {
  }

  // ---------------------------------------------------------------------
  // The context accessor and the actions

  datatype Result<T> = Ok(value: T) | Err(message: string)

  /** `useAuth()`: the context, or the error raised outside a provider. */
  function UseAuth(context: Option<State>): (r: Result<State>)
    ensures r.Ok? <==> context.Some?
    ensures r.Ok? ==> r.value == context.value
    ensures r.Err? ==> r.message == "useAuth must be used within an AuthProvider"
  {
    match context
    case Some(c) => Ok(c)
    case None => Err("useAuth must be used within an AuthProvider")
  }

  /** An error object from the authentication client; `message` may be absent. */
  datatype AuthError = AuthError(message: Option<string>)

  /** How a call into the authentication client ended. */
  datatype ClientReply = Returned(error: Option<AuthError>) | Threw(thrown: AuthError)

  /** `{ error }` as `signUp` and `signIn` return it: a throw becomes an error. */
  function Settle(reply: ClientReply): (error: Option<AuthError>)
    ensures error.None? <==> reply == Returned(None)
    ensures reply.Threw? ==> error == Some(reply.thrown)
    ensures reply.Returned? ==> error == reply.error
  {
    match reply
    case Returned(e) => e
    case Threw(e) => Some(e)
  }

  /** The sign-up request: the full name travels as metadata `full_name`. */
  datatype SignUpRequest = SignUpRequest(email: string, password: string, metadataFullName: string)

  datatype SignInRequest = SignInRequest(email: string, password: string)

  /** `signUp(email, password, fullName)`: the request sent and the `{ error }` returned. */
  function SignUp(email: string, password: string, fullName: string, reply: ClientReply)
    : (r: (SignUpRequest, Option<AuthError>))
    ensures r.0.email == email && r.0.password == password && r.0.metadataFullName == fullName
    ensures r.1.None? <==> reply == Returned(None)
    ensures reply.Threw? ==> r.1 == Some(reply.thrown)
  {
    (SignUpRequest(email, password, fullName), Settle(reply))
  }

  /** `signIn(email, password)`: the request sent and the `{ error }` returned. */
  function SignIn(email: string, password: string, reply: ClientReply)
    : (r: (SignInRequest, Option<AuthError>))
    ensures r.0.email == email && r.0.password == password
    ensures r.1.None? <==> reply == Returned(None)
    ensures reply.Threw? ==> r.1 == Some(reply.thrown)
  {
    (SignInRequest(email, password), Settle(reply))
  }

  /**
   * The `user_roles` table, keyed by user id. The lookup reads the row of a
   * user, if there is one; it never writes.
   */
  function LookupRole(roles: map<UserId, AppRole>, userId: UserId): (r: RoleLookup)
    ensures r.RowFound? <==> userId in roles
    ensures r.RowFound? ==> r.role == roles[userId]
  {
    if userId in roles then RowFound(roles[userId]) else NoRow
  }

  /** A user without a role row is treated as a customer. */
  lemma DefaultRoleIsCustomer(roles: map<UserId, AppRole>, userId: UserId)
    requires userId !in roles
    ensures ResolvedRole(LookupRole(roles, userId)) == Customer
  {
  }

  /** The row `updateRole` upserts. */
  datatype RoleRow = RoleRow(userId: UserId, role: AppRole)

  /**
   * `updateRole(userId, newRole)`: upserts exactly `{user_id, role}`, with no
   * check of who is asking; returns the table afterwards and whether an
   * error came back.
   */
  function UpdateRole(roles: map<UserId, AppRole>, userId: UserId, newRole: AppRole, outcome: WriteOutcome)
    : (r: (RoleRow, map<UserId, AppRole>, bool))
    ensures r.0 == RoleRow(userId, newRole)
    ensures r.2 <==> outcome == WriteFailed
    ensures r.2 ==> r.1 == roles
    ensures !r.2 ==> r.1.Keys == roles.Keys + {userId}
    ensures forall u :: u in roles && u != userId ==> r.1[u] == roles[u]
  {
    var row := RoleRow(userId, newRole);
    match outcome
    case WriteOk => (row, roles[row.userId := row.role], false)
    case WriteFailed => (row, roles, true)
  }

  /** After a successful role update, the next lookup for that user resolves to the new role. */
  lemma UpdateRoleThenLookup(roles: map<UserId, AppRole>, userId: UserId, newRole: AppRole)
    ensures ResolvedRole(LookupRole(UpdateRole(roles, userId, newRole, WriteOk).1, userId)) == newRole
  {
  }

  // ---------------------------------------------------------------------
  // The provider, whose handlers overwrite its fields

  class AuthProvider {
    var user: Option<User>
    var session: Option<Session>
    var role: Option<AppRole>
    var loading: bool
    var pending: seq<UserId>

    function Current(): State
      reads this
    {
      State(user, session, role, loading, pending)
    }

    constructor ()
      ensures Current() == Initial
    {
      user, session, role, loading, pending := None, None, None, true, [];
    }

    /** The `onAuthStateChange` listener. */
    method OnAuthStateChange(newSession: Option<Session>)
      modifies this
      ensures Current() == Step(old(Current()), AuthStateChanged(newSession))
      ensures session == newSession && user == UserOf(newSession) && !loading
      ensures newSession.None? ==> role == None && pending == old(pending)
      ensures newSession.Some? ==> role == old(role) && pending == old(pending) + [newSession.value.user.id]
    {
      session := newSession;
      user := UserOf(newSession);
      if user.Some? {
        pending := pending + [user.value.id];
      } else {
        role := None;
      }
      loading := false;
    }

    /** The `getSession().then(..)` callback: it never touches the role. */
    method OnInitialSession(newSession: Option<Session>)
      modifies this
      ensures Current() == Step(old(Current()), InitialSessionLoaded(newSession))
      ensures session == newSession && user == UserOf(newSession) && !loading
      ensures role == old(role) && pending == old(pending)
    {
      session := newSession;
      user := UserOf(newSession);
      loading := false;
    }

    /** The deferred role task: it writes the role whoever is signed in now. */
    method OnRoleLookupDone(task: nat, outcome: RoleLookup)
      requires task < |pending|
      modifies this
      ensures Current() == Step(old(Current()), RoleLookupDone(task, outcome))
      ensures role == Some(ResolvedRole(outcome)) && pending == RemoveAt(old(pending), task)
      ensures user == old(user) && session == old(session) && loading == old(loading)
    {
      role := Some(ResolvedRole(outcome));
      pending := RemoveAt(pending, task);
    }
  }
}
