/** The authentication context: the tab-wide session record and its four operations.
    Each operation is one atomic transition; the replies of the backend calls it makes
    are inputs. */
module Session {
  import opened Common
  import opened Entities
  import opened Interaction

  datatype Session = Session(user: Option<User>, isAuthenticated: bool, loading: bool)

  /** The state before the mount-time check has answered. */
  const Initial := Session(None, false, true)

  /** The state after an operation, and what `checkAuthStatus` / `login` hand back. */
  datatype Outcome = Outcome(session: Session, me: Option<User>, calls: seq<Call>)

  /** `checkAuthStatus`. A successful "who am I" reply carries the body's `user` field,
      `None` when the body has none. A rejection is never propagated. */
  function CheckAuthStatus(s: Session, reply: Reply<Option<User>>): (r: Outcome)
    ensures s.isAuthenticated ==> r == Outcome(s, s.user, [])
    ensures !s.isAuthenticated ==> r.calls == [CheckAuthCall] && !r.session.loading
    ensures !s.isAuthenticated && reply.Ok? ==>
      r.session.isAuthenticated && r.session.user == reply.payload && r.me == reply.payload
    ensures !s.isAuthenticated && reply.Err? ==>
      !r.session.isAuthenticated && r.session.user.None? && r.me.None?
  {
    if s.isAuthenticated then Outcome(s, s.user, [])
    else
      match reply
      case Ok(user) => Outcome(Session(user, true, false), user, [CheckAuthCall])
      case Err(_) => Outcome(Session(None, false, false), None, [CheckAuthCall])
  }

  /** The provider's mount effect: the initial state is not authenticated, so the check
      always runs, and afterwards the spinner is gone. */
  function Mount(reply: Reply<Option<User>>): (r: Outcome)
    ensures !r.session.loading
    ensures r.calls == [CheckAuthCall]
    ensures r.session.isAuthenticated <==> reply.Ok?
  {
    CheckAuthStatus(Initial, reply)
  }

  datatype LoginResult = LoginResult(session: Session, result: Reply<Option<User>>, calls: seq<Call>)

  /** `login(email, password)`: a rejected login propagates with the session untouched;
      otherwise the answer is whatever `checkAuthStatus` answers. */
  function Login(s: Session, email: string, password: string,
                 loginReply: Reply<()>, checkReply: Reply<Option<User>>): (r: LoginResult)
    ensures |r.calls| > 0 && r.calls[0] == LoginCall(email, password)
    ensures loginReply.Err? ==>
      r.session == s && r.result == Err(loginReply.message) && r.calls == [LoginCall(email, password)]
    ensures loginReply.Ok? ==>
      var c := CheckAuthStatus(s, checkReply);
      r.session == c.session && r.result == Ok(c.me) && r.calls == [LoginCall(email, password)] + c.calls
  {
    match loginReply
    case Err(m) => LoginResult(s, Err(m), [LoginCall(email, password)])
    case Ok(_) =>
      var c := CheckAuthStatus(s, checkReply);
      LoginResult(c.session, Ok(c.me), [LoginCall(email, password)] + c.calls)
  }

  /** `logout()`: whatever the backend answers, the user is cleared; `loading` is kept. */
  function Logout(s: Session, reply: Reply<()>): (r: Outcome)
    ensures r.session.user.None? && !r.session.isAuthenticated
    ensures r.session.loading == s.loading
    ensures r.calls == [LogoutCall]
  {
    Outcome(Session(None, false, s.loading), None, [LogoutCall])
  }

  /** `resetSession()`: a local-only logout. */
  function ResetSession(s: Session): (r: Session)
    ensures r.user.None? && !r.isAuthenticated
    ensures r.loading == s.loading
  {
    s.(user := None, isAuthenticated := false)
  }

  /** One operation with the replies of the backend calls it makes. */
  datatype Op =
    | CheckOp(reply: Reply<Option<User>>)
    | LoginOp(email: string, password: string, loginReply: Reply<()>, checkReply: Reply<Option<User>>)
    | LogoutOp(logoutReply: Reply<()>)
    | ResetOp

  function Apply(s: Session, op: Op): Session {
    match op
    case CheckOp(reply) => CheckAuthStatus(s, reply).session
    case LoginOp(e, p, lr, cr) => Login(s, e, p, lr, cr).session
    case LogoutOp(reply) => Logout(s, reply).session
    case ResetOp => ResetSession(s)
  }

  function Run(s: Session, ops: seq<Op>): Session
    decreases |ops|
  {
    if ops == [] then s else Run(Apply(s, ops[0]), ops[1..])
  }

  /** No operation sets `loading` back to true. */
  lemma {:induction false} LoadingMonotone(s: Session, ops: seq<Op>)
    requires !s.loading
    ensures !Run(s, ops).loading
    decreases |ops|
  {
    if ops != [] {
      LoadingMonotone(Apply(s, ops[0]), ops[1..]);
    }
  }

  /** What every reachable session satisfies: an unauthenticated session holds no user,
      and an authenticated one is past the loading phase. */
  ghost predicate Consistent(s: Session) {
    && (!s.isAuthenticated ==> s.user.None?)
    && (s.isAuthenticated ==> !s.loading)
  }

  /** Every session reachable from the initial state is consistent. */
  lemma {:induction false} RunKeepsConsistent(s: Session, ops: seq<Op>)
    requires Consistent(s)
    ensures Consistent(Run(s, ops))
    decreases |ops|
  {
    if ops != [] {
      RunKeepsConsistent(Apply(s, ops[0]), ops[1..]);
    }
  }

  lemma InitialConsistent()
    ensures Consistent(Initial) && Initial.loading && !Initial.isAuthenticated && Initial.user.None?
  {
  }

  /** The converse of the first half of `Consistent` fails: a successful "who am I" reply
      whose body has no `user` yields an authenticated session without a user. */
  lemma AuthenticatedWithoutUser()
    ensures var r := Mount(Ok(None)); r.session.isAuthenticated && r.session.user.None?
  {
  }
}
