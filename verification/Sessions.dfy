/** Login, refresh-token rotation and password changes as a state machine over the session rows. A
    refused call may still write (a failed login is counted, a replayed token revokes sessions), so
    each call returns the new state together with its result. Tokens are numbered in order of issue;
    looking a token up by its hash is looking up its number. */
module Sessions {
  import opened Wrappers
  import opened Sequences
  import opened Sorting

  type Id = string
  type Time = int
  type Token = nat

  datatype User = User(active: bool, failedAttempts: nat, lockedUntil: Option<Time>)

  datatype Session = Session(token: Token, user: Id, expiresAt: Time, revoked: bool, createdAt: Time)

  datatype Reset = Reset(token: Token, user: Id, expiresAt: Time, used: bool)

  /** `issued` and `resetsIssued` number the tokens handed out so far. */
  datatype Auth = Auth(users: map<Id, User>, sessions: seq<Session>, issued: nat, resets: seq<Reset>, resetsIssued: nat)

  datatype Error = Unauthorized | BadRequest | Conflict

  datatype Reply = Reply(state: Auth, result: Result<Option<Token>, Error>)

  const MAX_LOGIN_ATTEMPTS: nat := 5
  const MINUTE: int := 60_000
  const LOCKOUT: int := 15 * MINUTE
  const RESET_LIFETIME: int := 60 * MINUTE
  const REFRESH_LIFETIME: int := 30 * 24 * 60 * MINUTE

  // ---- rows ----

  function TokenIs(t: Token): Session -> bool { (s: Session) => s.token == t }

  function ResetIs(t: Token): Reset -> bool { (r: Reset) => r.token == t }

  /** What login deletes: the user's revoked or expired sessions. */
  function NotStale(user: Id, now: Time): Session -> bool {
    (s: Session) => !(s.user == user && (s.revoked || s.expiresAt <= now))
  }

  function Live(user: Id, now: Time): Session -> bool {
    (s: Session) => s.user == user && !s.revoked && s.expiresAt > now
  }

  function NotPurged(cutoff: Time): Session -> bool { (s: Session) => s.expiresAt >= cutoff }

  function NewestFirst(): Session -> real { (s: Session) => -(s.createdAt as real) }

  /** `updateMany`: revoke the user's sessions, all or all but one. */
  function RevokeAll(sessions: seq<Session>, user: Id, keep: Option<Token>): (r: seq<Session>)
    ensures |r| == |sessions|
    ensures forall i :: 0 <= i < |r| ==>
      r[i] == if sessions[i].user == user && Some(sessions[i].token) != keep
              then sessions[i].(revoked := true) else sessions[i]
  {
    seq(|sessions|, i requires 0 <= i < |sessions| =>
      if sessions[i].user == user && Some(sessions[i].token) != keep then sessions[i].(revoked := true)
      else sessions[i])
  }

  function Issue(a: Auth, user: Id, now: Time): Auth {
    a.(sessions := a.sessions + [Session(a.issued, user, now + REFRESH_LIFETIME, false, now)], issued := a.issued + 1)
  }

  predicate Locked(u: User, now: Time) { u.lockedUntil.Some? && u.lockedUntil.value > now }

  // ---- calls ----

  function Signup(a: Auth, user: Id, now: Time): Reply {
    if user in a.users then Reply(a, Failure(Conflict))
    else Reply(Issue(a.(users := a.users[user := User(true, 0, None)]), user, now), Success(Some(a.issued)))
  }

  /** The user after a wrong password, counted from the record read before validation. */
  function Counted(u: User, now: Time): User {
    var attempts := u.failedAttempts + 1;
    var lockedUntil := if u.active && u.lockedUntil.Some? then None else u.lockedUntil;
    u.(failedAttempts := attempts,
       lockedUntil := if attempts >= MAX_LOGIN_ATTEMPTS then Some(now + LOCKOUT) else lockedUntil)
  }

  function Login(a: Auth, user: Id, passwordOk: bool, now: Time): Reply {
    if user !in a.users then Reply(a, Failure(Unauthorized))
    else
      var u := a.users[user];
      if Locked(u, now) then Reply(a, Failure(Unauthorized))
      else if !u.active || !passwordOk then Reply(a.(users := a.users[user := Counted(u, now)]), Failure(Unauthorized))
      else
        var cleared := a.(users := a.users[user := u.(failedAttempts := 0, lockedUntil := None)],
                          sessions := Keep(NotStale(user, now), a.sessions));
        Reply(Issue(cleared, user, now), Success(Some(a.issued)))
  }

  function Refresh(a: Auth, t: Token, now: Time): Reply {
    var k := IndexWhere(TokenIs(t), a.sessions);
    if k == |a.sessions| then Reply(a, Failure(Unauthorized))
    else
      var matched := a.sessions[k];
      if matched.revoked then Reply(a.(sessions := RevokeAll(a.sessions, matched.user, None)), Failure(Unauthorized))
      else if matched.expiresAt <= now then Reply(a, Failure(Unauthorized))
      else
        var rotated := a.(sessions := a.sessions[k := matched.(revoked := true)]);
        if matched.user !in a.users || !a.users[matched.user].active then
          Reply(rotated.(sessions := RevokeAll(rotated.sessions, matched.user, None)), Failure(Unauthorized))
        else Reply(Issue(rotated, matched.user, now), Success(Some(a.issued)))
  }

  /** Spend the user's outstanding reset tokens. */
  function SpendAll(resets: seq<Reset>, user: Id, now: Time): (r: seq<Reset>)
    ensures |r| == |resets|
    ensures forall i :: 0 <= i < |r| ==>
      r[i] == if resets[i].user == user && resets[i].expiresAt > now then resets[i].(used := true) else resets[i]
  {
    seq(|resets|, i requires 0 <= i < |resets| =>
      if resets[i].user == user && resets[i].expiresAt > now then resets[i].(used := true) else resets[i])
  }

  function ForgotPassword(a: Auth, user: Id, now: Time): Reply {
    if user !in a.users || !a.users[user].active then Reply(a, Success(None))
    else
      Reply(a.(resets := SpendAll(a.resets, user, now) + [Reset(a.resetsIssued, user, now + RESET_LIFETIME, false)],
               resetsIssued := a.resetsIssued + 1), Success(Some(a.resetsIssued)))
  }

  function ResetPassword(a: Auth, t: Token, now: Time): Reply {
    var k := IndexWhere(ResetIs(t), a.resets);
    if k == |a.resets| || a.resets[k].used || a.resets[k].expiresAt <= now || a.resets[k].user !in a.users then
      Reply(a, Failure(BadRequest))
    else
      var user := a.resets[k].user;
      Reply(a.(users := a.users[user := a.users[user].(failedAttempts := 0, lockedUntil := None)],
               resets := a.resets[k := a.resets[k].(used := true)],
               sessions := RevokeAll(a.sessions, user, None)), Success(None))
  }

  function Logout(a: Auth, user: Id): Reply {
    Reply(a.(sessions := RevokeAll(a.sessions, user, None)), Success(None))
  }

  function LogoutToken(a: Auth, t: Token): Reply {
    var k := IndexWhere(TokenIs(t), a.sessions);
    if k == |a.sessions| then Reply(a, Success(None)) else Logout(a, a.sessions[k].user)
  }

  function RevokeSession(a: Auth, t: Token, user: Id): Reply {
    var k := IndexWhere(TokenIs(t), a.sessions);
    if k == |a.sessions| || a.sessions[k].user != user then Reply(a, Failure(Unauthorized))
    else Reply(a.(sessions := a.sessions[k := a.sessions[k].(revoked := true)]), Success(None))
  }

  /** When several sessions are live, all but the newest are revoked. */
  function ChangePassword(a: Auth, user: Id, passwordOk: bool, now: Time): Reply {
    var current := Sort(NewestFirst(), Keep(Live(user, now), a.sessions));
    if user !in a.users then Reply(a, Failure(Unauthorized))
    else if !passwordOk then Reply(a, Failure(BadRequest))
    else if |current| > 1 then Reply(a.(sessions := RevokeAll(a.sessions, user, Some(current[0].token))), Success(None))
    else Reply(a, Success(None))
  }

  /** An administrator switches an account on or off. */
  function SetActive(a: Auth, user: Id, active: bool): Reply {
    if user !in a.users then Reply(a, Failure(BadRequest))
    else Reply(a.(users := a.users[user := a.users[user].(active := active)]), Success(None))
  }

  /** `updateMany` by an administrator, who ends the sessions of a user or of a workshop. */
  function RevokeThese(sessions: seq<Session>, tokens: set<Token>): (r: seq<Session>)
    ensures |r| == |sessions|
    ensures forall i :: 0 <= i < |r| ==>
      r[i] == if sessions[i].token in tokens then sessions[i].(revoked := true) else sessions[i]
  {
    seq(|sessions|, i requires 0 <= i < |sessions| =>
      if sessions[i].token in tokens then sessions[i].(revoked := true) else sessions[i])
  }

  function Administer(a: Auth, tokens: set<Token>): Reply {
    Reply(a.(sessions := RevokeThese(a.sessions, tokens)), Success(None))
  }

  /** The nightly task deletes sessions that expired before the cutoff. */
  function Purge(a: Auth, cutoff: Time): Reply {
    Reply(a.(sessions := Keep(NotPurged(cutoff), a.sessions)), Success(None))
  }

  // ---- runs ----

  datatype Call =
    | SignUp(user: Id, now: Time)
    | LogIn(user: Id, passwordOk: bool, now: Time)
    | UseToken(token: Token, now: Time)
    | Forgot(user: Id, now: Time)
    | UseReset(reset: Token, now: Time)
    | LogOut(user: Id)
    | LogOutWith(token: Token)
    | EndSession(token: Token, user: Id)
    | NewPassword(user: Id, passwordOk: bool, now: Time)
    | Switch(user: Id, active: bool)
    | EndSessions(tokens: set<Token>)
    | PurgeTask(cutoff: Time)

  function Perform(a: Auth, call: Call): Reply {
    match call
    case SignUp(user, now) => Signup(a, user, now)
    case LogIn(user, passwordOk, now) => Login(a, user, passwordOk, now)
    case UseToken(token, now) => Refresh(a, token, now)
    case Forgot(user, now) => ForgotPassword(a, user, now)
    case UseReset(reset, now) => ResetPassword(a, reset, now)
    case LogOut(user) => Logout(a, user)
    case LogOutWith(token) => LogoutToken(a, token)
    case EndSession(token, user) => RevokeSession(a, token, user)
    case NewPassword(user, passwordOk, now) => ChangePassword(a, user, passwordOk, now)
    case Switch(user, active) => SetActive(a, user, active)
    case EndSessions(tokens) => Administer(a, tokens)
    case PurgeTask(cutoff) => Purge(a, cutoff)
  }

  function Run(a: Auth, calls: seq<Call>): Auth
    decreases calls
  {
    if calls == [] then a else Run(Perform(a, calls[0]).state, calls[1..])
  }
}
