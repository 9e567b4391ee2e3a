/** The session service told row by row: what each call does to a session row, to the counter and the
    lock of a user, and to a reset link, and which calls are accepted. */
module SessionFields {
  import opened Wrappers
  import opened Sequences
  import opened Sorting
  import opened Sessions
  import opened SessionProofs

  // ---- which calls are accepted ----

  predicate Known(a: Auth, user: Id) { user in a.users }

  /** A row with the token. */
  predicate RowOf(a: Auth, t: Token, s: Session) { s in a.sessions && s.token == t }

  /** The call is answered with success. */
  ghost predicate Accepted(a: Auth, call: Call) {
    match call
    case SignUp(user, _) => user !in a.users
    case LogIn(user, passwordOk, now) => LogsIn(a, user, passwordOk, now)
    case UseToken(t, now) =>
      exists s :: RowOf(a, t, s) && !s.revoked && s.expiresAt > now && s.user in a.users && a.users[s.user].active
    case UseReset(t, now) =>
      exists r :: r in a.resets && r.token == t && !r.used && r.expiresAt > now && r.user in a.users
    case EndSession(t, user) => exists s :: RowOf(a, t, s) && s.user == user
    case NewPassword(user, passwordOk, _) => user in a.users && passwordOk
    case Switch(user, _) => user in a.users
    case _ => true
  }

  /** Tokens are handed out by sign-up, login and refresh, and reset links to active users. */
  ghost predicate HandsOut(a: Auth, call: Call) {
    Accepted(a, call) && (call.SignUp? || call.LogIn? || call.UseToken?)
  }

  lemma {:induction false} TheRow(a: Auth, t: Token, s: Session)
    requires Inv(a) && RowOf(a, t, s)
    ensures IndexWhere(TokenIs(t), a.sessions) < |a.sessions| && a.sessions[IndexWhere(TokenIs(t), a.sessions)] == s
  {
    var i :| 0 <= i < |a.sessions| && a.sessions[i] == s;
    IndexWhereUnique(TokenIs(t), a.sessions, i);
  }

  lemma {:induction false} EndSessionAccepted(a: Auth, t: Token, user: Id)
    requires Inv(a)
    ensures RevokeSession(a, t, user).result.Success? <==> exists s :: RowOf(a, t, s) && s.user == user
  {
    var k := IndexWhere(TokenIs(t), a.sessions);
    if s :| RowOf(a, t, s) && s.user == user {
      TheRow(a, t, s);
    }
    if k < |a.sessions| {
      assert RowOf(a, t, a.sessions[k]);
    }
  }

  lemma {:induction false} AcceptedExact(a: Auth, call: Call)
    requires Inv(a) && ResetInv(a)
    ensures Perform(a, call).result.Success? <==> Accepted(a, call)
    ensures Perform(a, call).result.Success? && call.Forgot? ==>
      Perform(a, call).result.value ==
        (if call.user in a.users && a.users[call.user].active then Some(a.resetsIssued) else None)
    ensures Perform(a, call).result.Success? && !call.Forgot? ==>
      Perform(a, call).result.value == (if HandsOut(a, call) then Some(a.issued) else None)
  {
    match call
    case UseToken(t, now) => RefreshExact(a, t, now);
    case UseReset(t, now) => RedeemExact(a, t, now);
    case EndSession(t, user) => EndSessionAccepted(a, t, user);
    case _ =>
  }

  /** Sign-up conflicts with an account; a spent or foreign link, a wrong present password and an unknown
      account of an administrator are bad requests; everything else is unauthorised. */
  lemma {:induction false} RefusedExact(a: Auth, call: Call)
    requires Perform(a, call).result.Failure?
    ensures Perform(a, call).result.error ==
      match call
      case SignUp(_, _) => Conflict
      case UseReset(_, _) => BadRequest
      case NewPassword(user, _, _) => if user in a.users then BadRequest else Unauthorized
      case Switch(_, _) => BadRequest
      case _ => Unauthorized
  {
  }

  // ---- session rows ----

  predicate Crowded(a: Auth, user: Id, now: Time) { |Keep(Live(user, now), a.sessions)| > 1 }

  /** The newest live session of the user. */
  function Kept(a: Auth, user: Id, now: Time): Token {
    var current := Sort(NewestFirst(), Keep(Live(user, now), a.sessions));
    if current == [] then 0 else current[0].token
  }

  /** The sessions that a call ends. */
  ghost predicate Ends(a: Auth, call: Call, s: Session) {
    match call
    case UseToken(t, now) =>
      exists x :: RowOf(a, t, x) &&
                  if x.revoked then s.user == x.user
                  else x.expiresAt > now &&
                       (s == x || (s.user == x.user && !(x.user in a.users && a.users[x.user].active)))
    case UseReset(t, now) =>
      exists r :: r in a.resets && r.token == t && !r.used && r.expiresAt > now && r.user in a.users && s.user == r.user
    case LogOut(user) => s.user == user
    case LogOutWith(t) => exists x :: RowOf(a, t, x) && x.user == s.user
    case EndSession(t, user) => s.token == t && s.user == user
    case NewPassword(user, passwordOk, now) =>
      user in a.users && passwordOk && s.user == user && Crowded(a, user, now) && s.token != Kept(a, user, now)
    case EndSessions(tokens) => s.token in tokens
    case _ => false
  }

  /** The rows that a call deletes: a login those of its user that are revoked or expired, the nightly
      task those that expired before the cutoff. */
  predicate Deletes(a: Auth, call: Call, s: Session) {
    match call
    case LogIn(user, passwordOk, now) =>
      LogsIn(a, user, passwordOk, now) && s.user == user && (s.revoked || s.expiresAt <= now)
    case PurgeTask(cutoff) => s.expiresAt < cutoff
    case _ => false
  }

  /** What becomes of a row. */
  ghost predicate BecomesOf(a: Auth, call: Call, s: Session, b: Auth) {
    if Deletes(a, call, s) then NoRow(b, s.token)
    else s.(revoked := s.revoked || Ends(a, call, s)) in b.sessions
  }

  lemma {:induction false} KeptRow(a: Auth, b: Auth, p: Session -> bool, s: Session)
    requires Inv(a) && s in a.sessions && b.sessions == Keep(p, a.sessions) && b.issued == a.issued
    ensures if p(s) then s in b.sessions else NoRow(b, s.token)
  {
    KeepMember(p, a.sessions, s);
    forall x | x in b.sessions && !p(s) ensures x.token != s.token {
      KeepMember(p, a.sessions, x);
    }
  }

  lemma {:induction false} LoginRow(a: Auth, user: Id, passwordOk: bool, now: Time, s: Session)
    requires Inv(a) && s in a.sessions
    ensures BecomesOf(a, LogIn(user, passwordOk, now), s, Login(a, user, passwordOk, now).state)
  {
    if LogsIn(a, user, passwordOk, now) {
      KeptRow(a, a.(sessions := Keep(NotStale(user, now), a.sessions)), NotStale(user, now), s);
    }
  }

  lemma {:induction false} RefreshRow(a: Auth, t: Token, now: Time, s: Session)
    requires Inv(a) && s in a.sessions
    ensures BecomesOf(a, UseToken(t, now), s, Refresh(a, t, now).state)
  {
    var k, b := IndexWhere(TokenIs(t), a.sessions), Refresh(a, t, now).state;
    var i :| 0 <= i < |a.sessions| && a.sessions[i] == s;
    forall x | RowOf(a, t, x) ensures k < |a.sessions| && a.sessions[k] == x {
      TheRow(a, t, x);
    }
    if k < |a.sessions| {
      assert RowOf(a, t, a.sessions[k]);
      assert i != k ==> s.token != a.sessions[k].token;
      assert b.sessions[i] == s.(revoked := s.revoked || Ends(a, UseToken(t, now), s));
    } else {
      assert !Ends(a, UseToken(t, now), s);
    }
  }

  lemma {:induction false} TheLink(a: Auth, t: Token, r: Reset)
    requires ResetInv(a) && r in a.resets && r.token == t
    ensures IndexWhere(ResetIs(t), a.resets) < |a.resets| && a.resets[IndexWhere(ResetIs(t), a.resets)] == r
  {
    var i :| 0 <= i < |a.resets| && a.resets[i] == r;
    IndexWhereUnique(ResetIs(t), a.resets, i);
  }

  lemma {:induction false} ResetRow(a: Auth, t: Token, now: Time, s: Session)
    requires Inv(a) && ResetInv(a) && s in a.sessions
    ensures BecomesOf(a, UseReset(t, now), s, ResetPassword(a, t, now).state)
  {
    var k, b := IndexWhere(ResetIs(t), a.resets), ResetPassword(a, t, now).state;
    var i :| 0 <= i < |a.sessions| && a.sessions[i] == s;
    forall r | r in a.resets && r.token == t ensures k < |a.resets| && a.resets[k] == r {
      TheLink(a, t, r);
    }
    if k < |a.resets| {
      assert a.resets[k] in a.resets;
    }
    assert b.sessions[i] == s.(revoked := s.revoked || Ends(a, UseReset(t, now), s));
  }

  lemma {:induction false} EndedRow(a: Auth, call: Call, s: Session)
    requires Inv(a) && s in a.sessions && (call.LogOutWith? || call.EndSession?)
    ensures BecomesOf(a, call, s, Perform(a, call).state)
  {
    var k, b := IndexWhere(TokenIs(call.token), a.sessions), Perform(a, call).state;
    var i :| 0 <= i < |a.sessions| && a.sessions[i] == s;
    forall x | RowOf(a, call.token, x) ensures k < |a.sessions| && a.sessions[k] == x {
      TheRow(a, call.token, x);
    }
    assert s.token == call.token ==> RowOf(a, call.token, s);
    if k < |a.sessions| {
      assert RowOf(a, call.token, a.sessions[k]);
      assert i != k ==> s.token != a.sessions[k].token;
    }
    if call.EndSession? {
      assert b.sessions[i] == s.(revoked := s.revoked || Ends(a, call, s));
    } else {
      assert b.sessions[i] == s.(revoked := s.revoked || Ends(a, call, s));
    }
  }

  lemma {:induction false} AsMany(live: seq<Session>)
    ensures |Sort(NewestFirst(), live)| == |live|
  {
    SortSorted(NewestFirst(), live);
    assert |Sort(NewestFirst(), live)| == |multiset(live)| == |live|;
  }

  lemma {:induction false} PasswordRow(a: Auth, user: Id, passwordOk: bool, now: Time, s: Session)
    requires Inv(a) && s in a.sessions
    ensures BecomesOf(a, NewPassword(user, passwordOk, now), s, ChangePassword(a, user, passwordOk, now).state)
  {
    var b := ChangePassword(a, user, passwordOk, now).state;
    var i :| 0 <= i < |a.sessions| && a.sessions[i] == s;
    AsMany(Keep(Live(user, now), a.sessions));
    if user in a.users && passwordOk && Crowded(a, user, now) {
      assert b.sessions == RevokeAll(a.sessions, user, Some(Kept(a, user, now)));
    } else {
      assert b == a;
    }
    assert b.sessions[i] == s.(revoked := s.revoked || Ends(a, NewPassword(user, passwordOk, now), s));
  }

  /** Every row is deleted, ended or left alone, exactly as the call says. */
  lemma {:induction false} RowWritten(a: Auth, call: Call, s: Session)
    requires Inv(a) && ResetInv(a) && s in a.sessions
    ensures BecomesOf(a, call, s, Perform(a, call).state)
  {
    var b := Perform(a, call).state;
    var i :| 0 <= i < |a.sessions| && a.sessions[i] == s;
    match call
    case LogIn(user, passwordOk, now) => LoginRow(a, user, passwordOk, now, s);
    case UseToken(t, now) => RefreshRow(a, t, now, s);
    case UseReset(t, now) => ResetRow(a, t, now, s);
    case LogOutWith(_) => EndedRow(a, call, s);
    case EndSession(_, _) => EndedRow(a, call, s);
    case NewPassword(user, passwordOk, now) => PasswordRow(a, user, passwordOk, now, s);
    case PurgeTask(cutoff) => KeptRow(a, b, NotPurged(cutoff), s);
    case _ => assert b.sessions[i] == s.(revoked := s.revoked || Ends(a, call, s));
  }

  /** The user who gets a new session, when a call hands out a token. */
  ghost predicate NewRow(a: Auth, call: Call, s: Session) {
    && HandsOut(a, call)
    && s.token == a.issued && !s.revoked
    && match call
       case SignUp(user, now) => s.user == user && s.createdAt == now && s.expiresAt == now + 30 * 24 * 3600 * 1000
       case LogIn(user, _, now) => s.user == user && s.createdAt == now && s.expiresAt == now + 30 * 24 * 3600 * 1000
       case UseToken(t, now) =>
         (exists x :: RowOf(a, t, x) && x.user == s.user)
         && s.createdAt == now && s.expiresAt == now + 30 * 24 * 3600 * 1000
       case _ => false
  }

  /** A row with a new token is there exactly when the call hands one out: a session of 30 days. */
  lemma {:induction false} RowAdded(a: Auth, call: Call)
    requires Inv(a) && ResetInv(a)
    ensures var b := Perform(a, call).state;
      if HandsOut(a, call) then exists s :: s in b.sessions && NewRow(a, call, s)
      else forall s :: s in b.sessions ==> s.token < a.issued
  {
    var b := Perform(a, call).state;
    AcceptedExact(a, call);
    CallStep(a, call);
    if HandsOut(a, call) {
      var s := b.sessions[|b.sessions| - 1];
      if call.UseToken? {
        assert RowOf(a, call.token, a.sessions[IndexWhere(TokenIs(call.token), a.sessions)]);
      }
      assert s in b.sessions && NewRow(a, call, s);
    } else {
      assert b.issued == a.issued;
    }
  }

  // ---- users and links ----

  ghost predicate Clears(a: Auth, call: Call, user: Id) {
    || (call.LogIn? && call.user == user && LogsIn(a, user, call.passwordOk, call.now))
    || (call.UseReset? && exists r :: r in a.resets && r.token == call.reset && !r.used && r.expiresAt > call.now
                                      && r.user == user)
  }

  predicate Fails(a: Auth, call: Call, user: Id) {
    call.LogIn? && call.user == user && user in a.users && !Locked(a.users[user], call.now)
    && !(a.users[user].active && call.passwordOk)
  }

  /** A login counts its wrong password on what was on record; a right one and a redeemed link clear
      the record; only an administrator switches the account. */
  lemma {:induction false} UserWritten(a: Auth, call: Call, user: Id)
    requires Inv(a) && ResetInv(a) && user in a.users
    ensures var b := Perform(a, call).state; var u := a.users[user];
      && user in b.users
      && b.users[user].active == (if call.Switch? && call.user == user then call.active else u.active)
      && b.users[user].failedAttempts ==
           (if Clears(a, call, user) then 0
            else if Fails(a, call, user) then u.failedAttempts + 1
            else u.failedAttempts)
      && b.users[user].lockedUntil ==
           (if Clears(a, call, user) then None
            else if Fails(a, call, user) && u.failedAttempts + 1 >= 5 then Some(call.now + 15 * 60 * 1000)
            else if Fails(a, call, user) && u.active then None
            else u.lockedUntil)
  {
    if call.UseReset? {
      var k := IndexWhere(ResetIs(call.reset), a.resets);
      forall r | r in a.resets && r.token == call.reset ensures k < |a.resets| && a.resets[k] == r {
        TheLink(a, call.reset, r);
      }
      if k < |a.resets| {
        assert a.resets[k] in a.resets;
      }
    }
  }

  /** Users are added by sign-up alone. */
  lemma {:induction false} UsersAdded(a: Auth, call: Call)
    ensures Perform(a, call).state.users.Keys == a.users.Keys + if call.SignUp? then {call.user} else {}
    ensures call.SignUp? && call.user !in a.users ==> Perform(a, call).state.users[call.user] == User(true, 0, None)
  {
  }

  /** A link is spent by its use and by a new request of its active user, while it has not expired. */
  lemma {:induction false} LinkWritten(a: Auth, call: Call, i: nat)
    requires ResetInv(a) && i < |a.resets|
    ensures var b, r := Perform(a, call).state, a.resets[i];
      && i < |b.resets|
      && b.resets[i] == r.(used := r.used
           || (call.UseReset? && r.token == call.reset && r.expiresAt > call.now && r.user in a.users)
           || (call.Forgot? && r.user == call.user && r.user in a.users && a.users[r.user].active
               && r.expiresAt > call.now))
  {
    if call.UseReset? {
      if a.resets[i].token == call.reset {
        TheLink(a, call.reset, a.resets[i]);
      }
    }
  }

  /** A new link is good for an hour. */
  lemma {:induction false} LinkAdded(a: Auth, call: Call)
    requires ResetInv(a)
    ensures var b := Perform(a, call).state;
      if call.Forgot? && call.user in a.users && a.users[call.user].active
      then b.resets[|a.resets|..] == [Reset(a.resetsIssued, call.user, call.now + 3600 * 1000, false)]
      else |b.resets| == |a.resets|
  {
  }

  // ---- ending one session ----

  /** A user ends an own session, and only that one; its token is accepted in no later run. */
  lemma {:induction false} EndSessionExact(a: Auth, t: Token, user: Id, calls: seq<Call>)
    requires Inv(a) && ResetInv(a)
    ensures var reply := Perform(a, EndSession(t, user));
      && (reply.result.Success? <==> exists s :: RowOf(a, t, s) && s.user == user)
      && (reply.result.Success? ==> Acceptances(reply.state, calls, t) == 0)
      && (forall s :: s in a.sessions && s.token != t ==> s in reply.state.sessions)
  {
    var reply := Perform(a, EndSession(t, user));
    EndSessionAccepted(a, t, user);
    forall s | s in a.sessions && s.token != t ensures s in reply.state.sessions {
      RowWritten(a, EndSession(t, user), s);
    }
    if s :| RowOf(a, t, s) && s.user == user {
      RowWritten(a, EndSession(t, user), s);
      CallStep(a, EndSession(t, user));
      forall x | x in reply.state.sessions && x.token == t ensures x.revoked {
        var ended := s.(revoked := true);
        var i, j :| 0 <= i < |reply.state.sessions| && reply.state.sessions[i] == x
                    && 0 <= j < |reply.state.sessions| && reply.state.sessions[j] == ended;
      }
      DeadForever(reply.state, calls, t);
    }
  }
}
