/** Refresh tokens are accepted at most once, sessions are conserved by rotation, and whatever ends
    a user's sessions ends them for good. */
module SessionProofs {
  import opened Wrappers
  import opened Sequences
  import opened Sorting
  import opened Sessions

  // ---- the rows ----

  /** Session tokens are distinct and have been issued. */
  ghost predicate Inv(a: Auth) {
    && (forall i, j :: 0 <= i < j < |a.sessions| ==> a.sessions[i].token != a.sessions[j].token)
    && (forall s :: s in a.sessions ==> s.token < a.issued)
  }

  /** A token that no call will ever accept again: issued, and not the token of an unrevoked row. */
  ghost predicate Dead(a: Auth, t: Token) {
    t < a.issued && forall s :: s in a.sessions && s.token == t ==> s.revoked
  }

  predicate FromOld(a: Auth, s: Session) {
    s in a.sessions || (s.revoked && (exists live :: live in a.sessions && s == live.(revoked := true)))
  }

  /** How the rows change: old rows are kept, revoked or dropped, and at most one fresh one is added. */
  ghost predicate RowsStep(a: Auth, b: Auth) {
    && (b.issued == a.issued || b.issued == a.issued + 1)
    && (forall s :: s in b.sessions ==> FromOld(a, s) || (b.issued == a.issued + 1 && s.token == a.issued))
    && (forall i, j :: 0 <= i < j < |b.sessions| ==> b.sessions[i].token != b.sessions[j].token)
  }

  lemma {:induction false} RevokedRows(a: Auth, b: Auth, user: Id, keep: Option<Token>)
    requires Inv(a) && b.sessions == RevokeAll(a.sessions, user, keep) && b.issued == a.issued
    ensures RowsStep(a, b)
    ensures keep == None ==> forall s :: s in a.sessions && s.user == user ==> Dead(b, s.token)
  {
  }

  lemma {:induction false} KeptDistinct(p: Session -> bool, sessions: seq<Session>)
    requires forall i, j :: 0 <= i < j < |sessions| ==> sessions[i].token != sessions[j].token
    ensures var r := Keep(p, sessions); forall i, j :: 0 <= i < j < |r| ==> r[i].token != r[j].token
  {
    if sessions == [] {
    } else {
      var rest := sessions[1..];
      KeptDistinct(p, rest);
      var kept := Keep(p, rest);
      forall i | 0 <= i < |kept| ensures kept[i].token != sessions[0].token {
        KeepMember(p, rest, kept[i]);
        var j :| 0 <= j < |rest| && rest[j] == kept[i];
        assert sessions[j + 1] == kept[i];
      }
    }
  }

  lemma {:induction false} KeptRows(a: Auth, b: Auth, p: Session -> bool)
    requires Inv(a) && b.sessions == Keep(p, a.sessions) && b.issued == a.issued
    ensures RowsStep(a, b)
  {
    forall s | s in b.sessions ensures s in a.sessions {
      KeepMember(p, a.sessions, s);
    }
    KeptDistinct(p, a.sessions);
  }

  lemma {:induction false} LoginStep(a: Auth, user: Id, passwordOk: bool, now: Time)
    requires Inv(a)
    ensures RowsStep(a, Login(a, user, passwordOk, now).state)
  {
    if Login(a, user, passwordOk, now).result.Success? {
      var cleared := a.(users := a.users[user := a.users[user].(failedAttempts := 0, lockedUntil := None)],
                        sessions := Keep(NotStale(user, now), a.sessions));
      KeptRows(a, cleared, NotStale(user, now));
    } else {
    }
  }

  lemma {:induction false} RotatedRows(a: Auth, b: Auth, k: nat, added: Session)
    requires Inv(a) && k < |a.sessions| && b.issued == a.issued + 1 && added.token == a.issued
    requires b.sessions == a.sessions[k := a.sessions[k].(revoked := true)] + [added]
    ensures RowsStep(a, b) && Dead(b, a.sessions[k].token)
  {
    assert a.sessions[k] in a.sessions;
    forall i | 0 <= i < |b.sessions|
      ensures if i < |a.sessions| then FromOld(a, b.sessions[i]) && b.sessions[i].token == a.sessions[i].token
              else b.sessions[i] == added
    {
      assert i < |a.sessions| ==> a.sessions[i] in a.sessions;
    }
    forall i, j | 0 <= i < j < |b.sessions| ensures b.sessions[i].token != b.sessions[j].token {
      assert a.sessions[i] in a.sessions;
    }
  }

  lemma {:induction false} RefreshStep(a: Auth, t: Token, now: Time)
    requires Inv(a)
    ensures RowsStep(a, Refresh(a, t, now).state)
    ensures Refresh(a, t, now).result.Success? ==> !Dead(a, t) && t < a.issued && Dead(Refresh(a, t, now).state, t)
  {
    var k, b := IndexWhere(TokenIs(t), a.sessions), Refresh(a, t, now).state;
    if k < |a.sessions| {
      var matched := a.sessions[k];
      assert matched in a.sessions;
      if Refresh(a, t, now).result.Success? {
        RotatedRows(a, b, k, Session(a.issued, matched.user, now + REFRESH_LIFETIME, false, now));
      } else if matched.revoked || matched.expiresAt > now {
        assert b.sessions == RevokeAll(a.sessions, matched.user, None);
        RevokedRows(a, b, matched.user, None);
      }
    }
  }

  lemma {:induction false} ChangePasswordStep(a: Auth, user: Id, passwordOk: bool, now: Time)
    requires Inv(a)
    ensures RowsStep(a, ChangePassword(a, user, passwordOk, now).state)
  {
  }

  lemma {:induction false} CallStep(a: Auth, call: Call)
    requires Inv(a)
    ensures RowsStep(a, Perform(a, call).state)
  {
    var b := Perform(a, call).state;
    match call
    case SignUp(user, now) =>
    case LogIn(user, passwordOk, now) => LoginStep(a, user, passwordOk, now);
    case UseToken(token, now) => RefreshStep(a, token, now);
    case Forgot(user, now) =>
    case UseReset(reset, now) =>
      if Perform(a, call).result.Success? {
        RevokedRows(a, b, a.resets[IndexWhere(ResetIs(reset), a.resets)].user, None);
      }
    case LogOut(user) => RevokedRows(a, b, user, None);
    case LogOutWith(token) =>
      if IndexWhere(TokenIs(token), a.sessions) < |a.sessions| {
        RevokedRows(a, b, a.sessions[IndexWhere(TokenIs(token), a.sessions)].user, None);
      }
    case EndSession(token, user) =>
    case NewPassword(user, passwordOk, now) => ChangePasswordStep(a, user, passwordOk, now);
    case Switch(user, active) =>
    case EndSessions(tokens) =>
    case PurgeTask(cutoff) => KeptRows(a, b, NotPurged(cutoff));
  }

  // ---- what is accepted ----

  /** A refresh succeeds exactly for the token of a session that is neither revoked nor expired and
      whose user is active; it then hands out a token never issued before. */
  lemma {:induction false} RefreshExact(a: Auth, t: Token, now: Time)
    requires Inv(a)
    ensures Refresh(a, t, now).result.Success? <==>
      exists s :: s in a.sessions && s.token == t && !s.revoked && s.expiresAt > now && s.user in a.users &&
        a.users[s.user].active
    ensures Refresh(a, t, now).result.Success? ==> Refresh(a, t, now).result.value == Some(a.issued)
  {
    var k := IndexWhere(TokenIs(t), a.sessions);
    IndexWhereFirst(TokenIs(t), a.sessions);
    if s :| s in a.sessions && s.token == t {
      var i :| 0 <= i < |a.sessions| && a.sessions[i] == s;
      IndexWhereUnique(TokenIs(t), a.sessions, i);
    }
    if k < |a.sessions| {
      assert a.sessions[k] in a.sessions;
    }
  }

  // ---- single use ----

  predicate Accepts(a: Auth, call: Call, t: Token) {
    call.UseToken? && call.token == t && Perform(a, call).result.Success?
  }

  /** How often the run accepts the token. */
  function Acceptances(a: Auth, calls: seq<Call>, t: Token): nat
    decreases calls
  {
    if calls == [] then 0
    else
      var rest := Acceptances(Perform(a, calls[0]).state, calls[1..], t);
      if Accepts(a, calls[0], t) then 1 + rest else rest
  }

  /** A dead token is never accepted again. */
  lemma {:induction false} DeadForever(a: Auth, calls: seq<Call>, t: Token)
    requires Inv(a) && Dead(a, t)
    ensures Acceptances(a, calls, t) == 0 && Dead(Run(a, calls), t)
    decreases calls
  {
    if calls == [] {
    } else {
      var next := Perform(a, calls[0]).state;
      CallStep(a, calls[0]);
      if Accepts(a, calls[0], t) {
        RefreshStep(a, t, calls[0].now);
      }
      DeadForever(next, calls[1..], t);
    }
  }

  /** In every run a refresh token is accepted at most once. */
  lemma {:induction false} SingleUse(a: Auth, calls: seq<Call>, t: Token)
    requires Inv(a)
    ensures Acceptances(a, calls, t) <= 1
    decreases calls
  {
    if calls == [] {
    } else {
      var next := Perform(a, calls[0]).state;
      CallStep(a, calls[0]);
      if Accepts(a, calls[0], t) {
        RefreshStep(a, t, calls[0].now);
        DeadForever(next, calls[1..], t);
      } else {
        SingleUse(next, calls[1..], t);
      }
    }
  }

  lemma {:induction false} RunInv(a: Auth, calls: seq<Call>)
    requires Inv(a)
    ensures Inv(Run(a, calls))
    decreases calls
  {
    if calls == [] {
    } else {
      CallStep(a, calls[0]);
      RunInv(Perform(a, calls[0]).state, calls[1..]);
    }
  }

  // ---- conservation ----

  function LiveCount(a: Auth, user: Id, now: Time): nat { |Keep(Live(user, now), a.sessions)| }

  lemma {:induction false} RotateOne(sessions: seq<Session>, k: nat, user: Id, now: Time)
    requires k < |sessions| && Live(sessions[k].user, now)(sessions[k])
    ensures |Keep(Live(user, now), sessions[k := sessions[k].(revoked := true)])| ==
      |Keep(Live(user, now), sessions)| - if user == sessions[k].user then 1 else 0
  {
    var p, before, after := Live(user, now), sessions[..k], sessions[k + 1..];
    var revoked := sessions[k].(revoked := true);
    assert sessions == before + ([sessions[k]] + after);
    assert sessions[k := revoked] == before + ([revoked] + after);
    KeepAppend(p, before, [sessions[k]] + after);
    KeepAppend(p, before, [revoked] + after);
    KeepCons(p, sessions[k], after);
    KeepCons(p, revoked, after);
  }

  /** A successful refresh replaces one live session by another: every user's count stays. */
  lemma {:induction false} RefreshConserves(a: Auth, t: Token, now: Time, user: Id)
    requires Inv(a) && Refresh(a, t, now).result.Success?
    ensures LiveCount(Refresh(a, t, now).state, user, now) == LiveCount(a, user, now)
  {
    var k := IndexWhere(TokenIs(t), a.sessions);
    var matched := a.sessions[k];
    var rotated := a.sessions[k := matched.(revoked := true)];
    RotateOne(a.sessions, k, user, now);
    var added := Session(a.issued, matched.user, now + REFRESH_LIFETIME, false, now);
    KeepAppend(Live(user, now), rotated, [added]);
    KeepCons(Live(user, now), added, []);
    assert [added] + [] == [added];
  }

  // ---- ending sessions ----

  lemma {:induction false} KeepOne(p: Session -> bool, s: seq<Session>, k: nat)
    requires k < |s| && forall i :: 0 <= i < |s| && i != k ==> !p(s[i])
    ensures |Keep(p, s)| <= 1
  {
    if k == 0 {
      assert forall x :: x in s[1..] ==> !p(x);
      KeepNone(p, s[1..]);
    } else {
      KeepOne(p, s[1..], k - 1);
    }
  }

  lemma {:induction false} OneKept(sessions: seq<Session>, user: Id, now: Time, keep: Token)
    requires forall i, j :: 0 <= i < j < |sessions| ==> sessions[i].token != sessions[j].token
    ensures |Keep(Live(user, now), RevokeAll(sessions, user, Some(keep)))| <= 1
  {
    var p, r := Live(user, now), RevokeAll(sessions, user, Some(keep));
    var k := IndexWhere(p, r);
    IndexWhereFirst(p, r);
    if k < |r| {
      assert sessions[k].token == keep;
      forall i | 0 <= i < |r| && i != k ensures !p(r[i]) {
        assert sessions[i].token != sessions[k].token;
      }
      KeepOne(p, r, k);
    } else {
      assert forall s :: s in r ==> !p(s);
      KeepNone(p, r);
    }
  }

  /** After a password change at most one session of the user is live. */
  lemma {:induction false} ChangePasswordLeavesOne(a: Auth, user: Id, now: Time)
    requires Inv(a) && ChangePassword(a, user, true, now).result.Success?
    ensures LiveCount(ChangePassword(a, user, true, now).state, user, now) <= 1
  {
    var live := Keep(Live(user, now), a.sessions);
    SortSorted(NewestFirst(), live);
    assert |Sort(NewestFirst(), live)| == |multiset(live)| == |live|;
    if |live| > 1 {
      var keep := Sort(NewestFirst(), live)[0].token;
      var b := ChangePassword(a, user, true, now).state;
      OneKept(a.sessions, user, now, keep);
    }
  }

  /** The newest live session is the one that is kept. */
  lemma {:induction false} ChangePasswordKeepsNewest(a: Auth, user: Id, now: Time, i: nat)
    requires Inv(a) && ChangePassword(a, user, true, now).result.Success?
    requires i < |a.sessions| && Live(user, now)(a.sessions[i])
    requires forall s :: s in a.sessions && Live(user, now)(s) && s != a.sessions[i] ==>
      s.createdAt < a.sessions[i].createdAt
    ensures ChangePassword(a, user, true, now).state.sessions[i] == a.sessions[i]
  {
    var live := Keep(Live(user, now), a.sessions);
    var current := Sort(NewestFirst(), live);
    SortSorted(NewestFirst(), live);
    KeepMember(Live(user, now), a.sessions, a.sessions[i]);
    assert a.sessions[i] in multiset(live) && a.sessions[i] in current;
    var j :| 0 <= j < |current| && current[j] == a.sessions[i];
    assert current[0] in multiset(live);
    KeepMember(Live(user, now), a.sessions, current[0]);
    assert NewestFirst()(current[0]) <= NewestFirst()(current[j]);
  }

  /** The calls that end all sessions of a user: logout, logout by token, a password reset, and the
      use of a token that was already rotated or revoked. */
  predicate EndsAll(a: Auth, call: Call, user: Id) {
    match call
    case LogOut(u) => u == user
    case LogOutWith(t) => var k := IndexWhere(TokenIs(t), a.sessions); k < |a.sessions| && a.sessions[k].user == user
    case UseReset(t, now) => Perform(a, call).result.Success? && a.resets[IndexWhere(ResetIs(t), a.resets)].user == user
    case UseToken(t, now) =>
      var k := IndexWhere(TokenIs(t), a.sessions);
      k < |a.sessions| && a.sessions[k].user == user && a.sessions[k].revoked
    case _ => false
  }

  /** After such a call no token of the user's earlier sessions is ever accepted. */
  lemma {:induction false} EndsForGood(a: Auth, call: Call, user: Id, s: Session, calls: seq<Call>)
    requires Inv(a) && EndsAll(a, call, user) && s in a.sessions && s.user == user
    ensures Acceptances(Perform(a, call).state, calls, s.token) == 0
  {
    var b := Perform(a, call).state;
    RevokedRows(a, b, user, None);
    DeadForever(b, calls, s.token);
  }

  // ---- replayed tokens ----

  /** A login that goes through. */
  predicate LogsIn(a: Auth, user: Id, passwordOk: bool, now: Time) {
    user in a.users && !Locked(a.users[user], now) && a.users[user].active && passwordOk
  }

  /** The calls that delete a revoked row: a login of its user, or a purge past its expiry. */
  predicate Drops(a: Auth, call: Call, s: Session) {
    match call
    case LogIn(user, passwordOk, now) => user == s.user && LogsIn(a, user, passwordOk, now)
    case PurgeTask(cutoff) => s.expiresAt < cutoff
    case _ => false
  }

  predicate Dropped(a: Auth, calls: seq<Call>, s: Session)
    decreases calls
  {
    calls != [] && (Drops(a, calls[0], s) || Dropped(Perform(a, calls[0]).state, calls[1..], s))
  }

  ghost predicate NoRow(a: Auth, t: Token) { t < a.issued && forall s :: s in a.sessions ==> s.token != t }

  lemma {:induction false} RevokedRowStep(a: Auth, call: Call, s: Session)
    requires Inv(a) && s in a.sessions && s.revoked
    ensures var b := Perform(a, call).state; if Drops(a, call, s) then NoRow(b, s.token) else s in b.sessions
  {
    var b := Perform(a, call).state;
    var i :| 0 <= i < |a.sessions| && a.sessions[i] == s;
    match call
    case LogIn(user, passwordOk, now) =>
      if LogsIn(a, user, passwordOk, now) {
        forall x ensures x in Keep(NotStale(user, now), a.sessions) <==> x in a.sessions && NotStale(user, now)(x) {
          KeepMember(NotStale(user, now), a.sessions, x);
        }
      }
    case PurgeTask(cutoff) =>
      forall x ensures x in b.sessions <==> x in a.sessions && NotPurged(cutoff)(x) {
        KeepMember(NotPurged(cutoff), a.sessions, x);
      }
    case _ => assert b.sessions[i] == s;
  }

  lemma {:induction false} NoRowStays(a: Auth, call: Call, t: Token)
    requires Inv(a) && NoRow(a, t)
    ensures NoRow(Perform(a, call).state, t)
  {
    CallStep(a, call);
  }

  lemma {:induction false} NoRowForever(a: Auth, calls: seq<Call>, t: Token)
    requires Inv(a) && NoRow(a, t)
    ensures NoRow(Run(a, calls), t)
    decreases calls
  {
    if calls == [] {
    } else {
      CallStep(a, calls[0]);
      NoRowStays(a, calls[0], t);
      NoRowForever(Perform(a, calls[0]).state, calls[1..], t);
    }
  }

  /** A revoked row is still there after a run exactly when no call dropped it. */
  lemma {:induction false} RevokedRowRun(a: Auth, calls: seq<Call>, s: Session)
    requires Inv(a) && s in a.sessions && s.revoked
    ensures if Dropped(a, calls, s) then NoRow(Run(a, calls), s.token) else s in Run(a, calls).sessions
    decreases calls
  {
    if calls == [] {
    } else {
      var next := Perform(a, calls[0]).state;
      CallStep(a, calls[0]);
      RevokedRowStep(a, calls[0], s);
      if Drops(a, calls[0], s) {
        NoRowForever(next, calls[1..], s.token);
      } else {
        RevokedRowRun(next, calls[1..], s);
      }
    }
  }

  lemma {:induction false} ReplayFindsNothing(c: Auth, t: Token, now: Time)
    requires NoRow(c, t)
    ensures IndexWhere(TokenIs(t), c.sessions) == |c.sessions|
    ensures Perform(c, UseToken(t, now)) == Reply(c, Failure(Unauthorized))
  {
    IndexWhereNone(TokenIs(t), c.sessions);
  }

  lemma {:induction false} ReplayFindsRow(c: Auth, row: Session, now: Time)
    requires Inv(c) && row in c.sessions && row.revoked
    ensures EndsAll(c, UseToken(row.token, now), row.user)
    ensures LiveCount(Perform(c, UseToken(row.token, now)).state, row.user, now) == 0
  {
    var i :| 0 <= i < |c.sessions| && c.sessions[i] == row;
    IndexWhereUnique(TokenIs(row.token), c.sessions, i);
    KeepNone(Live(row.user, now), RevokeAll(c.sessions, row.user, None));
  }

  /** Replaying an accepted token after a run ends all sessions of its user exactly when no login of
      that user and no purge has deleted its row in between; otherwise the replay changes nothing. */
  lemma {:induction false} ReplayExact(a: Auth, t: Token, now: Time, calls: seq<Call>, later: Time)
    requires Inv(a) && Refresh(a, t, now).result.Success?
    ensures var b := Refresh(a, t, now).state;
      var row := a.sessions[IndexWhere(TokenIs(t), a.sessions)].(revoked := true);
      var c := Run(b, calls);
      && (EndsAll(c, UseToken(t, later), row.user) <==> !Dropped(b, calls, row))
      && (Dropped(b, calls, row) ==> Perform(c, UseToken(t, later)) == Reply(c, Failure(Unauthorized)))
      && (!Dropped(b, calls, row) ==> LiveCount(Perform(c, UseToken(t, later)).state, row.user, later) == 0)
  {
    var k, b := IndexWhere(TokenIs(t), a.sessions), Refresh(a, t, now).state;
    var row := a.sessions[k].(revoked := true);
    assert b.sessions[k] == row;
    CallStep(a, UseToken(t, now));
    RevokedRowRun(b, calls, row);
    RunInv(b, calls);
    var c := Run(b, calls);
    if Dropped(b, calls, row) {
      ReplayFindsNothing(c, t, later);
    } else {
      ReplayFindsRow(c, row, later);
    }
  }

  const NOBODY: Auth := Auth(map[], [], 0, [], 0)

  lemma {:induction false} RotatedKept(user: Id, revoked: Session, live: Session)
    requires revoked.user == live.user == user && revoked.revoked && !live.revoked && live.expiresAt > 2
    ensures Keep(NotStale(user, 2), [revoked, live]) == [live]
  {
    assert [revoked, live][1..] == [live] && [live][1..] == [];
  }

  lemma {:induction false} RunThree(a: Auth, x: Call, y: Call, z: Call)
    ensures Run(a, [x, y, z]) == Perform(Perform(Perform(a, x).state, y).state, z).state
  {
    assert [x, y, z][1..] == [y, z] && [y, z][1..] == [z] && [z][1..] == [];
    var b := Perform(a, x).state;
    assert Run(a, [x, y, z]) == Run(b, [y, z]);
    assert Run(b, [y, z]) == Run(Perform(b, y).state, [z]);
  }

  /** A login drops the row of a used token, so that replaying it leaves the user's two sessions live. */
  lemma {:induction false} LoginHidesReplay(user: Id)
    ensures var a := Run(NOBODY, [SignUp(user, 0), UseToken(0, 1), LogIn(user, true, 2)]);
      Perform(a, UseToken(0, 3)) == Reply(a, Failure(Unauthorized)) && LiveCount(a, user, 3) == 2
  {
    var u := User(true, 0, None);
    var a1 := Auth(map[user := u], [Session(0, user, REFRESH_LIFETIME, false, 0)], 1, [], 0);
    var old_ := Session(0, user, REFRESH_LIFETIME, true, 0);
    var rotated := Session(1, user, 1 + REFRESH_LIFETIME, false, 1);
    var issued := Session(2, user, 2 + REFRESH_LIFETIME, false, 2);
    var a2 := Auth(a1.users, [old_, rotated], 2, [], 0);
    var a3 := Auth(a1.users, [rotated, issued], 3, [], 0);
    assert Perform(NOBODY, SignUp(user, 0)).state == a1;
    assert Perform(a1, UseToken(0, 1)).state == a2;
    RotatedKept(user, old_, rotated);
    assert Perform(a2, LogIn(user, true, 2)).state == a3;
    RunThree(NOBODY, SignUp(user, 0), UseToken(0, 1), LogIn(user, true, 2));
    IndexWhereNone(TokenIs(0), a3.sessions);
    KeepAll(Live(user, 3), a3.sessions);
  }

  // ---- reset tokens ----

  /** Reset tokens are distinct and have been issued. */
  ghost predicate ResetInv(a: Auth) {
    && (forall i, j :: 0 <= i < j < |a.resets| ==> a.resets[i].token != a.resets[j].token)
    && (forall r :: r in a.resets ==> r.token < a.resetsIssued)
  }

  predicate Redeems(a: Auth, call: Call, t: Token) {
    call.UseReset? && call.reset == t && Perform(a, call).result.Success?
  }

  /** How often the run accepts the reset token. */
  function Redemptions(a: Auth, calls: seq<Call>, t: Token): nat
    decreases calls
  {
    if calls == [] then 0
    else
      var rest := Redemptions(Perform(a, calls[0]).state, calls[1..], t);
      if Redeems(a, calls[0], t) then 1 + rest else rest
  }

  /** None of the calls can use the token: its row is gone, spent, or expired by then. */
  ghost predicate OutOfUse(a: Auth, t: Token, calls: seq<Call>) {
    && t < a.resetsIssued
    && forall r :: r in a.resets && r.token == t ==>
         r.used || forall i :: 0 <= i < |calls| && calls[i].UseReset? ==> r.expiresAt <= calls[i].now
  }

  /** A later row of the same link: it stays spent once it is, and keeps its expiry. */
  predicate Follows(before: Reset, after: Reset) {
    && after.token == before.token && after.user == before.user && after.expiresAt == before.expiresAt
    && (before.used ==> after.used)
  }

  /** How the rows change: each stays or is spent, and at most one fresh one is added. */
  ghost predicate ResetsStep(a: Auth, b: Auth) {
    && |a.resets| <= |b.resets| <= |a.resets| + 1
    && b.resetsIssued == a.resetsIssued + |b.resets| - |a.resets|
    && (forall i :: 0 <= i < |a.resets| ==> Follows(a.resets[i], b.resets[i]))
    && (|a.resets| < |b.resets| ==> b.resets[|a.resets|].token == a.resetsIssued)
  }

  /** A reset succeeds exactly for a link that is neither spent nor expired and whose user exists. */
  lemma {:induction false} RedeemExact(a: Auth, t: Token, now: Time)
    requires ResetInv(a)
    ensures ResetPassword(a, t, now).result.Success? <==>
      exists r :: r in a.resets && r.token == t && !r.used && r.expiresAt > now && r.user in a.users
  {
    var k := IndexWhere(ResetIs(t), a.resets);
    if r :| r in a.resets && r.token == t {
      var i :| 0 <= i < |a.resets| && a.resets[i] == r;
      IndexWhereUnique(ResetIs(t), a.resets, i);
    }
    if k < |a.resets| {
      assert a.resets[k] in a.resets;
    }
  }

  lemma {:induction false} ResetCallStep(a: Auth, call: Call)
    requires ResetInv(a)
    ensures ResetsStep(a, Perform(a, call).state) && ResetInv(Perform(a, call).state)
  {
  }

  lemma {:induction false} RedeemSpends(a: Auth, call: Call, t: Token, calls: seq<Call>)
    requires ResetInv(a) && Redeems(a, call, t)
    ensures OutOfUse(Perform(a, call).state, t, calls)
  {
    var k := IndexWhere(ResetIs(t), a.resets);
    assert a.resets[k] in a.resets;
  }

  lemma {:induction false} NeverRedeemed(a: Auth, t: Token, calls: seq<Call>)
    requires ResetInv(a) && OutOfUse(a, t, calls)
    ensures Redemptions(a, calls, t) == 0
    decreases calls
  {
    if calls == [] {
    } else {
      ResetCallStep(a, calls[0]);
      NeverRedeemed(Perform(a, calls[0]).state, t, calls[1..]);
    }
  }

  /** In every run a reset token works at most once. */
  lemma {:induction false} ResetOnce(a: Auth, calls: seq<Call>, t: Token)
    requires ResetInv(a)
    ensures Redemptions(a, calls, t) <= 1
    decreases calls
  {
    if calls == [] {
    } else {
      var next := Perform(a, calls[0]).state;
      ResetCallStep(a, calls[0]);
      if Redeems(a, calls[0], t) {
        RedeemSpends(a, calls[0], t, calls[1..]);
        NeverRedeemed(next, t, calls[1..]);
      } else {
        ResetOnce(next, calls[1..], t);
      }
    }
  }

  /** Once an active user asks for a new link, none of the user's earlier links works in any later run. */
  lemma {:induction false} NewLinkSpendsOld(a: Auth, user: Id, now: Time, r: Reset, calls: seq<Call>)
    requires ResetInv(a) && user in a.users && a.users[user].active && r in a.resets && r.user == user
    requires forall i :: 0 <= i < |calls| && calls[i].UseReset? ==> now <= calls[i].now
    ensures Redemptions(Perform(a, Forgot(user, now)).state, calls, r.token) == 0
  {
    var b := Perform(a, Forgot(user, now)).state;
    var k :| 0 <= k < |a.resets| && a.resets[k] == r;
    ResetCallStep(a, Forgot(user, now));
    forall x | x in b.resets && x.token == r.token ensures x.used || x.expiresAt <= now {
    }
    NeverRedeemed(b, r.token, calls);
  }

  // ---- lockout ----

  /** The attempt fails for the password or for a switched-off account. */
  predicate LoginFails(a: Auth, user: Id, passwordOk: bool) {
    user in a.users && (!a.users[user].active || !passwordOk)
  }

  /** A wrong password locks the account exactly when at least four are on record: also right after
      an earlier lock has run out, because the record read first is the one that is counted on. */
  lemma {:induction false} LockoutExact(a: Auth, user: Id, passwordOk: bool, now: Time)
    requires user in a.users && !Locked(a.users[user], now) && LoginFails(a, user, passwordOk)
    ensures var u := Login(a, user, passwordOk, now).state.users[user];
      && u.failedAttempts == a.users[user].failedAttempts + 1
      && (Locked(u, now) <==> a.users[user].failedAttempts >= MAX_LOGIN_ATTEMPTS - 1)
      && (Locked(u, now) ==> forall t :: now <= t < now + LOCKOUT ==> Locked(u, t))
  {
  }

  /** The call redeems a reset link of the user. */
  predicate Unlocks(a: Auth, call: Call, user: Id) {
    call.UseReset? && Perform(a, call).result.Success? &&
      a.resets[IndexWhere(ResetIs(call.reset), a.resets)].user == user
  }

  predicate NeverUnlocks(a: Auth, calls: seq<Call>, user: Id)
    decreases calls
  {
    calls != [] ==> !Unlocks(a, calls[0], user) && NeverUnlocks(Perform(a, calls[0]).state, calls[1..], user)
  }

  /** The lock stands throughout the run, and no login of the user is accepted in it. */
  predicate LockStands(a: Auth, calls: seq<Call>, user: Id, until: Time)
    decreases calls
  {
    && user in a.users && a.users[user].lockedUntil == Some(until)
    && (calls != [] ==>
          && (calls[0].LogIn? && calls[0].user == user ==> Perform(a, calls[0]) == Reply(a, Failure(Unauthorized)))
          && LockStands(Perform(a, calls[0]).state, calls[1..], user, until))
  }

  lemma {:induction false} LockStep(a: Auth, call: Call, user: Id, until: Time)
    requires user in a.users && a.users[user].lockedUntil == Some(until)
    requires call.LogIn? && call.user == user ==> call.now < until
    ensures user in Perform(a, call).state.users
    ensures Perform(a, call).state.users[user].lockedUntil == Some(until) <==> !Unlocks(a, call, user)
    ensures call.LogIn? && call.user == user ==> Perform(a, call) == Reply(a, Failure(Unauthorized))
  {
  }

  /** Until a lock runs out, it stands and every login is refused, exactly when no reset link of the
      user is redeemed; neither an administrator nor the right password lifts it. */
  lemma {:induction false} LockStandsExact(a: Auth, calls: seq<Call>, user: Id, until: Time)
    requires user in a.users && a.users[user].lockedUntil == Some(until)
    requires forall i :: 0 <= i < |calls| && calls[i].LogIn? && calls[i].user == user ==> calls[i].now < until
    ensures LockStands(a, calls, user, until) <==> NeverUnlocks(a, calls, user)
    decreases calls
  {
    if calls == [] {
    } else {
      var next := Perform(a, calls[0]).state;
      LockStep(a, calls[0], user, until);
      assert forall i :: 0 <= i < |calls[1..]| ==> calls[1..][i] == calls[i + 1];
      if !Unlocks(a, calls[0], user) {
        LockStandsExact(next, calls[1..], user, until);
      }
    }
  }

  /** Wrong passwords in a row, none of them while locked. */
  predicate AllWrong(a: Auth, user: Id, times: seq<Time>)
    decreases times
  {
    times != [] ==> user in a.users && !Locked(a.users[user], times[0])
                    && AllWrong(Login(a, user, false, times[0]).state, user, times[1..])
  }

  function Wrongs(user: Id, times: seq<Time>): (calls: seq<Call>)
    ensures |calls| == |times| && forall i :: 0 <= i < |times| ==> calls[i] == LogIn(user, false, times[i])
  {
    seq(|times|, i requires 0 <= i < |times| => LogIn(user, false, times[i]))
  }

  /** Counting over a row of wrong passwords: the account is locked after the last one exactly when
      five or more are on record by then. */
  lemma {:induction false} WrongsInARow(a: Auth, user: Id, times: seq<Time>)
    requires user in a.users && times != [] && AllWrong(a, user, times)
    ensures var r := Run(a, Wrongs(user, times));
      && user in r.users
      && r.users[user].failedAttempts == a.users[user].failedAttempts + |times|
      && (Locked(r.users[user], times[|times| - 1]) <==> a.users[user].failedAttempts + |times| >= MAX_LOGIN_ATTEMPTS)
    decreases times
  {
    var next, rest := Login(a, user, false, times[0]).state, times[1..];
    LockoutExact(a, user, false, times[0]);
    assert Wrongs(user, times)[1..] == Wrongs(user, rest);
    assert Run(a, Wrongs(user, times)) == Run(next, Wrongs(user, rest));
    if rest == [] {
    } else {
      WrongsInARow(next, user, rest);
    }
  }
}
