/** The auth service as it runs: each call reads rows and updates session rows, counters and
    `revoked_at` one after the other. Every method is proved to be the call of `Sessions`. */
module SessionServices {
  import opened Wrappers
  import opened Sequences
  import opened Sorting
  import opened S = Sessions

  class AuthService {
    var users: map<Id, User>
    var sessions: seq<Session>
    var issued: nat
    var resets: seq<Reset>
    var resetsIssued: nat

    function State(): Auth
      reads this
    {
      Auth(users, sessions, issued, resets, resetsIssued)
    }

    constructor ()
      ensures State() == Auth(map[], [], 0, [], 0)
    {
      users, sessions, issued, resets, resetsIssued := map[], [], 0, [], 0;
    }

    /** Insert a session row with a fresh token. */
    method CreateSession(user: Id, now: Time) returns (token: Token)
      modifies this`sessions, this`issued
      ensures State() == Issue(old(State()), user, now) && token == old(issued)
    {
      token := issued;
      sessions := sessions + [Session(token, user, now + REFRESH_LIFETIME, false, now)];
      issued := issued + 1;
    }

    /** `updateMany` on the user's unrevoked sessions. */
    method RevokeSessions(user: Id, keep: Option<Token>)
      modifies this`sessions
      ensures sessions == RevokeAll(old(sessions), user, keep)
    {
      for i := 0 to |sessions|
        invariant |sessions| == |old(sessions)|
        invariant forall j :: 0 <= j < |sessions| ==>
          sessions[j] == if j < i then RevokeAll(old(sessions), user, keep)[j] else old(sessions)[j]
      {
        if sessions[i].user == user && Some(sessions[i].token) != keep && !sessions[i].revoked {
          sessions := sessions[i := sessions[i].(revoked := true)];
        }
      }
    }

    method Login(user: Id, passwordOk: bool, now: Time) returns (r: Result<Option<Token>, Error>)
      modifies this
      ensures Reply(State(), r) == S.Login(old(State()), user, passwordOk, now)
    {
      if user !in users { return Failure(Unauthorized); }
      var existingUser := users[user];
      if Locked(existingUser, now) { return Failure(Unauthorized); }
      var valid := ValidateUser(user, passwordOk);
      if !valid {
        var attempts := existingUser.failedAttempts + 1;
        users := users[user := users[user].(failedAttempts := attempts)];
        if attempts >= MAX_LOGIN_ATTEMPTS {
          users := users[user := users[user].(lockedUntil := Some(now + LOCKOUT))];
        }
        return Failure(Unauthorized);
      }
      users := users[user := users[user].(failedAttempts := 0, lockedUntil := None)];
      sessions := Keep(NotStale(user, now), sessions);
      var token := CreateSession(user, now);
      return Success(Some(token));
    }

    /** Clears a lock that has run out, then compares the password. */
    method ValidateUser(user: Id, passwordOk: bool) returns (valid: bool)
      requires user in users
      modifies this`users
      ensures valid == (old(users[user]).active && passwordOk)
      ensures users == if old(users[user]).active && old(users[user]).lockedUntil.Some?
                       then old(users)[user := old(users[user]).(failedAttempts := 0, lockedUntil := None)]
                       else old(users)
    {
      if !users[user].active { return false; }
      if users[user].lockedUntil.Some? {
        users := users[user := users[user].(failedAttempts := 0, lockedUntil := None)];
      }
      return passwordOk;
    }

    method Refresh(t: Token, now: Time) returns (r: Result<Option<Token>, Error>)
      modifies this
      ensures Reply(State(), r) == S.Refresh(old(State()), t, now)
    {
      var k := IndexWhere(TokenIs(t), sessions);
      if k == |sessions| { return Failure(Unauthorized); }
      var matchedToken := sessions[k];
      if matchedToken.revoked {
        RevokeSessions(matchedToken.user, None);
        return Failure(Unauthorized);
      }
      if matchedToken.expiresAt <= now { return Failure(Unauthorized); }
      sessions := sessions[k := matchedToken.(revoked := true)];
      if matchedToken.user !in users || !users[matchedToken.user].active {
        RevokeSessions(matchedToken.user, None);
        return Failure(Unauthorized);
      }
      var newRefresh := CreateSession(matchedToken.user, now);
      return Success(Some(newRefresh));
    }

    method ResetPassword(t: Token, now: Time) returns (r: Result<Option<Token>, Error>)
      modifies this
      ensures Reply(State(), r) == S.ResetPassword(old(State()), t, now)
    {
      var k := IndexWhere(ResetIs(t), resets);
      if k == |resets| { return Failure(BadRequest); }
      if resets[k].used || resets[k].expiresAt <= now || resets[k].user !in users { return Failure(BadRequest); }
      var user := resets[k].user;
      users := users[user := users[user].(failedAttempts := 0, lockedUntil := None)];
      resets := resets[k := resets[k].(used := true)];
      RevokeSessions(user, None);
      return Success(None);
    }

    method Logout(user: Id)
      modifies this`sessions
      ensures State() == S.Logout(old(State()), user).state
    {
      RevokeSessions(user, None);
    }

    method LogoutRefreshToken(t: Token)
      modifies this`sessions
      ensures State() == S.LogoutToken(old(State()), t).state
    {
      var k := IndexWhere(TokenIs(t), sessions);
      if k == |sessions| { return; }
      Logout(sessions[k].user);
    }

    method RevokeSession(t: Token, user: Id) returns (r: Result<Option<Token>, Error>)
      modifies this`sessions
      ensures Reply(State(), r) == S.RevokeSession(old(State()), t, user)
    {
      var k := IndexWhere(TokenIs(t), sessions);
      if k == |sessions| || sessions[k].user != user { return Failure(Unauthorized); }
      sessions := sessions[k := sessions[k].(revoked := true)];
      return Success(None);
    }

    method ChangePassword(user: Id, passwordOk: bool, now: Time) returns (r: Result<Option<Token>, Error>)
      modifies this`sessions
      ensures Reply(State(), r) == S.ChangePassword(old(State()), user, passwordOk, now)
    {
      if user !in users { return Failure(Unauthorized); }
      if !passwordOk { return Failure(BadRequest); }
      var currentSessions := Sort(NewestFirst(), Keep(Live(user, now), sessions));
      if |currentSessions| > 1 {
        RevokeSessions(user, Some(currentSessions[0].token));
      }
      return Success(None);
    }
  }
}
