/** Refresh-token rotation, section 10.4 of RFC 6749. */
module Tokens {

  type Token = nat
  type User = nat

  datatype Session = Session(userId: User, expiresAt: int, revoked: bool)

  /** Sessions by their refresh token; a token is stored as its hash, which is taken to be one to one. */
  type Sessions = map<Token, Session>

  datatype Answer = Accepted | Unauthorized | UniqueViolation | NoAnswer

  datatype Reply = Reply(sessions: Sessions, answer: Answer)

  function Opened(s: Sessions, user: User, token: Token, expiresAt: int): Reply {
    if token in s then Reply(s, UniqueViolation) else Reply(s[token := Session(user, expiresAt, false)], Accepted)
  }

  function RevokeAll(s: Sessions, user: User): Sessions {
    map t | t in s :: if s[t].userId == user then s[t].(revoked := true) else s[t]
  }

  function Revoke(s: Sessions, token: Token): Sessions {
    if token in s then s[token := s[token].(revoked := true)] else s
  }

  /** rotateRefreshToken at the time now; drawn is the token drawn for the next session. */
  function Rotate(s: Sessions, token: Token, now: int, drawn: Token, expiresAt: int): Reply {
    if token !in s then Reply(s, Unauthorized)
    else if s[token].revoked || s[token].expiresAt < now then Reply(RevokeAll(s, s[token].userId), Unauthorized)
    else Opened(Revoke(s, token), s[token].userId, drawn, expiresAt)
  }

  datatype Step =
    | Login(user: User, drawn: Token, expiresAt: int)
    | Refresh(token: Token, now: int, drawn: Token, expiresAt: int)
    | Logout(token: Token)
    | LogoutEverywhere(user: User)

  function Apply(s: Sessions, step: Step): Reply {
    match step
    case Login(user, drawn, expiresAt) => Opened(s, user, drawn, expiresAt)
    case Refresh(token, now, drawn, expiresAt) => Rotate(s, token, now, drawn, expiresAt)
    case Logout(token) => Reply(Revoke(s, token), NoAnswer)
    case LogoutEverywhere(user) => Reply(RevokeAll(s, user), NoAnswer)
  }

  function Run(s: Sessions, steps: seq<Step>): Sessions
    decreases |steps|
  {
    if steps == [] then s else Run(Apply(s, steps[0]).sessions, steps[1..])
  }

  class TokenService {
    var sessions: Sessions

    constructor ()
      ensures sessions == map[]
    {
      sessions := map[];
    }

    method CreateSession(user: User, drawn: Token, expiresAt: int) returns (answer: Answer)
      modifies this
      ensures Reply(sessions, answer) == Opened(old(sessions), user, drawn, expiresAt)
    {
      if drawn in sessions {
        return UniqueViolation;
      }
      sessions := sessions[drawn := Session(user, expiresAt, false)];
      return Accepted;
    }

    method RotateRefreshToken(token: Token, now: int, drawn: Token, expiresAt: int) returns (answer: Answer)
      modifies this
      ensures Reply(sessions, answer) == Rotate(old(sessions), token, now, drawn, expiresAt)
    {
      if token !in sessions || sessions[token].revoked || sessions[token].expiresAt < now {
        if token in sessions {
          RevokeAllUserSessions(sessions[token].userId);
        }
        return Unauthorized;
      }
      var session := sessions[token];
      sessions := sessions[token := session.(revoked := true)];
      answer := CreateSession(session.userId, drawn, expiresAt);
    }

    method RevokeSession(token: Token)
      modifies this
      ensures sessions == Revoke(old(sessions), token)
    {
      sessions := map t | t in sessions ::
        if t == token && !sessions[t].revoked then sessions[t].(revoked := true) else sessions[t];
    }

    method RevokeAllUserSessions(user: User)
      modifies this
      ensures sessions == RevokeAll(old(sessions), user)
    {
      sessions := map t | t in sessions ::
        if sessions[t].userId == user && !sessions[t].revoked then sessions[t].(revoked := true) else sessions[t];
    }
  }

  // ---------------------------------------------------------------- what each call does to each session

  /** A login that is accepted opens one session, of its user and with its expiry; it is refused when the token drawn
      is taken. */
  lemma LoginOpens(s: Sessions, user: User, drawn: Token, expiresAt: int)
    ensures var r := Apply(s, Login(user, drawn, expiresAt));
      && (r.answer == Accepted <==> drawn !in s)
      && r.sessions == if drawn in s then s else s[drawn := Session(user, expiresAt, false)]
  {}

  /** An accepted rotation opens, under the token drawn, a session of the same user with the new expiry, revokes the
      one it came from and leaves every other as it is. */
  lemma RotationContinues(s: Sessions, token: Token, now: int, drawn: Token, expiresAt: int)
    requires Rotate(s, token, now, drawn, expiresAt).answer == Accepted
    ensures token in s && drawn !in s && !s[token].revoked && now <= s[token].expiresAt
    ensures Rotate(s, token, now, drawn, expiresAt).sessions
         == s[token := Session(s[token].userId, s[token].expiresAt, true)]
             [drawn := Session(s[token].userId, expiresAt, false)]
  {}

  /** A rotation that is unauthorized revokes every session of the user whose token it was and no other; of an unknown
      token it changes nothing. */
  lemma RefusalRevokes(s: Sessions, token: Token, now: int, drawn: Token, expiresAt: int, t: Token)
    requires Rotate(s, token, now, drawn, expiresAt).answer == Unauthorized && t in s
    ensures var after := Rotate(s, token, now, drawn, expiresAt).sessions;
      && after.Keys == s.Keys && (token in s ==> s[token].revoked || s[token].expiresAt < now)
      && after[t] == Session(s[t].userId, s[t].expiresAt,
                             s[t].revoked || (token in s && s[t].userId == s[token].userId))
  {}

  /** A logout revokes the session of its token and no other, a logout everywhere those of its user and no others. */
  lemma LogoutsRevoke(s: Sessions, token: Token, user: User, t: Token)
    requires t in s
    ensures var one, all := Apply(s, Logout(token)).sessions, Apply(s, LogoutEverywhere(user)).sessions;
      && one.Keys == s.Keys && all.Keys == s.Keys
      && one[t] == Session(s[t].userId, s[t].expiresAt, s[t].revoked || t == token)
      && all[t] == Session(s[t].userId, s[t].expiresAt, s[t].revoked || s[t].userId == user)
  {}

  // ---------------------------------------------------------------- a token works once

  /** How often a run accepts a token. */
  function TimesAccepted(s: Sessions, steps: seq<Step>, token: Token): nat
    decreases |steps|
  {
    if steps == [] then 0
    else
      var r := Apply(s, steps[0]);
      (if steps[0].Refresh? && steps[0].token == token && r.answer.Accepted? then 1 else 0)
      + TimesAccepted(r.sessions, steps[1..], token)
  }

  lemma RevokedStays(s: Sessions, step: Step, token: Token)
    requires token in s && s[token].revoked
    ensures var t := Apply(s, step).sessions; token in t && t[token].revoked
    ensures step.Refresh? && step.token == token ==> Apply(s, step).answer == Unauthorized
  {}

  lemma {:induction false} RevokedIsNeverAccepted(s: Sessions, steps: seq<Step>, token: Token)
    requires token in s && s[token].revoked
    ensures TimesAccepted(s, steps, token) == 0
    decreases |steps|
  {
    if steps != [] {
      RevokedStays(s, steps[0], token);
      RevokedIsNeverAccepted(Apply(s, steps[0]).sessions, steps[1..], token);
    }
  }

  /** Over any run, from any sessions, no refresh token is accepted twice. */
  lemma {:induction false} AcceptedAtMostOnce(s: Sessions, steps: seq<Step>, token: Token)
    ensures TimesAccepted(s, steps, token) <= 1
    decreases |steps|
  {
    if steps != [] {
      var r := Apply(s, steps[0]);
      if steps[0].Refresh? && steps[0].token == token && r.answer.Accepted? {
        RevokedIsNeverAccepted(r.sessions, steps[1..], token);
      } else {
        AcceptedAtMostOnce(r.sessions, steps[1..], token);
      }
    }
  }

  // ---------------------------------------------------------------- reuse ends every session

  /** The sessions of a user that are not revoked. */
  function Unrevoked(s: Sessions, user: User): set<Token> {
    set t | t in s && s[t].userId == user && !s[t].revoked
  }

  /** A known token is accepted exactly when it is unrevoked, unexpired and the new token is free; a known token that
      is revoked or expired leaves its user with no unrevoked session. */
  lemma ReuseRevokesEverything(s: Sessions, token: Token, now: int, drawn: Token, expiresAt: int)
    requires token in s
    ensures var r := Rotate(s, token, now, drawn, expiresAt);
      && (r.answer.Accepted? <==> !s[token].revoked && s[token].expiresAt >= now && drawn !in s)
      && (s[token].revoked || s[token].expiresAt < now ==> Unrevoked(r.sessions, s[token].userId) == {})
  {}

  /** A token that a run has accepted: presenting it once more leaves its user with no unrevoked session. */
  lemma {:induction false} ReplayLogsOut(s: Sessions, steps: seq<Step>, token: Token, now: int,
                                     drawn: Token, expiresAt: int)
    requires TimesAccepted(s, steps, token) > 0
    ensures var t := Run(s, steps); var r := Rotate(t, token, now, drawn, expiresAt);
      token in t && r.answer == Unauthorized && Unrevoked(r.sessions, t[token].userId) == {}
    decreases |steps|
  {
    var r := Apply(s, steps[0]);
    if steps[0].Refresh? && steps[0].token == token && r.answer.Accepted? {
      RevokedThroughout(r.sessions, steps[1..], token);
      ReuseRevokesEverything(Run(s, steps), token, now, drawn, expiresAt);
    } else {
      ReplayLogsOut(r.sessions, steps[1..], token, now, drawn, expiresAt);
    }
  }

  lemma {:induction false} RevokedThroughout(s: Sessions, steps: seq<Step>, token: Token)
    requires token in s && s[token].revoked
    ensures token in Run(s, steps) && Run(s, steps)[token].revoked
    decreases |steps|
  {
    if steps != [] {
      RevokedStays(s, steps[0], token);
      RevokedThroughout(Apply(s, steps[0]).sessions, steps[1..], token);
    }
  }

  // ---------------------------------------------------------------- calls that fail after a change

  /** The token is one the rotation accepts, as far as its own session goes. */
  predicate Live(s: Sessions, token: Token, now: int) {
    token in s && !s[token].revoked && s[token].expiresAt >= now
  }

  /** A call is refused after a change in two cases: a replayed token, which is meant to close the sessions of its
      user, and a live token whose successor is taken, which leaves its user without a session where there was one. */
  predicate RefusedAfterChange(s: Sessions, step: Step) {
    && step.Refresh? && step.token in s
    && if Live(s, step.token, step.now) then step.drawn in s else Unrevoked(s, s[step.token].userId) != {}
  }

  lemma RefusedCallsChangeNothing(s: Sessions, step: Step)
    ensures var r := Apply(s, step);
      && ((r.answer == Unauthorized || r.answer == UniqueViolation) && r.sessions != s <==> RefusedAfterChange(s, step))
      && (step.Refresh? && Live(s, step.token, step.now) && step.drawn in s ==>
            r.answer == UniqueViolation && r.sessions == s[step.token := s[step.token].(revoked := true)])
  {
    if step.Refresh? && step.token in s {
      var user := s[step.token].userId;
      if Live(s, step.token, step.now) {
        assert Revoke(s, step.token)[step.token] != s[step.token];
      } else if t :| t in Unrevoked(s, user) {
        assert RevokeAll(s, user)[t] != s[t];
      } else {
        forall t | t in s ensures RevokeAll(s, user)[t] == s[t] {
          assert t !in Unrevoked(s, user);
        }
        assert RevokeAll(s, user) == s;
      }
    }
  }

  /** Two logins, and a refresh of the first whose new token happens to be the second's: the call fails and the first
      user is logged out. */
  lemma ClashLogsOut()
    ensures var s := Run(map[], [Login(1, 5, 100), Login(2, 6, 100)]); var r := Rotate(s, 5, 0, 6, 200);
      r.answer == UniqueViolation && Unrevoked(s, 1) == {5} && Unrevoked(r.sessions, 1) == {}
  {
    var steps := [Login(1, 5, 100), Login(2, 6, 100)];
    assert steps[1..] == [Login(2, 6, 100)] && steps[1..][1..] == [];
    var s := map[5 := Session(1, 100, false), 6 := Session(2, 100, false)];
    assert Run(map[], steps) == Run(map[5 := Session(1, 100, false)], [Login(2, 6, 100)]) == Run(s, []) == s;
  }

  // ---------------------------------------------------------------- no more sessions than logins

  function Logins(steps: seq<Step>, user: User): nat {
    if steps == [] then 0
    else (if steps[0].Login? && steps[0].user == user then 1 else 0) + Logins(steps[1..], user)
  }

  lemma OpenedSessions(s: Sessions, u: User, drawn: Token, expiresAt: int, user: User)
    ensures Unrevoked(Opened(s, u, drawn, expiresAt).sessions, user)
         <= Unrevoked(s, user) + if u == user then {drawn} else {}
  {}

  lemma RevokedSessions(s: Sessions, token: Token, user: User)
    ensures Unrevoked(Revoke(s, token), user) == Unrevoked(s, user) - {token}
    ensures Unrevoked(RevokeAll(s, user), user) == {}
  {}

  lemma RevokedOthers(s: Sessions, u: User, user: User)
    ensures Unrevoked(RevokeAll(s, u), user) <= Unrevoked(s, user)
  {}

  /** A rotation opens a session in the place of the one it revokes. */
  lemma RotatedSessions(s: Sessions, token: Token, now: int, drawn: Token, expiresAt: int, user: User)
    ensures |Unrevoked(Rotate(s, token, now, drawn, expiresAt).sessions, user)| <= |Unrevoked(s, user)|
  {
    hide Opened, Revoke, RevokeAll, Unrevoked;
    var t := Rotate(s, token, now, drawn, expiresAt).sessions;
    if Live(s, token, now) {
      OpenedSessions(Revoke(s, token), s[token].userId, drawn, expiresAt, user);
      RevokedSessions(s, token, user);
      if s[token].userId == user {
        assert token in Unrevoked(s, user) by { LiveIsUnrevoked(s, token, now); }
        Fewer(Unrevoked(t, user), (Unrevoked(s, user) - {token}) + {drawn});
      } else {
        Fewer(Unrevoked(t, user), Unrevoked(s, user));
      }
    } else if token in s {
      RevokedOthers(s, s[token].userId, user);
      Fewer(Unrevoked(t, user), Unrevoked(s, user));
    }
  }

  lemma LiveIsUnrevoked(s: Sessions, token: Token, now: int)
    requires Live(s, token, now)
    ensures token in Unrevoked(s, s[token].userId)
  {}

  lemma StepSessions(s: Sessions, step: Step, user: User)
    ensures |Unrevoked(Apply(s, step).sessions, user)|
         <= |Unrevoked(s, user)| + if step.Login? && step.user == user then 1 else 0
  {
    hide Unrevoked, Opened, Rotate, Revoke, RevokeAll;
    var before, after := Unrevoked(s, user), Unrevoked(Apply(s, step).sessions, user);
    match step
    case Login(u, drawn, expiresAt) =>
      OpenedSessions(s, u, drawn, expiresAt, user);
      Fewer(after, before + if u == user then {drawn} else {});
    case Refresh(token, now, drawn, expiresAt) => RotatedSessions(s, token, now, drawn, expiresAt, user);
    case Logout(token) =>
      RevokedSessions(s, token, user);
      Fewer(after, before);
    case LogoutEverywhere(u) =>
      RevokedOthers(s, u, user);
      Fewer(after, before);
  }

  lemma {:induction false} Fewer(a: set<Token>, b: set<Token>)
    requires a <= b
    ensures |a| <= |b|
    decreases |b|
  {
    if a != {} {
      var x :| x in a;
      Fewer(a - {x}, b - {x});
    }
  }

  /** A user's unrevoked sessions never outnumber those they began with plus their logins: refreshing opens none. */
  lemma {:induction false} SessionsNeverOutnumberLogins(s: Sessions, steps: seq<Step>, user: User)
    ensures |Unrevoked(Run(s, steps), user)| <= |Unrevoked(s, user)| + Logins(steps, user)
    decreases |steps|
  {
    if steps != [] {
      StepSessions(s, steps[0], user);
      SessionsNeverOutnumberLogins(Apply(s, steps[0]).sessions, steps[1..], user);
    }
  }
}
