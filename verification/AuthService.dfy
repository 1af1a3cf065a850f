/** The Redis side of authentication: token-version counters, rotation grace entries and the access-token blacklist. */
module AuthCache {
  import opened Wrappers
  import opened TokenRotation

  class AuthCacheService {
    var version: map<User, nat>
    var grace: map<Token, GraceEntry>
    var blacklist: map<Access, nat>

    constructor ()
      ensures version == map[] && grace == map[] && blacklist == map[]
    {
      version, grace, blacklist := map[], map[], map[];
    }

    /** SET with EX: readable strictly before the entry's end. */
    method BlacklistToken(token: Access, now: nat, ttl: nat)
      modifies this`blacklist
      ensures blacklist == old(blacklist)[token := now + ttl]
    {
      blacklist := blacklist[token := now + ttl];
    }

    method IsBlacklisted(token: Access, now: nat) returns (listed: bool)
      ensures listed <==> token in blacklist && now < blacklist[token]
    {
      listed := token in blacklist && now < blacklist[token];
    }

    method GetUserTokenVersion(u: User) returns (v: nat)
      ensures v == Effective(version, u)
      ensures v == if u in version then version[u] else 1
    {
      if u in version {
        v := version[u];
      } else {
        v := 1;
      }
    }

    method BumpUserTokenVersion(u: User)
      modifies this`version
      ensures version == Incremented(old(version), u)
      ensures version == old(version)[u := if u in old(version) then old(version)[u] + 1 else 1]
    {
      var current := if u in version then version[u] else 0;
      version := version[u := current + 1];
    }

    method CacheRotationResult(token: Token, tokens: Pair, now: nat)
      modifies this`grace
      ensures grace == old(grace)[token := GraceEntry(tokens, now + 15_000)]
    {
      grace := grace[token := GraceEntry(tokens, now + GRACE_TTL)];
    }

    method GetRotationResult(token: Token, now: nat) returns (cached: Option<Pair>)
      ensures cached == if token in grace && now < grace[token].expiresAt then Some(grace[token].pair) else None
    {
      cached := None;
      if token in grace && now < grace[token].expiresAt {
        cached := Some(grace[token].pair);
      }
    }
  }
}

/**
 The session methods of the authentication service, each running without interruption. Every method is one
 schedule of the step machine, so that what holds of all its runs holds of these calls in any order.
 */
module AuthService {
  import opened Wrappers
  import opened TokenRotation
  import opened TokenRotationSafety
  import opened AuthCache
  import opened UninterruptedRefresh

  class AuthService {
    const cache: AuthCacheService
    var now: nat
    var next: Token
    var rows: map<Token, Session>
    ghost var origin: map<Token, Option<Token>>
    ghost var jobs: map<Job, Phase>

    ghost function Snapshot(): State
      reads this, cache
    {
      State(now, next, rows, origin, cache.version, cache.grace, jobs)
    }

    /** Between calls the service is in a state that some run of the machine reaches. */
    ghost predicate Valid()
      reads this, cache
    {
      Reachable(Snapshot()) && Idle(jobs)
    }

    constructor (cache: AuthCacheService)
      requires cache.version == map[] && cache.grace == map[]
      ensures this.cache == cache && Snapshot() == INITIAL && Valid()
    {
      this.cache := cache;
      now, next, rows := 0, 0, map[];
      origin, jobs := map[], map[];
      new;
      assert Exec(INITIAL, []) == Some(Snapshot());
    }

    method AdvanceClock(delta: nat)
      requires Valid()
      modifies this`now
      ensures Valid() && Step(old(Snapshot()), Tick(delta)) == Some(Snapshot())
      ensures now == old(now) + delta
    {
      now := now + delta;
      ReachableStep(old(Snapshot()), Tick(delta), Snapshot());
    }

    /** A fresh pair carrying the version that Redis holds now. */
    method GenerateTokens(u: User) returns (tokens: Pair)
      modifies this`next
      ensures tokens == Pair(Access(u, Effective(cache.version, u), old(next)), old(next))
      ensures next == old(next) + 1
    {
      var tokenVersion := cache.GetUserTokenVersion(u);
      tokens := Pair(Access(u, tokenVersion, next), next);
      next := next + 1;
    }

    method CreateSession(u: User, refreshToken: Token)
      modifies this`rows, this`origin
      ensures rows == old(rows)[refreshToken := Session(u, false, now + 7 * 86_400_000)]
      ensures origin == old(origin)[refreshToken := None]
    {
      rows := rows[refreshToken := Session(u, false, now + SESSION_LIFETIME)];
      origin := origin[refreshToken := None];
    }

    /** The end of every login path, once the credentials are accepted. */
    method Login(u: User, ghost j: Job) returns (tokens: Pair)
      requires Valid() && j !in jobs
      modifies this
      ensures Valid() && tokens.refresh !in old(rows)
      ensures tokens.access.user == u && Accepted(Snapshot(), tokens.access)
      ensures rows == old(rows)[tokens.refresh := Session(u, false, now + 7 * 86_400_000)] && now == old(now)
      ensures Exec(old(Snapshot()), [LoginStart(j, u), LoginFinish(j)]) == Some(Snapshot())
      ensures j in jobs && jobs[j] == LoggedIn(tokens)
    {
      LoginEffects(Snapshot(), j, u);
      tokens := GenerateTokens(u);
      CreateSession(u, tokens.refresh);
      jobs := jobs[j := LoggedIn(tokens)];
      assert Snapshot() == LoggedInAs(old(Snapshot()), j, u);
    }

    /** `verified` and `hasEmail` are what the JWT library says about the presented token. */
    method Refresh(refreshToken: Token, verified: bool, hasEmail: bool, ghost j: Job) returns (reply: Reply)
      requires Valid() && j !in jobs
      modifies this, cache
      ensures Valid() && now == old(now)
      ensures verified && Refusable(old(Snapshot()), refreshToken, hasEmail) ==>
        reply == Rejected && SameTables(old(Snapshot()), Snapshot())
      ensures verified && Rotatable(old(Snapshot()), refreshToken) && hasEmail ==>
        reply.Granted? && HasRotated(old(Snapshot()), Snapshot(), refreshToken, reply.pair)
      ensures verified && Replayable(old(Snapshot()), refreshToken) ==>
        && reply == Granted(old(cache.grace)[refreshToken].pair)
        && SameTables(old(Snapshot()), Snapshot())
      ensures verified && Reused(old(Snapshot()), refreshToken) ==>
        && reply == Rejected && cache.grace == old(cache.grace)
        && HasRevokedAll(old(Snapshot()), Snapshot(), old(rows)[refreshToken].user)
      ensures !verified ==> reply == Rejected && Snapshot() == old(Snapshot())
      ensures verified ==>
        Exec(old(Snapshot()), RefreshSchedule(old(Snapshot()), j, refreshToken, hasEmail)) == Some(Snapshot())
      ensures verified ==> j in jobs && jobs[j] == Finished(refreshToken, reply)
    {
      if !verified {
        return Rejected;
      }
      RefreshRuns(Snapshot(), j, refreshToken, hasEmail);
      ReachableInv(Snapshot());
      RefreshEffects(Snapshot(), j, refreshToken, hasEmail);
      ReachableRun(Snapshot(), RefreshSchedule(Snapshot(), j, refreshToken, hasEmail),
                   Refreshed(Snapshot(), j, refreshToken, hasEmail));
      RefreshedIsIdle(Snapshot(), j, refreshToken, hasEmail);
      reply := InTransaction(refreshToken, hasEmail, j);
    }

    /** The transaction callback: what happens once the presented token is verified. */
    method InTransaction(refreshToken: Token, hasEmail: bool, ghost j: Job) returns (reply: Reply)
      modifies this, cache
      ensures Snapshot() == Refreshed(old(Snapshot()), j, refreshToken, hasEmail)
      ensures j in jobs && jobs[j] == Finished(refreshToken, reply)
    {
      reply := Rejected;
      if refreshToken in rows {
        var session := rows[refreshToken];
        if session.isRevoked {
          var cached := cache.GetRotationResult(refreshToken, now);
          if cached.Some? {
            reply := Granted(cached.value);
          } else {
            RevokeAllOfUser(session.user);
          }
        } else if session.expiresAt < now {
        } else if !hasEmail {
        } else {
          var tokens := Rotate(refreshToken, session);
          reply := Granted(tokens);
        }
      }
      jobs := jobs[j := Finished(refreshToken, reply)];
    }

    /** The rotation itself, from the revocation of the old session to the commit. */
    method Rotate(refreshToken: Token, session: Session) returns (tokens: Pair)
      requires refreshToken in rows && rows[refreshToken] == session
      modifies this`next, this`rows, this`origin, cache`grace
      ensures tokens == Pair(Access(session.user, Effective(cache.version, session.user), old(next)), old(next))
      ensures next == old(next) + 1
      ensures rows ==
        old(rows)[refreshToken := Revoked(session)][old(next) := Session(session.user, false, now + SESSION_LIFETIME)]
      ensures origin == old(origin)[old(next) := Some(refreshToken)]
      ensures cache.grace == old(cache.grace)[refreshToken := GraceEntry(tokens, now + GRACE_TTL)]
    {
      tokens := GenerateTokens(session.user);
      var child := Session(session.user, false, now + SESSION_LIFETIME);
      cache.CacheRotationResult(refreshToken, tokens, now);
      rows := rows[refreshToken := Revoked(session)][tokens.refresh := child];
      origin := origin[tokens.refresh := Some(refreshToken)];
    }

    method RevokeAllOfUser(u: User)
      modifies this`rows, cache`version
      ensures rows == RevokeAllOf(old(rows), UsableOf(old(rows), u))
      ensures cache.version == Incremented(old(cache.version), u)
      ensures HasRevokedAll(old(Snapshot()), Snapshot(), u)
    {
      rows := RevokeAllOf(rows, UsableOf(rows, u));
      cache.BumpUserTokenVersion(u);
    }

    /** True when a usable session was revoked; the access token is blacklisted only then. */
    method Logout(accessToken: Access, refreshToken: Token, blacklistTtl: nat) returns (ok: bool)
      requires Valid()
      modifies this`rows, cache`blacklist
      ensures Valid()
      ensures ok <==>
        refreshToken in old(rows) && !old(rows)[refreshToken].isRevoked && now < old(rows)[refreshToken].expiresAt
      ensures ok ==> rows == old(rows)[refreshToken := old(rows)[refreshToken].(isRevoked := true)]
      ensures !ok ==> rows == old(rows)
      ensures Exec(old(Snapshot()), [TokenRotation.Logout(refreshToken)]) == Some(Snapshot())
      ensures cache.blacklist ==
        if ok then old(cache.blacklist)[accessToken := now + blacklistTtl] else old(cache.blacklist)
    {
      ghost var s := Snapshot();
      ok := false;
      if refreshToken in rows && !rows[refreshToken].isRevoked && now < rows[refreshToken].expiresAt {
        rows := rows[refreshToken := rows[refreshToken].(isRevoked := true)];
        cache.BlacklistToken(accessToken, now, blacklistTtl);
        ok := true;
      }
      assert Step(s, TokenRotation.Logout(refreshToken)) == Some(Snapshot());
      ExecCons(s, TokenRotation.Logout(refreshToken), []);
      assert [TokenRotation.Logout(refreshToken)] + [] == [TokenRotation.Logout(refreshToken)];
      ReachableStep(s, TokenRotation.Logout(refreshToken), Snapshot());
    }

    /** The revoke-all of both `logoutAll` and `secureAccount`. */
    method LogoutAll(u: User, ghost j: Job)
      requires Valid() && j !in jobs
      modifies this`rows, this`jobs, cache`version
      ensures Valid() && HasRevokedAll(old(Snapshot()), Snapshot(), u)
      ensures Exec(old(Snapshot()), [SelectRows(j, u), RevokeRows(j), Bump(u)]) == Some(Snapshot())
    {
      RevokeAllRuns(Snapshot(), j, u);
      RevokeAllOfUser(u);
      jobs := jobs[j := Updated(u)];
      ReachableRun(old(Snapshot()), [SelectRows(j, u), RevokeRows(j), Bump(u)], Snapshot());
    }
  }
}
