/** What refresh-token rotation guarantees over whole runs, and exactly when it does not. */
module TokenRotationTheorems {
  import opened Wrappers
  import opened TokenRotation
  import opened TokenRotationSafety

  // ---------- login lineages ----------

  /** The login a session descends from, and how many rotations lie between. */
  ghost function Root(origin: Origin, t: Token): Token {
    if t in origin && origin[t].Some? && origin[t].value < t then Root(origin, origin[t].value) else t
  }

  ghost function Depth(origin: Origin, t: Token): nat {
    if t in origin && origin[t].Some? && origin[t].value < t then Depth(origin, origin[t].value) + 1 else 0
  }

  lemma ParentOf(s: State, t: Token)
    requires Inv(s) && t in s.rows && s.origin[t].Some?
    ensures
      var p := s.origin[t].value;
      ChildOf(s.origin, t, p) && p in s.rows && p < t && s.rows[p].isRevoked
  {
    assert ChildOf(s.origin, t, s.origin[t].value);
  }

  lemma {:induction false} SameDepthSameSession(s: State, a: Token, b: Token)
    requires Inv(s) && a in s.rows && b in s.rows
    requires Root(s.origin, a) == Root(s.origin, b) && Depth(s.origin, a) == Depth(s.origin, b)
    ensures a == b
    decreases a
  {
    if s.origin[a].Some? { ParentOf(s, a); }
    if s.origin[b].Some? { ParentOf(s, b); }
    if s.origin[a].Some? && s.origin[b].Some? {
      SameDepthSameSession(s, s.origin[a].value, s.origin[b].value);
      assert Siblings(s.origin, a, b);
    }
  }

  /** Climbing from `b` reaches its ancestor at any smaller depth, and that ancestor is revoked. */
  lemma {:induction false} AncestorAt(s: State, b: Token, depth: nat) returns (p: Token)
    requires Inv(s) && b in s.rows && depth < Depth(s.origin, b)
    ensures p in s.rows && s.rows[p].isRevoked
    ensures Depth(s.origin, p) == depth && Root(s.origin, p) == Root(s.origin, b)
    decreases b
  {
    p := s.origin[b].value;
    ParentOf(s, b);
    if Depth(s.origin, p) != depth {
      p := AncestorAt(s, p, depth);
    }
  }

  /** A new child does not change where older tokens come from. */
  lemma {:induction false} RootUnaffected(origin: Origin, c: Token, p: Option<Token>, t: Token)
    requires t < c
    ensures Root(origin[c := p], t) == Root(origin, t)
    decreases t
  {
    if t in origin && origin[t].Some? && origin[t].value < t {
      RootUnaffected(origin, c, p, origin[t].value);
    }
  }

  lemma {:induction false} RootOwned(s: State, t: Token)
    requires Inv(s) && t in s.rows
    ensures OwnedRow(s.rows, Root(s.origin, t), s.rows[t].user)
    decreases t
  {
    if s.origin[t].Some? {
      ParentOf(s, t);
      RootOwned(s, s.origin[t].value);
    }
  }

  /** In every run, one login lineage has at most one session that is not revoked. */
  lemma LineageHasOneLiveSession(s: State, a: Token, b: Token)
    requires Reachable(s) && a in s.rows && b in s.rows
    requires Root(s.origin, a) == Root(s.origin, b)
    requires !s.rows[a].isRevoked && !s.rows[b].isRevoked
    ensures a == b
  {
    ReachableInv(s);
    if Depth(s.origin, a) < Depth(s.origin, b) {
      var p := AncestorAt(s, b, Depth(s.origin, a));
      SameDepthSameSession(s, p, a);
    } else if Depth(s.origin, b) < Depth(s.origin, a) {
      var p := AncestorAt(s, a, Depth(s.origin, b));
      SameDepthSameSession(s, p, b);
    } else {
      SameDepthSameSession(s, a, b);
    }
  }

  /** In every run, a session has at most one rotation child, and a session with a child is revoked. */
  lemma SessionsFormAForest(s: State, c: Token, d: Token, p: Token)
    requires Reachable(s) && ChildOf(s.origin, c, p) && ChildOf(s.origin, d, p)
    ensures c == d
    ensures c in s.rows && p in s.rows && p < c && s.rows[p].isRevoked && s.rows[p].user == s.rows[c].user
  {
    ReachableInv(s);
    assert Siblings(s.origin, c, d);
  }

  // ---------- conservation ----------

  /** In every run, a commit trades the old session for the child: no user's number of usable sessions changes. */
  lemma CommitConserves(s: State, j: Job, s': State, u: User)
    requires Reachable(s) && StepCommit(s, j) == Some(s')
    ensures |UsableOf(s'.rows, u)| == |UsableOf(s.rows, u)|
  {
    ReachableInv(s);
    assert GoodPhase(s, s.jobs[j]) && HasPending(s.jobs[j]);
    CommitTrades(s.rows, s.jobs[j].token, s.jobs[j].pair.refresh, s.jobs[j].row, u);
  }

  lemma CommitTrades(rows: Rows, t: Token, c: Token, child: Session, u: User)
    requires UsableRow(rows, t, child.user) && c !in rows && !child.isRevoked
    ensures |UsableOf(rows[t := Revoked(rows[t])][c := child], u)| == |UsableOf(rows, u)|
  {
    var usable, usable' := UsableOf(rows, u), UsableOf(rows[t := Revoked(rows[t])][c := child], u);
    if u == child.user {
      assert usable' == usable - {t} + {c};
    } else {
      assert usable' == usable;
    }
  }

  // ---------- concurrent refreshes agree ----------

  /** In every run, all granted refreshes of one token returned one and the same pair, and made one session. */
  lemma RefreshesAgree(s: State, i: Job, j: Job)
    requires Reachable(s)
    requires i in s.jobs && j in s.jobs
    requires s.jobs[i].Finished? && s.jobs[i].reply.Granted?
    requires s.jobs[j].Finished? && s.jobs[j].reply.Granted?
    requires s.jobs[i].token == s.jobs[j].token
    ensures s.jobs[i].reply == s.jobs[j].reply
    ensures forall c :: ChildOf(s.origin, c, s.jobs[i].token) <==> c == s.jobs[i].reply.pair.refresh
  {
    ReachableInv(s);
    var t, p := s.jobs[i].token, s.jobs[i].reply.pair;
    assert GoodPhase(s, s.jobs[i]) && GoodPhase(s, s.jobs[j]);
    forall c ensures ChildOf(s.origin, c, t) <==> c == p.refresh {
      if ChildOf(s.origin, c, t) {
        assert Siblings(s.origin, c, p.refresh);
      }
    }
  }

  lemma GraceEntryKept(s: State, e: Event, s': State, t: Token)
    requires Inv(s) && Step(s, e) == Some(s') && t in s.grace
    ensures t in s'.grace && s'.grace[t] == s.grace[t]
  {
    if e.WriteGrace? {
      WriteGraceIsFirst(s, e.job);
    } else {
      GraceStays(s, e, s');
    }
  }

  /** Whoever is about to write a grace entry is the first to. */
  lemma WriteGraceIsFirst(s: State, j: Job)
    requires Inv(s) && j in s.jobs && s.jobs[j].ChildInserted?
    ensures s.jobs[j].token !in s.grace
  {
    var t := s.jobs[j].token;
    assert GoodPhase(s, s.jobs[j]);
    assert forall c :: !ChildOf(s.origin, c, t);
    AloneOnLock(s.jobs, j);
    assert !Awaited(s.jobs, t) by {
      forall i ensures !WritesGrace(s.jobs, i, t) {
        assert i in s.jobs && i != j ==> !HoldsLock(s.jobs[i], t);
      }
    }
  }

  /** A grace entry never changes once written, whatever runs afterwards. */
  lemma {:induction false} GraceEntryIsFinal(s: State, events: seq<Event>, s': State, t: Token)
    requires Inv(s) && Exec(s, events) == Some(s') && t in s.grace
    ensures t in s'.grace && s'.grace[t] == s.grace[t]
    decreases |events|
  {
    if events != [] {
      var m := Step(s, events[0]).value;
      StepKeepsInv(s, events[0], m);
      GraceEntryKept(s, events[0], m, t);
      GraceEntryIsFinal(m, events[1..], s', t);
    }
  }

  /** With a revoked row in hand, the pair is replayed exactly when the token was rotated and its entry is alive. */
  lemma ReplayExactlyAfterRotation(s: State, j: Job, s': State)
    requires Inv(s) && StepLookup(s, j) == Some(s')
    ensures
      var t := s.jobs[j].token;
      && s'.rows == s.rows && s'.next == s.next
      && (s'.jobs[j].Finished? <==> GraceLive(s, t) && exists c :: ChildOf(s.origin, c, t))
      && (s'.jobs[j].Finished? ==> s'.jobs[j].reply.Granted? && ChildOf(s.origin, s'.jobs[j].reply.pair.refresh, t))
      && (!s'.jobs[j].Finished? ==> s'.jobs[j] == ReuseFound(t, s.rows[t].user))
  {
    var t := s.jobs[j].token;
    assert GoodPhase(s, s.jobs[j]);
    AloneOnLock(s.jobs, j);
    if GraceLive(s, t) {
      if Awaited(s.jobs, t) {
        var i :| WritesGrace(s.jobs, i, t);
        assert HoldsLock(s.jobs[i], t);
      }
      assert ChildOf(s.origin, s.grace[t].pair.refresh, t);
    }
  }

  /**
   In every run: once the winner has written its grace entry, and while that lives, whoever holds the row lock and
   has yet to look replays the winner's pair and changes nothing else, whatever ran before the lock or after it.
   */
  lemma LateRefreshReplaysWinner(s: State, j: Job, s1: State, events: seq<Event>, s2: State, i: Job)
    requires Reachable(s) && StepWriteGrace(s, j) == Some(s1)
    requires Exec(s1, events) == Some(s2) && s2.now < s.now + GRACE_TTL
    requires i in s2.jobs && s2.jobs[i].Holding? && s2.jobs[i].token == s.jobs[j].token
    ensures StepLookup(s2, i) == Some(Goto(s2, i, Finished(s.jobs[j].token, Granted(s.jobs[j].pair))))
  {
    var t, pair := s.jobs[j].token, s.jobs[j].pair;
    ReachableInv(s);
    StepKeepsInv(s, WriteGrace(j), s1);
    GraceEntryIsFinal(s1, events, s2, t);
    RunKeepsInv(s1, events, s2);
    HolderReadsRevoked(s2, i);
  }

  /** Whoever holds the lock of a token with a grace entry has read a revoked row. */
  lemma HolderReadsRevoked(s: State, i: Job)
    requires Inv(s) && i in s.jobs && s.jobs[i].Holding? && s.jobs[i].token in s.grace
    ensures s.jobs[i].row.isRevoked
  {
    var t := s.jobs[i].token;
    assert GoodPhase(s, s.jobs[i]);
    if Awaited(s.jobs, t) {
      var k :| WritesGrace(s.jobs, k, t);
      assert LockClash(s.jobs, k, i);
    }
    assert ChildOf(s.origin, s.grace[t].pair.refresh, t);
  }

  /** Waiting with a revoked token while its grace entry lives: the cached pair is returned and no row changes. */
  lemma WaitingReplays(s: State, t: Token, j: Job)
    requires t in s.rows && s.rows[t].isRevoked && !Locked(s, t) && GraceLive(s, t)
    requires j in s.jobs && s.jobs[j] == Waiting(t)
    ensures Exec(s, [Lock(j), Lookup(j)]) == Some(Goto(s, j, Finished(t, Granted(s.grace[t].pair))))
  {
    var s1 := Goto(s, j, Holding(t, s.rows[t]));
    var s2 := Goto(s1, j, Finished(t, Granted(s.grace[t].pair)));
    ExecCons(s, Lock(j), [Lookup(j)]);
    ExecCons(s1, Lookup(j), []);
    assert [Lock(j)] + [Lookup(j)] == [Lock(j), Lookup(j)] && [Lookup(j)] + [] == [Lookup(j)];
    assert s2.jobs == Goto(s, j, Finished(t, Granted(s.grace[t].pair))).jobs;
  }

  /** No step ever flips a session back to usable. */
  lemma RevokedForever(s: State, more: seq<Event>, s': State, t: Token)
    requires Reachable(s) && Exec(s, more) == Some(s')
    requires t in s.rows && s.rows[t].isRevoked
    ensures t in s'.rows && s'.rows[t].isRevoked && s'.rows[t].user == s.rows[t].user
  {
    ReachableInv(s);
    RunKeepsInv(s, more, s');
    assert OwnedRow(s'.rows, t, s.rows[t].user);
  }

  // ---------- the version counter ----------

  /** The version bump of a revoke-all of `u`. */
  predicate BumpsVersion(s: State, e: Event, u: User) {
    e == Bump(u) ||
    (e.BumpOnReuse? && e.job in s.jobs && s.jobs[e.job].RowsRevoked? && s.jobs[e.job].user == u)
  }

  ghost function Bumps(version: map<User, nat>, u: User, n: nat): map<User, nat> {
    if n == 0 then version else Incremented(Bumps(version, u, n - 1), u)
  }

  lemma BumpRaises(s: State, e: Event, u: User, s': State)
    requires BumpsVersion(s, e, u) && Step(s, e) == Some(s') && u in s.version
    ensures Effective(s.version, u) < Effective(s'.version, u)
  {
  }

  /** In every run: once an existing key is bumped, no access token minted until then is accepted ever again. */
  lemma BumpIsFinal(s: State, b: Event, u: User, s1: State, after: seq<Event>, s2: State, a: Access)
    requires Reachable(s) && BumpsVersion(s, b, u) && u in s.version
    requires Step(s, b) == Some(s1) && Exec(s1, after) == Some(s2)
    requires a.user == u && a.version <= Effective(s.version, u)
    ensures !Accepted(s2, a)
  {
    ReachableInv(s);
    StepKeepsInv(s, b, s1);
    RunKeepsInv(s1, after, s2);
    BumpRaises(s, b, u, s1);
    assert Effective(s1.version, u) <= Effective(s2.version, u);
  }

  /** From a missing key, n bumps give the effective version max(1, n): the first one changes nothing. */
  lemma {:induction false} EffectiveAfterBumps(version: map<User, nat>, u: User, n: nat)
    requires u !in version
    ensures Effective(Bumps(version, u, n), u) == (if n == 0 then 1 else n)
    ensures u in Bumps(version, u, n) <==> n > 0
  {
    if n > 0 {
      EffectiveAfterBumps(version, u, n - 1);
    }
  }

  /** A bump turns away all tokens minted so far exactly when the key existed; otherwise it turns away none. */
  lemma BumpTurnsAwayIff(s: State, a: Access)
    requires a.version <= Effective(s.version, a.user)
    ensures Accepted(s.(version := Incremented(s.version, a.user)), a) <==> a.user !in s.version && Accepted(s, a)
  {
  }

  /** Presenting a revoked token while its grace entry lives returns the cached pair and changes no row. */
  lemma Replay(s: State, t: Token, j: Job)
    requires t in s.rows && s.rows[t].isRevoked && !Locked(s, t) && j !in s.jobs && GraceLive(s, t)
    ensures Exec(s, [Present(j, t), Lock(j), Lookup(j)]) == Some(Goto(s, j, Finished(t, Granted(s.grace[t].pair))))
  {
    var s1 := Goto(s, j, Waiting(t));
    forall i ensures !(i in s1.jobs && HoldsLock(s1.jobs[i], t)) {
      assert !(i in s.jobs && HoldsLock(s.jobs[i], t));
    }
    ExecCons(s, Present(j, t), [Lock(j), Lookup(j)]);
    WaitingReplays(s1, t, j);
    assert [Present(j, t)] + [Lock(j), Lookup(j)] == [Present(j, t), Lock(j), Lookup(j)];
    assert s1.jobs[j := Finished(t, Granted(s.grace[t].pair))] == s.jobs[j := Finished(t, Granted(s.grace[t].pair))];
  }

  /** How often the user's version is bumped in a run. */
  ghost function BumpCount(s: State, events: seq<Event>, u: User): nat
    requires Exec(s, events).Some?
    decreases |events|
  {
    if events == [] then 0
    else (if BumpsVersion(s, events[0], u) then 1 else 0) + BumpCount(Step(s, events[0]).value, events[1..], u)
  }

  /** What INCR counts from. */
  ghost function Stored(version: map<User, nat>, u: User): nat {
    if u in version then version[u] else 0
  }

  lemma {:induction false} VersionCountsBumps(s: State, events: seq<Event>, s': State, u: User)
    requires Exec(s, events) == Some(s')
    ensures Stored(s'.version, u) == Stored(s.version, u) + BumpCount(s, events, u)
    ensures u in s'.version <==> u in s.version || BumpCount(s, events, u) > 0
    decreases |events|
  {
    if events != [] {
      var m := Step(s, events[0]).value;
      StepCountsBumps(s, events[0], m, u);
      VersionCountsBumps(m, events[1..], s', u);
    }
  }

  lemma StepCountsBumps(s: State, e: Event, s': State, u: User)
    requires Step(s, e) == Some(s')
    ensures Stored(s'.version, u) == Stored(s.version, u) + if BumpsVersion(s, e, u) then 1 else 0
    ensures u in s'.version <==> u in s.version || BumpsVersion(s, e, u)
  {
    if MovesOneJob(e) {
      JobMoves(s, e, s');
    }
  }

  /**
   In every run: at any time after the bump that ends a revoke-all of its user, a token rotated before is looked up
   inside its grace window. It buys an access token of the effective version if and only if the version key had never
   been written before the bump and has not been bumped since.
   */
  lemma ReplayAfterRevokeAllIff(s: State, u: User, t: Token, b: Event, s2: State, mid: seq<Event>,
                                s3: State, j: Job)
    requires Reachable(s) && OwnedRow(s.rows, t, u)
    requires t in s.grace && Accepted(s, s.grace[t].pair.access)
    requires BumpsVersion(s, b, u) && Step(s, b) == Some(s2) && Exec(s2, mid) == Some(s3)
    requires j in s3.jobs && s3.jobs[j].Holding? && s3.jobs[j].token == t && GraceLive(s3, t)
    ensures StepLookup(s3, j) == Some(Goto(s3, j, Finished(t, Granted(s.grace[t].pair))))
    ensures Accepted(StepLookup(s3, j).value, s.grace[t].pair.access) <==> u !in s.version && BumpCount(s2, mid, u) == 0
  {
    ReachableStep(s, b, s2);
    ReachableRun(s2, mid, s3);
    ReplayedPair(s, b, s2, mid, s3, t);
    ReachableInv(s3);
    HolderReadsRevoked(s3, j);
    BumpedOnce(s, b, u, s2, mid, s3);
  }

  lemma ReplayedPair(s: State, b: Event, s2: State, mid: seq<Event>, s3: State, t: Token)
    requires Reachable(s) && t in s.grace && Step(s, b) == Some(s2) && Exec(s2, mid) == Some(s3)
    ensures t in s3.grace && s3.grace[t] == s.grace[t]
    ensures t in s.rows && s.grace[t].pair.access.user == s.rows[t].user
  {
    ReachableInv(s);
    GraceEntryKept(s, b, s2, t);
    StepKeepsInv(s, b, s2);
    GraceEntryIsFinal(s2, mid, s3, t);
  }

  lemma BumpedOnce(s: State, b: Event, u: User, s2: State, mid: seq<Event>, s3: State)
    requires BumpsVersion(s, b, u) && Step(s, b) == Some(s2) && Exec(s2, mid) == Some(s3)
    ensures Effective(s3.version, u) == Effective(s.version, u) <==> u !in s.version && BumpCount(s2, mid, u) == 0
  {
    assert s2.version == Incremented(s.version, u);
    VersionCountsBumps(s2, mid, s3, u);
  }

  // ---------- what an abort, a login and a logout do ----------

  /** Rolling back rejects the refresh and leaves every table as it is; possible until the grace entry is written. */
  lemma AbortRollsBack(s: State, j: Job)
    requires j in s.jobs && (s.jobs[j].Waiting? || Holds(s.jobs[j]))
    ensures Step(s, Abort(j)).Some? <==> !s.jobs[j].GraceWritten?
    ensures Step(s, Abort(j)).Some? ==>
      var s' := Step(s, Abort(j)).value;
      && s' == s.(jobs := s'.jobs) && j in s'.jobs && s'.jobs == s.jobs[j := s'.jobs[j]]
      && s'.jobs[j] == Finished(s.jobs[j].token, Rejected)
  {
  }

  /** No bump, or only the first one ever. */
  ghost predicate StillEffective(s: State, events: seq<Event>, u: User)
    requires Exec(s, events).Some?
  {
    BumpCount(s, events, u) == 0 || (u !in s.version && BumpCount(s, events, u) == 1)
  }

  lemma StillEffectiveIff(s: State, events: seq<Event>, s': State, u: User)
    requires Exec(s, events) == Some(s')
    ensures Effective(s'.version, u) == Effective(s.version, u) <==> StillEffective(s, events, u)
  {
    VersionCountsBumps(s, events, s', u);
  }

  lemma {:induction false} LoginStaysPending(s: State, events: seq<Event>, s': State, j: Job)
    requires Exec(s, events) == Some(s') && j in s.jobs && (s.jobs[j].LoginPending? || s.jobs[j].LoggedIn?)
    ensures j in s'.jobs && (s'.jobs[j] == s.jobs[j] || s'.jobs[j].LoggedIn?)
    decreases |events|
  {
    if events != [] {
      var m := Step(s, events[0]).value;
      OwnEventsOnly(s, events[0], m);
      LoginStaysPending(m, events[1..], s', j);
    }
  }

  /**
   In every run: a login ends with a fresh session that is usable for seven days, and its access token is accepted if
   and only if no bump came between the read of the version and the end, or only the first bump of a missing key.
   */
  lemma LoginAcceptedIff(s: State, j: Job, u: User, s1: State, mid: seq<Event>, s2: State, s3: State)
    requires Reachable(s) && Step(s, LoginStart(j, u)) == Some(s1) && Exec(s1, mid) == Some(s2)
    requires Step(s2, LoginFinish(j)) == Some(s3)
    ensures j in s3.jobs && s3.jobs[j].LoggedIn?
    ensures
      var pair := s3.jobs[j].pair;
      && pair.access.user == u && pair.refresh !in s2.rows
      && s3.rows == s2.rows[pair.refresh := Session(u, false, s2.now + 7 * 86_400_000)]
      && s3.version == s2.version && s3.grace == s2.grace
      && (Accepted(s3, pair.access) <==> StillEffective(s1, mid, u))
  {
    ReachableStep(s, LoginStart(j, u), s1);
    ReachableRun(s1, mid, s2);
    ReachableInv(s2);
    LoginStaysPending(s1, mid, s2, j);
    StillEffectiveIff(s1, mid, s2, u);
  }

  /** Where the version that a rotation has read is kept. */
  ghost predicate Carries(p: Phase, u: User, v: nat) {
    match p
    case VersionRead(_, user, version) => user == u && version == v
    case ChildInserted(_, pair, _) => pair.access.user == u && pair.access.version == v
    case GraceWritten(_, pair, _) => pair.access.user == u && pair.access.version == v
    case Finished(_, Granted(pair)) => pair.access.user == u && pair.access.version == v
    case Finished(_, Rejected) => true
    case _ => false
  }

  lemma CarriedByStep(s: State, e: Event, s': State, j: Job, u: User, v: nat)
    requires Step(s, e) == Some(s') && j in s.jobs && Carries(s.jobs[j], u, v)
    ensures j in s'.jobs && Carries(s'.jobs[j], u, v)
  {
    OwnEventsOnly(s, e, s');
  }

  lemma {:induction false} Carried(s: State, events: seq<Event>, s': State, j: Job, u: User, v: nat)
    requires Exec(s, events) == Some(s') && j in s.jobs && Carries(s.jobs[j], u, v)
    ensures j in s'.jobs && Carries(s'.jobs[j], u, v)
    decreases |events|
  {
    if events != [] {
      var m := Step(s, events[0]).value;
      CarriedByStep(s, events[0], m, j, u, v);
      Carried(m, events[1..], s', j, u, v);
    }
  }

  /** The same for a rotation, from the read of the version on. */
  lemma GrantedAcceptedIff(s: State, j: Job, s1: State, mid: seq<Event>, s2: State)
    requires StepReadVersion(s, j) == Some(s1) && Exec(s1, mid) == Some(s2)
    requires j in s2.jobs && s2.jobs[j].Finished? && s2.jobs[j].reply.Granted?
    ensures
      var u, pair := s.jobs[j].user, s2.jobs[j].reply.pair;
      pair.access.user == u && (Accepted(s2, pair.access) <==> StillEffective(s1, mid, u))
  {
    var u := s.jobs[j].user;
    Carried(s1, mid, s2, j, u, Effective(s1.version, u));
    StillEffectiveIff(s1, mid, s2, u);
  }

  /** A logout revokes exactly the presented session if it is usable and unexpired, and changes nothing otherwise. */
  lemma LogoutRevokes(s: State, t: Token)
    ensures Step(s, Logout(t)).None? <==> Rotatable(s, t) && s.now < s.rows[t].expiresAt && Locked(s, t)
    ensures Step(s, Logout(t)).Some? ==>
      var s' := Step(s, Logout(t)).value;
      && s' == s.(rows := s'.rows)
      && s'.rows == if Rotatable(s, t) && s.now < s.rows[t].expiresAt then s.rows[t := s.rows[t].(isRevoked := true)]
                    else s.rows
  {
  }
}
