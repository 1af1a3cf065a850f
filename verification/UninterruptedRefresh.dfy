/** A refresh that nothing interrupts, as one schedule of the step machine, and the state it ends in. */
module UninterruptedRefresh {
  import opened Wrappers
  import opened TokenRotation
  import opened TokenRotationSafety

  /** Nobody is inside a transaction. */
  ghost predicate Idle(jobs: map<Job, Phase>) {
    forall j :: j in jobs ==> !Holds(jobs[j])
  }

  /** The steps of a refresh that nothing interrupts. */
  ghost function RefreshSchedule(s: State, j: Job, t: Token, hasEmail: bool): seq<Event> {
    [Present(j, t), Lock(j)] +
    if t !in s.rows then []
    else if s.rows[t].isRevoked then
      if GraceLive(s, t) then [Lookup(j)] else [Lookup(j), SelectRowsOnReuse(j), RevokeRowsOnReuse(j), BumpOnReuse(j)]
    else if s.rows[t].expiresAt < s.now || !hasEmail then [Rotate(j, hasEmail)]
    else [Rotate(j, hasEmail), ReadVersion(j), InsertChild(j), WriteGrace(j), Commit(j)]
  }

  /** The state a rotation leaves behind. */
  ghost function Rotated(s: State, j: Job, t: Token): State
    requires t in s.rows
  {
    var u := s.rows[t].user;
    var pair := Pair(Access(u, Effective(s.version, u), s.next), s.next);
    s.(next := s.next + 1,
       rows := s.rows[t := Revoked(s.rows[t])][s.next := Session(u, false, s.now + SESSION_LIFETIME)],
       origin := s.origin[s.next := Some(t)],
       grace := s.grace[t := GraceEntry(pair, s.now + GRACE_TTL)],
       jobs := s.jobs[j := Finished(t, Granted(pair))])
  }

  ghost function ReuseHandled(s: State, j: Job, t: Token): State
    requires t in s.rows
  {
    var u := s.rows[t].user;
    s.(rows := RevokeAllOf(s.rows, UsableOf(s.rows, u)),
       version := Incremented(s.version, u),
       jobs := s.jobs[j := Finished(t, Rejected)])
  }

  lemma LockRuns(s: State, j: Job, t: Token, rest: seq<Event>)
    requires Idle(s.jobs) && j !in s.jobs
    ensures Exec(s, [Present(j, t), Lock(j)] + rest) ==
            Exec(Goto(s, j, if t in s.rows then Holding(t, s.rows[t]) else Finished(t, Rejected)), rest)
  {
    var s1 := Goto(s, j, Waiting(t));
    LockStep(s, j, t);
    ExecCons(s, Present(j, t), [Lock(j)] + rest);
    ExecCons(s1, Lock(j), rest);
    assert [Present(j, t)] + ([Lock(j)] + rest) == [Present(j, t), Lock(j)] + rest;
  }

  lemma LockStep(s: State, j: Job, t: Token)
    requires Idle(s.jobs)
    ensures Step(Goto(s, j, Waiting(t)), Lock(j)) ==
            Some(Goto(s, j, if t in s.rows then Holding(t, s.rows[t]) else Finished(t, Rejected)))
  {
    var s1 := Goto(s, j, Waiting(t));
    assert !Locked(s1, t);
    GotoTwice(s, j, Waiting(t), if t in s.rows then Holding(t, s.rows[t]) else Finished(t, Rejected));
  }

  lemma GotoTwice(s: State, j: Job, p: Phase, q: Phase)
    ensures Goto(Goto(s, j, p), j, q) == Goto(s, j, q)
  {
    assert s.jobs[j := p][j := q] == s.jobs[j := q];
  }

  /** The first half of a rotation: the old session is revoked in the overlay and the pair is minted. */
  lemma MintingRuns(s: State, j: Job, t: Token, rest: seq<Event>)
    requires t in s.rows && j in s.jobs && s.jobs[j] == Holding(t, s.rows[t])
    requires !s.rows[t].isRevoked && s.now <= s.rows[t].expiresAt
    ensures
      var u := s.rows[t].user;
      var pair := Pair(Access(u, Effective(s.version, u), s.next), s.next);
      Exec(s, [Rotate(j, true), ReadVersion(j), InsertChild(j)] + rest) ==
      Exec(Goto(s, j, ChildInserted(t, pair, Session(u, false, s.now + SESSION_LIFETIME))).(next := s.next + 1), rest)
  {
    var u := s.rows[t].user;
    var pair := Pair(Access(u, Effective(s.version, u), s.next), s.next);
    var s1 := Goto(s, j, OldRevoked(t, u));
    var s2 := Goto(s, j, VersionRead(t, u, Effective(s.version, u)));
    var s3 := Goto(s, j, ChildInserted(t, pair, Session(u, false, s.now + SESSION_LIFETIME))).(next := s.next + 1);
    GotoTwice(s, j, OldRevoked(t, u), s2.jobs[j]);
    GotoTwice(s, j, s2.jobs[j], s3.jobs[j]);
    assert Step(s, Rotate(j, true)) == Some(s1);
    assert Step(s1, ReadVersion(j)) == Some(s2);
    assert Step(s2, InsertChild(j)) == Some(s3);
    ExecCons(s, Rotate(j, true), [ReadVersion(j), InsertChild(j)] + rest);
    ExecCons(s1, ReadVersion(j), [InsertChild(j)] + rest);
    ExecCons(s2, InsertChild(j), rest);
    assert [Rotate(j, true)] + ([ReadVersion(j), InsertChild(j)] + rest) ==
      [Rotate(j, true), ReadVersion(j), InsertChild(j)] + rest;
    assert [ReadVersion(j)] + ([InsertChild(j)] + rest) == [ReadVersion(j), InsertChild(j)] + rest;
  }

  lemma CommitRuns(s: State, j: Job)
    requires j in s.jobs && s.jobs[j].ChildInserted? && s.jobs[j].token in s.rows
    ensures
      var t, pair, child := s.jobs[j].token, s.jobs[j].pair, s.jobs[j].row;
      Exec(s, [WriteGrace(j), Commit(j)]) == Some(Goto(s, j, Finished(t, Granted(pair))).(
        rows := s.rows[t := Revoked(s.rows[t])][pair.refresh := child],
        origin := s.origin[pair.refresh := Some(t)],
        grace := s.grace[t := GraceEntry(pair, s.now + GRACE_TTL)]))
  {
    var t, pair, child := s.jobs[j].token, s.jobs[j].pair, s.jobs[j].row;
    var s1 := Goto(s, j, GraceWritten(t, pair, child)).(grace := s.grace[t := GraceEntry(pair, s.now + GRACE_TTL)]);
    var s2 := Step(s1, Commit(j)).value;
    ExecCons(s, WriteGrace(j), [Commit(j)]);
    ExecCons(s1, Commit(j), []);
    assert [WriteGrace(j)] + [Commit(j)] == [WriteGrace(j), Commit(j)] && [Commit(j)] + [] == [Commit(j)];
    assert s2.jobs == s.jobs[j := Finished(t, Granted(pair))];
  }

  lemma RotationRuns(s: State, j: Job, t: Token)
    requires t in s.rows && j in s.jobs && s.jobs[j] == Holding(t, s.rows[t])
    requires !s.rows[t].isRevoked && s.now <= s.rows[t].expiresAt
    ensures Exec(s, [Rotate(j, true), ReadVersion(j), InsertChild(j), WriteGrace(j), Commit(j)]) ==
      Some(Rotated(s, j, t))
  {
    var u := s.rows[t].user;
    var pair := Pair(Access(u, Effective(s.version, u), s.next), s.next);
    var minted := ChildInserted(t, pair, Session(u, false, s.now + SESSION_LIFETIME));
    MintingRuns(s, j, t, [WriteGrace(j), Commit(j)]);
    assert [Rotate(j, true), ReadVersion(j), InsertChild(j)] + [WriteGrace(j), Commit(j)] ==
           [Rotate(j, true), ReadVersion(j), InsertChild(j), WriteGrace(j), Commit(j)];
    MintedCommits(s, j, t, pair);
  }

  lemma MintedCommits(s: State, j: Job, t: Token, pair: Pair)
    requires t in s.rows && pair == Pair(Access(s.rows[t].user, Effective(s.version, s.rows[t].user), s.next), s.next)
    ensures
      var minted := ChildInserted(t, pair, Session(s.rows[t].user, false, s.now + SESSION_LIFETIME));
      Exec(Goto(s, j, minted).(next := s.next + 1), [WriteGrace(j), Commit(j)]) == Some(Rotated(s, j, t))
  {
    var minted := ChildInserted(t, pair, Session(s.rows[t].user, false, s.now + SESSION_LIFETIME));
    CommitRuns(Goto(s, j, minted).(next := s.next + 1), j);
    GotoTwice(s, j, minted, Finished(t, Granted(pair)));
  }

  /** An update of the user's rows with no lock to wait for. */
  lemma NothingToWaitFor(s: State, j: Job, u: User)
    requires forall i :: i in s.jobs && i != j ==> !Holds(s.jobs[i])
    requires j in s.jobs && Holds(s.jobs[j]) ==> s.jobs[j].token in s.rows && s.rows[s.jobs[j].token].isRevoked
    ensures Free(s, UsableOf(s.rows, u))
  {
  }

  lemma ReuseRuns(s: State, j: Job, t: Token)
    requires t in s.rows && j in s.jobs && s.jobs[j] == Holding(t, s.rows[t])
    requires forall i :: i in s.jobs && i != j ==> !Holds(s.jobs[i])
    requires s.rows[t].isRevoked && !GraceLive(s, t)
    ensures Exec(s, [Lookup(j), SelectRowsOnReuse(j), RevokeRowsOnReuse(j), BumpOnReuse(j)]) ==
      Some(ReuseHandled(s, j, t))
  {
    var u := s.rows[t].user;
    var s1 := Goto(s, j, ReuseFound(t, u));
    var s2 := Goto(s, j, ReuseSelected(t, u, UsableOf(s.rows, u)));
    GotoTwice(s, j, s1.jobs[j], s2.jobs[j]);
    var rest := [RevokeRowsOnReuse(j), BumpOnReuse(j)];
    SelectingRuns(s, s1, s2, j, rest);
    ReuseUpdateRuns(s, j, t, s2);
    assert [Lookup(j)] + ([SelectRowsOnReuse(j)] + rest) ==
      [Lookup(j), SelectRowsOnReuse(j), RevokeRowsOnReuse(j), BumpOnReuse(j)];
  }

  lemma SelectingRuns(s: State, s1: State, s2: State, j: Job, rest: seq<Event>)
    requires StepLookup(s, j) == Some(s1) && StepSelectRowsOnReuse(s1, j) == Some(s2)
    ensures Exec(s, [Lookup(j)] + ([SelectRowsOnReuse(j)] + rest)) == Exec(s2, rest)
  {
    ExecCons(s, Lookup(j), [SelectRowsOnReuse(j)] + rest);
    ExecCons(s1, SelectRowsOnReuse(j), rest);
  }

  lemma ReuseUpdateRuns(s: State, j: Job, t: Token, m: State)
    requires t in s.rows && s.rows[t].isRevoked && j in s.jobs
    requires forall i :: i in s.jobs && i != j ==> !Holds(s.jobs[i])
    requires m == Goto(s, j, ReuseSelected(t, s.rows[t].user, UsableOf(s.rows, s.rows[t].user)))
    ensures Exec(m, [RevokeRowsOnReuse(j), BumpOnReuse(j)]) == Some(ReuseHandled(s, j, t))
  {
    var u := s.rows[t].user;
    NothingToWaitFor(m, j, u);
    var m1 := Goto(m, j, RowsRevoked(t, u)).(rows := RevokeAllOf(s.rows, UsableOf(s.rows, u)));
    GotoTwice(s, j, m.jobs[j], RowsRevoked(t, u));
    GotoTwice(s, j, RowsRevoked(t, u), Finished(t, Rejected));
    ExecCons(m, RevokeRowsOnReuse(j), [BumpOnReuse(j)]);
    ExecCons(m1, BumpOnReuse(j), []);
    assert [RevokeRowsOnReuse(j)] + [BumpOnReuse(j)] == [RevokeRowsOnReuse(j), BumpOnReuse(j)];
    assert [BumpOnReuse(j)] + [] == [BumpOnReuse(j)];
  }

  /** A revoke-all by a request of its own. */
  ghost function RevokedAll(s: State, j: Job, u: User): State {
    Goto(s, j, Updated(u)).(rows := RevokeAllOf(s.rows, UsableOf(s.rows, u)), version := Incremented(s.version, u))
  }

  lemma RevokeAllRuns(s: State, j: Job, u: User)
    requires Idle(s.jobs) && j !in s.jobs
    ensures Exec(s, [SelectRows(j, u), RevokeRows(j), Bump(u)]) == Some(RevokedAll(s, j, u))
  {
    var s1 := Goto(s, j, Selected(u, UsableOf(s.rows, u)));
    var s2 := Goto(s, j, Updated(u)).(rows := RevokeAllOf(s.rows, UsableOf(s.rows, u)));
    NothingToWaitFor(s1, j, u);
    GotoTwice(s, j, s1.jobs[j], Updated(u));
    ExecCons(s, SelectRows(j, u), [RevokeRows(j), Bump(u)]);
    UpdateAndBump(s1, j, u, s2);
    assert [SelectRows(j, u)] + [RevokeRows(j), Bump(u)] == [SelectRows(j, u), RevokeRows(j), Bump(u)];
  }

  lemma UpdateAndBump(s: State, j: Job, u: User, s': State)
    requires StepRevokeRows(s, j) == Some(s')
    ensures Exec(s, [RevokeRows(j), Bump(u)]) == Some(s'.(version := Incremented(s'.version, u)))
  {
    ExecCons(s, RevokeRows(j), [Bump(u)]);
    ExecCons(s', Bump(u), []);
    assert [RevokeRows(j)] + [Bump(u)] == [RevokeRows(j), Bump(u)] && [Bump(u)] + [] == [Bump(u)];
  }

  /** What an uninterrupted refresh makes of the state. */
  ghost function Refreshed(s: State, j: Job, t: Token, hasEmail: bool): State {
    if t !in s.rows then Goto(s, j, Finished(t, Rejected))
    else if s.rows[t].isRevoked then
      if GraceLive(s, t) then Goto(s, j, Finished(t, Granted(s.grace[t].pair))) else ReuseHandled(s, j, t)
    else if s.rows[t].expiresAt < s.now || !hasEmail then Goto(s, j, Finished(t, Rejected))
    else Rotated(s, j, t)
  }

  // ---------- what a refresh does, said without its schedule ----------

  /** Unknown, expired, or without an e-mail in its claims. */
  ghost predicate Refusable(s: State, t: Token, hasEmail: bool) {
    t !in s.rows || (!s.rows[t].isRevoked && (s.rows[t].expiresAt < s.now || !hasEmail))
  }

  ghost predicate Replayable(s: State, t: Token) {
    t in s.rows && s.rows[t].isRevoked && t in s.grace && s.now < s.grace[t].expiresAt
  }

  ghost predicate Reused(s: State, t: Token) {
    t in s.rows && s.rows[t].isRevoked && !(t in s.grace && s.now < s.grace[t].expiresAt)
  }

  ghost predicate SameTables(s: State, s': State) {
    s'.rows == s.rows && s'.version == s.version && s'.grace == s.grace && s'.now == s.now
  }

  /** The old session is revoked, a new one is usable for seven days, and the accepted pair is kept for 15 seconds. */
  ghost predicate HasRotated(s: State, s': State, t: Token, pair: Pair) {
    && t in s.rows && pair.refresh !in s.rows
    && s'.rows == s.rows[t := s.rows[t].(isRevoked := true)]
                        [pair.refresh := Session(s.rows[t].user, false, s.now + 7 * 86_400_000)]
    && pair.access.user == s.rows[t].user && Accepted(s', pair.access)
    && s'.grace == s.grace[t := GraceEntry(pair, s.now + 15_000)]
    && s'.version == s.version && s'.now == s.now
  }

  /** All sessions of the user are revoked, nobody else's are touched, and the user's counter has grown by one. */
  ghost predicate HasRevokedAll(s: State, s': State, u: User) {
    && s'.rows.Keys == s.rows.Keys && s'.now == s.now
    && (forall t :: t in s.rows && s.rows[t].user == u ==> s'.rows[t] == Session(u, true, s.rows[t].expiresAt))
    && (forall t :: t in s.rows && s.rows[t].user != u ==> s'.rows[t] == s.rows[t])
    && s'.version == s.version[u := if u in s.version then s.version[u] + 1 else 1]
  }

  /** An uninterrupted refresh in each of its four cases. */
  lemma RefreshEffects(s: State, j: Job, t: Token, hasEmail: bool)
    requires Inv(s) && Idle(s.jobs) && j !in s.jobs
    ensures Exec(s, RefreshSchedule(s, j, t, hasEmail)).Some?
    ensures
      var s' := Exec(s, RefreshSchedule(s, j, t, hasEmail)).value;
      && j in s'.jobs && s'.jobs[j].Finished? && s'.jobs[j].token == t
      && (Refusable(s, t, hasEmail) ==> s'.jobs[j].reply == Rejected && SameTables(s, s'))
      && (Rotatable(s, t) && hasEmail ==> s'.jobs[j].reply.Granted? && HasRotated(s, s', t, s'.jobs[j].reply.pair))
      && (Replayable(s, t) ==> s'.jobs[j].reply == Granted(s.grace[t].pair) && SameTables(s, s'))
      && (Reused(s, t) ==>
            s'.jobs[j].reply == Rejected && s'.grace == s.grace && HasRevokedAll(s, s', s.rows[t].user))
  {
    RefreshRuns(s, j, t, hasEmail);
    if Rotatable(s, t) && hasEmail {
      RotationEffects(s, j, t);
    } else if Reused(s, t) {
      ReuseEffects(s, j, t);
    }
  }

  lemma RotationEffects(s: State, j: Job, t: Token)
    requires Inv(s) && Rotatable(s, t)
    ensures
      var s' := Rotated(s, j, t);
      s'.jobs[j].reply.Granted? && HasRotated(s, s', t, s'.jobs[j].reply.pair)
  {
    assert s.next !in s.rows;
  }

  lemma ReuseEffects(s: State, j: Job, t: Token)
    requires Reused(s, t)
    ensures HasRevokedAll(s, ReuseHandled(s, j, t), s.rows[t].user)
  {
    RevokesOneUser(s.rows, s.rows[t].user);
  }

  lemma RevokesOneUser(rows: Rows, u: User)
    ensures
      var rows' := RevokeAllOf(rows, UsableOf(rows, u));
      && rows'.Keys == rows.Keys
      && (forall t :: t in rows && rows[t].user == u ==> rows'[t] == Session(u, true, rows[t].expiresAt))
      && (forall t :: t in rows && rows[t].user != u ==> rows'[t] == rows[t])
  {
  }

  lemma RevokeAllEffects(s: State, j: Job, u: User)
    requires Idle(s.jobs) && j !in s.jobs
    ensures Exec(s, [SelectRows(j, u), RevokeRows(j), Bump(u)]).Some?
    ensures HasRevokedAll(s, Exec(s, [SelectRows(j, u), RevokeRows(j), Bump(u)]).value, u)
  {
    RevokeAllRuns(s, j, u);
    RevokesOneUser(s.rows, u);
    assert HasRevokedAll(s, RevokedAll(s, j, u), u);
  }

  // ---------- a login that nothing interrupts ----------

  ghost function LoggedInAs(s: State, j: Job, u: User): State {
    var pair := Pair(Access(u, Effective(s.version, u), s.next), s.next);
    Goto(s, j, LoggedIn(pair)).(
      next := s.next + 1,
      rows := s.rows[s.next := Session(u, false, s.now + SESSION_LIFETIME)],
      origin := s.origin[s.next := None])
  }

  lemma LoginRuns(s: State, j: Job, u: User)
    requires j !in s.jobs
    ensures Exec(s, [LoginStart(j, u), LoginFinish(j)]) == Some(LoggedInAs(s, j, u))
  {
    var s1 := Goto(s, j, LoginPending(u, Effective(s.version, u)));
    GotoTwice(s, j, s1.jobs[j], LoggedInAs(s, j, u).jobs[j]);
    ExecCons(s, LoginStart(j, u), [LoginFinish(j)]);
    ExecCons(s1, LoginFinish(j), []);
    assert [LoginStart(j, u)] + [LoginFinish(j)] == [LoginStart(j, u), LoginFinish(j)];
    assert [LoginFinish(j)] + [] == [LoginFinish(j)];
  }

  lemma RefreshedIsIdle(s: State, j: Job, t: Token, hasEmail: bool)
    requires Idle(s.jobs)
    ensures Idle(Refreshed(s, j, t, hasEmail).jobs)
  {
  }

  lemma LoginEffects(s: State, j: Job, u: User)
    requires Reachable(s) && Idle(s.jobs) && j !in s.jobs
    ensures Exec(s, [LoginStart(j, u), LoginFinish(j)]) == Some(LoggedInAs(s, j, u))
    ensures Reachable(LoggedInAs(s, j, u)) && Idle(LoggedInAs(s, j, u).jobs)
    ensures s.next !in s.rows && Accepted(LoggedInAs(s, j, u), LoggedInAs(s, j, u).jobs[j].pair.access)
  {
    LoginRuns(s, j, u);
    ReachableRun(s, [LoginStart(j, u), LoginFinish(j)], LoggedInAs(s, j, u));
    ReachableInv(s);
  }

  /** What follows once the lock is held. */
  lemma BranchRuns(s: State, m: State, j: Job, t: Token, hasEmail: bool)
    requires Idle(s.jobs) && t in s.rows && m == Goto(s, j, Holding(t, s.rows[t]))
    ensures Exec(m, RefreshSchedule(s, j, t, hasEmail)[2..]) == Some(Refreshed(s, j, t, hasEmail))
  {
    if s.rows[t].isRevoked && !GraceLive(s, t) {
      ReuseBranchRuns(s, m, j, t, hasEmail);
    } else if !s.rows[t].isRevoked && s.now <= s.rows[t].expiresAt && hasEmail {
      RotationBranchRuns(s, m, j, t);
    } else {
      OneStepRuns(s, m, j, t, hasEmail);
    }
  }

  lemma ReuseBranchRuns(s: State, m: State, j: Job, t: Token, hasEmail: bool)
    requires Idle(s.jobs) && t in s.rows && m == Goto(s, j, Holding(t, s.rows[t]))
    requires s.rows[t].isRevoked && !GraceLive(s, t)
    ensures Exec(m, RefreshSchedule(s, j, t, hasEmail)[2..]) == Some(Refreshed(s, j, t, hasEmail))
  {
    ReuseRuns(m, j, t);
    assert RefreshSchedule(s, j, t, hasEmail)[2..] ==
      [Lookup(j), SelectRowsOnReuse(j), RevokeRowsOnReuse(j), BumpOnReuse(j)];
    GotoTwice(s, j, m.jobs[j], Finished(t, Rejected));
  }

  lemma RotationBranchRuns(s: State, m: State, j: Job, t: Token)
    requires t in s.rows && m == Goto(s, j, Holding(t, s.rows[t]))
    requires !s.rows[t].isRevoked && s.now <= s.rows[t].expiresAt
    ensures Exec(m, RefreshSchedule(s, j, t, true)[2..]) == Some(Refreshed(s, j, t, true))
  {
    RotationRuns(m, j, t);
    assert RefreshSchedule(s, j, t, true)[2..] ==
      [Rotate(j, true), ReadVersion(j), InsertChild(j), WriteGrace(j), Commit(j)];
    GotoTwice(s, j, m.jobs[j], Rotated(s, j, t).jobs[j]);
  }

  /** A replay, or a session that has expired or lost its e-mail. */
  lemma OneStepRuns(s: State, m: State, j: Job, t: Token, hasEmail: bool)
    requires t in s.rows && m == Goto(s, j, Holding(t, s.rows[t]))
    requires if s.rows[t].isRevoked then GraceLive(s, t) else s.rows[t].expiresAt < s.now || !hasEmail
    ensures Exec(m, RefreshSchedule(s, j, t, hasEmail)[2..]) == Some(Refreshed(s, j, t, hasEmail))
  {
    var e := if s.rows[t].isRevoked then Lookup(j) else Rotate(j, hasEmail);
    ExecCons(m, e, []);
    assert [e] + [] == RefreshSchedule(s, j, t, hasEmail)[2..];
    assert Step(m, e).value.jobs == Refreshed(s, j, t, hasEmail).jobs;
  }

  lemma RefreshRuns(s: State, j: Job, t: Token, hasEmail: bool)
    requires Idle(s.jobs) && j !in s.jobs
    ensures Exec(s, RefreshSchedule(s, j, t, hasEmail)) == Some(Refreshed(s, j, t, hasEmail))
  {
    var rest := RefreshSchedule(s, j, t, hasEmail)[2..];
    assert RefreshSchedule(s, j, t, hasEmail) == [Present(j, t), Lock(j)] + rest;
    LockRuns(s, j, t, rest);
    if t in s.rows {
      BranchRuns(s, Goto(s, j, Holding(t, s.rows[t])), j, t, hasEmail);
    }
  }
}

/** The gap of the first revoke-all of a user is not only possible but reachable. */
module FirstRevokeAll {
  import opened Wrappers
  import opened TokenRotation
  import opened TokenRotationSafety
  import opened TokenRotationTheorems
  import opened RevokeAll
  import opened Overtaking
  import opened UninterruptedRefresh

  lemma FirstLogin(u: User) returns (s: State)
    ensures Exec(INITIAL, [LoginStart(0, u), LoginFinish(0)]) == Some(s)
    ensures s.rows == map[0 := Session(u, false, SESSION_LIFETIME)] && s.next == 1 && s.now == 0
    ensures s.version == map[] && s.jobs == map[0 := LoggedIn(Pair(Access(u, 1, 0), 0))]
  {
    s := LoggedInAs(INITIAL, 0, u);
    LoginRuns(INITIAL, 0, u);
  }

  lemma FirstRotation(u: User) returns (s: State)
    ensures Reachable(s) && RevokedRow(s.rows, 0, u) && u !in s.version && Idle(s.jobs) && 2 !in s.jobs && 3 !in s.jobs
    ensures GraceLive(s, 0) && s.grace[0].pair.access == Access(u, 1, 1)
  {
    var s1 := FirstLogin(u);
    RefreshRuns(s1, 1, 0, true);
    s := Rotated(s1, 1, 0);
    ExecAppend(INITIAL, [LoginStart(0, u), LoginFinish(0)], RefreshSchedule(s1, 1, 0, true));
  }

  /** One login, one refresh, the user's first revoke-all: the old token still buys an accepted access token. */
  lemma ReplayGapIsReachable(u: User) returns (s: State, s': State)
    ensures Reachable(s) && OwnedRow(s.rows, 0, u) && u !in s.version && Idle(s.jobs) && 2 !in s.jobs && 3 !in s.jobs
    ensures Exec(s, [SelectRows(2, u), RevokeRows(2), Bump(u)] + [Present(3, 0), Lock(3), Lookup(3)]) == Some(s')
    ensures 3 in s'.jobs && s'.jobs[3].Finished? && s'.jobs[3].token == 0
    ensures s'.jobs[3].reply.Granted? && Accepted(s', s'.jobs[3].reply.pair.access)
  {
    s := FirstRotation(u);
    RevokeAllRuns(s, 2, u);
    var s3 := RevokedAll(s, 2, u);
    ExecAppend(s, [SelectRows(2, u), RevokeRows(2), Bump(u)], [Present(3, 0), Lock(3), Lookup(3)]);
    assert !Locked(s3, 0);
    Replay(s3, 0, 3);
    s' := Exec(s3, [Present(3, 0), Lock(3), Lookup(3)]).value;
  }

  /** The other gap: after a login, with the version key present, a revoke-all can be overtaken by a refresh. */
  lemma OvertakingIsReachable(u: User) returns (s: State, mid: seq<Event>, s2: State, s3: State)
    ensures Reachable(s) && u in s.version && RevokesRows(s, 1, u, mid, s2, s3) && Overtook(s3, s, u)
  {
    var s1 := FirstLogin(u);
    s := s1.(version := Incremented(s1.version, u));
    assert Reachable(s) by {
      assert Reachable(s1);
      ReachableStep(s1, Bump(u), s);
    }
    assert CanRotate(s, 0) && 0 in TokensOf(s, u);
    OvertakableIff(s, 1, u);
    mid, s2, s3 :| RevokesRows(s, 1, u, mid, s2, s3) && Overtook(s3, s, u);
  }
}
