/** The inductive invariant of refresh-token rotation and what every schedule keeps. */
module TokenRotationSafety {
  import opened Wrappers
  import opened TokenRotation

  type Rows = map<Token, Session>
  type Origin = map<Token, Option<Token>>
  type Jobs = map<Job, Phase>

  // ---------- the invariant ----------

  ghost predicate ChildOf(origin: Origin, c: Token, p: Token) {
    c in origin && origin[c] == Some(p)
  }

  ghost predicate Siblings(origin: Origin, c: Token, d: Token) {
    c in origin && d in origin && origin[c].Some? && origin[c] == origin[d]
  }

  /** Ids grow from parent to child; a parent is revoked and belongs to the same user. */
  ghost predicate ParentsRevoked(rows: Rows, origin: Origin) {
    forall c, p :: ChildOf(origin, c, p) ==>
      && c in rows && p in rows && p < c && rows[p].isRevoked && rows[p].user == rows[c].user
  }

  /** Sessions form a forest whose branches do not fork. */
  ghost predicate Forest(rows: Rows, origin: Origin, next: Token) {
    && origin.Keys == rows.Keys
    && (forall t :: t in rows ==> t < next)
    && ParentsRevoked(rows, origin)
    && (forall c, d :: Siblings(origin, c, d) ==> c == d)
  }

  ghost predicate LockClash(jobs: Jobs, i: Job, j: Job) {
    i in jobs && j in jobs && Holds(jobs[i]) && Holds(jobs[j]) && jobs[i].token == jobs[j].token
  }

  /** A running refresh has minted a child token it has not committed. */
  ghost predicate HasPending(p: Phase) {
    p.ChildInserted? || p.GraceWritten?
  }

  ghost predicate PendingClash(jobs: Jobs, i: Job, j: Job) {
    i in jobs && j in jobs && HasPending(jobs[i]) && HasPending(jobs[j]) && jobs[i].pair.refresh == jobs[j].pair.refresh
  }

  ghost predicate PendingFresh(jobs: Jobs, rows: Rows, next: Token) {
    forall j :: j in jobs && HasPending(jobs[j]) ==> jobs[j].pair.refresh < next && jobs[j].pair.refresh !in rows
  }

  ghost predicate Exclusive(jobs: Jobs) {
    && (forall i, j :: LockClash(jobs, i, j) ==> i == j)
    && (forall i, j :: PendingClash(jobs, i, j) ==> i == j)
  }

  ghost predicate OwnedRow(rows: Rows, t: Token, u: User) {
    t in rows && rows[t].user == u
  }

  ghost predicate GoodPair(version: map<User, nat>, p: Pair, u: User) {
    p.access.user == u && p.access.version <= Effective(version, u)
  }

  ghost predicate UsableRow(rows: Rows, t: Token, u: User) {
    OwnedRow(rows, t, u) && !rows[t].isRevoked
  }

  ghost predicate RevokedRow(rows: Rows, t: Token, u: User) {
    OwnedRow(rows, t, u) && rows[t].isRevoked
  }

  /** A session that a refresh with an e-mail in its claims may rotate. */
  ghost predicate Rotatable(s: State, t: Token) {
    t in s.rows && !s.rows[t].isRevoked && s.now <= s.rows[t].expiresAt
  }

  ghost predicate AllOwned(rows: Rows, selected: set<Token>, u: User) {
    forall t :: t in selected ==> OwnedRow(rows, t, u)
  }

  /** The lock keeps the row as it was read: it stays usable while it is rotated, and revoked once found so. */
  ghost predicate GoodPhase(s: State, p: Phase) {
    match p
    case Waiting(_) => true
    case Holding(t, row) => t in s.rows && s.rows[t] == row
    case OldRevoked(t, u) => UsableRow(s.rows, t, u)
    case VersionRead(t, u, v) => UsableRow(s.rows, t, u) && v <= Effective(s.version, u)
    case ChildInserted(t, pair, row) =>
      && UsableRow(s.rows, t, row.user) && !row.isRevoked
      && t < pair.refresh && GoodPair(s.version, pair, row.user)
    case GraceWritten(t, pair, row) =>
      && UsableRow(s.rows, t, row.user) && !row.isRevoked
      && t < pair.refresh && GoodPair(s.version, pair, row.user)
      && t in s.grace && s.grace[t].pair == pair
    case ReuseFound(t, u) => RevokedRow(s.rows, t, u)
    case ReuseSelected(t, u, selected) => RevokedRow(s.rows, t, u) && AllOwned(s.rows, selected, u) && t !in selected
    case RowsRevoked(t, u) => RevokedRow(s.rows, t, u)
    case Finished(t, reply) =>
      reply.Granted? ==> t in s.grace && s.grace[t].pair == reply.pair && ChildOf(s.origin, reply.pair.refresh, t)
    case LoginPending(u, v) => v <= Effective(s.version, u)
    case LoggedIn(pair) => GoodPair(s.version, pair, pair.access.user)
    case Selected(u, selected) => AllOwned(s.rows, selected, u)
    case Updated(_) => true
  }

  ghost predicate GoodJobs(s: State) {
    forall j :: j in s.jobs ==> GoodPhase(s, s.jobs[j])
  }

  ghost predicate WritesGrace(jobs: Jobs, j: Job, t: Token) {
    j in jobs && jobs[j].GraceWritten? && jobs[j].token == t
  }

  ghost predicate Awaited(jobs: Jobs, t: Token) {
    exists j :: WritesGrace(jobs, j, t)
  }

  /** A grace entry belongs to the one child of its token, committed or about to be. */
  ghost predicate GoodGrace(s: State) {
    && (forall t :: t in s.grace ==> t in s.rows && GoodPair(s.version, s.grace[t].pair, s.rows[t].user))
    && (forall t :: t in s.grace ==> ChildOf(s.origin, s.grace[t].pair.refresh, t) || Awaited(s.jobs, t))
    && (forall c, p :: ChildOf(s.origin, c, p) ==> p in s.grace && s.grace[p].pair.refresh == c)
  }

  ghost predicate Inv(s: State) {
    && Forest(s.rows, s.origin, s.next)
    && Exclusive(s.jobs)
    && PendingFresh(s.jobs, s.rows, s.next)
    && GoodJobs(s)
    && GoodGrace(s)
  }

  // ---------- what a step may change ----------

  /** Rows stay, keep their user and expiry, and never become unrevoked. */
  ghost predicate RowsGrow(rows: Rows, rows': Rows) {
    forall t :: t in rows ==>
      && OwnedRow(rows', t, rows[t].user)
      && rows'[t].expiresAt == rows[t].expiresAt
      && (rows[t].isRevoked ==> rows'[t].isRevoked)
  }

  ghost predicate VersionsGrow(version: map<User, nat>, version': map<User, nat>) {
    forall u :: Effective(version, u) <= Effective(version', u)
  }

  ghost predicate Grows(s: State, s': State) {
    && RowsGrow(s.rows, s'.rows)
    && (forall t :: t in s.origin ==> t in s'.origin && s'.origin[t] == s.origin[t])
    && VersionsGrow(s.version, s'.version)
    && s.next <= s'.next
    && s.now <= s'.now
  }

  lemma RowsGrowTransitive(a: Rows, b: Rows, c: Rows)
    requires RowsGrow(a, b) && RowsGrow(b, c)
    ensures RowsGrow(a, c)
  {
    forall t | t in a
      ensures OwnedRow(c, t, a[t].user) && c[t].expiresAt == a[t].expiresAt && (a[t].isRevoked ==> c[t].isRevoked)
    {
      assert OwnedRow(b, t, a[t].user) && OwnedRow(c, t, b[t].user);
    }
  }

  lemma GrowsTransitive(a: State, b: State, c: State)
    requires Grows(a, b) && Grows(b, c)
    ensures Grows(a, c)
  {
    RowsGrowTransitive(a.rows, b.rows, c.rows);
    forall u ensures Effective(a.version, u) <= Effective(c.version, u) {
      assert Effective(a.version, u) <= Effective(b.version, u) <= Effective(c.version, u);
    }
  }

  lemma IncrementedGrows(version: map<User, nat>, u: User)
    ensures VersionsGrow(version, Incremented(version, u))
  {
  }

  predicate IsMinting(e: Event) {
    e.Rotate? || e.ReadVersion? || e.InsertChild?
  }

  /** Events that only move their own job: everything inside a transaction before its grace entry, and snapshots. */
  predicate MovesOneJob(e: Event) {
    IsMinting(e) || e.LoginStart? || e.Present? || e.Lock? || e.Lookup? || e.Abort? || e.SelectRows? ||
      e.SelectRowsOnReuse?
  }

  /** A step that moves job `j` and no table. */
  ghost predicate OnlyMoves(s: State, s': State, j: Job) {
    && s' == s.(jobs := s'.jobs, next := s'.next) && s.next <= s'.next
    && j in s'.jobs && s'.jobs == s.jobs[j := s'.jobs[j]]
  }

  lemma MintingMoves(s: State, e: Event, s': State)
    requires IsMinting(e) && Step(s, e) == Some(s')
    ensures OnlyMoves(s, s', e.job)
  {
  }

  lemma JobMoves(s: State, e: Event, s': State)
    requires MovesOneJob(e) && Step(s, e) == Some(s')
    ensures OnlyMoves(s, s', e.job)
  {
    if IsMinting(e) {
      MintingMoves(s, e, s');
    }
  }

  predicate HasJob(e: Event) {
    !e.Tick? && !e.Logout? && !e.Bump?
  }

  /** A request is moved by its own events only. */
  lemma OwnEventsOnly(s: State, e: Event, s': State)
    requires Step(s, e) == Some(s')
    ensures if HasJob(e) then e.job in s'.jobs && s'.jobs == s.jobs[e.job := s'.jobs[e.job]] else s'.jobs == s.jobs
  {
    if MovesOneJob(e) {
      JobMoves(s, e, s');
    }
  }

  /** Only a commit or a login makes a session, and only a commit makes one from another. */
  lemma OriginsStay(s: State, e: Event, s': State)
    requires Step(s, e) == Some(s') && !e.Commit?
    ensures forall c, p :: ChildOf(s'.origin, c, p) ==> ChildOf(s.origin, c, p)
  {
    if MovesOneJob(e) {
      JobMoves(s, e, s');
    }
  }

  lemma GraceStays(s: State, e: Event, s': State)
    requires Step(s, e) == Some(s') && !e.WriteGrace?
    ensures s'.grace == s.grace
  {
    if MovesOneJob(e) {
      JobMoves(s, e, s');
    }
  }

  lemma OnlyMovesGrows(s: State, s': State, j: Job)
    requires OnlyMoves(s, s', j)
    ensures Grows(s, s')
  {
  }

  lemma CommitGrows(s: State, j: Job, s': State)
    requires Inv(s) && StepCommit(s, j) == Some(s')
    ensures Grows(s, s')
  {
    assert HasPending(s.jobs[j]);
  }

  lemma LoginGrows(s: State, j: Job, s': State)
    requires Inv(s) && StepLogin(s, j) == Some(s')
    ensures Grows(s, s')
  {
  }

  lemma TableGrows(s: State, s': State)
    requires s' == s.(rows := s'.rows, grace := s'.grace, version := s'.version, now := s'.now, jobs := s'.jobs)
    requires RowsGrow(s.rows, s'.rows) && VersionsGrow(s.version, s'.version) && s.now <= s'.now
    ensures Grows(s, s')
  {
  }

  lemma StepGrows(s: State, e: Event, s': State)
    requires Inv(s) && Step(s, e) == Some(s')
    ensures Grows(s, s')
  {
    if MovesOneJob(e) {
      JobMoves(s, e, s');
      OnlyMovesGrows(s, s', e.job);
    } else if e.Commit? {
      CommitGrows(s, e.job, s');
    } else if e.LoginFinish? {
      LoginGrows(s, e.job, s');
    } else {
      TableStepGrows(s, e, s');
    }
  }

  lemma TableStepGrows(s: State, e: Event, s': State)
    requires Step(s, e) == Some(s')
    requires e.Tick? || e.Bump? || e.BumpOnReuse? || e.WriteGrace? || e.Logout? || e.RevokeRows? || e.RevokeRowsOnReuse?
    ensures Grows(s, s')
  {
    match e
    case Bump(u) => IncrementedGrows(s.version, u);
    case BumpOnReuse(j) => IncrementedGrows(s.version, s.jobs[j].user);
    case Logout(t) => LogoutGrows(s, t, s');
    case RevokeRows(j) => UpdateGrows(s.rows, s.jobs[j].selected);
    case RevokeRowsOnReuse(j) => UpdateGrows(s.rows, s.jobs[j].selected);
    case _ =>
    TableGrows(s, s');
  }

  lemma UpdateGrows(rows: Rows, selected: set<Token>)
    ensures RowsGrow(rows, RevokeAllOf(rows, selected))
  {
  }

  lemma LogoutGrows(s: State, t: Token, s': State)
    requires StepLogout(s, t) == Some(s')
    ensures RowsGrow(s.rows, s'.rows)
  {
  }

  // ---------- every step keeps the invariant ----------

  /** A step leaves a row alone. */
  ghost predicate SameRow(s: State, s': State, t: Token) {
    t in s.rows ==> t in s'.rows && s'.rows[t] == s.rows[t]
  }

  /** Another request's phase stays good, provided the row it has locked and its grace entry stay. */
  lemma PhaseStable(s: State, s': State, p: Phase)
    requires GoodPhase(s, p) && Grows(s, s')
    requires Holds(p) ==> SameRow(s, s', p.token)
    requires (p.GraceWritten? || p.Finished?) && p.token in s.grace ==>
      p.token in s'.grace && s'.grace[p.token] == s.grace[p.token]
    ensures GoodPhase(s', p)
  {
    if p.VersionRead? || p.LoginPending? {
      assert Effective(s.version, p.user) <= Effective(s'.version, p.user);
    } else if p.ChildInserted? || p.GraceWritten? || p.LoggedIn? {
      assert Effective(s.version, p.pair.access.user) <= Effective(s'.version, p.pair.access.user);
    } else if p.Selected? || p.ReuseSelected? {
      SelectionStable(s, s', p.selected, p.user);
    }
  }

  lemma SelectionStable(s: State, s': State, selected: set<Token>, u: User)
    requires AllOwned(s.rows, selected, u) && Grows(s, s')
    ensures AllOwned(s'.rows, selected, u)
  {
    forall t | t in selected ensures OwnedRow(s'.rows, t, u) {
      assert OwnedRow(s.rows, t, u);
    }
  }

  /** All jobs but `j` keep their phase; their locked rows and grace entries stay. */
  lemma OthersStable(s: State, s': State, j: Job)
    requires GoodJobs(s) && Grows(s, s') && s'.jobs.Keys == s.jobs.Keys + {j}
    requires forall i :: i in s.jobs && i != j ==> s'.jobs[i] == s.jobs[i]
    requires forall i :: i in s.jobs && i != j && Holds(s.jobs[i]) ==> SameRow(s, s', s.jobs[i].token)
    requires forall i ::
      i in s.jobs && i != j && (s.jobs[i].GraceWritten? || s.jobs[i].Finished?) && s.jobs[i].token in s.grace ==>
      s.jobs[i].token in s'.grace && s'.grace[s.jobs[i].token] == s.grace[s.jobs[i].token]
    requires GoodPhase(s', s'.jobs[j])
    ensures GoodJobs(s')
  {
    forall i | i in s'.jobs && i != j ensures GoodPhase(s', s'.jobs[i]) {
      PhaseStable(s, s', s.jobs[i]);
    }
  }

  /** The moved job takes no lock another job holds and no child token another job has minted. */
  lemma ExclusiveKept(jobs: Jobs, j: Job, p: Phase)
    requires Exclusive(jobs)
    requires Holds(p) ==> forall i :: i in jobs && i != j ==> !HoldsLock(jobs[i], p.token)
    requires HasPending(p) ==> forall i :: i in jobs && i != j && HasPending(jobs[i]) ==>
      jobs[i].pair.refresh != p.pair.refresh
    ensures Exclusive(jobs[j := p])
  {
    var jobs' := jobs[j := p];
    forall a, b | LockClash(jobs', a, b) ensures a == b {
      if a != j && b != j {
        assert LockClash(jobs, a, b);
      } else if a != b {
        var i := if a == j then b else a;
        assert HoldsLock(jobs[i], p.token);
      }
    }
    forall a, b | PendingClash(jobs', a, b) ensures a == b {
      if a != j && b != j {
        assert PendingClash(jobs, a, b);
      }
    }
  }

  /** A job that already holds its lock keeps out all others. */
  lemma AloneOnLock(jobs: Jobs, j: Job)
    requires Exclusive(jobs) && j in jobs && Holds(jobs[j])
    ensures forall i :: i in jobs && i != j ==> !HoldsLock(jobs[i], jobs[j].token)
  {
    forall i | i in jobs && i != j ensures !HoldsLock(jobs[i], jobs[j].token) {
      if HoldsLock(jobs[i], jobs[j].token) {
        assert LockClash(jobs, i, j);
      }
    }
  }

  /** Grace entries stay good while origin and grace stay and no writer leaves. */
  lemma GraceStable(s: State, s': State)
    requires GoodGrace(s) && Grows(s, s')
    requires s'.origin == s.origin && s'.grace == s.grace
    requires forall i, t :: WritesGrace(s.jobs, i, t) ==> WritesGrace(s'.jobs, i, t)
    ensures GoodGrace(s')
  {
    forall t | t in s'.grace
      ensures t in s'.rows && GoodPair(s'.version, s'.grace[t].pair, s'.rows[t].user)
      ensures ChildOf(s'.origin, s'.grace[t].pair.refresh, t) || Awaited(s'.jobs, t)
    {
      var u := s.rows[t].user;
      assert OwnedRow(s'.rows, t, u) && Effective(s.version, u) <= Effective(s'.version, u);
      if Awaited(s.jobs, t) {
        var i :| WritesGrace(s.jobs, i, t);
        assert WritesGrace(s'.jobs, i, t);
      }
    }
  }

  /** A step that moves one job and leaves rows, origin and grace alone. */
  lemma KeptByJobMove(s: State, j: Job, s': State)
    requires Inv(s) && Grows(s, s')
    requires s'.rows == s.rows && s'.origin == s.origin && s'.grace == s.grace
    requires j in s'.jobs && s'.jobs == s.jobs[j := s'.jobs[j]] && GoodPhase(s', s'.jobs[j])
    requires Holds(s'.jobs[j]) ==>
      if j in s.jobs && Holds(s.jobs[j]) then s.jobs[j].token == s'.jobs[j].token else !Locked(s, s'.jobs[j].token)
    requires HasPending(s'.jobs[j]) ==> s.next <= s'.jobs[j].pair.refresh < s'.next
    requires !s'.jobs[j].GraceWritten? && (j in s.jobs ==> !s.jobs[j].GraceWritten?)
    ensures Inv(s')
  {
    if j in s.jobs && Holds(s.jobs[j]) {
      AloneOnLock(s.jobs, j);
    }
    ExclusiveKept(s.jobs, j, s'.jobs[j]);
    OthersStable(s, s', j);
    GraceStable(s, s');
  }

  lemma KeptByLock(s: State, j: Job, s': State)
    requires Inv(s) && Grows(s, s') && StepLock(s, j) == Some(s')
    ensures Inv(s')
  {
    KeptByJobMove(s, j, s');
  }

  lemma KeptByLookup(s: State, j: Job, s': State)
    requires Inv(s) && Grows(s, s') && StepLookup(s, j) == Some(s')
    ensures Inv(s')
  {
    var t := s.jobs[j].token;
    assert GoodPhase(s, s.jobs[j]);
    AloneOnLock(s.jobs, j);
    if GraceLive(s, t) && Awaited(s.jobs, t) {
      var i :| WritesGrace(s.jobs, i, t);
      assert HoldsLock(s.jobs[i], t);
    }
    KeptByJobMove(s, j, s');
  }

  lemma KeptByWriteGrace(s: State, j: Job, s': State)
    requires Inv(s) && Grows(s, s') && StepWriteGrace(s, j) == Some(s')
    ensures Inv(s')
  {
    var t, pair := s.jobs[j].token, s.jobs[j].pair;
    assert GoodPhase(s, s.jobs[j]);
    AloneOnLock(s.jobs, j);
    forall i | i in s.jobs && i != j && HasPending(s.jobs[i]) ensures s.jobs[i].pair.refresh != pair.refresh {
      assert !PendingClash(s.jobs, i, j);
    }
    ExclusiveKept(s.jobs, j, s'.jobs[j]);
    OthersKeptByWriteGrace(s, j, s');
    assert WritesGrace(s'.jobs, j, t);
    GraceKeptByWriteGrace(s, j, s');
  }

  lemma OthersKeptByWriteGrace(s: State, j: Job, s': State)
    requires Inv(s) && Grows(s, s') && StepWriteGrace(s, j) == Some(s')
    requires forall i :: i in s.jobs && i != j ==> !HoldsLock(s.jobs[i], s.jobs[j].token)
    ensures forall i :: i in s.jobs && i != j ==> GoodPhase(s', s'.jobs[i])
  {
    var t := s.jobs[j].token;
    assert GoodPhase(s, s.jobs[j]);
    forall i | i in s.jobs && i != j ensures GoodPhase(s', s'.jobs[i]) {
      assert GoodPhase(s, s.jobs[i]);
      assert s.jobs[i].GraceWritten? ==> HoldsLock(s.jobs[i], s.jobs[i].token);
      if s.jobs[i] != Finished(t, Rejected) {
        PhaseStable(s, s', s.jobs[i]);
      }
    }
  }

  lemma GraceKeptByWriteGrace(s: State, j: Job, s': State)
    requires Inv(s) && StepWriteGrace(s, j) == Some(s') && WritesGrace(s'.jobs, j, s.jobs[j].token)
    ensures GoodGrace(s')
  {
    var t := s.jobs[j].token;
    assert GoodPhase(s, s.jobs[j]);
    forall t' | t' in s'.grace
      ensures t' in s'.rows && GoodPair(s'.version, s'.grace[t'].pair, s'.rows[t'].user)
      ensures ChildOf(s'.origin, s'.grace[t'].pair.refresh, t') || Awaited(s'.jobs, t')
    {
      if t' != t && Awaited(s.jobs, t') {
        var i :| WritesGrace(s.jobs, i, t');
        assert WritesGrace(s'.jobs, i, t');
      }
    }
  }

  lemma ForestKeptByCommit(s: State, j: Job, s': State)
    requires Inv(s) && StepCommit(s, j) == Some(s')
    ensures Forest(s'.rows, s'.origin, s'.next)
    ensures forall d, p :: ChildOf(s'.origin, d, p) <==>
      (d == s.jobs[j].pair.refresh && p == s.jobs[j].token) || ChildOf(s.origin, d, p)
  {
    var t, c := s.jobs[j].token, s.jobs[j].pair.refresh;
    assert GoodPhase(s, s.jobs[j]) && HasPending(s.jobs[j]);
    forall d, p ensures ChildOf(s'.origin, d, p) <==> (d == c && p == t) || ChildOf(s.origin, d, p) {
    }
    assert forall d :: !ChildOf(s.origin, d, t);
    forall a: Token, b: Token | Siblings(s'.origin, a, b) ensures a == b {
      assert ChildOf(s'.origin, a, s'.origin[a].value) && ChildOf(s'.origin, b, s'.origin[a].value);
      assert a in s.origin && b in s.origin && s'.origin[a].value != t ==> Siblings(s.origin, a, b);
    }
  }

  lemma KeptByCommit(s: State, j: Job, s': State)
    requires Inv(s) && Grows(s, s') && StepCommit(s, j) == Some(s')
    ensures Inv(s')
  {
    var t, c := s.jobs[j].token, s.jobs[j].pair.refresh;
    assert GoodPhase(s, s.jobs[j]) && HasPending(s.jobs[j]);
    ForestKeptByCommit(s, j, s');
    assert ChildOf(s'.origin, c, t);
    OthersKeptByCommit(s, j, s');
    GraceKeptByCommit(s, j, s');
  }

  lemma OthersKeptByCommit(s: State, j: Job, s': State)
    requires Inv(s) && Grows(s, s') && StepCommit(s, j) == Some(s')
    requires ChildOf(s'.origin, s.jobs[j].pair.refresh, s.jobs[j].token)
    ensures Exclusive(s'.jobs) && PendingFresh(s'.jobs, s'.rows, s'.next) && GoodJobs(s')
  {
    assert GoodPhase(s, s.jobs[j]) && HasPending(s.jobs[j]);
    AloneOnLock(s.jobs, j);
    ExclusiveKept(s.jobs, j, s'.jobs[j]);
    PendingKeptByCommit(s.jobs, j, s.rows, s'.rows, s.next);
    JobsKeptByCommit(s, j, s');
  }

  lemma JobsKeptByCommit(s: State, j: Job, s': State)
    requires GoodJobs(s) && Grows(s, s') && StepCommit(s, j) == Some(s') && s.jobs[j].pair.refresh !in s.rows
    requires forall i :: i in s.jobs && i != j ==> !HoldsLock(s.jobs[i], s.jobs[j].token)
    requires ChildOf(s'.origin, s.jobs[j].pair.refresh, s.jobs[j].token)
    ensures GoodJobs(s')
  {
    assert GoodPhase(s, s.jobs[j]);
    OthersStable(s, s', j);
  }

  lemma PendingKeptByCommit(jobs: Jobs, j: Job, rows: Rows, rows': Rows, next: Token)
    requires Exclusive(jobs) && PendingFresh(jobs, rows, next) && j in jobs && HasPending(jobs[j])
    requires rows'.Keys == rows.Keys + {jobs[j].pair.refresh}
    ensures forall i :: i in jobs && i != j && HasPending(jobs[i]) ==>
      jobs[i].pair.refresh < next && jobs[i].pair.refresh !in rows'
  {
    forall i | i in jobs && i != j && HasPending(jobs[i]) ensures jobs[i].pair.refresh != jobs[j].pair.refresh {
      assert !PendingClash(jobs, i, j);
    }
  }

  lemma GraceKeptByCommit(s: State, j: Job, s': State)
    requires Inv(s) && Grows(s, s') && StepCommit(s, j) == Some(s')
    requires ChildOf(s'.origin, s.jobs[j].pair.refresh, s.jobs[j].token)
    requires forall d, p :: ChildOf(s'.origin, d, p) <==>
      (d == s.jobs[j].pair.refresh && p == s.jobs[j].token) || ChildOf(s.origin, d, p)
    ensures GoodGrace(s')
  {
    var t := s.jobs[j].token;
    assert GoodPhase(s, s.jobs[j]);
    forall t' | t' in s'.grace
      ensures t' in s'.rows && GoodPair(s'.version, s'.grace[t'].pair, s'.rows[t'].user)
      ensures ChildOf(s'.origin, s'.grace[t'].pair.refresh, t') || Awaited(s'.jobs, t')
    {
      assert OwnedRow(s'.rows, t', s.rows[t'].user);
      if t' != t && Awaited(s.jobs, t') {
        var i :| WritesGrace(s.jobs, i, t');
        assert WritesGrace(s'.jobs, i, t');
      }
    }
  }

  /** Steps that leave all jobs, origin, grace and locked rows: the clock, the version bump, logout, an update. */
  lemma KeptByTableStep(s: State, s': State)
    requires Inv(s) && Grows(s, s')
    requires forall i :: i in s.jobs && Holds(s.jobs[i]) ==> SameRow(s, s', s.jobs[i].token)
    requires s' == s.(now := s'.now, version := s'.version, rows := s'.rows) && s'.rows.Keys == s.rows.Keys
    ensures Inv(s')
  {
    forall c, p | ChildOf(s'.origin, c, p)
      ensures c in s'.rows && p in s'.rows && p < c && s'.rows[p].isRevoked && s'.rows[p].user == s'.rows[c].user
    {
      assert OwnedRow(s'.rows, p, s.rows[p].user) && OwnedRow(s'.rows, c, s.rows[c].user);
    }
    forall i | i in s'.jobs ensures GoodPhase(s', s'.jobs[i]) {
      PhaseStable(s, s', s.jobs[i]);
    }
    GraceStable(s, s');
  }

  lemma KeptByLogin(s: State, j: Job, s': State)
    requires Inv(s) && Grows(s, s') && StepLogin(s, j) == Some(s')
    ensures Inv(s')
  {
    assert GoodPhase(s, s.jobs[j]);
    ForestKeptByLogin(s, j, s');
    ExclusiveKept(s.jobs, j, s'.jobs[j]);
    OthersStable(s, s', j);
    GraceKeptByLogin(s, j, s');
  }

  lemma ForestKeptByLogin(s: State, j: Job, s': State)
    requires Forest(s.rows, s.origin, s.next) && StepLogin(s, j) == Some(s')
    ensures Forest(s'.rows, s'.origin, s'.next)
    ensures forall d, p :: ChildOf(s'.origin, d, p) <==> ChildOf(s.origin, d, p)
  {
    forall d, p ensures ChildOf(s'.origin, d, p) <==> ChildOf(s.origin, d, p) {
    }
    forall a: Token, b: Token | Siblings(s'.origin, a, b) ensures a == b {
      assert Siblings(s.origin, a, b);
    }
  }

  lemma GraceKeptByLogin(s: State, j: Job, s': State)
    requires GoodGrace(s) && s.next !in s.rows && StepLogin(s, j) == Some(s')
    requires forall d, p :: ChildOf(s'.origin, d, p) <==> ChildOf(s.origin, d, p)
    ensures GoodGrace(s')
  {
    forall t | t in s'.grace
      ensures t in s'.rows && GoodPair(s'.version, s'.grace[t].pair, s'.rows[t].user)
      ensures ChildOf(s'.origin, s'.grace[t].pair.refresh, t) || Awaited(s'.jobs, t)
    {
      if Awaited(s.jobs, t) {
        var i :| WritesGrace(s.jobs, i, t);
        assert WritesGrace(s'.jobs, i, t);
      }
    }
  }

  /** The update of a revoke-all, by reuse detection or by a request of its own. */
  lemma KeptByUpdate(s: State, j: Job, s': State)
    requires Inv(s) && Grows(s, s') && (StepRevokeRowsOnReuse(s, j) == Some(s') || StepRevokeRows(s, j) == Some(s'))
    ensures Inv(s')
  {
    var m := s.(rows := s'.rows);
    assert GoodPhase(s, s.jobs[j]);
    LocksOutlastUpdate(s, m, s.jobs[j].selected);
    KeptByTableStep(s, m);
    assert GoodPhase(m, m.jobs[j]);
    KeptPastUpdate(m, j, s');
  }

  lemma KeptPastUpdate(m: State, j: Job, s': State)
    requires Inv(m) && Grows(m, s') && j in m.jobs && j in s'.jobs && s' == Goto(m, j, s'.jobs[j])
    requires match m.jobs[j]
      case Selected(u, _) => s'.jobs[j] == Updated(u)
      case ReuseSelected(t, u, _) => s'.jobs[j] == RowsRevoked(t, u)
      case _ => false
    ensures Inv(s')
  {
    assert GoodPhase(m, m.jobs[j]);
    KeptByJobMove(m, j, s');
  }

  lemma LocksOutlastUpdate(s: State, m: State, selected: set<Token>)
    requires Free(s, selected) && m == s.(rows := RevokeAllOf(s.rows, selected))
    ensures Grows(s, m)
    ensures forall i :: i in s.jobs && Holds(s.jobs[i]) ==> SameRow(s, m, s.jobs[i].token)
  {
    forall i | i in s.jobs && Holds(s.jobs[i]) ensures SameRow(s, m, s.jobs[i].token) {
      assert HoldsLock(s.jobs[i], s.jobs[i].token);
    }
  }

  lemma KeptByLogout(s: State, t: Token, s': State)
    requires Inv(s) && Grows(s, s') && StepLogout(s, t) == Some(s')
    ensures Inv(s')
  {
    forall i | i in s.jobs && Holds(s.jobs[i]) ensures SameRow(s, s', s.jobs[i].token) {
      assert HoldsLock(s.jobs[i], s.jobs[i].token);
    }
    KeptByTableStep(s, s');
  }

  lemma KeptByMinting(s: State, e: Event, s': State)
    requires Inv(s) && Grows(s, s') && IsMinting(e) && Step(s, e) == Some(s')
    ensures Inv(s')
  {
    MintingMoves(s, e, s');
    assert GoodPhase(s, s.jobs[e.job]);
    KeptByJobMove(s, e.job, s');
  }

  lemma KeptByOtherJobMoves(s: State, e: Event, s': State)
    requires Inv(s) && Grows(s, s') && Step(s, e) == Some(s')
    requires MovesOneJob(e) && !IsMinting(e) && !e.Lock? && !e.Lookup?
    ensures Inv(s')
  {
    JobMoves(s, e, s');
    if e.job in s.jobs {
      assert GoodPhase(s, s.jobs[e.job]);
    }
    KeptByJobMove(s, e.job, s');
  }

  lemma KeptByBumpOnReuse(s: State, j: Job, s': State)
    requires Inv(s) && Grows(s, s') && StepBumpOnReuse(s, j) == Some(s')
    ensures Inv(s')
  {
    KeptByJobMove(s, j, s');
  }

  lemma StepKeepsInv(s: State, e: Event, s': State)
    requires Inv(s) && Step(s, e) == Some(s')
    ensures Inv(s')
  {
    StepGrows(s, e, s');
    if IsMinting(e) {
      KeptByMinting(s, e, s');
    } else {
      OtherStepsKeepInv(s, e, s');
    }
  }

  lemma OtherStepsKeepInv(s: State, e: Event, s': State)
    requires Inv(s) && Grows(s, s') && !IsMinting(e) && Step(s, e) == Some(s')
    ensures Inv(s')
  {
    match e
    case Tick(_) => KeptByTableStep(s, s');
    case Bump(_) => KeptByTableStep(s, s');
    case Logout(t) => KeptByLogout(s, t, s');
    case RevokeRows(j) => KeptByUpdate(s, j, s');
    case Commit(j) => KeptByCommit(s, j, s');
    case WriteGrace(j) => KeptByWriteGrace(s, j, s');
    case LoginFinish(j) => KeptByLogin(s, j, s');
    case RevokeRowsOnReuse(j) => KeptByUpdate(s, j, s');
    case BumpOnReuse(j) => KeptByBumpOnReuse(s, j, s');
    case Lock(j) => KeptByLock(s, j, s');
    case Lookup(j) => KeptByLookup(s, j, s');
    case _ => KeptByOtherJobMoves(s, e, s');
  }

  lemma InitialInv()
    ensures Inv(INITIAL)
  {
  }

  lemma {:induction false} RunKeepsInv(s: State, events: seq<Event>, s': State)
    requires Inv(s) && Exec(s, events) == Some(s')
    ensures Inv(s') && Grows(s, s')
    decreases |events|
  {
    if events != [] {
      var m := Step(s, events[0]).value;
      StepKeepsInv(s, events[0], m);
      StepGrows(s, events[0], m);
      RunKeepsInv(m, events[1..], s');
      GrowsTransitive(s, m, s');
    }
  }

  // ---------- what every run reaches ----------

  ghost predicate Reachable(s: State) {
    exists events :: Exec(INITIAL, events) == Some(s)
  }

  lemma ReachableInv(s: State)
    requires Reachable(s)
    ensures Inv(s)
  {
    var events :| Exec(INITIAL, events) == Some(s);
    InitialInv();
    RunKeepsInv(INITIAL, events, s);
  }

  lemma ReachableRun(s: State, events: seq<Event>, s': State)
    requires Reachable(s) && Exec(s, events) == Some(s')
    ensures Reachable(s') && Grows(s, s')
  {
    var before :| Exec(INITIAL, before) == Some(s);
    ExecAppend(INITIAL, before, events);
    ReachableInv(s);
    RunKeepsInv(s, events, s');
  }

  lemma ReachableStep(s: State, e: Event, s': State)
    requires Reachable(s) && Step(s, e) == Some(s')
    ensures Reachable(s') && Grows(s, s')
  {
    ExecCons(s, e, []);
    assert [e] + [] == [e] && Exec(s', []) == Some(s');
    ReachableRun(s, [e], s');
  }
}
