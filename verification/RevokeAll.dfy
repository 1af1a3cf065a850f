/** What a revoke-all guarantees, by a request of its own or by reuse detection, and exactly when it does not. */
module RevokeAll {
  import opened Wrappers
  import opened TokenRotation
  import opened TokenRotationSafety
  import opened TokenRotationTheorems

  // ---------- the update ----------

  ghost function TokensOf(s: State, u: User): set<Token> {
    set t | t in s.rows && s.rows[t].user == u
  }

  /** Request `j` takes the snapshot of an update of the user's rows. */
  ghost function StepSelect(s: State, j: Job, u: User): Option<State> {
    if j !in s.jobs then StepSelectRows(s, j, u)
    else if s.jobs[j].ReuseFound? && s.jobs[j].user == u then StepSelectRowsOnReuse(s, j)
    else None
  }

  /** Request `j` completes its update of the user's rows. */
  ghost function StepUpdate(s: State, j: Job, u: User): Option<State> {
    if j in s.jobs && s.jobs[j].Selected? && s.jobs[j].user == u then StepRevokeRows(s, j)
    else if j in s.jobs && s.jobs[j].ReuseSelected? && s.jobs[j].user == u then StepRevokeRowsOnReuse(s, j)
    else None
  }

  /** An update from its snapshot in `s` to its completion in `s3`; `mid` is what runs between, up to `s2`. */
  ghost predicate RevokesRows(s: State, j: Job, u: User, mid: seq<Event>, s2: State, s3: State) {
    && StepSelect(s, j, u).Some?
    && Exec(StepSelect(s, j, u).value, mid) == Some(s2)
    && StepUpdate(s2, j, u) == Some(s3)
  }

  lemma SelectIsStep(s: State, j: Job, u: User) returns (e: Event)
    requires StepSelect(s, j, u).Some?
    ensures Step(s, e) == StepSelect(s, j, u)
  {
    e := if j in s.jobs then SelectRowsOnReuse(j) else SelectRows(j, u);
  }

  lemma UpdateIsStep(s: State, j: Job, u: User) returns (e: Event)
    requires StepUpdate(s, j, u).Some?
    ensures Step(s, e) == StepUpdate(s, j, u)
  {
    e := if s.jobs[j].Selected? then RevokeRows(j) else RevokeRowsOnReuse(j);
  }

  lemma SelectKept(s: State, j: Job, u: User, s1: State)
    requires Reachable(s) && StepSelect(s, j, u) == Some(s1)
    ensures Reachable(s1) && Grows(s, s1) && s1 == s.(jobs := s1.jobs)
    ensures j in s1.jobs && Updating(s1.jobs[j]) && s1.jobs[j].selected == UsableOf(s.rows, u)
  {
    var e := SelectIsStep(s, j, u);
    ReachableStep(s, e, s1);
  }

  lemma UpdateKept(s: State, j: Job, u: User, s1: State)
    requires Reachable(s) && StepUpdate(s, j, u) == Some(s1)
    ensures Reachable(s1) && Grows(s, s1) && j in s.jobs && Updating(s.jobs[j])
    ensures s1 == s.(rows := RevokeAllOf(s.rows, s.jobs[j].selected), jobs := s1.jobs)
  {
    var e := UpdateIsStep(s, j, u);
    ReachableStep(s, e, s1);
  }

  ghost predicate Updating(p: Phase) {
    p.Selected? || p.ReuseSelected?
  }

  ghost predicate PastUpdate(p: Phase) {
    p.Updated? || p.RowsRevoked? || p.Finished?
  }

  lemma UpdatingKept(s: State, e: Event, s': State, j: Job, p: Phase)
    requires Step(s, e) == Some(s') && j in s.jobs && Updating(p)
    requires s.jobs[j] == p || PastUpdate(s.jobs[j])
    ensures j in s'.jobs && (s'.jobs[j] == p || PastUpdate(s'.jobs[j]))
  {
    OwnEventsOnly(s, e, s');
  }

  lemma {:induction false} UpdatingStays(s: State, events: seq<Event>, s': State, j: Job, p: Phase)
    requires Exec(s, events) == Some(s') && j in s.jobs && Updating(p)
    requires s.jobs[j] == p || PastUpdate(s.jobs[j])
    ensures j in s'.jobs && (s'.jobs[j] == p || PastUpdate(s'.jobs[j]))
    decreases |events|
  {
    if events != [] {
      var m := Step(s, events[0]).value;
      UpdatingKept(s, events[0], m, j, p);
      UpdatingStays(m, events[1..], s', j, p);
    }
  }

  /** An update revokes exactly what was usable at its snapshot. */
  lemma UpdateRevokes(s: State, j: Job, u: User, mid: seq<Event>, s2: State, s3: State)
    requires Reachable(s) && RevokesRows(s, j, u, mid, s2, s3)
    ensures Reachable(s2) && Grows(s, s2) && Reachable(s3) && Grows(s, s3)
    ensures s3 == s2.(rows := RevokeAllOf(s2.rows, UsableOf(s.rows, u)), jobs := s3.jobs)
    ensures s3.rows.Keys == s2.rows.Keys && forall t :: t in s2.rows ==>
      s3.rows[t] == if t in s.rows && s.rows[t].user == u && !s.rows[t].isRevoked then s2.rows[t].(isRevoked := true)
                    else s2.rows[t]
  {
    var s1 := StepSelect(s, j, u).value;
    SelectKept(s, j, u, s1);
    ReachableRun(s1, mid, s2);
    UpdateKept(s2, j, u, s3);
    UpdatingStays(s1, mid, s2, j, s1.jobs[j]);
    GrowsTransitive(s, s1, s2);
    GrowsTransitive(s, s2, s3);
  }

  /** So all tokens the user had at the snapshot are revoked, from the update on. */
  lemma OldTokensRevoked(s: State, j: Job, u: User, mid: seq<Event>, s2: State, s3: State, more: seq<Event>, s4: State)
    requires Reachable(s) && RevokesRows(s, j, u, mid, s2, s3) && Exec(s3, more) == Some(s4)
    ensures Reachable(s4) && Grows(s, s4)
    ensures forall t :: t in TokensOf(s, u) ==> RevokedRow(s4.rows, t, u)
  {
    UpdateRevokes(s, j, u, mid, s2, s3);
    ReachableRun(s3, more, s4);
    GrowsTransitive(s, s3, s4);
    RevokedByUpdate(s.rows, s2.rows, u, s4.rows);
  }

  lemma RevokedByUpdate(rows: Rows, rows': Rows, u: User, later: Rows)
    requires RowsGrow(rows, rows') && RowsGrow(RevokeAllOf(rows', UsableOf(rows, u)), later)
    ensures forall t :: t in rows && rows[t].user == u ==> RevokedRow(later, t, u)
  {
    forall t | t in rows && rows[t].user == u ensures RevokedRow(later, t, u) {
      assert OwnedRow(rows', t, u) && RevokeAllOf(rows', UsableOf(rows, u))[t].isRevoked;
      assert OwnedRow(later, t, RevokeAllOf(rows', UsableOf(rows, u))[t].user);
    }
  }

  /**
   In every run: reuse detection writes past its own transaction. Whatever else runs, and whether the transaction rolls
   back before or after the bump, the refresh is never granted, and all sessions of its snapshot stay revoked.
   */
  lemma ReuseIsDurable(s: State, j: Job, mid: seq<Event>, s2: State, s3: State, events: seq<Event>,
                       s4: State)
    requires Reachable(s) && j in s.jobs && s.jobs[j].ReuseFound?
    requires RevokesRows(s, j, s.jobs[j].user, mid, s2, s3) && Exec(s3, events) == Some(s4)
    ensures forall t :: t in TokensOf(s, s.jobs[j].user) ==> RevokedRow(s4.rows, t, s.jobs[j].user)
    ensures j in s4.jobs && Rejecting(s4.jobs[j], s.jobs[j].token, s.jobs[j].user)
  {
    var t, u := s.jobs[j].token, s.jobs[j].user;
    OldTokensRevoked(s, j, u, mid, s2, s3, events, s4);
    UpdatingStays(StepSelect(s, j, u).value, mid, s2, j, ReuseSelected(t, u, UsableOf(s.rows, u)));
    RejectingKept(s3, events, s4, j, t, u);
  }

  /** Where a refresh is after it has revoked the user's rows: about to bump, or rejected. */
  predicate Rejecting(p: Phase, t: Token, u: User) {
    p == RowsRevoked(t, u) || p == Finished(t, Rejected)
  }

  lemma RejectingKeptByStep(s: State, e: Event, s': State, j: Job, t: Token, u: User)
    requires Step(s, e) == Some(s') && j in s.jobs && Rejecting(s.jobs[j], t, u)
    ensures j in s'.jobs && Rejecting(s'.jobs[j], t, u)
  {
    OwnEventsOnly(s, e, s');
  }

  lemma {:induction false} RejectingKept(s: State, events: seq<Event>, s': State, j: Job, t: Token, u: User)
    requires Exec(s, events) == Some(s') && j in s.jobs && Rejecting(s.jobs[j], t, u)
    ensures j in s'.jobs && Rejecting(s'.jobs[j], t, u)
    decreases |events|
  {
    if events != [] {
      var m := Step(s, events[0]).value;
      RejectingKeptByStep(s, events[0], m, j, t, u);
      RejectingKept(m, events[1..], s', j, t, u);
    }
  }

  /**
   In every run: the update of reuse detection, on a connection of its own, never waits for the row its own transaction
   has locked. Once no other request holds a lock, it can complete.
   */
  lemma ReuseNeverWaitsForItself(s: State, j: Job)
    requires Reachable(s) && j in s.jobs && s.jobs[j].ReuseSelected?
    requires forall i :: i in s.jobs && i != j ==> !Holds(s.jobs[i])
    ensures s.jobs[j].token !in s.jobs[j].selected && StepRevokeRowsOnReuse(s, j).Some?
  {
    OnlyHolder(s, j);
  }

  /** A request that is the only one to hold a lock can complete its update. */
  lemma OnlyHolder(s: State, j: Job)
    requires Reachable(s) && j in s.jobs && Updating(s.jobs[j])
    requires forall i :: i in s.jobs && i != j ==> !Holds(s.jobs[i])
    ensures Free(s, s.jobs[j].selected) && StepUpdate(s, j, s.jobs[j].user).Some?
    ensures s.jobs[j].ReuseSelected? ==> s.jobs[j].token !in s.jobs[j].selected
  {
    ReachableInv(s);
    assert GoodPhase(s, s.jobs[j]);
  }

  // ---------- descendants ----------

  lemma {:induction false} RootStable(s: State, s': State, t: Token)
    requires Inv(s) && Grows(s, s') && t in s.rows
    ensures Root(s'.origin, t) == Root(s.origin, t)
    decreases t
  {
    if s.origin[t].Some? {
      ParentOf(s, t);
      RootStable(s, s', s.origin[t].value);
    }
  }

  /** The roots of a user's tokens are tokens of the user, then and later. */
  lemma RootsInside(s: State, s': State, u: User, t: Token)
    requires Reachable(s) && Grows(s, s') && t in TokensOf(s, u)
    ensures Root(s'.origin, t) in TokensOf(s, u)
  {
    ReachableInv(s);
    RootStable(s, s', t);
    RootOwned(s, t);
  }

  ghost predicate Closed(origin: Origin, held: set<Token>) {
    forall c, p :: ChildOf(origin, c, p) && p in held ==> c in held
  }

  lemma {:induction false} DescendantsStayInside(s: State, held: set<Token>, c: Token)
    requires Inv(s) && Closed(s.origin, held) && c in s.rows && Root(s.origin, c) in held
    ensures c in held
    decreases c
  {
    if s.origin[c].Some? {
      assert ChildOf(s.origin, c, s.origin[c].value);
      DescendantsStayInside(s, held, s.origin[c].value);
    }
  }

  ghost function Descendants(s: State, held: set<Token>): set<Token> {
    set t | t in s.rows && Root(s.origin, t) in held
  }

  // ---------- what it means for old tokens to be dead ----------

  /** An old token has a usable descendant. */
  ghost predicate Escaped(s: State, held: set<Token>) {
    exists c :: c in s.rows && !s.rows[c].isRevoked && Root(s.origin, c) in held
  }

  ghost predicate Final(s: State, held: set<Token>) {
    forall events :: Exec(s, events).Some? ==> !Escaped(Exec(s, events).value, held)
  }

  /** No old token has a usable descendant, and no refresh of one was granted an access token that is still accepted. */
  ghost predicate Worthless(s: State, held: set<Token>) {
    && !Escaped(s, held)
    && forall j :: j in s.jobs && s.jobs[j].Finished? && s.jobs[j].reply.Granted? && s.jobs[j].token in held ==>
         !Accepted(s, s.jobs[j].reply.pair.access)
  }

  ghost predicate WorthlessForever(s: State, held: set<Token>) {
    forall events :: Exec(s, events).Some? ==> Worthless(Exec(s, events).value, held)
  }

  /** A session made from a user's token after `s` is usable. */
  ghost predicate Overtook(s': State, s: State, u: User) {
    exists c :: c in s'.rows && !s'.rows[c].isRevoked && c !in s.rows && Root(s'.origin, c) in TokensOf(s, u)
  }

  // ---------- sealed tokens ----------

  /** A refresh that can still rotate: it read its row unrevoked and unexpired, or it is past that check. */
  ghost predicate Rotating(p: Phase, now: nat) {
    || (p.Holding? && !p.row.isRevoked && now <= p.row.expiresAt)
    || p.OldRevoked? || p.VersionRead? || p.ChildInserted? || p.GraceWritten?
  }

  /** Tokens that cannot be rotated: revoked or expired, without children outside, and nobody is rotating one. */
  ghost predicate Sealed(s: State, held: set<Token>, v: nat) {
    && (forall t :: t in held ==> t in s.rows && (s.rows[t].isRevoked || s.rows[t].expiresAt < s.now))
    && Closed(s.origin, held)
    && (forall j :: j in s.jobs && Rotating(s.jobs[j], s.now) ==> s.jobs[j].token !in held)
    && (forall t :: t in held && t in s.grace ==> s.grace[t].pair.access.version <= v)
  }

  lemma SealKeptByStep(s: State, e: Event, s': State, held: set<Token>, v: nat)
    requires Inv(s) && Sealed(s, held, v) && Step(s, e) == Some(s')
    ensures Sealed(s', held, v)
  {
    StepGrows(s, e, s');
    forall t | t in held ensures t in s'.rows && (s'.rows[t].isRevoked || s'.rows[t].expiresAt < s'.now) {
      assert OwnedRow(s'.rows, t, s.rows[t].user);
    }
    SealedJobsKept(s, e, s', held, v);
    SealedTablesKept(s, e, s', held, v);
  }

  lemma SealedTablesKept(s: State, e: Event, s': State, held: set<Token>, v: nat)
    requires Sealed(s, held, v) && Step(s, e) == Some(s')
    ensures Closed(s'.origin, held)
    ensures forall t :: t in held && t in s'.grace ==> s'.grace[t].pair.access.version <= v
  {
    if e.Commit? {
      assert Rotating(s.jobs[e.job], s.now);
      GraceStays(s, e, s');
      CommitMakesChild(s, e.job, s');
    } else {
      OriginsStay(s, e, s');
      SealedGraceKept(s, e, s', held, v);
    }
  }

  lemma CommitMakesChild(s: State, j: Job, s': State)
    requires StepCommit(s, j) == Some(s')
    ensures forall c, p :: ChildOf(s'.origin, c, p) ==> ChildOf(s.origin, c, p) || p == s.jobs[j].token
  {
  }

  lemma SealedGraceKept(s: State, e: Event, s': State, held: set<Token>, v: nat)
    requires Sealed(s, held, v) && Step(s, e) == Some(s')
    ensures forall t :: t in held && t in s'.grace ==> s'.grace[t].pair.access.version <= v
  {
    if e.WriteGrace? {
      assert Rotating(s.jobs[e.job], s.now);
    } else {
      GraceStays(s, e, s');
    }
  }

  lemma SealedJobsKept(s: State, e: Event, s': State, held: set<Token>, v: nat)
    requires Sealed(s, held, v) && Step(s, e) == Some(s') && s.now <= s'.now
    ensures forall j :: j in s'.jobs && Rotating(s'.jobs[j], s'.now) ==> s'.jobs[j].token !in held
  {
    forall j | j in s'.jobs && Rotating(s'.jobs[j], s'.now) ensures s'.jobs[j].token !in held {
      RotatingBefore(s, e, s', j);
    }
  }

  /** Who can rotate after a step could before it, or has just read a usable row. */
  lemma RotatingBefore(s: State, e: Event, s': State, j: Job)
    requires Step(s, e) == Some(s') && s.now <= s'.now && j in s'.jobs && Rotating(s'.jobs[j], s'.now)
    ensures j in s.jobs && (Rotating(s.jobs[j], s.now) || s.jobs[j].Waiting?) && s.jobs[j].token == s'.jobs[j].token
    ensures s.jobs[j].Waiting? ==> Rotatable(s, s'.jobs[j].token)
  {
    OwnEventsOnly(s, e, s');
    if HasJob(e) && e.job == j {
      RotatingMoved(s, e, s', j);
    }
  }

  lemma RotatingMoved(s: State, e: Event, s': State, j: Job)
    requires HasJob(e) && e.job == j
    requires Step(s, e) == Some(s') && j in s'.jobs && Rotating(s'.jobs[j], s'.now)
    ensures j in s.jobs && (Rotating(s.jobs[j], s.now) || s.jobs[j].Waiting?) && s.jobs[j].token == s'.jobs[j].token
    ensures s.jobs[j].Waiting? ==> Rotatable(s, s'.jobs[j].token)
  {
    if e.Lock? {
      LockedIsRotatable(s, j, s');
    } else if IsMinting(e) {
      MintingWasRotating(s, e, s');
    }
  }

  lemma LockedIsRotatable(s: State, j: Job, s': State)
    requires StepLock(s, j) == Some(s') && Rotating(s'.jobs[j], s'.now)
    ensures s.jobs[j].Waiting? && s.jobs[j].token == s'.jobs[j].token && Rotatable(s, s'.jobs[j].token)
  {
  }

  lemma MintingWasRotating(s: State, e: Event, s': State)
    requires IsMinting(e) && Step(s, e) == Some(s') && e.job in s'.jobs && Rotating(s'.jobs[e.job], s'.now)
    ensures e.job in s.jobs && Rotating(s.jobs[e.job], s.now) && s.jobs[e.job].token == s'.jobs[e.job].token
  {
  }

  lemma {:induction false} SealKept(s: State, events: seq<Event>, s': State, held: set<Token>, v: nat)
    requires Inv(s) && Sealed(s, held, v) && Exec(s, events) == Some(s')
    ensures Inv(s') && Sealed(s', held, v)
    decreases |events|
  {
    if events != [] {
      var m := Step(s, events[0]).value;
      StepKeepsInv(s, events[0], m);
      SealKeptByStep(s, events[0], m, held, v);
      SealKept(m, events[1..], s', held, v);
    }
  }

  // ---------- now or never ----------

  /** Tokens of one user that are their own roots' heirs: with each token its root. */
  ghost predicate Lineages(s: State, held: set<Token>, u: User) {
    forall t :: t in held ==> OwnedRow(s.rows, t, u) && Root(s.origin, t) in held
  }

  lemma LineagesKept(s: State, s': State, u: User)
    requires Reachable(s) && Grows(s, s')
    ensures Lineages(s', TokensOf(s, u), u)
  {
    forall t | t in TokensOf(s, u) ensures OwnedRow(s'.rows, t, u) && Root(s'.origin, t) in TokensOf(s, u) {
      RootsInside(s, s', u, t);
      assert OwnedRow(s'.rows, t, s.rows[t].user);
    }
  }

  lemma RotatedRowUsable(s: State, j: Job)
    requires Reachable(s) && j in s.jobs && Rotating(s.jobs[j], s.now)
    ensures s.jobs[j].token in s.rows && !s.rows[s.jobs[j].token].isRevoked
  {
    ReachableInv(s);
    assert GoodPhase(s, s.jobs[j]);
  }

  /** Without a usable descendant, all descendants are sealed. */
  lemma DescendantsSealed(s: State, held: set<Token>, u: User)
    requires Reachable(s) && Lineages(s, held, u) && !Escaped(s, held)
    ensures held <= Descendants(s, held) && Sealed(s, Descendants(s, held), Effective(s.version, u))
    ensures forall t :: t in Descendants(s, held) ==> RevokedRow(s.rows, t, u)
  {
    var all := Descendants(s, held);
    ReachableInv(s);
    forall t | t in all ensures RevokedRow(s.rows, t, u) {
      RootOwned(s, t);
    }
    forall c, p | ChildOf(s.origin, c, p) && p in all ensures c in all {
      ParentOf(s, c);
    }
    forall j | j in s.jobs && Rotating(s.jobs[j], s.now) ensures s.jobs[j].token !in all {
      RotatedRowUsable(s, j);
    }
    forall t | t in all && t in s.grace ensures s.grace[t].pair.access.version <= Effective(s.version, u) {
      assert RevokedRow(s.rows, t, u);
    }
  }

  /** From a state without a usable descendant, none ever appears. */
  lemma NeverEscapes(s: State, held: set<Token>, u: User, events: seq<Event>, s': State)
    requires Reachable(s) && Lineages(s, held, u) && !Escaped(s, held) && Exec(s, events) == Some(s')
    ensures !Escaped(s', held) && AllOwned(s'.rows, held, u)
    ensures Reachable(s') && Sealed(s', Descendants(s, held), Effective(s.version, u)) && held <= Descendants(s, held)
  {
    var all := Descendants(s, held);
    DescendantsSealed(s, held, u);
    ReachableInv(s);
    SealKept(s, events, s', all, Effective(s.version, u));
    ReachableRun(s, events, s');
    SelectionStable(s, s', held, u);
    forall c | c in s'.rows && Root(s'.origin, c) in held ensures s'.rows[c].isRevoked {
      DescendantsStayInside(s', all, c);
      assert RevokedRow(s.rows, c, u) && OwnedRow(s'.rows, c, u);
    }
  }

  /** Old tokens stay without usable descendants in every continuation if and only if they have none now. */
  lemma NowOrNever(s: State, held: set<Token>, u: User)
    requires Reachable(s) && Lineages(s, held, u)
    ensures Final(s, held) <==> !Escaped(s, held)
  {
    if Escaped(s, held) {
      assert Exec(s, []) == Some(s);
    } else {
      forall events | Exec(s, events).Some? ensures !Escaped(Exec(s, events).value, held) {
        NeverEscapes(s, held, u, events, Exec(s, events).value);
      }
    }
  }

  /** What is usable of old lineages after an update is what was made from them since its snapshot. */
  lemma EscapedIsOvertaken(s: State, s': State, u: User)
    requires Reachable(s') && Grows(s, s')
    requires forall t :: t in TokensOf(s, u) ==> RevokedRow(s'.rows, t, u)
    ensures Escaped(s', TokensOf(s, u)) <==> Overtook(s', s, u)
  {
    forall c | c in s.rows && Root(s'.origin, c) in TokensOf(s, u) ensures RevokedRow(s'.rows, c, u) {
      OldDescendantRevoked(s, s', u, c);
    }
  }

  lemma OldDescendantRevoked(s: State, s': State, u: User, c: Token)
    requires Reachable(s') && Grows(s, s')
    requires forall t :: t in TokensOf(s, u) ==> RevokedRow(s'.rows, t, u)
    requires c in s.rows && Root(s'.origin, c) in TokensOf(s, u)
    ensures RevokedRow(s'.rows, c, u)
  {
    assert OwnedRow(s'.rows, c, s.rows[c].user);
    ReachableInv(s');
    RootOwned(s', c);
    assert RevokedRow(s'.rows, Root(s'.origin, c), u);
    assert c in TokensOf(s, u);
  }

  /** From the update on, `NowOrNever` applies to the old tokens. */
  lemma OldTokensAt(s: State, j: Job, u: User, mid: seq<Event>, s2: State, s3: State, more: seq<Event>, s4: State)
    requires Reachable(s) && RevokesRows(s, j, u, mid, s2, s3) && Exec(s3, more) == Some(s4)
    ensures Reachable(s4) && Lineages(s4, TokensOf(s, u), u)
    ensures Escaped(s4, TokensOf(s, u)) <==> Overtook(s4, s, u)
  {
    OldTokensRevoked(s, j, u, mid, s2, s3, more, s4);
    LineagesKept(s, s4, u);
    EscapedIsOvertaken(s, s4, u);
  }

  // ---------- exactly when the update is final ----------

  /**
   In every run: an update leaves no old token a usable descendant in any continuation if and only if, when it
   completes, there is no usable session that was made from one since its snapshot.
   */
  lemma RevokeRowsFinalIff(s: State, j: Job, u: User, mid: seq<Event>, s2: State, s3: State)
    requires Reachable(s) && RevokesRows(s, j, u, mid, s2, s3)
    ensures Final(s3, TokensOf(s, u)) <==> !Overtook(s2, s, u)
  {
    assert Exec(s3, []) == Some(s3);
    OldTokensAt(s, j, u, mid, s2, s3, [], s3);
    NowOrNever(s3, TokensOf(s, u), u);
    UpdateSparesNewSessions(s, j, u, mid, s2, s3);
  }

  lemma UpdateSparesNewSessions(s: State, j: Job, u: User, mid: seq<Event>, s2: State, s3: State)
    requires Reachable(s) && RevokesRows(s, j, u, mid, s2, s3)
    ensures Overtook(s3, s, u) <==> Overtook(s2, s, u)
  {
    UpdateRevokes(s, j, u, mid, s2, s3);
    assert forall c :: c in s2.rows && c !in s.rows ==> s3.rows[c] == s2.rows[c];
  }

  /** A commit of a rotation of the user is among the events. */
  ghost predicate Rotates(s: State, events: seq<Event>, u: User)
    requires Exec(s, events).Some?
    decreases |events|
  {
    events != [] && (CommitsFor(s, events[0], u) || Rotates(Step(s, events[0]).value, events[1..], u))
  }

  ghost predicate CommitsFor(s: State, e: Event, u: User) {
    e.Commit? && e.job in s.jobs && s.jobs[e.job].GraceWritten? && s.jobs[e.job].row.user == u
  }

  lemma ClosedKept(s: State, e: Event, s': State, held: set<Token>, u: User)
    requires Inv(s) && Step(s, e) == Some(s') && !CommitsFor(s, e, u)
    requires AllOwned(s.rows, held, u) && Closed(s.origin, held)
    ensures AllOwned(s'.rows, held, u) && Closed(s'.origin, held)
  {
    StepGrows(s, e, s');
    SelectionStable(s, s', held, u);
    if e.Commit? {
      assert GoodPhase(s, s.jobs[e.job]);
      assert s.jobs[e.job].token !in held;
      CommitMakesChild(s, e.job, s');
    } else {
      OriginsStay(s, e, s');
    }
  }

  lemma {:induction false} ClosedStays(s: State, events: seq<Event>, s': State, held: set<Token>, u: User)
    requires Inv(s) && Exec(s, events) == Some(s') && !Rotates(s, events, u)
    requires AllOwned(s.rows, held, u) && Closed(s.origin, held)
    ensures Closed(s'.origin, held)
    decreases |events|
  {
    if events != [] {
      var m := Step(s, events[0]).value;
      StepKeepsInv(s, events[0], m);
      ClosedKept(s, events[0], m, held, u);
      ClosedStays(m, events[1..], s', held, u);
    }
  }

  /** In every run: when no rotation of the user commits during the update, nothing overtakes it. */
  lemma UndisturbedUpdateIsFinal(s: State, j: Job, u: User, mid: seq<Event>, s2: State, s3: State)
    requires Reachable(s) && RevokesRows(s, j, u, mid, s2, s3)
    requires !Rotates(StepSelect(s, j, u).value, mid, u)
    ensures !Overtook(s2, s, u) && Final(s3, TokensOf(s, u))
  {
    var s1, held := StepSelect(s, j, u).value, TokensOf(s, u);
    SelectKept(s, j, u, s1);
    ReachableInv(s1);
    RunKeepsInv(s1, mid, s2);
    forall c, p | ChildOf(s1.origin, c, p) && p in held ensures c in held {
      assert ChildOf(s.origin, c, p);
    }
    ClosedStays(s1, mid, s2, held, u);
    forall c | c in s2.rows && Root(s2.origin, c) in held ensures c in s.rows {
      DescendantsStayInside(s2, held, c);
    }
    RevokeRowsFinalIff(s, j, u, mid, s2, s3);
  }

  // ---------- exactly when the whole revoke-all is final ----------

  /**
   In every run: once an existing version key is bumped after the update, all old tokens are worthless in every
   continuation if and only if, at the bump, there is no usable session that was made from one since the snapshot.
   */
  lemma RevokeAllFinalIff(s: State, j: Job, u: User, mid: seq<Event>, s2: State, s3: State,
                          more: seq<Event>, s4: State, b: Event, s5: State)
    requires Reachable(s) && RevokesRows(s, j, u, mid, s2, s3) && Exec(s3, more) == Some(s4)
    requires BumpsVersion(s4, b, u) && u in s4.version && Step(s4, b) == Some(s5)
    ensures WorthlessForever(s5, TokensOf(s, u)) <==> !Overtook(s4, s, u)
  {
    var held := TokensOf(s, u);
    OldTokensAt(s, j, u, mid, s2, s3, more, s4);
    if Escaped(s4, held) {
      BumpLeavesRows(s4, b, u, s5);
      assert Exec(s5, []) == Some(s5) && Escaped(s5, held);
    } else {
      forall events | Exec(s5, events).Some? ensures Worthless(Exec(s5, events).value, held) {
        BumpedIsWorthless(s4, held, u, b, s5, events, Exec(s5, events).value);
      }
    }
  }

  lemma BumpLeavesRows(s: State, b: Event, u: User, s': State)
    requires BumpsVersion(s, b, u) && Step(s, b) == Some(s')
    ensures s'.rows == s.rows && s'.origin == s.origin
  {
  }

  lemma BumpedIsWorthless(s: State, held: set<Token>, u: User, b: Event, s1: State, events: seq<Event>, s2: State)
    requires Reachable(s) && Lineages(s, held, u) && !Escaped(s, held)
    requires BumpsVersion(s, b, u) && u in s.version && Step(s, b) == Some(s1) && Exec(s1, events) == Some(s2)
    ensures Worthless(s2, held)
  {
    ExecCons(s, b, events);
    NeverEscapes(s, held, u, [b] + events, s2);
    ReachableStep(s, b, s1);
    ReachableRun(s1, events, s2);
    BumpRaises(s, b, u, s1);
    assert Effective(s1.version, u) <= Effective(s2.version, u);
    SealedRepliesOutdated(s2, held, Descendants(s, held), u, Effective(s.version, u));
  }

  lemma SealedRepliesOutdated(s2: State, held: set<Token>, all: set<Token>, u: User, v: nat)
    requires Reachable(s2) && Sealed(s2, all, v) && held <= all
    requires v < Effective(s2.version, u) && AllOwned(s2.rows, held, u)
    ensures forall j ::
      j in s2.jobs && s2.jobs[j].Finished? && s2.jobs[j].reply.Granted? && s2.jobs[j].token in held ==>
      !Accepted(s2, s2.jobs[j].reply.pair.access)
  {
    ReachableInv(s2);
    forall j | j in s2.jobs && s2.jobs[j].Finished? && s2.jobs[j].reply.Granted? && s2.jobs[j].token in held
      ensures !Accepted(s2, s2.jobs[j].reply.pair.access)
    {
      assert GoodPhase(s2, s2.jobs[j]);
      assert OwnedRow(s2.rows, s2.jobs[j].token, u);
    }
  }

  /**
   In every run: a revoke-all during whose update no rotation of the user commits, and which then bumps an existing
   key, makes all old tokens worthless in every continuation, whatever else runs between its steps.
   */
  lemma RevokeAllIsFinal(s: State, j: Job, u: User, mid: seq<Event>, s2: State, s3: State,
                         more: seq<Event>, s4: State, b: Event, s5: State)
    requires Reachable(s) && RevokesRows(s, j, u, mid, s2, s3) && Exec(s3, more) == Some(s4)
    requires !Rotates(StepSelect(s, j, u).value, mid, u)
    requires BumpsVersion(s4, b, u) && u in s4.version && Step(s4, b) == Some(s5)
    ensures WorthlessForever(s5, TokensOf(s, u))
  {
    UndisturbedUpdateIsFinal(s, j, u, mid, s2, s3);
    assert !Escaped(Exec(s3, more).value, TokensOf(s, u));
    assert Overtook(s4, s, u) ==> Escaped(s4, TokensOf(s, u));
    RevokeAllFinalIff(s, j, u, mid, s2, s3, more, s4, b, s5);
  }
}
