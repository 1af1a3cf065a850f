/** Exactly when the update of a revoke-all can be overtaken by a rotation, and that it can always complete. */
module Overtaking {
  import opened Wrappers
  import opened TokenRotation
  import opened TokenRotationSafety
  import opened TokenRotationTheorems
  import opened RevokeAll
  import opened FreshIds

  // ---------- an open rotation can commit ----------

  ghost function NextStep(p: Phase, i: Job): Event {
    match p
    case Holding(_, _) => Rotate(i, true)
    case OldRevoked(_, _) => ReadVersion(i)
    case VersionRead(_, _, _) => InsertChild(i)
    case ChildInserted(_, _, _) => WriteGrace(i)
    case _ => Commit(i)
  }

  ghost function StepsLeft(p: Phase): nat {
    match p
    case Holding(_, _) => 4
    case OldRevoked(_, _) => 3
    case VersionRead(_, _, _) => 2
    case ChildInserted(_, _, _) => 1
    case _ => 0
  }

  /** Every step before the commit is enabled and moves the rotation only. */
  lemma RotationGoesOn(s: State, i: Job) returns (s': State)
    requires i in s.jobs && Rotating(s.jobs[i], s.now) && !s.jobs[i].GraceWritten?
    ensures Step(s, NextStep(s.jobs[i], i)) == Some(s')
    ensures s'.rows == s.rows && s'.origin == s.origin && i in s'.jobs && s'.jobs == s.jobs[i := s'.jobs[i]]
    ensures Rotating(s'.jobs[i], s'.now) && s'.jobs[i].token == s.jobs[i].token
    ensures StepsLeft(s'.jobs[i]) < StepsLeft(s.jobs[i])
  {
    s' := Step(s, NextStep(s.jobs[i], i)).value;
  }

  /** The new session of a commit is usable and descends from the same login. */
  lemma CommitLeavesChild(s: State, i: Job) returns (s': State, c: Token)
    requires Reachable(s) && i in s.jobs && s.jobs[i].GraceWritten?
    ensures Step(s, Commit(i)) == Some(s') && c !in s.rows && c in s'.rows && !s'.rows[c].isRevoked
    ensures Root(s'.origin, c) == Root(s.origin, s.jobs[i].token)
    ensures i in s'.jobs && s'.jobs == s.jobs[i := s'.jobs[i]] && !Holds(s'.jobs[i])
  {
    var p := s.jobs[i];
    ReachableInv(s);
    assert GoodPhase(s, p) && HasPending(p);
    s', c := StepCommit(s, i).value, p.pair.refresh;
    RootUnaffected(s.origin, c, Some(p.token), p.token);
  }

  /** Undisturbed, an open rotation commits, and its child session is usable. */
  lemma {:induction false} RotationCompletes(s: State, i: Job) returns (events: seq<Event>, s': State, c: Token)
    requires Reachable(s) && i in s.jobs && Rotating(s.jobs[i], s.now)
    ensures Exec(s, events) == Some(s') && c !in s.rows && c in s'.rows && !s'.rows[c].isRevoked
    ensures Root(s'.origin, c) == Root(s.origin, s.jobs[i].token)
    ensures i in s'.jobs && s'.jobs == s.jobs[i := s'.jobs[i]] && !Holds(s'.jobs[i])
    decreases StepsLeft(s.jobs[i])
  {
    var e := NextStep(s.jobs[i], i);
    if s.jobs[i].GraceWritten? {
      s', c := CommitLeavesChild(s, i);
      events := [e];
      assert events[1..] == [];
    } else {
      var m := RotationGoesOn(s, i);
      ReachableStep(s, e, m);
      var rest;
      rest, s', c := RotationCompletes(m, i);
      events := [e] + rest;
      ExecCons(s, e, rest);
    }
  }

  // ---------- others can get out of the way ----------

  ghost function Holders(jobs: Jobs): set<Job> {
    set i | i in jobs && Holds(jobs[i])
  }

  lemma HoldersAfter(jobs: Jobs, i: Job, p: Phase)
    ensures Holders(jobs[i := p]) == if Holds(p) then Holders(jobs) + {i} else Holders(jobs) - {i}
  {
    var jobs' := jobs[i := p];
    forall k ensures k in Holders(jobs') <==> if k == i then Holds(p) else k in Holders(jobs) {
      assert k in jobs' <==> k == i || k in jobs;
    }
  }

  /** How a request gives up its lock: by its commit once the grace entry is written, by rolling back before. */
  ghost function Leave(p: Phase, i: Job): Event {
    if p.GraceWritten? then Commit(i) else Abort(i)
  }

  lemma Leaves(s: State, i: Job) returns (s': State)
    requires Reachable(s) && i in s.jobs && Holds(s.jobs[i])
    ensures Step(s, Leave(s.jobs[i], i)) == Some(s') && s'.now == s.now
    ensures i in s'.jobs && s'.jobs == s.jobs[i := s'.jobs[i]] && !Holds(s'.jobs[i])
    ensures forall t :: t in s.rows && t != s.jobs[i].token ==> t in s'.rows && s'.rows[t] == s.rows[t]
  {
    if s.jobs[i].GraceWritten? {
      s' := LeavesByCommit(s, i);
    } else {
      s' := StepAbort(s, i).value;
    }
  }

  lemma LeavesByCommit(s: State, i: Job) returns (s': State)
    requires Reachable(s) && i in s.jobs && s.jobs[i].GraceWritten?
    ensures StepCommit(s, i) == Some(s') && s'.now == s.now
    ensures i in s'.jobs && s'.jobs == s.jobs[i := s'.jobs[i]] && !Holds(s'.jobs[i])
    ensures forall t :: t in s.rows && t != s.jobs[i].token ==> t in s'.rows && s'.rows[t] == s.rows[t]
  {
    ReachableInv(s);
    assert GoodPhase(s, s.jobs[i]) && HasPending(s.jobs[i]);
    s' := StepCommit(s, i).value;
  }

  /** A row that only kept requests may have locked. */
  ghost predicate Spared(s: State, keep: set<Job>, t: Token) {
    t in s.rows && forall i :: i in s.jobs && HoldsLock(s.jobs[i], t) ==> i in keep
  }

  lemma SparedKept(s: State, i: Job, m: State, keep: set<Job>, t: Token)
    requires i in s.jobs && i !in keep && Holds(s.jobs[i]) && Spared(s, keep, t)
    requires i in m.jobs && m.jobs == s.jobs[i := m.jobs[i]] && !Holds(m.jobs[i])
    requires forall x :: x in s.rows && x != s.jobs[i].token ==> x in m.rows && m.rows[x] == s.rows[x]
    ensures Spared(m, keep, t) && m.rows[t] == s.rows[t]
  {
    assert !HoldsLock(s.jobs[i], t);
    forall k | k in m.jobs && HoldsLock(m.jobs[k], t) ensures k in keep {
      assert m.jobs[k] == s.jobs[k];
    }
  }

  /** All requests but the kept ones give up their locks; the kept ones and the rows they lock stay as they are. */
  lemma {:induction false} Drain(s: State, keep: set<Job>) returns (events: seq<Event>, s': State)
    requires Reachable(s)
    ensures Exec(s, events) == Some(s') && Reachable(s') && s'.now == s.now && Holders(s'.jobs) <= keep
    ensures forall i :: i in keep && i in s.jobs ==> i in s'.jobs && s'.jobs[i] == s.jobs[i]
    ensures forall t :: Spared(s, keep, t) ==> t in s'.rows && s'.rows[t] == s.rows[t]
    decreases |Holders(s.jobs) - keep|
  {
    if Holders(s.jobs) <= keep {
      events, s' := [], s;
    } else {
      var i :| i in Holders(s.jobs) && i !in keep;
      var m := Leaves(s, i);
      ReachableStep(s, Leave(s.jobs[i], i), m);
      HoldersAfter(s.jobs, i, m.jobs[i]);
      assert Holders(m.jobs) - keep == Holders(s.jobs) - keep - {i};
      events, s' := Drain(m, keep);
      ExecCons(s, Leave(s.jobs[i], i), events);
      events := [Leave(s.jobs[i], i)] + events;
      forall t | Spared(s, keep, t) ensures t in s'.rows && s'.rows[t] == s.rows[t] {
        SparedKept(s, i, m, keep, t);
      }
    }
  }

  /** In every run: an update under way can complete, whatever other requests are doing. */
  lemma UpdateNeverStuck(s: State, j: Job) returns (events: seq<Event>, s': State)
    requires Reachable(s) && j in s.jobs && Updating(s.jobs[j])
    ensures Exec(s, events) == Some(s') && StepUpdate(s', j, s.jobs[j].user).Some?
  {
    events, s' := Drain(s, {j});
    AloneAtUpdate(s', j);
  }

  lemma AloneAtUpdate(s: State, j: Job)
    requires Reachable(s) && j in s.jobs && Updating(s.jobs[j]) && Holders(s.jobs) <= {j}
    ensures StepUpdate(s, j, s.jobs[j].user).Some?
  {
    forall i | i in s.jobs && i != j ensures !Holds(s.jobs[i]) {
      assert i !in Holders(s.jobs);
    }
    OnlyHolder(s, j);
  }

  // ---------- exactly when an update can be overtaken ----------

  /** A usable session that is unexpired, or whose rotation is past that check. */
  ghost predicate CanRotate(s: State, t: Token) {
    && t in s.rows && !s.rows[t].isRevoked
    && (s.now <= s.rows[t].expiresAt || exists i :: i in s.jobs && Rotating(s.jobs[i], s.now) && s.jobs[i].token == t)
  }

  /** In some schedule, a session made from an old token is usable after the update. */
  ghost predicate CanBeOvertaken(s: State, j: Job, u: User)
    requires StepSelect(s, j, u).Some?
  {
    exists mid, s2, s3 :: RevokesRows(s, j, u, mid, s2, s3) && Overtook(s3, s, u)
  }

  /** From a state `m` in which `i` rotates an old token and all others have left, the update is overtaken. */
  lemma Overtake(s: State, j: Job, u: User, mid: seq<Event>, m: State, i: Job)
    requires Reachable(s) && StepSelect(s, j, u).Some? && Exec(StepSelect(s, j, u).value, mid) == Some(m)
    requires Reachable(m) && Grows(s, m) && Holders(m.jobs) <= {i, j}
    requires i in m.jobs && i != j && Rotating(m.jobs[i], m.now) && m.jobs[i].token in TokensOf(s, u)
    requires j in m.jobs && Updating(m.jobs[j]) && m.jobs[j].user == u
    ensures CanBeOvertaken(s, j, u)
  {
    var s1 := StepSelect(s, j, u).value;
    var rest, s2, c := RotationCompletes(m, i);
    ReachableRun(m, rest, s2);
    HoldersAfter(m.jobs, i, s2.jobs[i]);
    AloneAtUpdate(s2, j);
    var s3 := StepUpdate(s2, j, u).value;
    ExecAppend(s1, mid, rest);
    NewSessionOvertakes(s, m, u, m.jobs[i].token, s2, c);
    UpdateSparesNewSessions(s, j, u, mid + rest, s2, s3);
    assert RevokesRows(s, j, u, mid + rest, s2, s3);
  }

  lemma NewSessionOvertakes(s: State, m: State, u: User, t: Token, s2: State, c: Token)
    requires Reachable(s) && Grows(s, m) && t in TokensOf(s, u)
    requires c !in m.rows && c in s2.rows && !s2.rows[c].isRevoked && Root(s2.origin, c) == Root(m.origin, t)
    ensures Overtook(s2, s, u)
  {
    RootsInside(s, m, u, t);
    assert c in s.rows ==> OwnedRow(m.rows, c, s.rows[c].user);
  }

  /** An open rotation of an old token commits before the update completes. */
  lemma OvertakenByOpenRotation(s: State, j: Job, u: User, i: Job)
    requires Reachable(s) && StepSelect(s, j, u).Some?
    requires i in s.jobs && Rotating(s.jobs[i], s.now) && s.jobs[i].token in TokensOf(s, u)
    ensures CanBeOvertaken(s, j, u)
  {
    var s1 := StepSelect(s, j, u).value;
    SelectKept(s, j, u, s1);
    SelectMoves(s, j, u, s1);
    var mid, m := Drain(s1, {i, j});
    ReachableRun(s1, mid, m);
    GrowsTransitive(s, s1, m);
    Overtake(s, j, u, mid, m, i);
  }

  lemma SelectMoves(s: State, j: Job, u: User, s1: State)
    requires StepSelect(s, j, u) == Some(s1)
    ensures j in s1.jobs && s1.jobs == s.jobs[j := s1.jobs[j]] && Updating(s1.jobs[j]) && s1.jobs[j].user == u
    ensures j in s.jobs ==> !Rotating(s.jobs[j], s.now)
  {
  }

  /** A usable, unexpired session that nobody rotates is not locked. */
  lemma UnlockedUnlessRotating(s: State, t: Token)
    requires Reachable(s) && Rotatable(s, t)
    requires forall i :: i in s.jobs && Rotating(s.jobs[i], s.now) ==> s.jobs[i].token != t
    ensures forall i :: i in s.jobs ==> !HoldsLock(s.jobs[i], t)
  {
    ReachableInv(s);
    forall i | i in s.jobs ensures !HoldsLock(s.jobs[i], t) {
      assert GoodPhase(s, s.jobs[i]);
    }
  }

  /** A newcomer locks the row before the update reaches it. */
  lemma OvertakenByNewcomer(s: State, j: Job, u: User, t: Token)
    requires Reachable(s) && StepSelect(s, j, u).Some? && t in TokensOf(s, u) && Rotatable(s, t)
    requires forall i :: i in s.jobs && Rotating(s.jobs[i], s.now) ==> s.jobs[i].token != t
    ensures CanBeOvertaken(s, j, u)
  {
    var s1 := StepSelect(s, j, u).value;
    SelectKept(s, j, u, s1);
    SelectMoves(s, j, u, s1);
    UnlockedUnlessRotating(s1, t);
    var mid, m := Drain(s1, {j});
    assert Spared(s1, {j}, t);
    ReachableRun(s1, mid, m);
    GrowsTransitive(s, s1, m);
    RevokedTokenLocked(m, j, t);
    NewcomerOvertakes(s, j, u, mid, m, t);
  }

  /** An update under way locks no usable row itself. */
  lemma RevokedTokenLocked(s: State, j: Job, t: Token)
    requires Reachable(s) && j in s.jobs && Updating(s.jobs[j]) && Holders(s.jobs) <= {j} && Rotatable(s, t)
    ensures !Locked(s, t)
  {
    ReachableInv(s);
    assert GoodPhase(s, s.jobs[j]);
    forall i | i in s.jobs ensures !HoldsLock(s.jobs[i], t) {
      assert i in Holders(s.jobs) ==> i == j;
    }
  }

  lemma NewcomerOvertakes(s: State, j: Job, u: User, mid: seq<Event>, m: State, t: Token)
    requires Reachable(s) && StepSelect(s, j, u).Some? && Exec(StepSelect(s, j, u).value, mid) == Some(m)
    requires Reachable(m) && Grows(s, m) && Holders(m.jobs) <= {j}
    requires j in m.jobs && Updating(m.jobs[j]) && m.jobs[j].user == u
    requires t in TokensOf(s, u) && Rotatable(m, t) && !Locked(m, t)
    ensures CanBeOvertaken(s, j, u)
  {
    var n := Unused(m.jobs.Keys);
    var lock, h := [Present(n, t), Lock(n)], Goto(m, n, Holding(t, m.rows[t]));
    NewcomerLocks(m, n, t);
    ExecAppend(StepSelect(s, j, u).value, mid, lock);
    ReachableRun(m, lock, h);
    GrowsTransitive(s, m, h);
    HoldersAfter(m.jobs, n, h.jobs[n]);
    Overtake(s, j, u, mid + lock, h, n);
  }

  lemma NewcomerLocks(s: State, n: Job, t: Token)
    requires n !in s.jobs && t in s.rows && !Locked(s, t)
    ensures Exec(s, [Present(n, t), Lock(n)]) == Some(Goto(s, n, Holding(t, s.rows[t])))
  {
    var s1 := Goto(s, n, Waiting(t));
    forall i ensures !(i in s1.jobs && HoldsLock(s1.jobs[i], t)) {
      assert !(i in s.jobs && HoldsLock(s.jobs[i], t));
    }
    ExecCons(s, Present(n, t), [Lock(n)]);
    ExecCons(s1, Lock(n), []);
    assert [Present(n, t)] + [Lock(n)] == [Present(n, t), Lock(n)] && [Lock(n)] + [] == [Lock(n)];
    assert s1.jobs[n := Holding(t, s.rows[t])] == s.jobs[n := Holding(t, s.rows[t])];
  }

  /** When no old token can be rotated at the snapshot, none ever is. */
  lemma CannotBeOvertaken(s: State, j: Job, u: User, mid: seq<Event>, s2: State, s3: State)
    requires Reachable(s) && RevokesRows(s, j, u, mid, s2, s3)
    requires forall t :: t in TokensOf(s, u) ==> !CanRotate(s, t)
    ensures !Overtook(s3, s, u)
  {
    var s1, held, v := StepSelect(s, j, u).value, TokensOf(s, u), Effective(s.version, u);
    SelectKept(s, j, u, s1);
    SelectMoves(s, j, u, s1);
    UnrotatableIsSealed(s, s1, j, u);
    ReachableInv(s1);
    SealKept(s1, mid, s2, held, v);
    forall c | c in s2.rows && Root(s2.origin, c) in held ensures c in s.rows {
      DescendantsStayInside(s2, held, c);
    }
    UpdateSparesNewSessions(s, j, u, mid, s2, s3);
  }

  lemma UnrotatableIsSealed(s: State, s1: State, j: Job, u: User)
    requires Reachable(s) && s1 == s.(jobs := s1.jobs)
    requires j in s1.jobs && s1.jobs == s.jobs[j := s1.jobs[j]] && Updating(s1.jobs[j])
    requires forall t :: t in TokensOf(s, u) ==> !CanRotate(s, t)
    ensures Sealed(s1, TokensOf(s, u), Effective(s.version, u))
  {
    var held := TokensOf(s, u);
    ReachableInv(s);
    forall t | t in held ensures s.rows[t].isRevoked || s.rows[t].expiresAt < s.now {
      assert !CanRotate(s, t);
    }
    forall i | i in s1.jobs && Rotating(s1.jobs[i], s1.now) ensures s1.jobs[i].token !in held {
      assert i in s.jobs && s1.jobs[i] == s.jobs[i];
      RotatedRowUsable(s, i);
      assert s.jobs[i].token in held ==> CanRotate(s, s.jobs[i].token);
    }
    forall c, p | ChildOf(s1.origin, c, p) && p in held ensures c in held {
      assert ChildOf(s.origin, c, p);
    }
  }

  /**
   In every run: an update can be overtaken if and only if, when it takes its snapshot, the user has a usable session
   that is unexpired or already being rotated.
   */
  lemma OvertakableIff(s: State, j: Job, u: User)
    requires Reachable(s) && StepSelect(s, j, u).Some?
    ensures CanBeOvertaken(s, j, u) <==> exists t :: t in TokensOf(s, u) && CanRotate(s, t)
  {
    if t :| t in TokensOf(s, u) && CanRotate(s, t) {
      if i :| i in s.jobs && Rotating(s.jobs[i], s.now) && s.jobs[i].token == t {
        OvertakenByOpenRotation(s, j, u, i);
      } else {
        OvertakenByNewcomer(s, j, u, t);
      }
    } else {
      forall mid, s2, s3 | RevokesRows(s, j, u, mid, s2, s3) ensures !Overtook(s3, s, u) {
        CannotBeOvertaken(s, j, u, mid, s2, s3);
      }
    }
  }
}
