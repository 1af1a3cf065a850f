/** What cached reads guarantee in every interleaving of readers, writers, evictions and processes. */
module CacheTheorems {
  import opened Wrappers
  import opened CacheProtocol
  import opened CacheSafety
  import opened FreshIds

  function KeyOf(p: CallPhase): Option<Key> {
    match p
    case Asked(_, _) => None
    case Keyed(_, key) => Some(key)
    case Looked(_, key, _) => Some(key)
    case Joined(_, key, _) => Some(key)
    case FromCache(key, _) => Some(key)
    case FromFetch(key, _, _) => Some(key)
    case Failed => None
  }

  /** The value a finished call has returned. */
  function Returned(p: CallPhase): Option<Data> {
    if p.FromCache? then Some(p.data)
    else if p.FromFetch? && p.outcome.Value? then Some(p.outcome.data)
    else None
  }

  ghost predicate HasReturned(s: State, c: Call, key: Key, d: Data) {
    c in s.calls && KeyOf(s.calls[c]) == Some(key) && Returned(s.calls[c]) == Some(d)
  }

  // ---------- list reads ----------

  /** A call is moved by its own events only. */
  lemma OwnEventsOnly(s: State, e: Event, s': State)
    requires Step(s, e) == Some(s')
    ensures
      if MovesCall(e) then e.call in s'.calls && s'.calls == s.calls[e.call := s'.calls[e.call]]
      else s'.calls == s.calls
  {
    if MovesFetch(e) {
      FetchMoves(s, e, s');
    } else if MovesCall(e) {
      CallMoves(s, e, s');
    } else {
      StoreMoves(s, e, s');
    }
  }

  lemma OwnMoveKeepsKey(s: State, e: Event, s': State)
    requires MovesCall(e) && Step(s, e) == Some(s') && e.call in s.calls && KeyOf(s.calls[e.call]).Some?
    ensures e.call in s'.calls && KeyOf(s'.calls[e.call]) == KeyOf(s.calls[e.call])
  {
    if e.Continue? {
      ContinueKeepsKey(s, e.call, e.newFetch, s');
    }
  }

  lemma ContinueKeepsKey(s: State, c: Call, f: FetchId, s': State)
    requires StepContinue(s, c, f) == Some(s')
    ensures c in s'.calls && KeyOf(s'.calls[c]) == KeyOf(s.calls[c])
  {
  }

  lemma StepKeepsKey(s: State, e: Event, s': State, c: Call)
    requires Step(s, e) == Some(s') && c in s.calls && KeyOf(s.calls[c]).Some?
    ensures c in s'.calls && KeyOf(s'.calls[c]) == KeyOf(s.calls[c])
  {
    OwnEventsOnly(s, e, s');
    if MovesCall(e) && e.call == c {
      OwnMoveKeepsKey(s, e, s');
    }
  }

  lemma {:induction false} CallKeepsKey(s: State, events: seq<Event>, s': State, c: Call)
    requires Exec(s, events) == Some(s') && c in s.calls && KeyOf(s.calls[c]).Some?
    ensures c in s'.calls && KeyOf(s'.calls[c]) == KeyOf(s.calls[c])
    decreases |events|
  {
    if events != [] {
      var m := Step(s, events[0]).value;
      StepKeepsKey(s, events[0], m, c);
      CallKeepsKey(m, events[1..], s', c);
    }
  }

  /** In every run, a value returned was produced by a fetch for the same key, and is at least as new as the key. */
  lemma ReturnedIsGood(s: State, c: Call, key: Key, d: Data)
    requires Reachable(s) && HasReturned(s, c, key, d)
    ensures d.maker in s.fetches && s.fetches[d.maker].key == key && DataOf(s.fetches[d.maker].phase) == Some(d)
    ensures Oldest(s.floor, key) <= d.snapshot <= s.db
  {
    ReachableInv(s);
    assert GoodCall(s, s.calls[c]);
    if s.calls[c].FromFetch? {
      assert GoodFetch(s, s.calls[c].fetch, s.fetches[s.calls[c].fetch]);
    }
  }

  /** What was written before a bump is no newer than any version read after it. */
  lemma FloorAfterBump(s: State, mid: seq<Event>, s2: State)
    requires Reachable(s) && Exec(Step(s, Bump).value, mid) == Some(s2)
    ensures Reachable(s2) && s2.tracker in s2.floor && s.db <= s2.floor[s2.tracker]
  {
    var s1 := Step(s, Bump).value;
    ReachableStep(s, Bump, s1);
    ReachableRun(s1, mid, s2);
    ReachableInv(s2);
    assert s1.tracker in s1.floor && s2.floor[s1.tracker] == s.db;
  }

  /** In every run, a list read whose version step follows a writer's bump returns all that was written before it. */
  lemma ListReadSeesWrites(s1: State, mid: seq<Event>, s3: State, c: Call, s4: State, rest: seq<Event>, s5: State,
                           key: Key, d: Data)
    requires Reachable(s1) && Exec(Step(s1, Bump).value, mid) == Some(s3)
    requires StepGetVersion(s3, c, true) == Some(s4) && Exec(s4, rest) == Some(s5)
    requires HasReturned(s5, c, key, d)
    ensures s1.db <= d.snapshot
  {
    FloorAfterBump(s1, mid, s3);
    ReachableStep(s3, GetVersion(c, true), s4);
    ReachableRun(s4, rest, s5);
    CallKeepsKey(s4, rest, s5, c);
    ReturnedIsGood(s5, c, key, d);
    assert s5.floor[s3.tracker] == s3.floor[s3.tracker];
  }

  // ---------- when reads of one key are fresh ----------

  ghost predicate DataFresh(p: FetchPhase, k: nat) {
    DataOf(p).Some? ==> k <= DataOf(p).value.snapshot
  }

  /** Neither the cache nor a fetch in flight offers a value of `key` older than write `k`. */
  ghost predicate Fresh(s: State, key: Key, k: nat) {
    && (key in s.cache ==> k <= s.cache[key].snapshot)
    && (forall f :: f in s.fetches && s.fetches[f].key == key && !s.fetches[f].phase.Settled? ==>
       DataFresh(s.fetches[f].phase, k))
  }

  ghost predicate CallFresh(s: State, p: CallPhase, key: Key, k: nat) {
    && (p.Looked? && p.key == key && p.hit.Some? ==> k <= p.hit.value.snapshot)
    && (p.Joined? && p.key == key ==> p.fetch in s.fetches && DataFresh(s.fetches[p.fetch].phase, k))
    && (KeyOf(p) == Some(key) && Returned(p).Some? ==> k <= Returned(p).value.snapshot)
  }

  /** `Fresh`, and the calls that started after the set `before` have seen nothing older either. */
  ghost predicate Guarded(s: State, key: Key, k: nat, before: set<Call>) {
    && k <= s.db
    && Fresh(s, key, k)
    && (forall c :: c in s.calls && c !in before ==> CallFresh(s, s.calls[c], key, k))
  }

  /** Fetches whose value was fresh enough, or not read yet, stay so. */
  ghost predicate DataFreshKept(s: State, s': State, k: nat) {
    forall f :: f in s.fetches && DataFresh(s.fetches[f].phase, k) ==>
      f in s'.fetches && DataFresh(s'.fetches[f].phase, k)
  }

  /** A call that an event does not move sees only its fetch advance. */
  lemma UnmovedCallFresh(s: State, s': State, key: Key, k: nat, p: CallPhase)
    requires DataFreshKept(s, s', k) && CallFresh(s, p, key, k)
    ensures CallFresh(s', p, key, k)
  {
  }

  lemma GetSeesFresh(s: State, c: Call, ok: bool, s': State, key: Key, k: nat)
    requires Fresh(s, key, k) && StepGet(s, c, ok) == Some(s')
    ensures CallFresh(s', s'.calls[c], key, k)
  {
  }

  lemma ContinueSeesFresh(s: State, c: Call, f: FetchId, s': State, key: Key, k: nat)
    requires Inv(s) && Fresh(s, key, k) && c in s.calls && CallFresh(s, s.calls[c], key, k) &&
      StepContinue(s, c, f) == Some(s')
    ensures CallFresh(s', s'.calls[c], key, k)
  {
    var slot := Slot(s.calls[c].proc, s.calls[c].key);
    if slot in s.inFlight {
      assert Slot(s.fetches[s.inFlight[slot]].proc, s.fetches[s.inFlight[slot]].key) == slot;
    }
  }

  lemma DeliverSeesFresh(s: State, c: Call, s': State, key: Key, k: nat)
    requires c in s.calls && CallFresh(s, s.calls[c], key, k) && StepDeliver(s, c) == Some(s')
    ensures CallFresh(s', s'.calls[c], key, k)
  {
  }

  lemma GuardKeptByStep(s: State, e: Event, s': State, key: Key, k: nat, before: set<Call>)
    requires Inv(s) && Guarded(s, key, k, before) && before <= s.calls.Keys && Step(s, e) == Some(s')
    ensures Guarded(s', key, k, before) && before <= s'.calls.Keys
  {
    StepGrows(s, e, s');
    FreshKept(s, e, s', key, k);
    CallsKept(s, e, s', key, k, before);
  }

  lemma CallsKept(s: State, e: Event, s': State, key: Key, k: nat, before: set<Call>)
    requires Inv(s) && Guarded(s, key, k, before) && before <= s.calls.Keys && Step(s, e) == Some(s')
    ensures before <= s'.calls.Keys
    ensures forall c :: c in s'.calls && c !in before ==> CallFresh(s', s'.calls[c], key, k)
  {
    OwnEventsOnly(s, e, s');
    FetchDataFresh(s, e, s', k);
    forall c | c in s'.calls && c !in before ensures CallFresh(s', s'.calls[c], key, k) {
      if MovesCall(e) && e.call == c {
        MovedCallFresh(s, e, s', key, k);
      } else {
        UnmovedCallFresh(s, s', key, k, s.calls[c]);
      }
    }
  }

  lemma MovedCallFresh(s: State, e: Event, s': State, key: Key, k: nat)
    requires Inv(s) && Fresh(s, key, k) && MovesCall(e) && Step(s, e) == Some(s')
    requires e.call in s.calls ==> CallFresh(s, s.calls[e.call], key, k)
    ensures e.call in s'.calls && CallFresh(s', s'.calls[e.call], key, k)
  {
    if e.Get? {
      GetSeesFresh(s, e.call, e.ok, s', key, k);
    } else if e.Continue? {
      ContinueSeesFresh(s, e.call, e.newFetch, s', key, k);
    } else if e.Deliver? {
      DeliverSeesFresh(s, e.call, s', key, k);
    }
  }

  lemma FreshKept(s: State, e: Event, s': State, key: Key, k: nat)
    requires Inv(s) && k <= s.db && Fresh(s, key, k) && Step(s, e) == Some(s')
    ensures Fresh(s', key, k)
  {
    if MovesFetch(e) {
      FreshKeptByFetch(s, e, s', key, k);
    } else if e.Continue? {
      assert s'.cache == s.cache;
    } else if MovesCall(e) {
      CallMoves(s, e, s');
    } else {
      StoreMoves(s, e, s');
    }
  }

  lemma FreshKeptByFetch(s: State, e: Event, s': State, key: Key, k: nat)
    requires k <= s.db && Fresh(s, key, k) && MovesFetch(e) && Step(s, e) == Some(s')
    ensures Fresh(s', key, k)
  {
    FetchMoves(s, e, s');
    FetchMoveDataFresh(s, e, s', k);
  }

  lemma FetchMoveDataFresh(s: State, e: Event, s': State, k: nat)
    requires k <= s.db && MovesFetch(e) && Step(s, e) == Some(s')
    ensures e.fetch in s.fetches && e.fetch in s'.fetches
    ensures DataFresh(s.fetches[e.fetch].phase, k) ==> DataFresh(s'.fetches[e.fetch].phase, k)
  {
  }

  lemma FetchDataFresh(s: State, e: Event, s': State, k: nat)
    requires k <= s.db && Step(s, e) == Some(s')
    ensures DataFreshKept(s, s', k)
  {
    if MovesFetch(e) {
      FetchMoves(s, e, s');
      FetchMoveDataFresh(s, e, s', k);
    } else if MovesCall(e) {
      CallMoves(s, e, s');
    } else {
      StoreMoves(s, e, s');
    }
  }

  lemma {:induction false} GuardKept(s: State, events: seq<Event>, s': State, key: Key, k: nat, before: set<Call>)
    requires Inv(s) && Guarded(s, key, k, before) && before <= s.calls.Keys && Exec(s, events) == Some(s')
    ensures Guarded(s', key, k, before)
    decreases |events|
  {
    if events != [] {
      var m := Step(s, events[0]).value;
      StepKeepsInv(s, events[0], m);
      GuardKeptByStep(s, events[0], m, key, k, before);
      GuardKept(m, events[1..], s', key, k, before);
    }
  }

  /** Whatever happens from here on, no call that starts from here on returns a value of `key` older than write `k`. */
  ghost predicate AlwaysFresh(s: State, key: Key, k: nat) {
    forall events: seq<Event>, c: Call, d: Data ::
      Exec(s, events).Some? && c !in s.calls && HasReturned(Exec(s, events).value, c, key, d) ==> k <= d.snapshot
  }

  lemma FreshSuffices(s: State, key: Key, k: nat)
    requires Inv(s) && k <= s.db && Fresh(s, key, k)
    ensures AlwaysFresh(s, key, k)
  {
    forall events: seq<Event>, c: Call, d: Data
      | Exec(s, events).Some? && c !in s.calls && HasReturned(Exec(s, events).value, c, key, d)
      ensures k <= d.snapshot
    {
      var s' := Exec(s, events).value;
      GuardKept(s, events, s', key, k, s.calls.Keys);
      assert CallFresh(s', s'.calls[c], key, k);
    }
  }

  // ---------- and exactly then ----------

  /** How a call for `key` begins. A list key can be asked for while its version is current. */
  ghost function Opening(c: Call, p: nat, key: Key): seq<Event> {
    match key
    case ListKey(view, _) => [CallList(c, p, view), GetVersion(c, true)]
    case DetailKey(id) => [CallDetail(c, p, id)]
  }

  ghost predicate Askable(s: State, key: Key) {
    key.ListKey? ==> key.version == s.tracker
  }

  lemma OpeningRuns(s: State, c: Call, p: nat, key: Key, rest: seq<Event>)
    requires c !in s.calls && Askable(s, key)
    ensures Exec(s, Opening(c, p, key) + rest) == Exec(To(s, c, Keyed(p, key)), rest)
  {
    match key
    case DetailKey(id) => ExecCons(s, CallDetail(c, p, id), rest);
    case ListKey(view, _) =>
      var s1 := To(s, c, Asked(p, view));
      ExecCons(s, CallList(c, p, view), [GetVersion(c, true)] + rest);
      ExecCons(s1, GetVersion(c, true), rest);
      assert [CallList(c, p, view)] + ([GetVersion(c, true)] + rest) == Opening(c, p, key) + rest;
      assert s1.calls[c := Keyed(p, key)] == s.calls[c := Keyed(p, key)];
  }

  lemma ToTwice(s: State, c: Call, p: CallPhase, q: CallPhase)
    ensures To(To(s, c, p), c, q) == To(s, c, q)
  {
    assert s.calls[c := p][c := q] == s.calls[c := q];
  }

  /** A stale cached value is returned to the next call. */
  lemma StaleHit(s: State, key: Key, c: Call) returns (events: seq<Event>)
    requires c !in s.calls && Askable(s, key) && key in s.cache
    ensures Exec(s, events).Some? && HasReturned(Exec(s, events).value, c, key, s.cache[key])
  {
    var d := s.cache[key];
    events := Opening(c, 0, key) + [Get(c, true), Continue(c, 0)];
    OpeningRuns(s, c, 0, key, [Get(c, true), Continue(c, 0)]);
    var s1 := To(s, c, Keyed(0, key));
    ToTwice(s, c, Keyed(0, key), Looked(0, key, Some(d)));
    var s2 := To(s, c, Looked(0, key, Some(d)));
    ExecCons(s1, Get(c, true), [Continue(c, 0)]);
    ExecCons(s2, Continue(c, 0), []);
    assert [Get(c, true)] + [Continue(c, 0)] == [Get(c, true), Continue(c, 0)] &&
      [Continue(c, 0)] + [] == [Continue(c, 0)];
  }

  /** What is left of a fetch that has read the database. */
  ghost function Finish(p: FetchPhase, f: FetchId): seq<Event> {
    if p.Fetched? && p.data.truthy then [Store(f, true), Settle(f)] else [Settle(f)]
  }

  lemma SettleRuns(s: State, f: FetchId, c: Call, key: Key, d: Data)
    requires f in s.fetches && (s.fetches[f].phase == Stored(d) || (s.fetches[f].phase == Fetched(d) && !d.truthy))
    requires c in s.calls && s.calls[c].Joined? && s.calls[c].key == key && s.calls[c].fetch == f
    ensures Exec(s, [Settle(f), Deliver(c)]).Some?
    ensures HasReturned(Exec(s, [Settle(f), Deliver(c)]).value, c, key, d)
  {
    var s1 := SettleWith(s, f, Value(d));
    var s2 := To(s1, c, FromFetch(key, f, Value(d)));
    ExecCons(s, Settle(f), [Deliver(c)]);
    ExecCons(s1, Deliver(c), []);
    assert [Settle(f)] + [Deliver(c)] == [Settle(f), Deliver(c)] && [Deliver(c)] + [] == [Deliver(c)];
    assert Exec(s2, []) == Some(s2);
  }

  lemma FinishRuns(s: State, f: FetchId, c: Call, key: Key, d: Data)
    requires f in s.fetches && !s.fetches[f].phase.Settled? && DataOf(s.fetches[f].phase) == Some(d)
    requires c in s.calls && s.calls[c].Joined? && s.calls[c].key == key && s.calls[c].fetch == f
    ensures Exec(s, Finish(s.fetches[f].phase, f) + [Deliver(c)]).Some?
    ensures HasReturned(Exec(s, Finish(s.fetches[f].phase, f) + [Deliver(c)]).value, c, key, d)
  {
    if s.fetches[f].phase.Fetched? && d.truthy {
      var s1 := Step(s, Store(f, true)).value;
      ExecCons(s, Store(f, true), [Settle(f), Deliver(c)]);
      assert [Store(f, true)] + [Settle(f), Deliver(c)] == Finish(s.fetches[f].phase, f) + [Deliver(c)];
      SettleRuns(s1, f, c, key, d);
    } else {
      assert [Settle(f), Deliver(c)] == Finish(s.fetches[f].phase, f) + [Deliver(c)];
      SettleRuns(s, f, c, key, d);
    }
  }

  /** A fetch in flight with a stale value hands it to the next call of its process that misses. */
  lemma StaleFlight(s: State, key: Key, c: Call, f: FetchId, d: Data) returns (events: seq<Event>)
    requires Inv(s) && c !in s.calls && Askable(s, key)
    requires f in s.fetches && s.fetches[f].key == key && !s.fetches[f].phase.Settled? &&
      DataOf(s.fetches[f].phase) == Some(d)
    ensures Exec(s, events).Some? && HasReturned(Exec(s, events).value, c, key, d)
  {
    var p, tail := s.fetches[f].proc, Finish(s.fetches[f].phase, f) + [Deliver(c)];
    var s1 := Step(s, Evict(key)).value;
    StepKeepsInv(s, Evict(key), s1);
    var s2 := To(s1, c, Keyed(p, key));
    events := [Evict(key)] + (Opening(c, p, key) + ([Get(c, true)] + ([Continue(c, 0)] + tail)));
    ExecCons(s, Evict(key), Opening(c, p, key) + ([Get(c, true)] + ([Continue(c, 0)] + tail)));
    OpeningRuns(s1, c, p, key, [Get(c, true)] + ([Continue(c, 0)] + tail));
    JoiningRuns(s1, c, key, f, tail);
    FinishRuns(To(s1, c, Joined(p, key, f)), f, c, key, d);
  }

  /** A call that misses joins the fetch in flight. */
  lemma JoiningRuns(s: State, c: Call, key: Key, f: FetchId, tail: seq<Event>)
    requires Inv(s) && key !in s.cache && f in s.fetches && s.fetches[f].key == key && !s.fetches[f].phase.Settled?
    ensures
      var p := s.fetches[f].proc;
      Exec(To(s, c, Keyed(p, key)), [Get(c, true)] + ([Continue(c, 0)] + tail)) ==
      Exec(To(s, c, Joined(p, key, f)), tail)
  {
    var p := s.fetches[f].proc;
    var s2, s3 := To(s, c, Keyed(p, key)), To(s, c, Looked(p, key, None));
    ToTwice(s, c, s2.calls[c], s3.calls[c]);
    ToTwice(s, c, s3.calls[c], Joined(p, key, f));
    assert Slot(p, key) in s.inFlight && s.inFlight[Slot(p, key)] == f;
    ExecCons(s2, Get(c, true), [Continue(c, 0)] + tail);
    ExecCons(s3, Continue(c, 0), tail);
  }

  /** Later reads of a key all include write `k` if and only if nothing older is cached or on its way. */
  lemma FreshIff(s: State, key: Key, k: nat)
    requires Inv(s) && k <= s.db && Askable(s, key)
    ensures AlwaysFresh(s, key, k) <==> Fresh(s, key, k)
  {
    if Fresh(s, key, k) {
      FreshSuffices(s, key, k);
    } else {
      var c := Unused(s.calls.Keys);
      if key in s.cache && s.cache[key].snapshot < k {
        var events := StaleHit(s, key, c);
      } else {
        var f :| f in s.fetches && s.fetches[f].key == key && !s.fetches[f].phase.Settled? &&
          !DataFresh(s.fetches[f].phase, k);
        var events := StaleFlight(s, key, c, f, DataOf(s.fetches[f].phase).value);
      }
    }
  }

  /**
   Detail keys: after a write and the invalidation that follows it, all later reads reflect the write if and only
   if no process has a fetch of the key outstanding that read the database before the write.
   */
  lemma InvalidateDetailIff(s: State, id: nat, k: nat)
    requires Inv(s) && k <= s.db
    ensures AlwaysFresh(Step(s, Invalidate(id)).value, DetailKey(id), k) <==>
      forall f :: f in s.fetches && s.fetches[f].key == DetailKey(id) && !s.fetches[f].phase.Settled? ==>
        DataFresh(s.fetches[f].phase, k)
  {
    var s' := Step(s, Invalidate(id)).value;
    StepKeepsInv(s, Invalidate(id), s');
    FreshIff(s', DetailKey(id), k);
  }

  /** List keys: a bump needs no such condition, because nothing can be cached or in flight under a version to come. */
  lemma BumpIsAlwaysEnough(s: State, view: nat)
    requires Inv(s)
    ensures
      var s' := Step(s, Bump).value;
      AlwaysFresh(s', ListKey(view, s'.tracker), s.db)
  {
    var s' := Step(s, Bump).value;
    StepKeepsInv(s, Bump, s');
    forall f | f in s.fetches ensures s.fetches[f].key != ListKey(view, s'.tracker) {
      assert GoodFetch(s, f, s.fetches[f]);
    }
    FreshSuffices(s', ListKey(view, s'.tracker), s.db);
  }

  /**
   The writer's order matters. A write that no bump follows is seen by all later reads under the current version if
   and only if that version's list is neither cached nor read by an outstanding fetch.
   */
  lemma WriteAloneIff(s: State, view: nat)
    requires Inv(s)
    ensures
      var s', key := Step(s, Write).value, ListKey(view, s.tracker);
      AlwaysFresh(s', key, s'.db) <==>
        key !in s.cache && forall f :: f in s.fetches && s.fetches[f].key == key && !s.fetches[f].phase.Settled? ==>
                             s.fetches[f].phase.Running?
  {
    var s', key := Step(s, Write).value, ListKey(view, s.tracker);
    StepKeepsInv(s, Write, s');
    FreshIff(s', key, s'.db);
    assert key in s.cache ==> Settling(s, key, s.cache[key]);
    forall f | f in s.fetches ensures DataFresh(s.fetches[f].phase, s'.db) <==> DataOf(s.fetches[f].phase).None? {
      assert GoodFetch(s, f, s.fetches[f]);
    }
  }

  // ---------- the stale cases are reachable ----------

  /** A first call of a key that misses and whose fetch has read the database. */
  ghost function Reading(key: Key): seq<Event> {
    Opening(0, 0, key) + [Get(0, true), Continue(0, 0), Read(0, true)]
  }

  ghost function HasRead(s: State, key: Key): State {
    To(s, 0, Joined(0, key, 0)).(
      fetches := s.fetches[0 := Fetch(0, key, s.db, Fetched(Data(s.db, true, 0)))],
      inFlight := s.inFlight[Slot(0, key) := 0])
  }

  lemma ReadingRuns(s: State, key: Key)
    requires s.calls == map[] && s.fetches == map[] && s.cache == map[] && s.inFlight == map[] && Askable(s, key)
    ensures Exec(s, Reading(key)) == Some(HasRead(s, key))
  {
    var tail := [Get(0, true), Continue(0, 0), Read(0, true)];
    OpeningRuns(s, 0, 0, key, tail);
    var s1, s2 := To(s, 0, Keyed(0, key)), To(s, 0, Looked(0, key, None));
    ToTwice(s, 0, s1.calls[0], s2.calls[0]);
    ToTwice(s, 0, s2.calls[0], Joined(0, key, 0));
    ExecCons(s1, Get(0, true), [Continue(0, 0), Read(0, true)]);
    assert [Get(0, true)] + [Continue(0, 0), Read(0, true)] == tail;
    FetchingRuns(s2, s, key);
  }

  lemma FetchingRuns(s: State, before: State, key: Key)
    requires s == To(before, 0, Looked(0, key, None)) && before.fetches == map[] && before.inFlight == map[]
    ensures Exec(s, [Continue(0, 0), Read(0, true)]) == Some(HasRead(before, key))
  {
    ToTwice(before, 0, s.calls[0], Joined(0, key, 0));
    var s1 := Step(s, Continue(0, 0)).value;
    var s2 := Step(s1, Read(0, true)).value;
    ExecCons(s, Continue(0, 0), [Read(0, true)]);
    ExecCons(s1, Read(0, true), []);
    assert [Continue(0, 0)] + [Read(0, true)] == [Continue(0, 0), Read(0, true)];
    assert [Read(0, true)] + [] == [Read(0, true)];
    assert s2.fetches == HasRead(before, key).fetches;
  }

  /** A detail read is overtaken by a write: by `InvalidateDetailIff` the invalidation that follows is not enough. */
  lemma StaleFetchIsReachable(id: nat) returns (s: State)
    ensures Reachable(s) && 0 in s.fetches && s.fetches[0].key == DetailKey(id) && !s.fetches[0].phase.Settled?
    ensures !DataFresh(s.fetches[0].phase, s.db)
    ensures !AlwaysFresh(Step(s, Invalidate(id)).value, DetailKey(id), s.db)
  {
    ReadingRuns(INITIAL, DetailKey(id));
    var m := HasRead(INITIAL, DetailKey(id));
    s := Step(m, Write).value;
    ReachableStep(m, Write, s);
    ReachableInv(s);
    InvalidateDetailIff(s, id, s.db);
  }

  /** A list cached between a writer's bump and its write: by `WriteAloneIff` the write is missed. */
  lemma StaleListIsReachable(view: nat) returns (s: State)
    ensures Reachable(s) && ListKey(view, s.tracker) in s.cache
    ensures !AlwaysFresh(Step(s, Write).value, ListKey(view, s.tracker), s.db + 1)
  {
    var s1 := Step(INITIAL, Bump).value;
    assert Exec(INITIAL, []) == Some(INITIAL);
    ReachableStep(INITIAL, Bump, s1);
    ReadingRuns(s1, ListKey(view, 1));
    var m := HasRead(s1, ListKey(view, 1));
    ReachableRun(s1, Reading(ListKey(view, 1)), m);
    s := Step(m, Store(0, true)).value;
    ReachableStep(m, Store(0, true), s);
    ReachableInv(s);
    WriteAloneIff(s, view);
  }

  // ---------- singleflight ----------

  /** In every run, one process has at most one outstanding fetch per key, and its map holds exactly those keys. */
  lemma OneFetchPerProcessAndKey(s: State, slot: Slot, f: FetchId)
    requires Reachable(s)
    ensures slot in s.inFlight && s.inFlight[slot] == f <==>
      f in s.fetches && Slot(s.fetches[f].proc, s.fetches[f].key) == slot && !s.fetches[f].phase.Settled?
  {
    ReachableInv(s);
  }

  /** All callers that awaited one fetch got the same outcome, the one the fetch settled with. */
  lemma JoinedCallersAgree(s: State, c: Call, d: Call)
    requires Reachable(s) && c in s.calls && d in s.calls
    requires s.calls[c].FromFetch? && s.calls[d].FromFetch? && s.calls[c].fetch == s.calls[d].fetch
    ensures s.calls[c].outcome == s.calls[d].outcome && s.calls[c].key == s.calls[d].key
  {
    ReachableInv(s);
    assert GoodCall(s, s.calls[c]) && GoodCall(s, s.calls[d]);
  }

  /**
   In every run, a settled fetch, failed or not, has freed its key for good: a later caller of its process that misses
   awaits another fetch that is still outstanding, and starts it when there is none.
   */
  lemma SettledFetchFreesKey(s: State, f: FetchId, c: Call, newFetch: FetchId, s': State)
    requires Reachable(s) && f in s.fetches && s.fetches[f].phase.Settled?
    requires c in s.calls && s.calls[c] == Looked(s.fetches[f].proc, s.fetches[f].key, None)
    requires StepContinue(s, c, newFetch) == Some(s')
    ensures s'.calls[c].Joined? && s'.calls[c].fetch != f
    ensures s'.calls[c].fetch in s'.fetches && !s'.fetches[s'.calls[c].fetch].phase.Settled?
    ensures
      var p, key := s.fetches[f].proc, s.fetches[f].key;
      (forall g :: g in s.fetches && Slot(s.fetches[g].proc, s.fetches[g].key) == Slot(p, key) ==>
         s.fetches[g].phase.Settled?) ==>
        s'.fetches == s.fetches[newFetch := Fetch(p, key, s.db, Running)]
  {
    ReachableInv(s);
  }
}
