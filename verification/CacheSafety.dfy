/** The inductive invariant of the cache: values are no older than their key, one fetch per process and key. */
module CacheSafety {
  import opened Wrappers
  import opened CacheProtocol

  type Floor = map<nat, nat>
  type Fetches = map<FetchId, Fetch>

  /** The oldest snapshot a key may show: for a list key, what was written when its version became current. */
  ghost function Oldest(floor: Floor, key: Key): nat {
    if key.ListKey? && key.version in floor then floor[key.version] else 0
  }

  ghost predicate Known(tracker: nat, key: Key) {
    key.ListKey? ==> key.version <= tracker
  }

  function DataOf(p: FetchPhase): Option<Data> {
    match p
    case Running => None
    case Fetched(d) => Some(d)
    case Stored(d) => Some(d)
    case Settled(Value(d)) => Some(d)
    case Settled(Error) => None
  }

  ghost predicate GoodFloor(s: State) {
    && (forall v: nat :: v <= s.tracker <==> v in s.floor)
    && (forall v: nat, w: nat :: v <= w <= s.tracker ==> v in s.floor && w in s.floor && s.floor[v] <= s.floor[w])
    && (s.tracker in s.floor && s.floor[s.tracker] <= s.db)
  }

  /** A value under a key: a truthful product of a fetch for that key, and no older than the key. */
  ghost predicate GoodData(s: State, key: Key, d: Data) {
    && Known(s.tracker, key)
    && d.maker in s.fetches && s.fetches[d.maker].key == key && DataOf(s.fetches[d.maker].phase) == Some(d)
    && Oldest(s.floor, key) <= d.snapshot <= s.db
  }

  ghost predicate GoodFetch(s: State, f: FetchId, fetch: Fetch) {
    && Known(s.tracker, fetch.key)
    && Oldest(s.floor, fetch.key) <= fetch.since <= s.db
    && (DataOf(fetch.phase).Some? ==>
          DataOf(fetch.phase).value.maker == f && fetch.since <= DataOf(fetch.phase).value.snapshot <= s.db)
    && (fetch.phase.Stored? ==> fetch.phase.data.truthy)
  }

  ghost predicate GoodCall(s: State, p: CallPhase) {
    match p
    case Asked(_, _) => true
    case Keyed(_, key) => Known(s.tracker, key)
    case Looked(_, key, hit) => Known(s.tracker, key) && (hit.Some? ==> hit.value.truthy && Settling(s, key, hit.value))
    case Joined(proc, key, f) => f in s.fetches && s.fetches[f].proc == proc && s.fetches[f].key == key
    case FromCache(key, d) => d.truthy && Settling(s, key, d)
    case FromFetch(key, f, o) => f in s.fetches && s.fetches[f].key == key && s.fetches[f].phase == Settled(o)
    case Failed => true
  }

  /** A value that has been put in the cache: its fetch will not fail any more. */
  ghost predicate Settling(s: State, key: Key, d: Data) {
    GoodData(s, key, d) && !s.fetches[d.maker].phase.Fetched?
  }

  /** The map holds a key exactly while its fetch, including the Redis SET, is outstanding. */
  ghost predicate Singleflight(inFlight: map<Slot, FetchId>, fetches: Fetches) {
    && (forall slot :: slot in inFlight ==>
          && inFlight[slot] in fetches
          && Slot(fetches[inFlight[slot]].proc, fetches[inFlight[slot]].key) == slot
          && !fetches[inFlight[slot]].phase.Settled?)
    && (forall f :: f in fetches && !fetches[f].phase.Settled? ==>
          && Slot(fetches[f].proc, fetches[f].key) in inFlight
          && inFlight[Slot(fetches[f].proc, fetches[f].key)] == f)
  }

  ghost predicate Inv(s: State) {
    && GoodFloor(s)
    && Singleflight(s.inFlight, s.fetches)
    && (forall f :: f in s.fetches ==> GoodFetch(s, f, s.fetches[f]))
    && (forall key :: key in s.cache ==> s.cache[key].truthy && Settling(s, key, s.cache[key]))
    && (forall c :: c in s.calls ==> GoodCall(s, s.calls[c]))
  }

  // ---------- what a step may change ----------

  /** A fetch keeps its identity and, once its value can have been cached, its value; settled is settled. */
  ghost predicate FetchGrows(a: Fetch, b: Fetch) {
    && a.proc == b.proc && a.key == b.key && a.since == b.since
    && (a.phase.Settled? ==> b.phase == a.phase)
    && (a.phase.Stored? ==> DataOf(b.phase) == DataOf(a.phase) && !b.phase.Fetched?)
  }

  ghost predicate Grows(s: State, s': State) {
    && s.db <= s'.db && s.tracker <= s'.tracker
    && (forall v :: v in s.floor ==> v in s'.floor && s'.floor[v] == s.floor[v])
    && (forall f :: f in s.fetches ==> f in s'.fetches && FetchGrows(s.fetches[f], s'.fetches[f]))
  }

  predicate MovesFetch(e: Event) {
    e.Read? || e.FetchFails? || e.Store? || e.Settle?
  }

  predicate MovesCall(e: Event) {
    e.CallList? || e.CallDetail? || e.GetVersion? || e.Get? || e.Continue? || e.Deliver?
  }

  lemma FetchMoves(s: State, e: Event, s': State)
    requires MovesFetch(e) && Step(s, e) == Some(s')
    ensures s' == s.(fetches := s'.fetches, cache := s'.cache, inFlight := s'.inFlight)
    ensures e.fetch in s.fetches && e.fetch in s'.fetches && s'.fetches == s.fetches[e.fetch := s'.fetches[e.fetch]]
    ensures FetchGrows(s.fetches[e.fetch], s'.fetches[e.fetch])
  {
  }

  /** Of the calls' own events only the start of a fetch touches more than the call. */
  lemma CallMoves(s: State, e: Event, s': State)
    requires MovesCall(e) && Step(s, e) == Some(s')
    ensures e.call in s'.calls && s'.calls == s.calls[e.call := s'.calls[e.call]]
    ensures !e.Continue? ==> s' == s.(calls := s'.calls)
    ensures s' == s.(calls := s'.calls, fetches := s'.fetches, inFlight := s'.inFlight)
    ensures forall f :: f in s.fetches ==> f in s'.fetches && s'.fetches[f] == s.fetches[f]
  {
    if e.Continue? {
      ContinueMoves(s, e.call, e.newFetch, s');
    }
  }

  lemma ContinueMoves(s: State, c: Call, f: FetchId, s': State)
    requires StepContinue(s, c, f) == Some(s')
    ensures c in s'.calls && s'.calls == s.calls[c := s'.calls[c]]
    ensures s' == s.(calls := s'.calls, fetches := s'.fetches, inFlight := s'.inFlight)
    ensures forall g :: g in s.fetches ==> g in s'.fetches && s'.fetches[g] == s.fetches[g]
  {
  }

  lemma StoreMoves(s: State, e: Event, s': State)
    requires !MovesFetch(e) && !MovesCall(e) && Step(s, e) == Some(s')
    ensures s' == s.(db := s'.db, tracker := s'.tracker, floor := s'.floor, cache := s'.cache)
    ensures s.db <= s'.db && forall key :: key in s'.cache ==> key in s.cache && s'.cache[key] == s.cache[key]
  {
  }

  lemma StepGrows(s: State, e: Event, s': State)
    requires Inv(s) && Step(s, e) == Some(s')
    ensures Grows(s, s')
  {
    if MovesFetch(e) {
      FetchMoves(s, e, s');
    } else if MovesCall(e) {
      CallMoves(s, e, s');
    } else {
      StoreMovesGrow(s, e, s');
    }
  }

  lemma StoreMovesGrow(s: State, e: Event, s': State)
    requires GoodFloor(s) && !MovesFetch(e) && !MovesCall(e) && Step(s, e) == Some(s')
    ensures Grows(s, s')
  {
  }

  lemma GrowsTransitive(a: State, b: State, c: State)
    requires Grows(a, b) && Grows(b, c)
    ensures Grows(a, c)
  {
    forall f | f in a.fetches ensures f in c.fetches && FetchGrows(a.fetches[f], c.fetches[f]) {
      assert FetchGrows(a.fetches[f], b.fetches[f]);
      assert FetchGrows(b.fetches[f], c.fetches[f]);
    }
  }

  lemma SettlingStable(s: State, s': State, key: Key, d: Data)
    requires Settling(s, key, d) && GoodFloor(s) && Grows(s, s')
    ensures Settling(s', key, d)
  {
    assert FetchGrows(s.fetches[d.maker], s'.fetches[d.maker]);
    assert key.ListKey? ==> key.version in s.floor;
  }

  lemma CallStable(s: State, s': State, p: CallPhase)
    requires GoodCall(s, p) && GoodFloor(s) && Grows(s, s')
    ensures GoodCall(s', p)
  {
    match p
    case Looked(_, key, hit) =>
      if hit.Some? { SettlingStable(s, s', key, hit.value); }
    case FromCache(key, d) => SettlingStable(s, s', key, d);
    case Joined(_, _, f) => assert FetchGrows(s.fetches[f], s'.fetches[f]);
    case FromFetch(_, f, _) => assert FetchGrows(s.fetches[f], s'.fetches[f]);
    case _ =>
  }

  /** Calls other than the moved one stay good. */
  lemma CallsStable(s: State, s': State, moved: set<Call>)
    requires Inv(s) && Grows(s, s')
    requires forall c :: c in s'.calls && c !in moved ==> c in s.calls && s'.calls[c] == s.calls[c]
    requires forall c :: c in s'.calls && c in moved ==> GoodCall(s', s'.calls[c])
    ensures forall c :: c in s'.calls ==> GoodCall(s', s'.calls[c])
  {
    forall c | c in s'.calls ensures GoodCall(s', s'.calls[c]) {
      if c !in moved {
        CallStable(s, s', s.calls[c]);
      }
    }
  }

  lemma CacheStable(s: State, s': State, changed: set<Key>)
    requires Inv(s) && Grows(s, s')
    requires forall key :: key in s'.cache && key !in changed ==> key in s.cache && s'.cache[key] == s.cache[key]
    requires forall key :: key in s'.cache && key in changed ==>
      s'.cache[key].truthy && Settling(s', key, s'.cache[key])
    ensures forall key :: key in s'.cache ==> s'.cache[key].truthy && Settling(s', key, s'.cache[key])
  {
    forall key | key in s'.cache ensures s'.cache[key].truthy && Settling(s', key, s'.cache[key]) {
      if key !in changed {
        SettlingStable(s, s', key, s.cache[key]);
      }
    }
  }

  lemma FetchesStable(s: State, s': State, moved: set<FetchId>)
    requires Inv(s) && Grows(s, s')
    requires forall f :: f in s'.fetches && f !in moved ==> f in s.fetches && s'.fetches[f] == s.fetches[f]
    requires forall f :: f in s'.fetches && f in moved ==> GoodFetch(s', f, s'.fetches[f])
    ensures forall f :: f in s'.fetches ==> GoodFetch(s', f, s'.fetches[f])
  {
    forall f | f in s'.fetches ensures GoodFetch(s', f, s'.fetches[f]) {
      if f !in moved {
        var key := s.fetches[f].key;
        assert GoodFetch(s, f, s.fetches[f]);
        assert key.ListKey? ==> key.version in s.floor;
      }
    }
  }

  // ---------- every step keeps it ----------

  /** Write, bump, evict and invalidate: no fetch and no call moves. */
  lemma KeptByStoreStep(s: State, e: Event, s': State)
    requires Inv(s) && Grows(s, s') && !MovesFetch(e) && !MovesCall(e) && Step(s, e) == Some(s')
    ensures Inv(s')
  {
    StoreMoves(s, e, s');
    FloorKept(s, e, s');
    CallsStable(s, s', {});
    CacheStable(s, s', {});
    FetchesStable(s, s', {});
  }

  lemma FloorKept(s: State, e: Event, s': State)
    requires GoodFloor(s) && !MovesFetch(e) && !MovesCall(e) && Step(s, e) == Some(s')
    ensures GoodFloor(s')
  {
  }

  /** A call that moves without starting a fetch. */
  lemma KeptByCallMove(s: State, c: Call, s': State)
    requires Inv(s) && c in s'.calls && s' == To(s, c, s'.calls[c]) && GoodCall(s', s'.calls[c])
    ensures Inv(s')
  {
    CallsStable(s, s', {c});
    CacheStable(s, s', {});
    FetchesStable(s, s', {});
  }

  lemma SingleflightStarted(inFlight: map<Slot, FetchId>, fetches: Fetches, f: FetchId, fetch: Fetch)
    requires Singleflight(inFlight, fetches) && f !in fetches && !fetch.phase.Settled?
    requires Slot(fetch.proc, fetch.key) !in inFlight
    ensures Singleflight(inFlight[Slot(fetch.proc, fetch.key) := f], fetches[f := fetch])
  {
  }

  lemma SingleflightAdvanced(inFlight: map<Slot, FetchId>, fetches: Fetches, f: FetchId, p: FetchPhase)
    requires Singleflight(inFlight, fetches) && f in fetches && !fetches[f].phase.Settled? && !p.Settled?
    ensures Singleflight(inFlight, fetches[f := fetches[f].(phase := p)])
  {
  }

  lemma SingleflightSettled(inFlight: map<Slot, FetchId>, fetches: Fetches, f: FetchId, o: Outcome)
    requires Singleflight(inFlight, fetches) && f in fetches && !fetches[f].phase.Settled?
    ensures
      var slot := Slot(fetches[f].proc, fetches[f].key);
      Singleflight(inFlight - {slot}, fetches[f := fetches[f].(phase := Settled(o))])
  {
    var slot := Slot(fetches[f].proc, fetches[f].key);
    var fetches', inFlight' := fetches[f := fetches[f].(phase := Settled(o))], inFlight - {slot};
    forall g | g in fetches' && !fetches'[g].phase.Settled?
      ensures Slot(fetches'[g].proc, fetches'[g].key) in inFlight'
      ensures inFlight'[Slot(fetches'[g].proc, fetches'[g].key)] == g
    {
      assert g != f;
    }
  }

  lemma KeptByStart(s: State, c: Call, f: FetchId, s': State)
    requires Inv(s) && Grows(s, s') && StepContinue(s, c, f) == Some(s') && f !in s.fetches && f in s'.fetches
    ensures Inv(s')
  {
    NewFetchIsGood(s, c, f, s');
    SingleflightStarted(s.inFlight, s.fetches, f, s'.fetches[f]);
    CallsStable(s, s', {c});
    CacheStable(s, s', {});
    FetchesStable(s, s', {f});
  }

  lemma NewFetchIsGood(s: State, c: Call, f: FetchId, s': State)
    requires Inv(s) && StepContinue(s, c, f) == Some(s') && f !in s.fetches && f in s'.fetches
    ensures GoodFetch(s', f, s'.fetches[f]) && GoodCall(s', s'.calls[c])
  {
    var key := s.calls[c].key;
    assert GoodCall(s, s.calls[c]);
    assert key.ListKey? ==> s.floor[key.version] <= s.floor[s.tracker];
  }

  lemma KeptByContinue(s: State, c: Call, f: FetchId, s': State)
    requires Inv(s) && Grows(s, s') && StepContinue(s, c, f) == Some(s')
    ensures Inv(s')
  {
    assert GoodCall(s, s.calls[c]);
    if f in s'.fetches && f !in s.fetches {
      KeptByStart(s, c, f, s');
    } else {
      KeptByCallMove(s, c, s');
    }
  }

  lemma KeptByRead(s: State, f: FetchId, truthy: bool, s': State)
    requires Inv(s) && Grows(s, s') && StepRead(s, f, truthy) == Some(s')
    ensures Inv(s')
  {
    assert GoodFetch(s, f, s.fetches[f]);
    SingleflightAdvanced(s.inFlight, s.fetches, f, s'.fetches[f].phase);
    KeptByAdvance(s, f, s'.fetches[f].phase, s');
  }

  /** A fetch that moves on without touching the cache. */
  lemma KeptByAdvance(s: State, f: FetchId, p: FetchPhase, s': State)
    requires Inv(s) && Grows(s, s') && f in s.fetches && s' == Advance(s, f, p).(inFlight := s'.inFlight)
    requires Singleflight(s'.inFlight, s'.fetches) && GoodFetch(s', f, s'.fetches[f])
    ensures Inv(s')
  {
    CallsStable(s, s', {});
    CacheStable(s, s', {});
    FetchesStable(s, s', {f});
  }

  lemma KeptByStore(s: State, f: FetchId, ok: bool, s': State)
    requires Inv(s) && Grows(s, s') && StepStore(s, f, ok) == Some(s')
    ensures Inv(s')
  {
    StoredIsGood(s, f, ok, s');
    SingleflightAdvanced(s.inFlight, s.fetches, f, s'.fetches[f].phase);
    CallsStable(s, s', {});
    CacheStable(s, s', {s.fetches[f].key});
    FetchesStable(s, s', {f});
  }

  lemma StoredIsGood(s: State, f: FetchId, ok: bool, s': State)
    requires Inv(s) && Grows(s, s') && StepStore(s, f, ok) == Some(s')
    ensures
      var key := s.fetches[f].key;
      GoodFetch(s', f, s'.fetches[f]) &&
      (key in s'.cache ==> s'.cache[key].truthy && Settling(s', key, s'.cache[key]))
  {
    var key := s.fetches[f].key;
    assert GoodFetch(s, f, s.fetches[f]);
    if key in s.cache {
      SettlingStable(s, s', key, s.cache[key]);
    }
  }

  lemma KeptBySettling(s: State, f: FetchId, o: Outcome, s': State)
    requires Inv(s) && Grows(s, s') && f in s.fetches && !s.fetches[f].phase.Settled? && s' == SettleWith(s, f, o)
    requires o.Value? ==> DataOf(s.fetches[f].phase) == Some(o.data)
    ensures Inv(s')
  {
    assert GoodFetch(s, f, s.fetches[f]);
    SingleflightSettled(s.inFlight, s.fetches, f, o);
    KeptByAdvance(s, f, Settled(o), s');
  }

  lemma KeptByFetchMove(s: State, e: Event, s': State)
    requires Inv(s) && Grows(s, s') && MovesFetch(e) && Step(s, e) == Some(s')
    ensures Inv(s')
  {
    match e
    case Read(f, truthy) => KeptByRead(s, f, truthy, s');
    case FetchFails(f) => KeptBySettling(s, f, Error, s');
    case Store(f, ok) => KeptByStore(s, f, ok, s');
    case Settle(f) => KeptBySettling(s, f, Value(s.fetches[f].phase.data), s');
  }

  lemma MovedCallIsGood(s: State, e: Event, s': State)
    requires Inv(s) && MovesCall(e) && !e.Continue? && Step(s, e) == Some(s')
    ensures e.call in s'.calls && s' == To(s, e.call, s'.calls[e.call]) && GoodCall(s', s'.calls[e.call])
  {
    if e.call in s.calls {
      assert GoodCall(s, s.calls[e.call]);
    }
  }

  lemma StepKeepsInv(s: State, e: Event, s': State)
    requires Inv(s) && Step(s, e) == Some(s')
    ensures Inv(s')
  {
    StepGrows(s, e, s');
    if e.Continue? {
      KeptByContinue(s, e.call, e.newFetch, s');
    } else if MovesCall(e) {
      MovedCallIsGood(s, e, s');
      KeptByCallMove(s, e.call, s');
    } else if MovesFetch(e) {
      KeptByFetchMove(s, e, s');
    } else {
      KeptByStoreStep(s, e, s');
    }
  }

  lemma InitialInv()
    ensures Inv(INITIAL)
  {
  }

  lemma {:induction false} RunKeepsInv(s: State, events: seq<Event>, s': State)
    requires Inv(s) && Exec(s, events) == Some(s')
    ensures Inv(s') && Grows(s, s')
    decreases |events|
  {
    if events != [] {
      var m := Step(s, events[0]).value;
      StepKeepsInv(s, events[0], m);
      StepGrows(s, events[0], m);
      RunKeepsInv(m, events[1..], s');
      GrowsTransitive(s, m, s');
    }
  }

  // ---------- what every run reaches ----------

  ghost predicate Reachable(s: State) {
    exists events :: Exec(INITIAL, events) == Some(s)
  }

  lemma ReachableInv(s: State)
    requires Reachable(s)
    ensures Inv(s)
  {
    var events :| Exec(INITIAL, events) == Some(s);
    InitialInv();
    RunKeepsInv(INITIAL, events, s);
  }

  lemma ReachableRun(s: State, events: seq<Event>, s': State)
    requires Reachable(s) && Exec(s, events) == Some(s')
    ensures Reachable(s') && Grows(s, s')
  {
    var before :| Exec(INITIAL, before) == Some(s);
    ExecAppend(INITIAL, before, events);
    ReachableInv(s);
    RunKeepsInv(s, events, s');
  }

  lemma ReachableStep(s: State, e: Event, s': State)
    requires Reachable(s) && Step(s, e) == Some(s')
    ensures Reachable(s') && Grows(s, s')
  {
    ExecCons(s, e, []);
    assert [e] + [] == [e] && Exec(s', []) == Some(s');
    ReachableRun(s, [e], s');
  }
}
