/**
 One process's cache service over the shared Redis. Its methods are the stretches of code that run without another
 step in between, or a whole promise chain that happens to run undisturbed; each is shown to follow the events of
 the cache state machine, whose guarantees it therefore has.
 */
module CachedService {
  import opened Wrappers
  import opened CacheProtocol
  import opened CacheSafety

  /** What the caller's fetcher does: it rejects, or resolves to a truthy or falsy value. */
  datatype FetchResult = Rejects | Resolves(truthy: bool)

  /** How `getOrSetDetail` goes on after its GET; or `getOrSetList` could not read the version. */
  datatype Begun = Hit(data: Data) | Waits(fetch: FetchId) | Starts(fetch: FetchId) | Throws

  class Redis {
    var entries: map<Key, Data>
    var trackers: map<nat, nat>

    constructor ()
      ensures entries == map[] && trackers == map[]
    {
      entries, trackers := map[], map[];
    }
  }

  /** A missing tracker reads as version 0. */
  function VersionOf(trackers: map<nat, nat>, tracker: nat): nat {
    if tracker in trackers then trackers[tracker] else 0
  }

  ghost function Chain(f: FetchId, result: FetchResult, ok: bool): seq<Event> {
    match result
    case Rejects => [FetchFails(f)]
    case Resolves(true) => [Read(f, true), Store(f, ok), Settle(f)]
    case Resolves(false) => [Read(f, false), Settle(f)]
  }

  ghost function Chained(s: State, f: FetchId, result: FetchResult, ok: bool): State
    requires f in s.fetches
  {
    match result
    case Rejects => SettleWith(s, f, Error)
    case Resolves(truthy) =>
      var d := Data(s.db, truthy, f);
      SettleWith(s, f, Value(d)).(cache := if truthy && ok then s.cache[s.fetches[f].key := d] else s.cache)
  }

  lemma AdvanceTwice(s: State, f: FetchId, p: FetchPhase, q: FetchPhase)
    requires f in s.fetches
    ensures Advance(Advance(s, f, p), f, q) == Advance(s, f, q)
  {
    assert s.fetches[f := s.fetches[f].(phase := p)][f := s.fetches[f].(phase := q)] ==
      s.fetches[f := s.fetches[f].(phase := q)];
  }

  /** The promise chain of a fetch, run undisturbed. */
  lemma ChainRuns(s: State, f: FetchId, result: FetchResult, ok: bool)
    requires f in s.fetches && s.fetches[f].phase.Running?
    ensures Exec(s, Chain(f, result, ok)) == Some(Chained(s, f, result, ok))
  {
    match result
    case Rejects =>
      ExecCons(s, FetchFails(f), []);
      assert [FetchFails(f)] + [] == [FetchFails(f)];
    case Resolves(truthy) =>
      var d := Data(s.db, truthy, f);
      var s1 := Advance(s, f, Fetched(d));
      AdvanceTwice(s, f, Fetched(d), Stored(d));
      AdvanceTwice(s, f, Fetched(d), Settled(Value(d)));
      AdvanceTwice(s, f, Stored(d), Settled(Value(d)));
      if truthy {
        ExecCons(s, Read(f, true), [Store(f, ok), Settle(f)]);
        StoringRuns(s1, f, ok, d);
        assert [Read(f, true)] + [Store(f, ok), Settle(f)] == Chain(f, result, ok);
      } else {
        ExecCons(s, Read(f, false), [Settle(f)]);
        ExecCons(s1, Settle(f), []);
        assert [Read(f, false)] + [Settle(f)] == Chain(f, result, ok) && [Settle(f)] + [] == [Settle(f)];
      }
  }

  /** What the chain leaves behind: the caller's value for the waiters, and in the cache if it is truthy. */
  lemma ChainEffects(s: State, f: FetchId, result: FetchResult, ok: bool)
    requires f in s.fetches && s.fetches[f].phase.Running?
    ensures Exec(s, Chain(f, result, ok)).Some?
    ensures
      var s', d := Exec(s, Chain(f, result, ok)).value, Data(s.db, result == Resolves(true), f);
      && f in s'.fetches && s'.fetches[f].phase == Settled(if result.Rejects? then Error else Value(d))
      && s'.cache == (if result == Resolves(true) && ok then s.cache[s.fetches[f].key := d] else s.cache)
      && s'.inFlight == s.inFlight - {Slot(s.fetches[f].proc, s.fetches[f].key)}
  {
    ChainRuns(s, f, result, ok);
  }

  lemma StoringRuns(s: State, f: FetchId, ok: bool, d: Data)
    requires f in s.fetches && s.fetches[f].phase == Fetched(d) && d.truthy
    ensures Exec(s, [Store(f, ok), Settle(f)]) ==
      Some(SettleWith(s, f, Value(d)).(cache := if ok then s.cache[s.fetches[f].key := d] else s.cache))
  {
    AdvanceTwice(s, f, Stored(d), Settled(Value(d)));
    ExecCons(s, Store(f, ok), [Settle(f)]);
    ExecCons(Step(s, Store(f, ok)).value, Settle(f), []);
    assert [Store(f, ok)] + [Settle(f)] == [Store(f, ok), Settle(f)] && [Settle(f)] + [] == [Settle(f)];
  }

  lemma BeginningRuns(s: State, c: Call, ok: bool, newFetch: FetchId, s1: State, s2: State)
    requires StepGet(s, c, ok) == Some(s1) && StepContinue(s1, c, newFetch) == Some(s2)
    ensures Exec(s, [Get(c, ok), Continue(c, newFetch)]) == Some(s2)
  {
    ExecCons(s, Get(c, ok), [Continue(c, newFetch)]);
    ExecCons(s1, Continue(c, newFetch), []);
    assert [Get(c, ok)] + [Continue(c, newFetch)] == [Get(c, ok), Continue(c, newFetch)];
    assert [Continue(c, newFetch)] + [] == [Continue(c, newFetch)];
  }

  class CachedService {
    const redis: Redis
    var inFlight: map<Key, FetchId>

    constructor (redis: Redis)
      ensures this.redis == redis && inFlight == map[]
    {
      this.redis := redis;
      inFlight := map[];
    }

    /** This process and its Redis are process `p` of the machine state. */
    ghost predicate Mirrors(s: State, p: nat)
      reads this, redis
    {
      && redis.entries == s.cache
      && (forall key :: key in inFlight <==> Slot(p, key) in s.inFlight)
      && (forall key :: key in inFlight ==> inFlight[key] == s.inFlight[Slot(p, key)])
    }

    /** An unavailable Redis reads as a miss. */
    method Get(key: Key, ok: bool) returns (data: Option<Data>)
      ensures data == if ok && key in redis.entries then Some(redis.entries[key]) else None
    {
      data := None;
      if ok && key in redis.entries {
        data := Some(redis.entries[key]);
      }
    }

    method Set(key: Key, data: Data, ok: bool)
      modifies redis`entries
      ensures redis.entries == if ok then old(redis.entries)[key := data] else old(redis.entries)
    {
      if ok {
        redis.entries := redis.entries[key := data];
      }
    }

    method Del(key: Key, ok: bool)
      modifies redis`entries
      ensures redis.entries == if ok then old(redis.entries) - {key} else old(redis.entries)
    {
      if ok {
        redis.entries := redis.entries - {key};
      }
    }

    method GetVersion(tracker: nat) returns (version: nat)
      ensures version == VersionOf(redis.trackers, tracker)
      ensures version == if tracker in redis.trackers then redis.trackers[tracker] else 0
    {
      version := 0;
      if tracker in redis.trackers {
        version := redis.trackers[tracker];
      }
    }

    method BumpVersion(tracker: nat)
      modifies redis`trackers
      ensures redis.trackers == old(redis.trackers)[tracker := VersionOf(old(redis.trackers), tracker) + 1]
      ensures redis.trackers[tracker] == if tracker in old(redis.trackers) then old(redis.trackers)[tracker] + 1 else 1
    {
      var version := GetVersion(tracker);
      redis.trackers := redis.trackers[tracker := version + 1];
    }

    /** The pipeline bumps a tracker once per occurrence in the list, and no other tracker. */
    method InvalidateListBulk(trackers: seq<nat>)
      modifies redis`trackers
      ensures forall k :: VersionOf(redis.trackers, k) == VersionOf(old(redis.trackers), k) + multiset(trackers)[k]
    {
      for i := 0 to |trackers|
        invariant forall k ::
          VersionOf(redis.trackers, k) == VersionOf(old(redis.trackers), k) + multiset(trackers[..i])[k]
      {
        assert trackers[..i + 1] == trackers[..i] + [trackers[i]];
        BumpVersion(trackers[i]);
      }
      assert trackers[..|trackers|] == trackers;
    }

    /** The shared tracker is the machine's tracker. */
    ghost predicate Tracks(s: State, tracker: nat)
      reads redis
    {
      VersionOf(redis.trackers, tracker) == s.tracker
    }

    /** A bump of the tracker, by any process, is the machine's bump for every process. */
    method InvalidateList(tracker: nat, ghost s: State, ghost p: nat)
      requires Mirrors(s, p) && Tracks(s, tracker)
      modifies redis`trackers
      ensures Mirrors(Step(s, Bump).value, p) && Tracks(Step(s, Bump).value, tracker)
      ensures redis.trackers == old(redis.trackers)[tracker := VersionOf(old(redis.trackers), tracker) + 1]
    {
      BumpVersion(tracker);
    }

    method InvalidateDetail(id: nat, ok: bool, ghost s: State, ghost p: nat)
      requires Mirrors(s, p)
      modifies redis`entries
      ensures Mirrors(if ok then Step(s, Invalidate(id)).value else s, p)
      ensures redis.entries == if ok then old(redis.entries) - {DetailKey(id)} else old(redis.entries)
    {
      Del(DetailKey(id), ok);
    }

    /** `getOrSetList` is a version read, which throws when Redis fails, then a key and `getOrSetDetail`. */
    method BeginList(tracker: nat, view: nat, versionOk: bool, ok: bool, newFetch: FetchId,
                     ghost s: State, ghost p: nat, ghost c: Call) returns (begun: Begun, ghost s': State)
      requires Inv(s) && Mirrors(s, p) && Tracks(s, tracker)
      requires c in s.calls && s.calls[c] == Asked(p, view) && newFetch !in s.fetches
      modifies this
      ensures !versionOk ==> begun == Throws && inFlight == old(inFlight)
      ensures !versionOk ==> Step(s, CacheProtocol.GetVersion(c, false)) == Some(s')
      ensures versionOk ==>
        Exec(s, [CacheProtocol.GetVersion(c, true), CacheProtocol.Get(c, ok), Continue(c, newFetch)]) == Some(s')
      ensures Mirrors(s', p) && c in s'.calls
      ensures match begun
        case Hit(d) => s'.calls[c] == FromCache(ListKey(view, s.tracker), d)
        case Waits(f) => s'.calls[c] == Joined(p, ListKey(view, s.tracker), f)
        case Starts(f) => s'.calls[c] == Joined(p, ListKey(view, s.tracker), f)
        case Throws => s'.calls[c] == Failed
      ensures versionOk ==>
        var key := ListKey(view, VersionOf(redis.trackers, tracker));
        && begun == (if ok && key in redis.entries then Hit(redis.entries[key])
                     else if key in old(inFlight) then Waits(old(inFlight)[key])
                     else Starts(newFetch))
        && inFlight == if begun.Starts? then old(inFlight)[key := newFetch] else old(inFlight)
    {
      if !versionOk {
        begun, s' := Throws, Step(s, CacheProtocol.GetVersion(c, false)).value;
        return;
      }
      var version := GetVersion(tracker);
      ghost var s1 := Step(s, CacheProtocol.GetVersion(c, true)).value;
      StepKeepsInv(s, CacheProtocol.GetVersion(c, true), s1);
      begun, s' := BeginDetail(ListKey(view, version), ok, newFetch, s1, p, c);
      ExecCons(s, CacheProtocol.GetVersion(c, true), [CacheProtocol.Get(c, ok), Continue(c, newFetch)]);
      assert [CacheProtocol.GetVersion(c, true)] + [CacheProtocol.Get(c, ok), Continue(c, newFetch)] ==
             [CacheProtocol.GetVersion(c, true), CacheProtocol.Get(c, ok), Continue(c, newFetch)];
    }

    /** The GET and the synchronous code after it: return the hit, await the fetch in flight, or start one. */
    method BeginDetail(key: Key, ok: bool, newFetch: FetchId, ghost s: State, ghost p: nat, ghost c: Call)
      returns (begun: Begun, ghost s': State)
      requires Inv(s) && Mirrors(s, p) && c in s.calls && s.calls[c] == Keyed(p, key) && newFetch !in s.fetches
      modifies this
      ensures Exec(s, [CacheProtocol.Get(c, ok), Continue(c, newFetch)]) == Some(s') && Mirrors(s', p) && c in s'.calls
      ensures match begun
        case Hit(d) => s'.calls[c] == FromCache(key, d)
        case Waits(f) => s'.calls[c] == Joined(p, key, f) && s'.fetches == s.fetches
        case Starts(f) => s'.calls[c] == Joined(p, key, f) && s'.fetches == s.fetches[f := Fetch(p, key, s.db, Running)]
        case Throws => false
      ensures inFlight == if begun.Starts? then old(inFlight)[key := newFetch] else old(inFlight)
      ensures begun ==
        if ok && key in redis.entries then Hit(redis.entries[key])
        else if key in old(inFlight) then Waits(old(inFlight)[key])
        else Starts(newFetch)
    {
      ghost var s1 := Step(s, CacheProtocol.Get(c, ok)).value;
      s' := Step(s1, Continue(c, newFetch)).value;
      BeginningRuns(s, c, ok, newFetch, s1, s');

      var cached := Get(key, ok);
      if cached.Some? && cached.value.truthy {
        begun := Hit(cached.value);
      } else if key in inFlight {
        begun := Waits(inFlight[key]);
      } else {
        inFlight := inFlight[key := newFetch];
        begun := Starts(newFetch);
      }
    }

    /** The fetch's promise chain: SET a truthy value, delete the map entry, resolve; or delete it and rethrow. */
    method CompleteFetch(key: Key, f: FetchId, db: nat, result: FetchResult, ok: bool, ghost s: State, ghost p: nat)
      returns (outcome: Outcome)
      requires Mirrors(s, p) && s.db == db
      requires f in s.fetches && s.fetches[f].proc == p && s.fetches[f].key == key && s.fetches[f].phase.Running?
      modifies this, redis`entries
      ensures Exec(s, Chain(f, result, ok)) == Some(Chained(s, f, result, ok)) && Mirrors(Chained(s, f, result, ok), p)
      ensures outcome == Chained(s, f, result, ok).fetches[f].phase.outcome
      ensures inFlight == old(inFlight) - {key}
      ensures outcome == if result.Rejects? then Error else Value(Data(db, result.truthy, f))
      ensures redis.entries ==
        if result == Resolves(true) && ok then old(redis.entries)[key := Data(db, true, f)] else old(redis.entries)
    {
      ChainRuns(s, f, result, ok);
      match result {
        case Rejects =>
          inFlight := inFlight - {key};
          outcome := Error;
        case Resolves(truthy) =>
          var data := Data(db, truthy, f);
          if data.truthy {
            Set(key, data, ok);
          }
          inFlight := inFlight - {key};
          outcome := Value(data);
      }
    }
  }
}
