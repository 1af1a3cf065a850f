/**
 The versioned list cache and the per-process singleflight map, as a state machine over the steps between which
 other readers, writers and processes can run.

 The database is a counter of writes; the value a fetch returns is the number of writes it saw. Redis holds cached
 values, which may vanish at any time, and one tracker, which may not. A process that stops is one whose steps
 no longer happen.
 */
module CacheProtocol {
  import opened Wrappers

  type Call = nat
  type FetchId = nat

  /** What `keyBuilder` makes of a version, and plain detail keys. */
  datatype Key = ListKey(view: nat, version: nat) | DetailKey(id: nat)

  /** A fetched value: what it saw, whether it is truthy in JavaScript, and the fetch that produced it. */
  datatype Data = Data(snapshot: nat, truthy: bool, maker: FetchId)
  datatype Outcome = Value(data: Data) | Error

  datatype FetchPhase =
    | Running                     // fetcher started, database not read yet
    | Fetched(data: Data)         // database read
    | Stored(data: Data)          // Redis SET has been tried
    | Settled(outcome: Outcome)   // promise settled, map entry gone

  datatype Fetch = Fetch(proc: nat, key: Key, since: nat, phase: FetchPhase)
  datatype Slot = Slot(proc: nat, key: Key)

  datatype CallPhase =
    | Asked(proc: nat, view: nat)                              // list call, version not read yet
    | Keyed(proc: nat, key: Key)                               // key known, Redis not asked yet
    | Looked(proc: nat, key: Key, hit: Option<Data>)           // Redis GET answered
    | Joined(proc: nat, key: Key, fetch: FetchId)              // awaiting a fetch
    | FromCache(key: Key, data: Data)
    | FromFetch(key: Key, fetch: FetchId, outcome: Outcome)
    | Failed                                                   // reading the version threw

  /** `floor` is history: the write count at the instant each version became current. */
  datatype State = State(
    db: nat,
    tracker: nat,
    floor: map<nat, nat>,
    cache: map<Key, Data>,
    inFlight: map<Slot, FetchId>,
    fetches: map<FetchId, Fetch>,
    calls: map<Call, CallPhase>)

  datatype Event =
    | Write
    | Bump
    | Invalidate(id: nat)
    | Evict(key: Key)
    | CallList(call: Call, proc: nat, view: nat)
    | CallDetail(call: Call, proc: nat, id: nat)
    | GetVersion(call: Call, ok: bool)
    | Get(call: Call, ok: bool)
    | Continue(call: Call, newFetch: FetchId)
    | Read(fetch: FetchId, truthy: bool)
    | FetchFails(fetch: FetchId)
    | Store(fetch: FetchId, ok: bool)
    | Settle(fetch: FetchId)
    | Deliver(call: Call)

  const INITIAL := State(0, 0, map[0 := 0], map[], map[], map[], map[])

  function To(s: State, c: Call, p: CallPhase): State {
    s.(calls := s.calls[c := p])
  }

  function Advance(s: State, f: FetchId, p: FetchPhase): State
    requires f in s.fetches
  {
    s.(fetches := s.fetches[f := s.fetches[f].(phase := p)])
  }

  /** The promise settles: result for the waiters, map entry deleted. */
  function SettleWith(s: State, f: FetchId, o: Outcome): State
    requires f in s.fetches
  {
    Advance(s, f, Settled(o)).(inFlight := s.inFlight - {Slot(s.fetches[f].proc, s.fetches[f].key)})
  }

  function StepGetVersion(s: State, c: Call, ok: bool): Option<State> {
    if !(c in s.calls && s.calls[c].Asked?) then None
    else if !ok then Some(To(s, c, Failed))
    else Some(To(s, c, Keyed(s.calls[c].proc, ListKey(s.calls[c].view, s.tracker))))
  }

  /** A failing GET reads as a miss. */
  function StepGet(s: State, c: Call, ok: bool): Option<State> {
    if !(c in s.calls && s.calls[c].Keyed?) then None else
    var p, key := s.calls[c].proc, s.calls[c].key;
    Some(To(s, c, Looked(p, key, if ok && key in s.cache then Some(s.cache[key]) else None)))
  }

  /** The synchronous part after the GET: return the hit, join the fetch in flight, or start one. */
  function StepContinue(s: State, c: Call, f: FetchId): Option<State> {
    if !(c in s.calls && s.calls[c].Looked?) then None else
    var p, key, hit := s.calls[c].proc, s.calls[c].key, s.calls[c].hit;
    if hit.Some? then Some(To(s, c, FromCache(key, hit.value)))
    else if Slot(p, key) in s.inFlight then Some(To(s, c, Joined(p, key, s.inFlight[Slot(p, key)])))
    else if f in s.fetches then None
    else Some(To(s, c, Joined(p, key, f)).(
              fetches := s.fetches[f := Fetch(p, key, s.db, Running)],
              inFlight := s.inFlight[Slot(p, key) := f]))
  }

  function StepRead(s: State, f: FetchId, truthy: bool): Option<State> {
    if f in s.fetches && s.fetches[f].phase.Running? then Some(Advance(s, f, Fetched(Data(s.db, truthy, f)))) else None
  }

  function StepFetchFails(s: State, f: FetchId): Option<State> {
    if f in s.fetches && (s.fetches[f].phase.Running? || s.fetches[f].phase.Fetched?) then Some(SettleWith(s, f, Error))
    else None
  }

  /** A failing SET is swallowed. */
  function StepStore(s: State, f: FetchId, ok: bool): Option<State> {
    if !(f in s.fetches && s.fetches[f].phase.Fetched? && s.fetches[f].phase.data.truthy) then None else
    var d := s.fetches[f].phase.data;
    Some(Advance(s, f, Stored(d)).(cache := if ok then s.cache[s.fetches[f].key := d] else s.cache))
  }

  /** A falsy value settles without a SET. */
  function StepSettle(s: State, f: FetchId): Option<State> {
    if f in s.fetches &&
       (s.fetches[f].phase.Stored? || (s.fetches[f].phase.Fetched? && !s.fetches[f].phase.data.truthy))
    then Some(SettleWith(s, f, Value(s.fetches[f].phase.data)))
    else None
  }

  function StepDeliver(s: State, c: Call): Option<State> {
    if c in s.calls && s.calls[c].Joined? && s.calls[c].fetch in s.fetches && s.fetches[s.calls[c].fetch].phase.Settled?
    then Some(To(s, c, FromFetch(s.calls[c].key, s.calls[c].fetch, s.fetches[s.calls[c].fetch].phase.outcome)))
    else None
  }

  function Step(s: State, e: Event): Option<State> {
    match e
    case Write => Some(s.(db := s.db + 1))
    case Bump => Some(s.(tracker := s.tracker + 1, floor := s.floor[s.tracker + 1 := s.db]))
    case Invalidate(id) => Some(s.(cache := s.cache - {DetailKey(id)}))
    case Evict(key) => Some(s.(cache := s.cache - {key}))
    case CallList(c, p, view) => if c in s.calls then None else Some(To(s, c, Asked(p, view)))
    case CallDetail(c, p, id) => if c in s.calls then None else Some(To(s, c, Keyed(p, DetailKey(id))))
    case GetVersion(c, ok) => StepGetVersion(s, c, ok)
    case Get(c, ok) => StepGet(s, c, ok)
    case Continue(c, f) => StepContinue(s, c, f)
    case Read(f, truthy) => StepRead(s, f, truthy)
    case FetchFails(f) => StepFetchFails(s, f)
    case Store(f, ok) => StepStore(s, f, ok)
    case Settle(f) => StepSettle(s, f)
    case Deliver(c) => StepDeliver(s, c)
  }

  function Exec(s: State, events: seq<Event>): Option<State>
    decreases |events|
  {
    if events == [] then Some(s) else
    match Step(s, events[0])
    case None => None
    case Some(s') => Exec(s', events[1..])
  }

  lemma ExecCons(s: State, e: Event, rest: seq<Event>)
    requires Step(s, e).Some?
    ensures Exec(s, [e] + rest) == Exec(Step(s, e).value, rest)
  {
    assert ([e] + rest)[1..] == rest;
  }

  lemma {:induction false} ExecAppend(s: State, a: seq<Event>, b: seq<Event>)
    ensures Exec(s, a + b) == (match Exec(s, a) case None => None case Some(m) => Exec(m, b))
    decreases |a|
  {
    if a == [] {
      assert a + b == b;
    } else {
      assert (a + b)[0] == a[0] && (a + b)[1..] == a[1..] + b;
      match Step(s, a[0])
      case None =>
      case Some(m) => ExecAppend(m, a[1..], b);
    }
  }
}
