/**
 Refresh-token rotation as a state machine over the steps between which other requests can run.

 The state has the committed session table, the Redis keys (token version, grace entries), the clock, and one
 phase per running request. The phase of a refresh carries the overlay of its open transaction: nothing of it
 reaches `rows` before `Commit`. Reuse detection and the revoke-all calls write to `rows` directly, as the source
 does through its repository: the update selects the user's usable rows from a snapshot and completes once none of
 them is locked. Tokens are numbers handed out once; a token stands for its own hash.
 */
module TokenRotation {
  import opened Wrappers

  type User = nat
  type Token = nat
  type Job = nat

  /** 15 seconds and 7 days, in milliseconds. */
  const GRACE_TTL: nat := 15_000
  const SESSION_LIFETIME: nat := 7 * 24 * 3_600_000

  datatype Access = Access(user: User, version: nat, serial: Token)
  datatype Pair = Pair(access: Access, refresh: Token)
  datatype Session = Session(user: User, isRevoked: bool, expiresAt: nat)
  datatype GraceEntry = GraceEntry(pair: Pair, expiresAt: nat)
  datatype Reply = Rejected | Granted(pair: Pair)

  datatype Phase =
    | Waiting(token: Token)                                  // transaction open, row lock not yet held
    | Holding(token: Token, row: Session)                    // row locked and read
    | OldRevoked(token: Token, user: User)                   // overlay: the old session is revoked
    | VersionRead(token: Token, user: User, version: nat)    // generateTokens has read the version key
    | ChildInserted(token: Token, pair: Pair, row: Session)  // overlay: the child session is inserted
    | GraceWritten(token: Token, pair: Pair, row: Session)   // grace entry is in Redis, commit is next
    | ReuseFound(token: Token, user: User)                   // revoked token without a grace entry
    | ReuseSelected(token: Token, user: User, selected: set<Token>)  // its update has taken its snapshot
    | RowsRevoked(token: Token, user: User)                  // reuse detection has revoked the user's rows
    | Finished(token: Token, reply: Reply)
    | LoginPending(user: User, version: nat)
    | LoggedIn(pair: Pair)
    | Selected(user: User, selected: set<Token>)             // the update of a revoke-all has taken its snapshot
    | Updated(user: User)                                    // and has completed; the bump is to come

  /** `origin` is history: the session a committed session was rotated from, or None for a login. */
  datatype State = State(
    now: nat,
    next: Token,
    rows: map<Token, Session>,
    origin: map<Token, Option<Token>>,
    version: map<User, nat>,
    grace: map<Token, GraceEntry>,
    jobs: map<Job, Phase>)

  datatype Event =
    | Tick(delta: nat)
    | LoginStart(job: Job, user: User)
    | LoginFinish(job: Job)
    | Present(job: Job, token: Token)
    | Lock(job: Job)
    | Rotate(job: Job, hasEmail: bool)
    | ReadVersion(job: Job)
    | InsertChild(job: Job)
    | WriteGrace(job: Job)
    | Commit(job: Job)
    | Lookup(job: Job)
    | SelectRowsOnReuse(job: Job)
    | RevokeRowsOnReuse(job: Job)
    | BumpOnReuse(job: Job)
    | Abort(job: Job)
    | Logout(token: Token)
    | SelectRows(job: Job, user: User)
    | RevokeRows(job: Job)
    | Bump(user: User)

  const INITIAL := State(0, 0, map[], map[], map[], map[], map[])

  /** A missing version key reads as 1. */
  function Effective(version: map<User, nat>, u: User): nat {
    if u in version then version[u] else 1
  }

  /** INCR: a missing key counts from 0. */
  function Incremented(version: map<User, nat>, u: User): map<User, nat> {
    version[u := (if u in version then version[u] else 0) + 1]
  }

  /** What the guards accept: the token carries the effective version of its user. */
  predicate Accepted(s: State, a: Access) {
    a.version == Effective(s.version, a.user)
  }

  function Revoked(row: Session): Session {
    row.(isRevoked := true)
  }

  /** The rows that match `userId` and `isRevoked: false`. */
  function UsableOf(rows: map<Token, Session>, u: User): set<Token> {
    set t | t in rows && rows[t].user == u && !rows[t].isRevoked
  }

  function RevokeAllOf(rows: map<Token, Session>, selected: set<Token>): map<Token, Session> {
    map t | t in rows :: if t in selected then Revoked(rows[t]) else rows[t]
  }

  predicate Holds(p: Phase) {
    p.Holding? || p.OldRevoked? || p.VersionRead? || p.ChildInserted? || p.GraceWritten? || p.ReuseFound? ||
      p.ReuseSelected? || p.RowsRevoked?
  }

  predicate HoldsLock(p: Phase, t: Token) {
    Holds(p) && p.token == t
  }

  predicate Locked(s: State, t: Token) {
    exists j :: j in s.jobs && HoldsLock(s.jobs[j], t)
  }

  /** No row of the set is locked, so that an update of these rows has nothing to wait for. */
  predicate Free(s: State, selected: set<Token>) {
    forall t :: t in selected ==> !Locked(s, t)
  }

  predicate GraceLive(s: State, t: Token) {
    t in s.grace && s.now < s.grace[t].expiresAt
  }

  function Goto(s: State, j: Job, p: Phase): State {
    s.(jobs := s.jobs[j := p])
  }

  function StepLock(s: State, j: Job): Option<State> {
    if !(j in s.jobs && s.jobs[j].Waiting?) then None else
    var t := s.jobs[j].token;
    if t !in s.rows then Some(Goto(s, j, Finished(t, Rejected)))
    else if Locked(s, t) then None
    else Some(Goto(s, j, Holding(t, s.rows[t])))
  }

  function StepRotate(s: State, j: Job, hasEmail: bool): Option<State> {
    if !(j in s.jobs && s.jobs[j].Holding? && !s.jobs[j].row.isRevoked) then None else
    var t, row := s.jobs[j].token, s.jobs[j].row;
    if row.expiresAt < s.now || !hasEmail then Some(Goto(s, j, Finished(t, Rejected)))
    else Some(Goto(s, j, OldRevoked(t, row.user)))
  }

  function StepReadVersion(s: State, j: Job): Option<State> {
    if !(j in s.jobs && s.jobs[j].OldRevoked?) then None else
    var t, u := s.jobs[j].token, s.jobs[j].user;
    Some(Goto(s, j, VersionRead(t, u, Effective(s.version, u))))
  }

  function StepInsertChild(s: State, j: Job): Option<State> {
    if !(j in s.jobs && s.jobs[j].VersionRead?) then None else
    var t, u := s.jobs[j].token, s.jobs[j].user;
    var pair := Pair(Access(u, s.jobs[j].version, s.next), s.next);
    var child := Session(u, false, s.now + SESSION_LIFETIME);
    Some(Goto(s, j, ChildInserted(t, pair, child)).(next := s.next + 1))
  }

  function StepWriteGrace(s: State, j: Job): Option<State> {
    if !(j in s.jobs && s.jobs[j].ChildInserted?) then None else
    var t, pair, child := s.jobs[j].token, s.jobs[j].pair, s.jobs[j].row;
    Some(Goto(s, j, GraceWritten(t, pair, child)).(grace := s.grace[t := GraceEntry(pair, s.now + GRACE_TTL)]))
  }

  /** Commit merges the overlay into the table: old session revoked, child session present. */
  function StepCommit(s: State, j: Job): Option<State> {
    if !(j in s.jobs && s.jobs[j].GraceWritten? && s.jobs[j].token in s.rows) then None else
    var t, pair, child := s.jobs[j].token, s.jobs[j].pair, s.jobs[j].row;
    Some(Goto(s, j, Finished(t, Granted(pair))).(
         rows := s.rows[t := Revoked(s.rows[t])][pair.refresh := child],
         origin := s.origin[pair.refresh := Some(t)]))
  }

  function StepLookup(s: State, j: Job): Option<State> {
    if !(j in s.jobs && s.jobs[j].Holding? && s.jobs[j].row.isRevoked) then None else
    var t, row := s.jobs[j].token, s.jobs[j].row;
    if GraceLive(s, t) then Some(Goto(s, j, Finished(t, Granted(s.grace[t].pair))))
    else Some(Goto(s, j, ReuseFound(t, row.user)))
  }

  function StepSelectRowsOnReuse(s: State, j: Job): Option<State> {
    if !(j in s.jobs && s.jobs[j].ReuseFound?) then None else
    var t, u := s.jobs[j].token, s.jobs[j].user;
    Some(Goto(s, j, ReuseSelected(t, u, UsableOf(s.rows, u))))
  }

  function StepRevokeRowsOnReuse(s: State, j: Job): Option<State> {
    if !(j in s.jobs && s.jobs[j].ReuseSelected? && Free(s, s.jobs[j].selected)) then None else
    var t, u := s.jobs[j].token, s.jobs[j].user;
    Some(Goto(s, j, RowsRevoked(t, u)).(rows := RevokeAllOf(s.rows, s.jobs[j].selected)))
  }

  function StepBumpOnReuse(s: State, j: Job): Option<State> {
    if !(j in s.jobs && s.jobs[j].RowsRevoked?) then None else
    var t, u := s.jobs[j].token, s.jobs[j].user;
    Some(Goto(s, j, Finished(t, Rejected)).(version := Incremented(s.version, u)))
  }

  /** A failing query or Redis call rolls the transaction back: the overlay is dropped, `rows` keeps what it has. */
  function StepAbort(s: State, j: Job): Option<State> {
    if !(j in s.jobs) then None else
    var p := s.jobs[j];
    if p.Waiting? || p.Holding? || p.OldRevoked? || p.VersionRead? || p.ChildInserted? || p.ReuseFound? ||
      p.ReuseSelected? || p.RowsRevoked?
    then Some(Goto(s, j, Finished(p.token, Rejected)))
    else None
  }

  function StepLogin(s: State, j: Job): Option<State> {
    if !(j in s.jobs && s.jobs[j].LoginPending?) then None else
    var u := s.jobs[j].user;
    var pair := Pair(Access(u, s.jobs[j].version, s.next), s.next);
    Some(Goto(s, j, LoggedIn(pair)).(
         next := s.next + 1,
         rows := s.rows[s.next := Session(u, false, s.now + SESSION_LIFETIME)],
         origin := s.origin[s.next := None]))
  }

  /** The one-row update of logout waits for a locked row; with no matching row it changes nothing. */
  function StepLogout(s: State, t: Token): Option<State> {
    if t !in s.rows || s.rows[t].isRevoked || s.rows[t].expiresAt <= s.now then Some(s)
    else if Locked(s, t) then None
    else Some(s.(rows := s.rows[t := Revoked(s.rows[t])]))
  }

  function StepSelectRows(s: State, j: Job, u: User): Option<State> {
    if j in s.jobs then None else Some(Goto(s, j, Selected(u, UsableOf(s.rows, u))))
  }

  function StepRevokeRows(s: State, j: Job): Option<State> {
    if !(j in s.jobs && s.jobs[j].Selected? && Free(s, s.jobs[j].selected)) then None else
    Some(Goto(s, j, Updated(s.jobs[j].user)).(rows := RevokeAllOf(s.rows, s.jobs[j].selected)))
  }

  function Step(s: State, e: Event): Option<State> {
    match e
    case Tick(delta) => Some(s.(now := s.now + delta))
    case LoginStart(j, u) => if j in s.jobs then None else Some(Goto(s, j, LoginPending(u, Effective(s.version, u))))
    case LoginFinish(j) => StepLogin(s, j)
    case Present(j, t) => if j in s.jobs then None else Some(Goto(s, j, Waiting(t)))
    case Lock(j) => StepLock(s, j)
    case Rotate(j, hasEmail) => StepRotate(s, j, hasEmail)
    case ReadVersion(j) => StepReadVersion(s, j)
    case InsertChild(j) => StepInsertChild(s, j)
    case WriteGrace(j) => StepWriteGrace(s, j)
    case Commit(j) => StepCommit(s, j)
    case Lookup(j) => StepLookup(s, j)
    case SelectRowsOnReuse(j) => StepSelectRowsOnReuse(s, j)
    case RevokeRowsOnReuse(j) => StepRevokeRowsOnReuse(s, j)
    case BumpOnReuse(j) => StepBumpOnReuse(s, j)
    case Abort(j) => StepAbort(s, j)
    case Logout(t) => StepLogout(s, t)
    case SelectRows(j, u) => StepSelectRows(s, j, u)
    case RevokeRows(j) => StepRevokeRows(s, j)
    case Bump(u) => Some(s.(version := Incremented(s.version, u)))
  }

  /** A schedule: None as soon as one event is not enabled. */
  function Exec(s: State, events: seq<Event>): Option<State>
    decreases |events|
  {
    if events == [] then Some(s) else
    match Step(s, events[0])
    case None => None
    case Some(s') => Exec(s', events[1..])
  }

  lemma ExecCons(s: State, e: Event, rest: seq<Event>)
    requires Step(s, e).Some?
    ensures Exec(s, [e] + rest) == Exec(Step(s, e).value, rest)
  {
    assert ([e] + rest)[1..] == rest;
  }

  lemma {:induction false} ExecAppend(s: State, a: seq<Event>, b: seq<Event>)
    ensures Exec(s, a + b) == (match Exec(s, a) case None => None case Some(m) => Exec(m, b))
    decreases |a|
  {
    if a == [] {
      assert a + b == b;
    } else {
      assert (a + b)[0] == a[0] && (a + b)[1..] == a[1..] + b;
      match Step(s, a[0])
      case None =>
      case Some(m) => ExecAppend(m, a[1..], b);
    }
  }
}
