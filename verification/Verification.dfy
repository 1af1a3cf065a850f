/**
 Verification codes: issued by registration, password reset and account recovery, overwritten by a resend, consumed
 once. Each method runs atomically. Codes are numbers handed out once.
 */
module Verification {
  import opened Wrappers

  type Id = nat
  type Code = nat

  /** Five minutes, in milliseconds. */
  const CODE_TTL: nat := 5 * 60 * 1000

  datatype Action = VerifyEmail | ResetPassword
  datatype Row = Row(user: nat, code: Code, action: Action, isUsed: bool, expiresAt: nat)

  /** `users` have a local account; `consumed` and `retired` are history: codes accepted and codes overwritten. */
  datatype State = State(now: nat, next: Code, users: set<nat>, rows: map<Id, Row>, consumed: seq<Code>,
                         retired: set<Code>)

  datatype Event =
    | Tick(delta: nat)
    | Register(user: nat, id: Id)
    | IssueReset(user: nat, id: Id)                               // forgotPassword and secureAccount
    | Verify(code: Code, row: Option<Id>)
    | Reset(user: nat, code: Code, row: Option<Id>)
    | Resend(user: nat, action: Action, row: Option<Id>, id: Id)

  const INITIAL := State(0, 0, {}, map[], [], {})

  /** `verifyEmail` looks for an unused code and checks the expiry afterwards, accepting the last instant. */
  predicate Verifiable(s: State, id: Id, code: Code) {
    id in s.rows && s.rows[id].code == code && s.rows[id].action.VerifyEmail? && !s.rows[id].isUsed
  }

  /** The other queries ask for an expiry strictly in the future. */
  predicate Live(s: State, id: Id, u: nat, action: Action) {
    id in s.rows && s.rows[id].user == u && s.rows[id].action == action && !s.rows[id].isUsed &&
      s.now < s.rows[id].expiresAt
  }

  predicate Resettable(s: State, id: Id, u: nat, code: Code) {
    Live(s, id, u, ResetPassword) && s.rows[id].code == code
  }

  predicate Accepts(s: State, id: Id) {
    id in s.rows && !s.rows[id].isUsed && s.rows[id].user in s.users &&
    (if s.rows[id].action.VerifyEmail? then s.now <= s.rows[id].expiresAt else s.now < s.rows[id].expiresAt)
  }

  function Insert(s: State, id: Id, u: nat, action: Action): State {
    s.(rows := s.rows[id := Row(u, s.next, action, false, s.now + CODE_TTL)], next := s.next + 1)
  }

  function Consume(s: State, id: Id): State
    requires id in s.rows
  {
    s.(rows := s.rows[id := s.rows[id].(isUsed := true)], consumed := s.consumed + [s.rows[id].code])
  }

  function Overwrite(s: State, id: Id): State
    requires id in s.rows
  {
    s.(rows := s.rows[id := s.rows[id].(code := s.next, expiresAt := s.now + CODE_TTL)], next := s.next + 1,
       retired := s.retired + {s.rows[id].code})
  }

  /** The row in an event is what the query returned: any match, None if there is none. */
  function Step(s: State, e: Event): Option<State> {
    match e
    case Tick(delta) => Some(s.(now := s.now + delta))
    case Register(u, id) =>
      if u in s.users || id in s.rows then None else Some(Insert(s.(users := s.users + {u}), id, u, VerifyEmail))
    case IssueReset(u, id) =>
      if u !in s.users then Some(s) else if id in s.rows then None else Some(Insert(s, id, u, ResetPassword))
    case Verify(code, row) =>
      (match row
       case None => if exists id :: id in s.rows && Verifiable(s, id, code) then None else Some(s)
       case Some(id) =>
         if !Verifiable(s, id, code) then None
         else if s.rows[id].expiresAt < s.now || s.rows[id].user !in s.users then Some(s)
         else Some(Consume(s, id)))
    case Reset(u, code, row) =>
      if u !in s.users then Some(s) else
      (match row
       case None => if exists id :: id in s.rows && Resettable(s, id, u, code) then None else Some(s)
       case Some(id) => if Resettable(s, id, u, code) then Some(Consume(s, id)) else None)
    case Resend(u, action, row, id) =>
      if u !in s.users then Some(s) else
      (match row
       case None =>
         if id in s.rows || exists r :: r in s.rows && Live(s, r, u, action) then None
         else Some(Insert(s, id, u, action))
       case Some(r) => if Live(s, r, u, action) then Some(Overwrite(s, r)) else None)
  }

  function Exec(s: State, events: seq<Event>): Option<State>
    decreases |events|
  {
    if events == [] then Some(s) else
    match Step(s, events[0])
    case None => None
    case Some(s') => Exec(s', events[1..])
  }

  lemma {:induction false} ExecSnoc(s: State, events: seq<Event>, m: State, e: Event)
    requires Exec(s, events) == Some(m)
    ensures Exec(s, events + [e]) == Step(m, e)
    decreases |events|
  {
    if events == [] {
      assert [] + [e] == [e] && [e][1..] == [];
    } else {
      assert (events + [e])[1..] == events[1..] + [e];
      ExecSnoc(Step(s, events[0]).value, events[1..], m, e);
    }
  }

  // ---------- the invariant ----------

  ghost predicate SameCode(rows: map<Id, Row>, a: Id, b: Id) {
    a in rows && b in rows && rows[a].code == rows[b].code
  }

  /** Two unused e-mail codes of one user. */
  ghost predicate Twins(rows: map<Id, Row>, a: Id, b: Id) {
    a in rows && b in rows && rows[a].user == rows[b].user
    && rows[a].action.VerifyEmail? && rows[b].action.VerifyEmail? && !rows[a].isUsed && !rows[b].isUsed
  }

  ghost predicate HasUsed(rows: map<Id, Row>, code: Code) {
    exists id :: id in rows && rows[id].code == code && rows[id].isUsed
  }

  ghost predicate Inv(s: State) {
    && (forall id :: id in s.rows ==>
       s.rows[id].code < s.next && s.rows[id].expiresAt <= s.now + CODE_TTL && s.rows[id].user in s.users)
    && (forall a, b :: SameCode(s.rows, a, b) ==> a == b)
    && (forall id :: id in s.rows ==> s.rows[id].code !in s.retired)
    && (forall c :: c in s.retired ==> c < s.next && c !in s.consumed)
    && (forall c :: c in s.consumed ==> HasUsed(s.rows, c))
    && (forall i, j :: 0 <= i < j < |s.consumed| ==> s.consumed[i] != s.consumed[j])
    && (forall a, b :: Twins(s.rows, a, b) && a != b ==> s.rows[a].expiresAt != s.rows[b].expiresAt)
    && (forall a, b :: Twins(s.rows, a, b) && a != b ==> s.rows[a].expiresAt <= s.now || s.rows[b].expiresAt <= s.now)
  }

  lemma InsertKeeps(s: State, id: Id, u: nat, action: Action)
    requires Inv(s) && id !in s.rows && u in s.users
    requires action.VerifyEmail? ==> forall r :: r in s.rows ==> !Live(s, r, u, action)
    ensures Inv(Insert(s, id, u, action))
  {
    var s' := Insert(s, id, u, action);
    forall a: Id, b: Id | SameCode(s'.rows, a, b) ensures a == b {
      assert a in s.rows && b in s.rows ==> SameCode(s.rows, a, b);
    }
    forall a: Id, b: Id | Twins(s'.rows, a, b) && a != b
      ensures s'.rows[a].expiresAt != s'.rows[b].expiresAt
      ensures s'.rows[a].expiresAt <= s'.now || s'.rows[b].expiresAt <= s'.now
    {
      if a in s.rows && b in s.rows {
        assert Twins(s.rows, a, b);
      } else {
        assert !Live(s, if a == id then b else a, u, VerifyEmail);
      }
    }
    UsedKept(s, s');
  }

  lemma UsedKept(s: State, s': State)
    requires Inv(s) && s'.consumed == s.consumed
    requires forall id :: id in s.rows && s.rows[id].isUsed ==> id in s'.rows && s'.rows[id] == s.rows[id]
    ensures forall c :: c in s'.consumed ==> HasUsed(s'.rows, c)
  {
    forall c | c in s'.consumed ensures HasUsed(s'.rows, c) {
      var id :| id in s.rows && s.rows[id].code == c && s.rows[id].isUsed;
      assert id in s'.rows && s'.rows[id].code == c && s'.rows[id].isUsed;
    }
  }

  lemma OverwriteKeeps(s: State, id: Id, u: nat, action: Action)
    requires Inv(s) && Live(s, id, u, action)
    ensures Inv(Overwrite(s, id))
  {
    var s' := Overwrite(s, id);
    var oldCode := s.rows[id].code;
    forall a: Id, b: Id | SameCode(s'.rows, a, b) ensures a == b {
      assert a != id && b != id ==> SameCode(s.rows, a, b);
    }
    forall r | r in s'.rows ensures s'.rows[r].code !in s'.retired {
      assert s.rows[r].code == oldCode ==> SameCode(s.rows, r, id);
    }
    if oldCode in s.consumed {
      var r :| r in s.rows && s.rows[r].code == oldCode && s.rows[r].isUsed;
      assert SameCode(s.rows, r, id);
    }
    forall a: Id, b: Id | Twins(s'.rows, a, b) && a != b
      ensures s'.rows[a].expiresAt != s'.rows[b].expiresAt
      ensures s'.rows[a].expiresAt <= s'.now || s'.rows[b].expiresAt <= s'.now
    {
      assert Twins(s.rows, a, b);
    }
    UsedKept(s, s');
  }

  lemma ConsumeKeeps(s: State, id: Id)
    requires Inv(s) && id in s.rows && !s.rows[id].isUsed
    ensures Inv(Consume(s, id))
  {
    var s' := Consume(s, id);
    var code := s.rows[id].code;
    if code in s.consumed {
      var r :| r in s.rows && s.rows[r].code == code && s.rows[r].isUsed;
      assert SameCode(s.rows, r, id);
    }
    forall a: Id, b: Id | SameCode(s'.rows, a, b) ensures a == b {
      assert SameCode(s.rows, a, b);
    }
    forall a: Id, b: Id | Twins(s'.rows, a, b) && a != b
      ensures s'.rows[a].expiresAt != s'.rows[b].expiresAt
      ensures s'.rows[a].expiresAt <= s'.now || s'.rows[b].expiresAt <= s'.now
    {
      assert Twins(s.rows, a, b);
    }
    forall c | c in s'.consumed ensures HasUsed(s'.rows, c) {
      if c == code {
        assert s'.rows[id].code == c && s'.rows[id].isUsed;
      } else {
        var r :| r in s.rows && s.rows[r].code == c && s.rows[r].isUsed;
        assert r in s'.rows && s'.rows[r].code == c && s'.rows[r].isUsed;
      }
    }
  }

  lemma StepKeepsInv(s: State, e: Event, s': State)
    requires Inv(s) && Step(s, e) == Some(s')
    ensures Inv(s')
  {
    match e
    case Tick(_) =>
    case Register(u, id) =>
      var m := s.(users := s.users + {u});
      assert forall r :: r in m.rows ==> !Live(m, r, u, VerifyEmail);
      InsertKeeps(m, id, u, VerifyEmail);
    case IssueReset(u, id) =>
      if u in s.users { InsertKeeps(s, id, u, ResetPassword); }
    case Verify(_, row) =>
      if s' != s { ConsumeKeeps(s, row.value); }
    case Reset(_, _, row) =>
      if s' != s { ConsumeKeeps(s, row.value); }
    case Resend(u, action, row, id) =>
      if u in s.users {
        if row.None? { InsertKeeps(s, id, u, action); } else { OverwriteKeeps(s, row.value, u, action); }
      }
  }

  lemma {:induction false} RunKeepsInv(s: State, events: seq<Event>, s': State)
    requires Inv(s) && Exec(s, events) == Some(s')
    ensures Inv(s') && s.retired <= s'.retired && s.consumed <= s'.consumed
    decreases |events|
  {
    if events != [] {
      var m := Step(s, events[0]).value;
      StepKeepsInv(s, events[0], m);
      RunKeepsInv(m, events[1..], s');
    }
  }

  // ---------- what holds of all runs ----------

  /** In every run, no code is accepted twice and no overwritten code is ever accepted, before or after. */
  lemma CodesAcceptedOnce(events: seq<Event>, s: State)
    requires Exec(INITIAL, events) == Some(s)
    ensures forall i, j :: 0 <= i < j < |s.consumed| ==> s.consumed[i] != s.consumed[j]
    ensures forall c :: c in s.retired ==> c !in s.consumed
  {
    RunKeepsInv(INITIAL, events, s);
  }

  /** Once a resend has replaced a code, no continuation accepts the old one. */
  lemma OverwrittenNeverAccepted(s: State, e: Event, s1: State, events: seq<Event>, s2: State)
    requires Inv(s) && e.Resend? && e.row.Some? && e.row.value in s.rows && e.user in s.users
    requires Step(s, e) == Some(s1) && Exec(s1, events) == Some(s2)
    ensures s.rows[e.row.value].code !in s2.consumed
    ensures forall id :: id in s2.rows ==> s2.rows[id].code != s.rows[e.row.value].code
  {
    StepKeepsInv(s, e, s1);
    RunKeepsInv(s1, events, s2);
    assert s.rows[e.row.value].code in s1.retired;
  }

  /** At most one e-mail code of a user has time left; at most one more is at its very last instant. */
  lemma AtMostOneLiveEmailCode(events: seq<Event>, s: State, a: Id, b: Id, c: Id)
    requires Exec(INITIAL, events) == Some(s)
    requires Twins(s.rows, a, b) && Twins(s.rows, b, c) && Twins(s.rows, a, c)
    ensures s.now < s.rows[a].expiresAt && s.now < s.rows[b].expiresAt ==> a == b
    ensures Accepts(s, a) && Accepts(s, b) && a != b ==>
      (s.rows[a].expiresAt == s.now) != (s.rows[b].expiresAt == s.now)
    ensures Accepts(s, a) && Accepts(s, b) && Accepts(s, c) ==> a == b || b == c || a == c
  {
    RunKeepsInv(INITIAL, events, s);
  }

  /** The last instant does let two e-mail codes of one user be accepted. */
  lemma TwoEmailCodesAtLastInstant(u: nat) returns (events: seq<Event>, s: State)
    ensures Exec(INITIAL, events) == Some(s)
    ensures Twins(s.rows, 0, 1) && Accepts(s, 0) && Accepts(s, 1)
  {
    events := [Register(u, 0), Tick(CODE_TTL), Resend(u, VerifyEmail, None, 1)];
    var s1 := Step(INITIAL, events[0]).value;
    var s2 := Step(s1, events[1]).value;
    assert forall r :: r in s2.rows ==> !Live(s2, r, u, VerifyEmail);
    s := Step(s2, events[2]).value;
    assert events[1..][1..][1..] == [];
    assert Exec(s2, events[1..][1..]) == Some(s);
    assert Exec(s1, events[1..]) == Some(s);
  }

  // ---------- exactly when two codes are acceptable ----------

  /** A code that its method would accept now. */
  predicate Open(s: State, id: Id, u: nat, action: Action) {
    Accepts(s, id) && s.rows[id].user == u && s.rows[id].action == action
  }

  ghost predicate TwoOpen(s: State, u: nat, action: Action) {
    exists a: Id, b: Id :: Open(s, a, u, action) && Open(s, b, u, action) && a != b
  }

  /** An unused e-mail code at its very last instant. */
  predicate Expiring(s: State, id: Id, u: nat) {
    id in s.rows && s.rows[id].user == u && s.rows[id].action.VerifyEmail? && !s.rows[id].isUsed
    && s.rows[id].expiresAt == s.now
  }

  /** An acceptable code was acceptable before, unless the step is the one that issued it. */
  lemma OpenBefore(s: State, e: Event, s': State, id: Id, u: nat, action: Action)
    requires Inv(s) && Step(s, e) == Some(s') && Open(s', id, u, action)
    ensures Open(s, id, u, action) ||
      (id !in s.rows && match e
                        case Register(v, r) => action.VerifyEmail? && v == u && r == id
                        case IssueReset(v, r) => action.ResetPassword? && v == u && r == id
                        case Resend(v, a, row, r) => a == action && v == u && row.None? && r == id
                        case _ => false)
  {
  }

  /**
   While a user has at most one acceptable e-mail code, a step adds a second one if and only if it is a resend that
   finds no code strictly alive because the user's code is at its last instant.
   */
  lemma SecondEmailCodeIff(s: State, u: nat, e: Event, s': State)
    requires Inv(s) && !TwoOpen(s, u, VerifyEmail) && Step(s, e) == Some(s')
    ensures TwoOpen(s', u, VerifyEmail) <==>
      e.Resend? && e.user == u && e.action.VerifyEmail? && e.row.None? && exists r :: r in s.rows && Expiring(s, r, u)
  {
    if e.Resend? && e.user == u && e.action.VerifyEmail? && e.row.None? {
      if r :| r in s.rows && Expiring(s, r, u) {
        assert Open(s', r, u, VerifyEmail) && Open(s', e.id, u, VerifyEmail);
      }
    }
    if TwoOpen(s', u, VerifyEmail) {
      var a: Id, b: Id :| Open(s', a, u, VerifyEmail) && Open(s', b, u, VerifyEmail) && a != b;
      OpenBefore(s, e, s', a, u, VerifyEmail);
      OpenBefore(s, e, s', b, u, VerifyEmail);
      var older := if a in s.rows then a else b;
      assert Open(s, older, u, VerifyEmail) && !Live(s, older, u, VerifyEmail);
      assert Expiring(s, older, u);
    }
  }

  /** Issuing a reset code leaves two acceptable ones if and only if one was live. */
  lemma ResetCodesCoexist(s: State, u: nat, id: Id, s': State)
    requires Inv(s) && Step(s, IssueReset(u, id)) == Some(s')
    ensures TwoOpen(s', u, ResetPassword) <==> exists r :: r in s.rows && Live(s, r, u, ResetPassword)
  {
    if r :| r in s.rows && Live(s, r, u, ResetPassword) {
      assert Open(s', r, u, ResetPassword) && Open(s', id, u, ResetPassword);
    }
    if TwoOpen(s', u, ResetPassword) {
      var a: Id, b: Id :| Open(s', a, u, ResetPassword) && Open(s', b, u, ResetPassword) && a != b;
      OpenBefore(s, IssueReset(u, id), s', a, u, ResetPassword);
      OpenBefore(s, IssueReset(u, id), s', b, u, ResetPassword);
      assert Live(s, if a in s.rows then a else b, u, ResetPassword);
    }
  }

  /** And no other step adds a second acceptable reset code. */
  lemma SecondResetCodeIff(s: State, u: nat, e: Event, s': State)
    requires Inv(s) && !TwoOpen(s, u, ResetPassword) && Step(s, e) == Some(s')
    ensures TwoOpen(s', u, ResetPassword) <==>
      e.IssueReset? && e.user == u && exists r :: r in s.rows && Live(s, r, u, ResetPassword)
  {
    if e.IssueReset? && e.user == u {
      ResetCodesCoexist(s, u, e.id, s');
    } else if TwoOpen(s', u, ResetPassword) {
      var a: Id, b: Id :| Open(s', a, u, ResetPassword) && Open(s', b, u, ResetPassword) && a != b;
      OpenBefore(s, e, s', a, u, ResetPassword);
      OpenBefore(s, e, s', b, u, ResetPassword);
      assert Live(s, if a in s.rows then a else b, u, ResetPassword);
    }
  }

  /** Reset codes have no bound: for every n, some run leaves n different ones of one user acceptable at once. */
  lemma {:induction false} ResetCodesUnbounded(u: nat, n: nat) returns (events: seq<Event>, s: State)
    ensures Exec(INITIAL, events) == Some(s)
    ensures forall id: Id :: 1 <= id <= n ==> Open(s, id, u, ResetPassword)
    ensures forall a: Id, b: Id :: SameCode(s.rows, a, b) ==> a == b
    ensures u in s.users && forall id :: id in s.rows ==> id <= n
  {
    if n == 0 {
      events := [Register(u, 0)];
      s := Step(INITIAL, events[0]).value;
      assert events[1..] == [];
    } else {
      var before, m := ResetCodesUnbounded(u, n - 1);
      events := before + [IssueReset(u, n)];
      s := Step(m, IssueReset(u, n)).value;
      ExecSnoc(INITIAL, before, m, IssueReset(u, n));
      forall id: Id | 1 <= id <= n ensures Open(s, id, u, ResetPassword) {
        assert id < n ==> Open(m, id, u, ResetPassword);
      }
    }
    RunKeepsInv(INITIAL, events, s);
  }
}
