/** The verification methods of the authentication service over their table; each is one step of the state machine. */
module VerificationService {
  import opened Wrappers
  import opened Verification

  datatype Outcome = Accepted | InvalidCode | CodeExpired | NoAccount

  class VerificationService {
    var now: nat
    var next: Code
    var users: set<nat>
    var rows: map<Id, Row>
    var passwords: map<nat, nat>
    ghost var consumed: seq<Code>
    ghost var retired: set<Code>

    ghost function Snapshot(): State
      reads this
    {
      State(now, next, users, rows, consumed, retired)
    }

    constructor ()
      ensures Snapshot() == INITIAL
    {
      now, next, users, rows := 0, 0, {}, map[];
      consumed, retired := [], {};
      passwords := map[];
    }

    method AdvanceClock(delta: nat)
      modifies this`now
      ensures Step(old(Snapshot()), Tick(delta)) == Some(Snapshot()) && now == old(now) + delta
    {
      now := now + delta;
    }

    method Save(id: Id, u: nat, action: Action) returns (code: Code)
      requires id !in rows
      modifies this`rows, this`next
      ensures Snapshot() == Insert(old(Snapshot()), id, u, action) && code == old(next)
      ensures rows == old(rows)[id := Row(u, code, action, false, now + 300_000)]
    {
      code := next;
      next := next + 1;
      rows := rows[id := Row(u, code, action, false, now + CODE_TTL)];
    }

    method RegisterUser(u: nat, id: Id) returns (code: Code)
      requires u !in users && id !in rows
      modifies this`rows, this`next, this`users
      ensures Step(old(Snapshot()), Register(u, id)) == Some(Snapshot())
      ensures users == old(users) + {u} && rows == old(rows)[id := Row(u, code, VerifyEmail, false, now + 300_000)]
    {
      users := users + {u};
      code := Save(id, u, VerifyEmail);
    }

    /** None when there is no local account. */
    method ForgotPassword(u: nat, id: Id) returns (code: Option<Code>)
      requires id !in rows
      modifies this`rows, this`next
      ensures Step(old(Snapshot()), IssueReset(u, id)) == Some(Snapshot())
      ensures code.Some? <==> u in users
      ensures rows ==
        if code.Some? then old(rows)[id := Row(u, code.value, ResetPassword, false, now + 300_000)] else old(rows)
    {
      code := None;
      if u in users {
        var c := Save(id, u, ResetPassword);
        code := Some(c);
      }
    }

    method MarkUsed(id: Id)
      requires id in rows
      modifies this`rows, this`consumed
      ensures Snapshot() == Consume(old(Snapshot()), id)
    {
      consumed := consumed + [rows[id].code];
      rows := rows[id := rows[id].(isUsed := true)];
    }

    /** The row is looked up first, then its expiry, then the account. */
    method VerifyEmailCode(code: Code) returns (o: Outcome, ghost e: Event)
      modifies this`rows, this`consumed
      ensures e.Verify? && e.code == code && Step(old(Snapshot()), e) == Some(Snapshot())
      ensures o.InvalidCode? <==> forall id :: id in old(rows) ==> !Verifiable(old(Snapshot()), id, code)
      ensures o.CodeExpired? ==>
        exists id :: id in old(rows) && Verifiable(old(Snapshot()), id, code) && old(rows)[id].expiresAt < now
      ensures o.NoAccount? ==>
        exists id :: id in old(rows) && Verifiable(old(Snapshot()), id, code) && old(rows)[id].user !in users
      ensures o.Accepted? ==>
        exists id :: id in old(rows) && Verifiable(old(Snapshot()), id, code) && Accepts(old(Snapshot()), id) &&
                     rows == old(rows)[id := old(rows)[id].(isUsed := true)]
      ensures o.Accepted? <==> consumed == old(consumed) + [code]
      ensures !o.Accepted? ==> rows == old(rows)
    {
      ghost var s := Snapshot();
      if id :| id in rows && rows[id].code == code && rows[id].action.VerifyEmail? && !rows[id].isUsed {
        e := Verify(code, Some(id));
        assert Verifiable(s, id, code);
        if rows[id].expiresAt < now {
          o := CodeExpired;
        } else if rows[id].user !in users {
          o := NoAccount;
        } else {
          assert Accepts(s, id);
          MarkUsed(id);
          o := Accepted;
        }
      } else {
        e := Verify(code, None);
        assert forall id :: id in rows ==> !Verifiable(s, id, code);
        o := InvalidCode;
      }
    }

    /** `hash` is the hashed new password. No matching row reads as an expired code. */
    method ResetPasswordWithCode(u: nat, code: Code, hash: nat) returns (o: Outcome, ghost e: Event)
      modifies this`rows, this`consumed, this`passwords
      ensures e.Reset? && e.user == u && e.code == code && Step(old(Snapshot()), e) == Some(Snapshot())
      ensures o.NoAccount? <==> u !in users
      ensures o.Accepted? <==> u in users && exists id :: id in old(rows) && Resettable(old(Snapshot()), id, u, code)
      ensures !o.InvalidCode?
      ensures o.Accepted? ==>
        exists id :: id in old(rows) && Resettable(old(Snapshot()), id, u, code) &&
                     rows == old(rows)[id := old(rows)[id].(isUsed := true)]
      ensures !o.Accepted? ==> rows == old(rows)
      ensures o.Accepted? <==> consumed == old(consumed) + [code]
      ensures passwords == if o.Accepted? then old(passwords)[u := hash] else old(passwords)
    {
      ghost var s := Snapshot();
      e := Reset(u, code, None);
      if u !in users {
        o := NoAccount;
      } else if id :| id in rows && rows[id].user == u && rows[id].code == code && rows[id].action.ResetPassword?
                      && !rows[id].isUsed && now < rows[id].expiresAt {
        e := Reset(u, code, Some(id));
        assert Resettable(s, id, u, code);
        passwords := passwords[u := hash];
        MarkUsed(id);
        o := Accepted;
      } else {
        assert forall id :: id in rows ==> !Resettable(s, id, u, code);
        o := CodeExpired;
      }
    }

    /** A live code is overwritten in place, otherwise a new row is created. */
    method ResendCode(u: nat, action: Action, id: Id) returns (code: Option<Code>, ghost e: Event)
      requires id !in rows
      modifies this`rows, this`next, this`retired
      ensures e.Resend? && e.user == u && e.action == action && e.id == id
      ensures Step(old(Snapshot()), e) == Some(Snapshot())
      ensures code.Some? <==> u in users
      ensures code.Some? ==>
        var r := if e.row.Some? then e.row.value else id;
        && rows == old(rows)[r := Row(u, code.value, action, false, now + 300_000)]
        && (e.row.Some? ==> Live(old(Snapshot()), r, u, action))
        && (e.row.None? ==> forall x :: x in old(rows) ==> !Live(old(Snapshot()), x, u, action))
      ensures code.None? ==> rows == old(rows)
    {
      ghost var s := Snapshot();
      code := None;
      e := Resend(u, action, None, id);
      if u in users {
        if r :| r in rows && rows[r].user == u && rows[r].action == action
                && !rows[r].isUsed && now < rows[r].expiresAt {
          e := Resend(u, action, Some(r), id);
          assert Live(s, r, u, action);
          retired := retired + {rows[r].code};
          rows := rows[r := rows[r].(code := next, expiresAt := now + CODE_TTL)];
          code := Some(next);
          next := next + 1;
        } else {
          assert forall r :: r in rows ==> !Live(s, r, u, action);
          var c := Save(id, u, action);
          code := Some(c);
        }
      }
    }
  }
}
