/** The one shared value type: an optional value, standing for the source's null and undefined. */
module Wrappers {
  datatype Option<+T> = None | Some(value: T)
}

/** A number that is not in use. */
module FreshIds {
  lemma {:induction false} Unused(ids: set<nat>) returns (id: nat)
    ensures id !in ids
  {
    var bound := UpperBound(ids);
    id := bound;
  }

  lemma {:induction false} UpperBound(ids: set<nat>) returns (bound: nat)
    ensures forall id :: id in ids ==> id < bound
    decreases |ids|
  {
    bound := 0;
    if ids != {} {
      var id :| id in ids;
      var rest := UpperBound(ids - {id});
      bound := if rest <= id then id + 1 else rest;
      forall i | i in ids ensures i < bound {
        assert i == id || i in ids - {id};
      }
    }
  }
}
