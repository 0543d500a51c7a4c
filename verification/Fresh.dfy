/** Ids that were never handed out. */
module Fresh {
  lemma {:induction false} Bound(used: set<nat>) returns (bound: nat)
    ensures forall x :: x in used ==> x < bound
  {
    if used == {} {
      bound := 0;
    } else {
      var x :| x in used;
      var rest := Bound(used - {x});
      bound := if rest > x then rest else x + 1;
      assert used == (used - {x}) + {x};
    }
  }

  method UnusedId(used: set<nat>) returns (id: nat)
    ensures id !in used
  {
    ghost var bound := Bound(used);
    assert bound !in used;
    id :| id !in used;
  }
}
