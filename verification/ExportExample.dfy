/** One export of one user under way: the start of the example runs. */
module ExportExample {
  import opened Wrappers
  import opened ClaimQueue
  import opened ExportModel
  import opened ExportReach

  const FILE := ExportPath(0, 0, Zip)
  const RECEIPT := ReceiptFor([])

  function WorkerOn(stored: Option<Receipt>, failing: bool): Actor {
    Worker([Job(0, FILE)], stored, failing)
  }

  function Requested(): State {
    State(UserExports, map[0 := NewRow(0, Zip, 0)], {0}, map[], map[])
  }

  /** The export is claimed, with these actors about. */
  function UnderWay(actors: map<ActorId, Actor>): State {
    State(UserExports, map[0 := NewRow(0, Zip, 0).(status := Running)], {0}, map[], actors)
  }

  const REQUEST := Create(0, 0, Zip, 0)
  const CLAIM := Claim(0, {}, {0}, [0])

  lemma RequestAndClaim()
    ensures Enabled(Empty(UserExports), REQUEST) && Apply(Empty(UserExports), REQUEST) == Requested()
    ensures Enabled(Requested(), CLAIM) && Apply(Requested(), CLAIM) == UnderWay(map[0 := WorkerOn(None, false)])
  {
    var s := Requested();
    assert PendingSince(s.rows).Keys == {0};
    assert PendingSince(s.rows).Keys - {} == {0};
    assert JobsOf(s, [0]) == [Job(0, FILE)];
  }

  lemma CreateAndClaim(u: State)
    requires Reaches(UnderWay(map[0 := WorkerOn(None, false)]), u)
    ensures Reaches(Empty(UserExports), u)
  {
    RequestAndClaim();
    StepFirst(Requested(), CLAIM, UnderWay(map[0 := WorkerOn(None, false)]), u);
    StepFirst(Empty(UserExports), REQUEST, Requested(), u);
  }
}
