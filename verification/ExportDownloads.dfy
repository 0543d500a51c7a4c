/** Several downloads of one export at a time: which of them find the file. */
module ExportDownloads {
  import opened Wrappers
  import opened ClaimQueue
  import opened ExportModel
  import opened ExportSafety
  import opened ExportRuns
  import opened ExportReach
  import opened ExportExample

  /** The step deletes this file: by the download or pruner that retired its row, or after anonymising. */
  predicate Deletes(s: State, act: Action, p: Path) {
    && act.DeleteBlob? && act.actor in s.actors && s.actors[act.actor].Deleter?
    && s.actors[act.actor].paths != [] && s.actors[act.actor].paths[0] == p
  }

  ghost predicate DeletedIn(s: State, acts: seq<Action>, p: Path)
    requires ValidRun(s, acts)
    decreases |acts|
  {
    acts != [] && (Deletes(s, acts[0], p) || DeletedIn(Apply(s, acts[0]), acts[1..], p))
  }

  lemma WorkerKeepsFile(s: State, act: Action, p: Path)
    requires Inv(s) && Enabled(s, act) && Settled(s, PathId(p)) && p in s.blobs
    requires !act.Create? && !act.Claim? && OnJob(s, act.actor)
    ensures p in Apply(s, act).blobs
  {
    var w := s.actors[act.actor];
    assert ActorOk(s, w) && w.todo[0] in w.todo && JobOk(s, w.todo[0]);
    assert w.todo[0].id in Active(w);
  }

  lemma SettledFileStaysIff(s: State, act: Action, p: Path)
    requires Inv(s) && Enabled(s, act) && Settled(s, PathId(p)) && p in s.blobs
    ensures p in Apply(s, act).blobs <==> !Deletes(s, act, p)
  {
    if !act.Create? && !act.Claim? && OnJob(s, act.actor) {
      WorkerKeepsFile(s, act, p);
    }
  }

  lemma {:induction false} SettledFileGoneIff(s: State, acts: seq<Action>, p: Path)
    requires Inv(s) && ValidRun(s, acts) && Settled(s, PathId(p)) && p in s.blobs
    ensures p !in RunFrom(s, acts).blobs <==> DeletedIn(s, acts, p)
    decreases |acts|
  {
    if acts != [] {
      var t := Apply(s, acts[0]);
      StepKeepsInv(s, acts[0]);
      SettledStep(s, acts[0], p);
      SettledFileStaysIff(s, acts[0], p);
      if p in t.blobs {
        SettledFileGoneIff(t, acts[1..], p);
      } else {
        SettledInRun(t, acts[1..], p);
      }
    }
  }

  /** A download that has read the complete row finds the file, unless somebody has deleted it by then. */
  lemma FileIsGoneIff(s: State, acts: seq<Action>, id: Id)
    requires Inv(s) && ValidRun(s, acts) && id in s.rows && s.rows[id].status == Complete
    ensures s.rows[id].filePath.Some?
    ensures s.rows[id].filePath.value !in RunFrom(s, acts).blobs <==> DeletedIn(s, acts, s.rows[id].filePath.value)
  {
    assert RowOk(s, id);
    SettledFileGoneIff(s, acts, s.rows[id].filePath.value);
  }

  /** Somebody deleted the file on the way from `s` to `t`. */
  ghost predicate DeletedBetween(s: State, t: State, p: Path) {
    exists acts :: ValidRun(s, acts) && RunFrom(s, acts) == t && DeletedIn(s, acts, p)
  }

  lemma FileIsGoneBetweenIff(s: State, t: State, id: Id)
    requires Inv(s) && Reaches(s, t) && id in s.rows && s.rows[id].status == Complete
    ensures s.rows[id].filePath.Some?
    ensures s.rows[id].filePath.value !in t.blobs <==> DeletedBetween(s, t, s.rows[id].filePath.value)
  {
    forall acts | ValidRun(s, acts) && RunFrom(s, acts) == t
      ensures s.rows[id].filePath.Some?
      ensures s.rows[id].filePath.value !in t.blobs <==> DeletedIn(s, acts, s.rows[id].filePath.value)
    {
      FileIsGoneIff(s, acts, id);
    }
  }

  // --- Not all succeed ----------------------------------------------------------------------------

  function Row0(): Row {
    NewRow(0, Zip, 0).(status := Complete, filePath := Some(FILE), receipt := Some(RECEIPT), completedAt := Some(0),
                       expiresAt := Some(HOUR))
  }

  const LATE := Download(0, 0, Some(FILE), false)

  /** The export is complete, with these actors about. */
  function Finished0(actors: map<ActorId, Actor>): State {
    State(UserExports, map[0 := Row0()], {0}, map[FILE := []], actors)
  }

  /** One download has retired the row and deleted the file; another has read the row before. */
  function TooLate(): State {
    State(UserExports, map[0 := Row0().(status := Expired)], {0}, map[], map[1 := Deleter([]), 2 := LATE])
  }

  /** The archive is in the store, and its row not yet complete. */
  function Stored0(): State {
    UnderWay(map[0 := WorkerOn(Some(RECEIPT), false)]).(blobs := map[FILE := []])
  }

  lemma FileIsStored(u: State)
    requires Reaches(Stored0(), u)
    ensures Reaches(Empty(UserExports), u)
  {
    StepFirst(UnderWay(map[0 := WorkerOn(None, false)]), Put(0, [], RECEIPT), Stored0(), u);
    CreateAndClaim(u);
  }

  lemma ExportFinishes(u: State)
    requires Reaches(Finished0(map[]), u)
    ensures Reaches(Stored0(), u)
  {
    var idle := Finished0(map[0 := Worker([], None, false)]);
    assert [Job(0, FILE)][1..] == [];
    assert idle.actors - {0} == map[];
    StepFirst(idle, Leave(0), Finished0(map[]), u);
    StepFirst(Stored0(), CompleteJob(0, 0), idle, u);
  }

  /** The first download has streamed the file and retired the row. */
  function Retired0(): State {
    TooLate().(blobs := map[FILE := []], actors := map[1 := Deleter([FILE]), 2 := LATE])
  }

  lemma FirstRetires()
    ensures Reaches(Finished0(map[1 := LATE, 2 := LATE]), Retired0())
  {
    var streaming := Finished0(map[1 := LATE.(streaming := true), 2 := LATE]);
    Stays(Retired0());
    StepFirst(streaming, Retire(1), Retired0(), Retired0());
    StepFirst(Finished0(map[1 := LATE, 2 := LATE]), GetBlob(1), streaming, Retired0());
  }

  lemma FirstDeletes()
    ensures Reaches(Retired0(), TooLate())
  {
    assert [FILE][1..] == [];
    assert Retired0().blobs - {FILE} == map[];
    OneStep(Retired0(), DeleteBlob(1), TooLate());
  }

  /** A download that is under way, on a row that was complete when it read it, whose file is gone. */
  ghost predicate Disappointed(s: State, a: ActorId) {
    && a in s.actors && s.actors[a].Download? && !s.actors[a].streaming
    && s.actors[a].path.Some? && s.actors[a].path.value !in s.blobs
  }

  lemma BothOpen(u: State)
    requires Reaches(Finished0(map[1 := LATE, 2 := LATE]), u)
    ensures Reaches(Finished0(map[]), u)
  {
    var s := Finished0(map[1 := LATE]);
    StepFirst(s, OpenDownload(2, 0, 0), Finished0(map[1 := LATE, 2 := LATE]), u);
    StepFirst(Finished0(map[]), OpenDownload(1, 0, 0), s, u);
  }

  /** Two downloads of one export both find the row complete, and the second does not get the file. */
  lemma LateDownloadFails()
    ensures exists s, t ::
              && Reachable(s) && Reaches(s, t) && s.actors == map[1 := LATE, 2 := LATE]
              && MayRetire(s.rows, 0, 0) && Disappointed(t, 2)
  {
    var s, t := Finished0(map[1 := LATE, 2 := LATE]), TooLate();
    FirstRetires();
    FirstDeletes();
    Onward(s, Retired0(), t);
    Stays(s);
    BothOpen(s);
    ExportFinishes(s);
    FileIsStored(s);
    assert Reachable(s) && MayRetire(s.rows, 0, 0) && Disappointed(t, 2);
  }
}
