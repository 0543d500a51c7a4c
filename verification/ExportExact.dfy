/**
 Conservation of blobs in runs without crashes and without store or database errors: which files are in the store
 when nobody is at work.
 */
module ExportExact {
  import opened Wrappers
  import opened ClaimQueue
  import opened ExportModel
  import opened ExportSafety
  import opened ExportExample

  /** The actor has nothing left to do: ending here is not a crash. */
  predicate Done(actor: Actor) {
    match actor
    case Worker(todo, _, _) => todo == []
    case Deleter(paths) => paths == []
    case Download(_, _, _, _) => true
    case Anonymizer(_, _) => false
  }

  /** No crash and no error. An archive may still be impossible to build, and an account may go at any time. */
  ghost predicate Orderly(s: State, act: Action)
    requires Enabled(s, act)
  {
    match act
    case FailJob(_, applied, _) => applied
    case Leave(a) => Done(s.actors[a])
    case PutFailed(_, _) => false
    case CompleteError(_, _, _) => false
    case RetireError(_, _) => false
    case DeleteBlobFailed(_) => false
    case CrashInPut(_, _) => false
    case _ => true
  }

  ghost predicate OrderlyRun(s: State, acts: seq<Action>)
    decreases |acts|
  {
    acts == [] || (Enabled(s, acts[0]) && Orderly(s, acts[0]) && OrderlyRun(Apply(s, acts[0]), acts[1..]))
  }

  lemma {:induction false} OrderlyIsValid(s: State, acts: seq<Action>)
    requires OrderlyRun(s, acts)
    ensures ValidRun(s, acts)
    decreases |acts|
  {
    if acts != [] {
      OrderlyIsValid(Apply(s, acts[0]), acts[1..]);
    }
  }

  ghost function After(s: State, acts: seq<Action>): State
    requires OrderlyRun(s, acts)
  {
    OrderlyIsValid(s, acts);
    RunFrom(s, acts)
  }

  // --- Files that anonymising leaves behind ------------------------------------------------------

  /** Somebody is going to delete the file. */
  ghost predicate Doomed(s: State, p: Path) {
    exists a :: a in s.actors && Dooms(s.actors[a], p)
  }

  predicate Dooms(actor: Actor, p: Path) {
    (actor.Deleter? && p in actor.paths) || (actor.Anonymizer? && p in actor.paths)
  }

  /** A row that may have, or may get, a file that is on nobody's list. */
  ghost predicate Unlisted(s: State, user: UserId, id: Id)
    requires id in s.rows
  {
    s.rows[id].owner == user && s.rows[id].status in {Running, Complete}
      && !Doomed(s, PathOf(s.pipeline, id, s.rows[id]))
  }

  /** The files whose rows this step deletes without anybody being left to delete the file. */
  ghost function LostBy(s: State, act: Action): set<Path>
    requires Enabled(s, act)
  {
    if act.CommitAnonymize?
    then set id | id in s.rows && Unlisted(s, s.actors[act.actor].user, id) :: PathOf(s.pipeline, id, s.rows[id])
    else {}
  }

  function PutBy(s: State, act: Action): set<Path>
    requires act.Put? ==> act.actor in s.actors && s.actors[act.actor].Worker? && s.actors[act.actor].todo != []
  {
    if act.Put? then {s.actors[act.actor].todo[0].path} else {}
  }

  /** All files the run loses in this way, and all it puts. */
  ghost function Lost(s: State, acts: seq<Action>): set<Path>
    requires OrderlyRun(s, acts)
    decreases |acts|
  {
    if acts == [] then {} else LostBy(s, acts[0]) + Lost(Apply(s, acts[0]), acts[1..])
  }

  ghost function Puts(s: State, acts: seq<Action>): set<Path>
    requires OrderlyRun(s, acts)
    decreases |acts|
  {
    if acts == [] then {} else PutBy(s, acts[0]) + Puts(Apply(s, acts[0]), acts[1..])
  }

  // --- The invariant ---------------------------------------------------------------------------------

  ghost predicate CompletePath(s: State, p: Path) {
    exists id :: id in s.rows && s.rows[id].status == Complete && s.rows[id].filePath == Some(p)
  }

  ghost predicate ToRecord(s: State, p: Path) {
    exists a :: OnJob(s, a) && s.actors[a].stored.Some? && s.actors[a].todo[0].path == p
  }

  ghost predicate BlobKept(s: State, put: set<Path>, lost: set<Path>, p: Path) {
    p in put && (CompletePath(s, p) || Doomed(s, p) || ToRecord(s, p) || p in lost)
  }

  ghost predicate LostKept(s: State, put: set<Path>, p: Path) {
    PathId(p) in s.used && PathId(p) !in s.rows && !Doomed(s, p) && (p in put ==> p in s.blobs)
  }

  ghost predicate RowKept(s: State, put: set<Path>, id: Id)
    requires id in s.rows
  {
    var p := PathOf(s.pipeline, id, s.rows[id]);
    && (s.rows[id].status == Running ==> s.rows[id].filePath.None? && (p in put ==> p in s.blobs))
    && (s.rows[id].status == Pending ==> p !in put)
  }

  ghost predicate WorkerKept(s: State, lost: set<Path>, w: Actor)
    requires w.Worker?
  {
    && (forall j :: j in w.todo ==> if j.id in s.rows then s.rows[j.id].status == Running else j.path in lost)
    && (w.todo == [] ==> w.stored.None? && !w.failing)
    && (w.failing && w.stored.Some? ==> w.todo[0].path in lost)
  }

  ghost predicate Kept(s: State, put: set<Path>, lost: set<Path>) {
    && Inv(s)
    && (forall p :: p in s.blobs ==> BlobKept(s, put, lost, p))
    && (forall p :: p in lost ==> LostKept(s, put, p))
    && (forall id :: id in s.rows ==> RowKept(s, put, id))
    && (forall a :: a in s.actors && s.actors[a].Worker? ==> WorkerKept(s, lost, s.actors[a]))
    && (forall p :: p in put ==> PathId(p) in s.used)
  }

  // --- What one step does to rows, blobs and lists -----------------------------------------------------

  lemma RowFlow(s: State, act: Action, id: Id)
    requires Inv(s) && Enabled(s, act) && Orderly(s, act) && id in Apply(s, act).rows
    ensures var t := Apply(s, act);
            if id !in s.rows then act.Create? && act.id == id && t.rows[id].status == Pending && id !in s.used
            else
              && t.rows[id].owner == s.rows[id].owner && t.rows[id].format == s.rows[id].format
              && (t.rows[id] != s.rows[id] ==>
                    || (act.Claim? && id in act.batch && s.rows[id].status == Pending
                        && t.rows[id] == s.rows[id].(status := Running))
                    || (act.CompleteJob? && s.actors[act.actor].todo[0].id == id && t.rows[id].status == Complete
                        && t.rows[id].filePath == Some(s.actors[act.actor].todo[0].path))
                    || (act.FailJob? && s.actors[act.actor].todo[0].id == id && t.rows[id].status == Failed)
                    || ((act.ExpireOld? || act.Retire?) && s.rows[id].status == Complete
                        && t.rows[id] == s.rows[id].(status := Expired)))
  {
    if id in s.rows {
      assert RowOk(s, id);
    }
    if act.Claim? {
      ClaimedArePending(s, act);
    }
  }

  lemma RowGoes(s: State, act: Action, id: Id)
    requires Enabled(s, act) && Orderly(s, act) && id in s.rows && id !in Apply(s, act).rows
    ensures || (act.PurgeOld? && id in Purging(s.rows, act.now, act.retentionDays))
            || (act.CommitAnonymize? && s.rows[id].owner == s.actors[act.actor].user)
  {
  }

  lemma BlobFlow(s: State, act: Action, p: Path)
    requires Enabled(s, act) && Orderly(s, act)
    ensures p in Apply(s, act).blobs <==>
            p in PutBy(s, act) || (p in s.blobs && !(act.DeleteBlob? && s.actors[act.actor].paths[0] == p))
  {
  }

  lemma OthersStood(s: State, act: Action, a: ActorId)
    requires Enabled(s, act) && a in Apply(s, act).actors
    requires act.Create? || act.actor != a
    ensures a in s.actors && Apply(s, act).actors[a] == s.actors[a]
  {
  }

  /** New lists are made of the file paths of rows. */
  lemma OwnList(s: State, act: Action, p: Path)
    requires Inv(s) && Enabled(s, act) && Orderly(s, act) && !act.Create?
    requires act.actor in Apply(s, act).actors && Dooms(Apply(s, act).actors[act.actor], p)
    ensures Doomed(s, p) || (PathId(p) in s.rows && s.rows[PathId(p)].filePath == Some(p))
  {
    var t := Apply(s, act);
    if act.DeleteBlob? || act.CommitAnonymize? {
      assert Dooms(s.actors[act.actor], p);
    } else {
      ListedPath(s, act, p);
    }
  }

  lemma ListedPath(s: State, act: Action, p: Path)
    requires Inv(s) && Enabled(s, act) && Orderly(s, act) && !act.Create? && !act.DeleteBlob? && !act.CommitAnonymize?
    requires act.actor in Apply(s, act).actors && Dooms(Apply(s, act).actors[act.actor], p)
    ensures PathId(p) in s.rows && s.rows[PathId(p)].filePath == Some(p)
  {
    if act.ExpireOld? || act.PurgeOld? || act.ListPaths? {
      assert forall id :: id in s.rows ==> RowOk(s, id);
    } else {
      var d := s.actors[act.actor];
      assert act.Retire?;
      assert RowOk(s, d.id);
    }
  }

  lemma DoomedFrom(s: State, act: Action, p: Path)
    requires Inv(s) && Enabled(s, act) && Orderly(s, act) && Doomed(Apply(s, act), p)
    ensures Doomed(s, p) || (PathId(p) in s.rows && s.rows[PathId(p)].filePath == Some(p))
  {
    var t := Apply(s, act);
    var a :| a in t.actors && Dooms(t.actors[a], p);
    if act.Create? || act.actor != a {
      OthersStood(s, act, a);
      assert a in s.actors && Dooms(s.actors[a], p);
    } else {
      OwnList(s, act, p);
    }
  }

  /** Only files of finished jobs are on a list, and while their row is there it names the file. */
  lemma DoomedIsFinished(s: State, p: Path)
    requires Inv(s) && Doomed(s, p)
    ensures PathId(p) in s.rows ==> s.rows[PathId(p)].filePath.Some? || s.rows[PathId(p)].status in {Expired, Failed}
  {
    var a :| a in s.actors && Dooms(s.actors[a], p);
    assert ActorOk(s, s.actors[a]);
  }

  // --- The invariant is kept -------------------------------------------------------------------------------

  /** The file of a row that is lost by this step. */
  lemma NewlyLost(s: State, put: set<Path>, lost: set<Path>, act: Action, p: Path)
    requires Kept(s, put, lost) && Enabled(s, act) && p in LostBy(s, act)
    ensures LostKept(Apply(s, act), put, p)
  {
    var t := Apply(s, act);
    var id :| id in s.rows && Unlisted(s, s.actors[act.actor].user, id) && p == PathOf(s.pipeline, id, s.rows[id]);
    assert RowOk(s, id) && RowKept(s, put, id);
    ListsMoveOn(s, act, p);
  }

  /** The anonymiser's list becomes a list of files to delete. */
  lemma ListsMoveOn(s: State, act: Action, p: Path)
    requires Enabled(s, act) && act.CommitAnonymize?
    ensures Doomed(Apply(s, act), p) ==> Doomed(s, p)
  {
    var t := Apply(s, act);
    forall a | a in t.actors && Dooms(t.actors[a], p)
      ensures Doomed(s, p)
    {
      assert a in s.actors && Dooms(s.actors[a], p);
    }
  }

  lemma DeletedWasDoomed(s: State, act: Action, p: Path)
    requires Enabled(s, act) && act.DeleteBlob? && s.actors[act.actor].paths[0] == p
    ensures Doomed(s, p)
  {
    assert Dooms(s.actors[act.actor], p);
  }

  lemma LostStays(s: State, put: set<Path>, lost: set<Path>, act: Action, p: Path)
    requires Kept(s, put, lost) && Enabled(s, act) && Orderly(s, act) && p in lost
    ensures LostKept(Apply(s, act), put + PutBy(s, act), p)
  {
    var t := Apply(s, act);
    assert LostKept(s, put, p);
    if PathId(p) in t.rows {
      RowFlow(s, act, PathId(p));
    }
    if Doomed(t, p) {
      DoomedFrom(s, act, p);
    }
    BlobFlow(s, act, p);
    if act.DeleteBlob? && s.actors[act.actor].paths[0] == p {
      DeletedWasDoomed(s, act, p);
    }
  }

  lemma RowStaysKept(s: State, put: set<Path>, lost: set<Path>, act: Action, id: Id)
    requires Kept(s, put, lost) && Enabled(s, act) && Orderly(s, act) && id in Apply(s, act).rows
    ensures RowKept(Apply(s, act), put + PutBy(s, act), id)
  {
    var t := Apply(s, act);
    var p := PathOf(t.pipeline, id, t.rows[id]);
    RowFlow(s, act, id);
    BlobFlow(s, act, p);
    if id in s.rows {
      assert RowKept(s, put, id) && RowOk(s, id);
      if act.Put? {
        PutIsNotPending(s, put, lost, act);
      }
      if act.DeleteBlob? && s.actors[act.actor].paths[0] == p {
        DeletedWasDoomed(s, act, p);
        DoomedIsFinished(s, p);
      }
    } else {
      NewRowHasNoFile(s, put, lost, act);
    }
  }

  lemma NewRowHasNoFile(s: State, put: set<Path>, lost: set<Path>, act: Action)
    requires Kept(s, put, lost) && Enabled(s, act) && act.Create?
    ensures PathOf(s.pipeline, act.id, NewRow(act.owner, act.format, act.now)) !in put
  {
  }

  lemma PutIsNotPending(s: State, put: set<Path>, lost: set<Path>, act: Action)
    requires Kept(s, put, lost) && Enabled(s, act) && act.Put?
    ensures var j := s.actors[act.actor].todo[0];
            PathId(j.path) == j.id && j.id in s.used && (j.id in s.rows ==> s.rows[j.id].status == Running)
  {
    var w := s.actors[act.actor];
    assert WorkerKept(s, lost, w) && ActorOk(s, w) && w.todo[0] in w.todo && JobOk(s, w.todo[0]);
  }

  // Workers

  lemma HeldJobStays(s: State, put: set<Path>, lost: set<Path>, act: Action, a: ActorId, j: Job)
    requires Kept(s, put, lost) && Enabled(s, act) && Orderly(s, act) && a in s.actors && s.actors[a].Worker?
    requires j in s.actors[a].todo
    requires act.CompleteJob? || act.FailJob? ==> s.actors[act.actor].todo[0].id != j.id
    ensures var t := Apply(s, act);
            if j.id in t.rows then t.rows[j.id].status == Running else j.path in lost + LostBy(s, act)
  {
    var t, w := Apply(s, act), s.actors[a];
    assert WorkerKept(s, lost, w) && ActorOk(s, w) && JobOk(s, j);
    if j.id in t.rows {
      RowFlow(s, act, j.id);
    } else if j.id in s.rows {
      RowGoes(s, act, j.id);
      assert RowKept(s, put, j.id) && RowOk(s, j.id);
      if Doomed(s, j.path) {
        DoomedIsFinished(s, j.path);
      }
      assert Unlisted(s, s.actors[act.actor].user, j.id);
    }
  }

  lemma HeadsDiffer(s: State, act: Action, a: ActorId, j: Job)
    requires Inv(s) && Enabled(s, act) && (act.CompleteJob? || act.FailJob?) && a in s.actors && s.actors[a].Worker?
    requires a != act.actor && j in s.actors[a].todo
    ensures s.actors[act.actor].todo[0].id != j.id
  {
    assert j.id in Held(s.actors[a]);
    assert s.actors[act.actor].todo[0] in s.actors[act.actor].todo
      && s.actors[act.actor].todo[0].id in Held(s.actors[act.actor]);
    assert Held(s.actors[a]) !! Held(s.actors[act.actor]);
  }

  lemma OtherWorkerStaysKept(s: State, put: set<Path>, lost: set<Path>, act: Action, a: ActorId)
    requires Kept(s, put, lost) && Enabled(s, act) && Orderly(s, act) && a in s.actors && s.actors[a].Worker?
    requires act.Create? || act.actor != a
    ensures WorkerKept(Apply(s, act), lost + LostBy(s, act), s.actors[a])
  {
    var w := s.actors[a];
    assert WorkerKept(s, lost, w);
    forall j | j in w.todo
      ensures var t := Apply(s, act);
              if j.id in t.rows then t.rows[j.id].status == Running else j.path in lost + LostBy(s, act)
    {
      if act.CompleteJob? || act.FailJob? {
        HeadsDiffer(s, act, a, j);
      }
      HeldJobStays(s, put, lost, act, a, j);
    }
  }

  lemma PoppedJobsStay(s: State, put: set<Path>, lost: set<Path>, act: Action)
    requires Kept(s, put, lost) && Enabled(s, act) && Orderly(s, act) && (act.CompleteJob? || act.FailJob?)
    ensures WorkerKept(Apply(s, act), lost, NextJob(s.actors[act.actor]))
  {
    var w := s.actors[act.actor];
    assert ActorOk(s, w);
    forall j | j in w.todo[1..]
      ensures var t := Apply(s, act); if j.id in t.rows then t.rows[j.id].status == Running else j.path in lost
    {
      var k :| 0 <= k < |w.todo[1..]| && w.todo[1..][k] == j;
      assert w.todo[k + 1] == j && j in w.todo;
      HeldJobStays(s, put, lost, act, act.actor, j);
    }
  }

  lemma FailingCompletion(s: State, put: set<Path>, lost: set<Path>, act: Action)
    requires Kept(s, put, lost) && Enabled(s, act) && act.CompleteJob? && s.actors[act.actor].todo[0].id !in s.rows
    ensures WorkerKept(Apply(s, act), lost, s.actors[act.actor].(failing := true))
  {
    var w := s.actors[act.actor];
    assert WorkerKept(s, lost, w) && w.todo[0] in w.todo;
  }

  lemma ClaimerKept(s: State, put: set<Path>, lost: set<Path>, act: Action)
    requires Kept(s, put, lost) && Enabled(s, act) && act.Claim?
    ensures WorkerKept(Apply(s, act), lost, Worker(JobsOf(s, act.order), None, false))
  {
    ClaimedArePending(s, act);
    ClaimedJobs(s, act.batch, act.order);
    forall j | j in JobsOf(s, act.order)
      ensures j.id in Apply(s, act).rows && Apply(s, act).rows[j.id].status == Running
    {
      assert j.id in JobIds(JobsOf(s, act.order));
    }
  }

  lemma OwnWorkerStaysKept(s: State, put: set<Path>, lost: set<Path>, act: Action)
    requires Kept(s, put, lost) && Enabled(s, act) && Orderly(s, act) && !act.Create?
    requires act.actor in Apply(s, act).actors && Apply(s, act).actors[act.actor].Worker?
    ensures WorkerKept(Apply(s, act), lost + LostBy(s, act), Apply(s, act).actors[act.actor])
  {
    if act.Claim? {
      ClaimerKept(s, put, lost, act);
    } else if act.FailJob? || (act.CompleteJob? && s.actors[act.actor].todo[0].id in s.rows) {
      PoppedJobsStay(s, put, lost, act);
    } else if act.CompleteJob? {
      FailingCompletion(s, put, lost, act);
    } else {
      assert WorkerKept(s, lost, s.actors[act.actor]);
      assert act.BuildFailed? || act.Put?;
    }
  }

  lemma WorkersStayKept(s: State, put: set<Path>, lost: set<Path>, act: Action, a: ActorId)
    requires Kept(s, put, lost) && Enabled(s, act) && Orderly(s, act)
    requires a in Apply(s, act).actors && Apply(s, act).actors[a].Worker?
    ensures WorkerKept(Apply(s, act), lost + LostBy(s, act), Apply(s, act).actors[a])
  {
    if act.Create? || act.actor != a {
      OthersStood(s, act, a);
      OtherWorkerStaysKept(s, put, lost, act, a);
    } else {
      OwnWorkerStaysKept(s, put, lost, act);
    }
  }

  // Blobs

  ghost predicate Accounted(s: State, lost: set<Path>, p: Path) {
    CompletePath(s, p) || Doomed(s, p) || ToRecord(s, p) || p in lost
  }

  lemma StillDoomed(s: State, act: Action, p: Path)
    requires Enabled(s, act) && Orderly(s, act) && Doomed(s, p) && p in Apply(s, act).blobs
    requires act.Put? ==> p !in PutBy(s, act)
    ensures Doomed(Apply(s, act), p)
  {
    var t := Apply(s, act);
    var a :| a in s.actors && Dooms(s.actors[a], p);
    if act.Create? || act.actor != a {
      OthersStand(s, act, a);
      assert Dooms(t.actors[a], p);
    } else {
      BlobFlow(s, act, p);
      OwnStepStillDooms(s, act, p);
    }
  }

  lemma OwnStepStillDooms(s: State, act: Action, p: Path)
    requires Enabled(s, act) && Orderly(s, act) && !act.Create? && act.actor in s.actors
             && Dooms(s.actors[act.actor], p)
    requires !(act.DeleteBlob? && s.actors[act.actor].paths[0] == p)
    ensures Doomed(Apply(s, act), p)
  {
    var t, paths := Apply(s, act), s.actors[act.actor].paths;
    assert act.DeleteBlob? ==> p in paths[1..];
    assert act.actor in t.actors && Dooms(t.actors[act.actor], p);
  }

  lemma StillToRecord(s: State, put: set<Path>, lost: set<Path>, act: Action, p: Path)
    requires Kept(s, put, lost) && Enabled(s, act) && Orderly(s, act) && ToRecord(s, p)
    ensures Accounted(Apply(s, act), lost, p)
  {
    var t := Apply(s, act);
    var a :| OnJob(s, a) && s.actors[a].stored.Some? && s.actors[a].todo[0].path == p;
    if act.Create? || act.actor != a {
      OthersStand(s, act, a);
      assert OnJob(t, a);
    } else {
      RecordingIsNext(s, act);
      var j := s.actors[a].todo[0];
      assert WorkerKept(s, lost, s.actors[a]) && j in s.actors[a].todo;
      if j.id in s.rows {
        assert j.id in t.rows && t.rows[j.id].status == Complete && t.rows[j.id].filePath == Some(p);
      }
    }
  }

  lemma RecordingIsNext(s: State, act: Action)
    requires Enabled(s, act) && Orderly(s, act) && !act.Create? && OnJob(s, act.actor)
             && s.actors[act.actor].stored.Some?
    ensures act.CompleteJob?
  {
  }

  lemma StillComplete(s: State, put: set<Path>, lost: set<Path>, act: Action, p: Path)
    requires Kept(s, put, lost) && Enabled(s, act) && Orderly(s, act) && CompletePath(s, p)
    ensures Accounted(Apply(s, act), lost + LostBy(s, act), p)
  {
    var t := Apply(s, act);
    var id :| id in s.rows && s.rows[id].status == Complete && s.rows[id].filePath == Some(p);
    assert RowOk(s, id);
    if id in t.rows {
      RowFlow(s, act, id);
      if t.rows[id] == s.rows[id] {
        assert CompletePath(t, p);
      } else {
        CompleteRowChanges(s, put, lost, act, id);
      }
    } else {
      RowGoes(s, act, id);
      CompleteRowGoes(s, act, id);
    }
  }

  /** A complete row changes only by expiring, and whoever expires it deletes its file. */
  lemma CompleteRowChanges(s: State, put: set<Path>, lost: set<Path>, act: Action, id: Id)
    requires Kept(s, put, lost) && Enabled(s, act) && Orderly(s, act) && id in s.rows && id in Apply(s, act).rows
    requires s.rows[id].status == Complete && s.rows[id].filePath.Some? && Apply(s, act).rows[id] != s.rows[id]
    ensures Doomed(Apply(s, act), s.rows[id].filePath.value)
  {
    var t := Apply(s, act);
    RowFlow(s, act, id);
    if act.CompleteJob? || act.FailJob? {
      HeadIsRunning(s, put, lost, act);
    } else {
      assert Dooms(t.actors[act.actor], s.rows[id].filePath.value);
    }
  }

  lemma HeadIsRunning(s: State, put: set<Path>, lost: set<Path>, act: Action)
    requires Kept(s, put, lost) && Enabled(s, act) && (act.CompleteJob? || act.FailJob?)
    ensures var id := s.actors[act.actor].todo[0].id; id in s.rows ==> s.rows[id].status == Running
  {
    var w := s.actors[act.actor];
    assert WorkerKept(s, lost, w) && w.todo[0] in w.todo;
  }

  lemma CompleteRowGoes(s: State, act: Action, id: Id)
    requires Inv(s) && Enabled(s, act) && Orderly(s, act) && id in s.rows && id !in Apply(s, act).rows
    requires s.rows[id].status == Complete && s.rows[id].filePath == Some(PathOf(s.pipeline, id, s.rows[id]))
    ensures var p := PathOf(s.pipeline, id, s.rows[id]); Doomed(Apply(s, act), p) || p in LostBy(s, act)
  {
    var t, p := Apply(s, act), PathOf(s.pipeline, id, s.rows[id]);
    RowGoes(s, act, id);
    if act.PurgeOld? {
      assert Dooms(t.actors[act.actor], p);
    } else if Doomed(s, p) {
      var a :| a in s.actors && Dooms(s.actors[a], p);
      assert a in t.actors && Dooms(t.actors[a], p);
    } else {
      assert Unlisted(s, s.actors[act.actor].user, id);
    }
  }

  lemma PutIsAccounted(s: State, act: Action, p: Path)
    requires Enabled(s, act) && act.Put? && p in PutBy(s, act)
    ensures ToRecord(Apply(s, act), p)
  {
    assert OnJob(Apply(s, act), act.actor);
  }

  lemma BlobStaysKept(s: State, put: set<Path>, lost: set<Path>, act: Action, p: Path)
    requires Kept(s, put, lost) && Enabled(s, act) && Orderly(s, act) && p in Apply(s, act).blobs
    ensures BlobKept(Apply(s, act), put + PutBy(s, act), lost + LostBy(s, act), p)
  {
    BlobFlow(s, act, p);
    if p in PutBy(s, act) {
      PutIsAccounted(s, act, p);
    } else {
      assert BlobKept(s, put, lost, p);
      if CompletePath(s, p) {
        StillComplete(s, put, lost, act, p);
      } else if Doomed(s, p) {
        StillDoomed(s, act, p);
      } else if ToRecord(s, p) {
        StillToRecord(s, put, lost, act, p);
      }
    }
  }

  lemma PutIdsAreUsed(s: State, put: set<Path>, lost: set<Path>, act: Action, p: Path)
    requires Kept(s, put, lost) && Enabled(s, act) && p in put + PutBy(s, act)
    ensures PathId(p) in Apply(s, act).used
  {
    if p in PutBy(s, act) {
      PutIsNotPending(s, put, lost, act);
    }
  }

  lemma StepKeeps(s: State, put: set<Path>, lost: set<Path>, act: Action)
    requires Kept(s, put, lost) && Enabled(s, act) && Orderly(s, act)
    ensures Kept(Apply(s, act), put + PutBy(s, act), lost + LostBy(s, act))
  {
    var t, put', lost' := Apply(s, act), put + PutBy(s, act), lost + LostBy(s, act);
    StepKeepsInv(s, act);
    forall p | p in t.blobs
      ensures BlobKept(t, put', lost', p)
    {
      BlobStaysKept(s, put, lost, act, p);
    }
    forall p | p in lost'
      ensures LostKept(t, put', p)
    {
      if p in lost {
        LostStays(s, put, lost, act, p);
      } else {
        NewlyLost(s, put, lost, act, p);
      }
    }
    forall id | id in t.rows
      ensures RowKept(t, put', id)
    {
      RowStaysKept(s, put, lost, act, id);
    }
    forall a | a in t.actors && t.actors[a].Worker?
      ensures WorkerKept(t, lost', t.actors[a])
    {
      WorkersStayKept(s, put, lost, act, a);
    }
    forall p | p in put'
      ensures PathId(p) in t.used
    {
      PutIdsAreUsed(s, put, lost, act, p);
    }
  }

  lemma Union<T>(a: set<T>, b: set<T>, c: set<T>)
    ensures a + {} == a && {} + a == a && a + b + c == a + (b + c)
  {
  }

  lemma {:induction false} RunKeeps(s: State, put: set<Path>, lost: set<Path>, acts: seq<Action>)
    requires Kept(s, put, lost) && OrderlyRun(s, acts)
    ensures Kept(After(s, acts), put + Puts(s, acts), lost + Lost(s, acts))
    decreases |acts|
  {
    if acts == [] {
      Union(put, {}, {});
      Union(lost, {}, {});
    } else {
      var t := Apply(s, acts[0]);
      StepKeeps(s, put, lost, acts[0]);
      RunKeeps(t, put + PutBy(s, acts[0]), lost + LostBy(s, acts[0]), acts[1..]);
      Union(put, PutBy(s, acts[0]), Puts(t, acts[1..]));
      Union(lost, LostBy(s, acts[0]), Lost(t, acts[1..]));
    }
  }

  // --- The store when nobody is at work -------------------------------------------------------------------

  function CompletePaths(s: State): set<Path> {
    set id | id in s.rows && s.rows[id].status == Complete && s.rows[id].filePath.Some? :: s.rows[id].filePath.value
  }

  lemma EmptyIsKept(pipeline: Pipeline)
    ensures Kept(Empty(pipeline), {}, {})
  {
    EmptyInv(pipeline);
  }

  /**
   After any orderly run, when nobody is at work, the blobs are the files of the complete rows and, besides them,
   exactly the files put for exports that were running, or complete but on nobody's list, when an anonymisation
   deleted their rows.
   */
  lemma QuietStore(pipeline: Pipeline, acts: seq<Action>)
    requires OrderlyRun(Empty(pipeline), acts) && After(Empty(pipeline), acts).actors == map[]
    ensures var s := After(Empty(pipeline), acts);
            var surplus := Lost(Empty(pipeline), acts) * Puts(Empty(pipeline), acts);
            s.blobs.Keys == CompletePaths(s) + surplus && CompletePaths(s) !! surplus
  {
    var s := After(Empty(pipeline), acts);
    var put, lost := Puts(Empty(pipeline), acts), Lost(Empty(pipeline), acts);
    EmptyIsKept(pipeline);
    RunKeeps(Empty(pipeline), {}, {}, acts);
    Union(put, {}, {});
    Union(lost, {}, {});
    QuietBlobs(s, put, lost);
  }

  lemma QuietBlobs(s: State, put: set<Path>, lost: set<Path>)
    requires Kept(s, put, lost) && s.actors == map[]
    ensures s.blobs.Keys == CompletePaths(s) + lost * put && CompletePaths(s) !! lost * put
  {
    forall p
      ensures p in s.blobs <==> p in CompletePaths(s) || p in lost * put
      ensures p in CompletePaths(s) ==> p !in lost
    {
      if p in CompletePaths(s) {
        var id :| id in s.rows && s.rows[id].status == Complete && s.rows[id].filePath == Some(p);
        assert RowOk(s, id);
        assert p in lost ==> LostKept(s, put, p);
      }
      if p in lost {
        assert LostKept(s, put, p);
      }
      if p in s.blobs {
        assert BlobKept(s, put, lost, p);
        if CompletePath(s, p) {
          var id :| id in s.rows && s.rows[id].status == Complete && s.rows[id].filePath == Some(p);
        }
      }
    }
  }

  lemma LostFileStays(s: State, put: set<Path>, lost: set<Path>, acts: seq<Action>, p: Path)
    requires Kept(s, put, lost) && OrderlyRun(s, acts) && p in lost && p in put
    ensures p in After(s, acts).blobs
  {
    RunKeeps(s, put, lost, acts);
    assert LostKept(After(s, acts), put + Puts(s, acts), p);
  }

  /** However an orderly run goes on, it deletes no such file: it is in the store from the moment it is lost and put. */
  lemma SurplusStays(pipeline: Pipeline, acts: seq<Action>, more: seq<Action>, p: Path)
    requires OrderlyRun(Empty(pipeline), acts) && OrderlyRun(After(Empty(pipeline), acts), more)
    requires p in Lost(Empty(pipeline), acts) && p in Puts(Empty(pipeline), acts)
    ensures p in After(Empty(pipeline), acts).blobs
    ensures p in After(After(Empty(pipeline), acts), more).blobs
  {
    var s := After(Empty(pipeline), acts);
    var put, lost := Puts(Empty(pipeline), acts), Lost(Empty(pipeline), acts);
    EmptyIsKept(pipeline);
    RunKeeps(Empty(pipeline), {}, {}, acts);
    Union(put, {}, {});
    Union(lost, {}, {});
    assert LostKept(s, put, p);
    LostFileStays(s, put, lost, more, p);
  }

  // --- It happens --------------------------------------------------------------------------------------------

  ghost predicate ReachesOrderly(s: State, t: State) {
    exists acts :: OrderlyRun(s, acts) && After(s, acts) == t
  }

  lemma Stays(s: State)
    ensures ReachesOrderly(s, s)
  {
    assert OrderlyRun(s, []) && After(s, []) == s;
  }

  lemma StepFirst(s: State, act: Action, t: State, u: State)
    requires Enabled(s, act) && Orderly(s, act) && Apply(s, act) == t && ReachesOrderly(t, u)
    ensures ReachesOrderly(s, u)
  {
    var rest :| OrderlyRun(t, rest) && After(t, rest) == u;
    assert ([act] + rest)[1..] == rest;
    assert OrderlyRun(s, [act] + rest) && After(s, [act] + rest) == u;
  }

  /** The row is gone; the worker of the deleted export is at work. */
  function Deleted(blobs: map<Path, Bytes>, worker: Actor): State {
    State(UserExports, map[], {0}, blobs, map[0 := worker])
  }

  function LeftOver(): State {
    State(UserExports, map[], {0}, map[FILE := []], map[])
  }

  lemma GiveUpAndLeave()
    ensures ReachesOrderly(Deleted(map[FILE := []], WorkerOn(Some(RECEIPT), true)), LeftOver())
  {
    var idle := Deleted(map[FILE := []], Worker([], None, false));
    assert [Job(0, FILE)][1..] == [];
    assert idle.actors - {0} == map[];
    Stays(LeftOver());
    StepFirst(idle, Leave(0), LeftOver(), LeftOver());
    StepFirst(Deleted(map[FILE := []], WorkerOn(Some(RECEIPT), true)), FailJob(0, true, 0), idle, LeftOver());
  }

  lemma PutForNothing()
    ensures ReachesOrderly(Deleted(map[], WorkerOn(None, false)), LeftOver())
  {
    var blobs: map<Path, Bytes> := map[FILE := []];
    var stored := Deleted(blobs, WorkerOn(Some(RECEIPT), false));
    GiveUpAndLeave();
    StepFirst(stored, CompleteJob(0, 0), Deleted(blobs, WorkerOn(Some(RECEIPT), true)), LeftOver());
    StepFirst(Deleted(map[], WorkerOn(None, false)), Put(0, [], RECEIPT), stored, LeftOver());
  }

  lemma AnonymizeMeanwhile(u: State)
    requires ReachesOrderly(Deleted(map[], WorkerOn(None, false)), u)
    ensures ReachesOrderly(UnderWay(map[0 := WorkerOn(None, false)]), u)
  {
    var w := WorkerOn(None, false);
    var s1 := UnderWay(map[0 := w, 1 := Anonymizer(0, [])]);
    var s2 := State(UserExports, map[], {0}, map[], map[0 := w, 1 := Deleter([])]);
    assert s2.actors - {1} == map[0 := w];
    assert WithoutUser(s1.rows, 0) == map[];
    StepFirst(s2, Leave(1), Deleted(map[], w), u);
    StepFirst(s1, CommitAnonymize(1), s2, u);
    assert PathsOf(s1.rows, OwnedBy(s1.rows, 0), []);
    StepFirst(UnderWay(map[0 := w]), ListPaths(1, 0, []), s1, u);
  }

  lemma CreateAndClaim(u: State)
    requires ReachesOrderly(UnderWay(map[0 := WorkerOn(None, false)]), u)
    ensures ReachesOrderly(Empty(UserExports), u)
  {
    RequestAndClaim();
    StepFirst(Requested(), CLAIM, UnderWay(map[0 := WorkerOn(None, false)]), u);
    StepFirst(Empty(UserExports), REQUEST, Requested(), u);
  }

  /** An orderly run in which a user is anonymised while an export runs leaves the export in the store. */
  lemma SurplusHappens()
    ensures exists s ::
              ReachesOrderly(Empty(UserExports), s) && s.actors == map[] && s.rows == map[] && s.blobs != map[]
  {
    PutForNothing();
    AnonymizeMeanwhile(LeftOver());
    CreateAndClaim(LeftOver());
    assert FILE in LeftOver().blobs;
  }

  // --- No account anonymised while it has an export running --------------------------------------------------

  ghost predicate BeingAnonymized(s: State, user: UserId) {
    exists a :: a in s.actors && s.actors[a].Anonymizer? && s.actors[a].user == user
  }

  ghost predicate HasRunningExport(s: State, user: UserId) {
    exists id :: id in s.rows && s.rows[id].owner == user && s.rows[id].status == Running
  }

  /** Moreover, no user with a running export is anonymised, and no export of a user being anonymised is claimed. */
  ghost predicate Clean(s: State, act: Action)
    requires Enabled(s, act)
  {
    && Orderly(s, act)
    && (act.Claim? ==> forall id :: id in act.batch && id in s.rows ==> !BeingAnonymized(s, s.rows[id].owner))
    && (act.ListPaths? ==> !HasRunningExport(s, act.user))
  }

  ghost predicate CleanRun(s: State, acts: seq<Action>)
    decreases |acts|
  {
    acts == [] || (Enabled(s, acts[0]) && Clean(s, acts[0]) && CleanRun(Apply(s, acts[0]), acts[1..]))
  }

  /** The user's rows are settled, and the files of the complete ones are on the list. */
  ghost predicate AllListed(s: State, user: UserId, paths: seq<Path>) {
    forall id :: id in s.rows ==> RowListed(s, user, paths, id)
  }

  ghost predicate RowListed(s: State, user: UserId, paths: seq<Path>, id: Id)
    requires id in s.rows
  {
    s.rows[id].owner == user ==>
      && s.rows[id].status != Running
      && (s.rows[id].status == Complete ==> s.rows[id].filePath.Some? && s.rows[id].filePath.value in paths)
  }

  ghost predicate ListsComplete(s: State) {
    forall a :: a in s.actors && s.actors[a].Anonymizer? ==> AllListed(s, s.actors[a].user, s.actors[a].paths)
  }

  lemma NewListIsComplete(s: State, act: Action)
    requires Inv(s) && Enabled(s, act) && Clean(s, act) && act.ListPaths?
    ensures AllListed(Apply(s, act), act.user, act.paths)
  {
    forall id | id in s.rows
      ensures RowListed(s, act.user, act.paths, id)
    {
      assert RowOk(s, id);
      assert s.rows[id].owner == act.user ==> id in OwnedBy(s.rows, act.user);
    }
  }

  lemma RowStaysListed(s: State, act: Action, user: UserId, paths: seq<Path>, id: Id)
    requires Inv(s) && Enabled(s, act) && Clean(s, act) && BeingAnonymized(s, user) && AllListed(s, user, paths)
    requires id in Apply(s, act).rows
    ensures RowListed(Apply(s, act), user, paths, id)
  {
    RowFlow(s, act, id);
    if id in s.rows {
      assert RowListed(s, user, paths, id);
      if act.CompleteJob? && s.actors[act.actor].todo[0].id == id {
        CompletedWasRunning(s, act);
      }
    }
  }

  lemma CompletedWasRunning(s: State, act: Action)
    requires Inv(s) && Enabled(s, act) && act.CompleteJob?
    ensures var id := s.actors[act.actor].todo[0].id; id in s.rows ==> s.rows[id].status == Running
  {
    var w := s.actors[act.actor];
    assert ActorOk(s, w) && w.todo[0].id in Active(w);
  }

  lemma ListsStayComplete(s: State, act: Action)
    requires Inv(s) && Enabled(s, act) && Clean(s, act) && ListsComplete(s)
    ensures ListsComplete(Apply(s, act))
  {
    var t := Apply(s, act);
    forall a | a in t.actors && t.actors[a].Anonymizer?
      ensures AllListed(t, t.actors[a].user, t.actors[a].paths)
    {
      if act.ListPaths? && act.actor == a {
        NewListIsComplete(s, act);
      } else {
        ListStood(s, act, a);
        forall id | id in t.rows
          ensures RowListed(t, t.actors[a].user, t.actors[a].paths, id)
        {
          RowStaysListed(s, act, t.actors[a].user, t.actors[a].paths, id);
        }
      }
    }
  }

  lemma OwnAnonymizerLists(s: State, act: Action)
    requires Enabled(s, act) && !act.Create? && act.actor in Apply(s, act).actors
             && Apply(s, act).actors[act.actor].Anonymizer?
    ensures act.ListPaths?
  {
  }

  lemma ListStood(s: State, act: Action, a: ActorId)
    requires Enabled(s, act) && Orderly(s, act) && !(act.ListPaths? && act.actor == a)
    requires a in Apply(s, act).actors && Apply(s, act).actors[a].Anonymizer?
    ensures a in s.actors && s.actors[a] == Apply(s, act).actors[a] && BeingAnonymized(s, s.actors[a].user)
  {
    if !act.Create? && act.actor == a {
      OwnAnonymizerLists(s, act);
    } else {
      OthersStood(s, act, a);
    }
  }

  lemma NothingIsLost(s: State, act: Action)
    requires Inv(s) && Enabled(s, act) && Clean(s, act) && ListsComplete(s)
    ensures LostBy(s, act) == {}
  {
    if act.CommitAnonymize? {
      var an := s.actors[act.actor];
      forall id | id in s.rows
        ensures !Unlisted(s, an.user, id)
      {
        assert RowListed(s, an.user, an.paths, id) && RowOk(s, id);
        assert s.rows[id].filePath.Some? && s.rows[id].filePath.value in an.paths
          ==> Dooms(an, s.rows[id].filePath.value);
      }
    }
  }

  lemma {:induction false} CleanRunsLoseNothing(s: State, acts: seq<Action>)
    requires Inv(s) && ListsComplete(s) && CleanRun(s, acts)
    ensures OrderlyRun(s, acts) && Lost(s, acts) == {}
    decreases |acts|
  {
    if acts != [] {
      StepKeepsInv(s, acts[0]);
      ListsStayComplete(s, acts[0]);
      NothingIsLost(s, acts[0]);
      CleanRunsLoseNothing(Apply(s, acts[0]), acts[1..]);
    }
  }

  /** Then, when nobody is at work, the blobs in the store are exactly the files of the complete rows. */
  lemma QuietStoreIsExact(pipeline: Pipeline, acts: seq<Action>)
    requires CleanRun(Empty(pipeline), acts)
    ensures ValidRun(Empty(pipeline), acts)
    ensures var s := RunFrom(Empty(pipeline), acts);
            s.actors == map[] ==> s.blobs.Keys == CompletePaths(s)
  {
    EmptyInv(pipeline);
    CleanRunsLoseNothing(Empty(pipeline), acts);
    OrderlyIsValid(Empty(pipeline), acts);
    if RunFrom(Empty(pipeline), acts).actors == map[] {
      QuietStore(pipeline, acts);
    }
  }
}
