/**
 Safety of the export and backup pipelines: a row that says `complete` has its blob, whatever
 interleaves and wherever an actor stops.
 */
module ExportSafety {
  import opened Wrappers
  import opened ClaimQueue
  import opened ExportModel

  function PathId(p: Path): Id {
    p.id
  }

  function JobIds(todo: seq<Job>): set<Id> {
    set j | j in todo :: j.id
  }

  /** Jobs the actor may still complete: not the one it is about to mark failed. */
  function Active(actor: Actor): set<Id> {
    if !actor.Worker? then {}
    else if actor.failing && actor.todo != [] then JobIds(actor.todo[1..])
    else JobIds(actor.todo)
  }

  /** Jobs the actor has claimed and not yet settled. */
  function Held(actor: Actor): set<Id> {
    if actor.Worker? then JobIds(actor.todo) else {}
  }

  /** Nobody will complete `id` any more. */
  ghost predicate Finished(s: State, id: Id) {
    id in s.used && forall a :: a in s.actors ==> id !in Active(s.actors[a])
  }

  ghost predicate Retired(s: State, id: Id) {
    Finished(s, id) && (id in s.rows ==> s.rows[id].status in {Expired, Failed})
  }

  /** The row names a stored blob and records exactly its length and digest. */
  ghost predicate HasBlob(s: State, row: Row) {
    && row.filePath.Some? && row.filePath.value in s.blobs
    && row.receipt == Some(ReceiptFor(s.blobs[row.filePath.value]))
  }

  ghost predicate RowOk(s: State, id: Id)
    requires id in s.rows
  {
    var row := s.rows[id];
    && id in s.used
    && (row.status == Complete ==> HasBlob(s, row))
    && (row.status == Pending ==> row.filePath.None?)
    && (row.filePath.Some? ==> row.filePath.value == PathOf(s.pipeline, id, row) && Finished(s, id))
  }

  ghost predicate JobOk(s: State, j: Job) {
    && PathId(j.path) == j.id && j.id in s.used
    && (j.id in s.rows ==> j.path == PathOf(s.pipeline, j.id, s.rows[j.id]) && s.rows[j.id].status != Pending)
  }

  ghost predicate WorkerOk(s: State, w: Actor)
    requires w.Worker?
  {
    && (forall i, j :: 0 <= i < j < |w.todo| ==> w.todo[i].id != w.todo[j].id)
    && (forall j :: j in w.todo ==> JobOk(s, j))
    && (forall id :: id in Active(w) && id in s.rows ==> s.rows[id].status == Running && s.rows[id].filePath.None?)
    && (w.stored.Some? && !w.failing && w.todo != [] ==>
          w.todo[0].path in s.blobs && w.stored.value == ReceiptFor(s.blobs[w.todo[0].path]))
  }

  ghost predicate ActorOk(s: State, actor: Actor) {
    match actor
    case Worker(_, _, _) => WorkerOk(s, actor)
    case Deleter(paths) => forall p :: p in paths ==> Retired(s, PathId(p))
    case Download(_, _, _, _) => true
    case Anonymizer(user, paths) =>
      forall p :: p in paths ==>
        Finished(s, PathId(p))
          && (PathId(p) in s.rows ==> s.rows[PathId(p)].owner == user && s.rows[PathId(p)].filePath.Some?)
  }

  ghost predicate Inv(s: State) {
    && (forall id :: id in s.rows ==> RowOk(s, id))
    && (forall a :: a in s.actors ==> ActorOk(s, s.actors[a]))
    && (forall a, b :: a in s.actors && b in s.actors && a != b ==> Held(s.actors[a]) !! Held(s.actors[b]))
  }

  lemma EmptyInv(pipeline: Pipeline)
    ensures Inv(Empty(pipeline))
  {
  }

  // --- Local facts about actors ------------------------------------------------------------

  /** A step leaves the state of other actors alone. */
  lemma OthersStand(s: State, act: Action, a: ActorId)
    requires Enabled(s, act) && a in s.actors
    requires act.Create? || act.actor != a
    ensures a in Apply(s, act).actors && Apply(s, act).actors[a] == s.actors[a]
  {
  }

  /** An actor whose active jobs only shrink, with rows and blobs as they were. */
  lemma Shrinks(s: State, a: ActorId, actor: Actor)
    requires Inv(s) && a in s.actors
    requires Active(actor) <= Active(s.actors[a]) && Held(actor) <= Held(s.actors[a])
    requires ActorOk(s, actor)
    ensures Inv(Become(s, a, actor))
  {
    var t := Become(s, a, actor);
    forall id | Finished(s, id)
      ensures Finished(t, id)
    {
    }
  }

  lemma Leaves(s: State, a: ActorId)
    requires Inv(s)
    ensures Inv(Gone(s, a))
  {
    var t := Gone(s, a);
    forall id | Finished(s, id)
      ensures Finished(t, id)
    {
    }
  }

  lemma ActiveAfterPop(w: Actor)
    requires w.Worker? && w.todo != []
    requires forall i, j :: 0 <= i < j < |w.todo| ==> w.todo[i].id != w.todo[j].id
    ensures w.failing ==> Active(NextJob(w)) == Active(w)
    ensures !w.failing
            ==> Active(NextJob(w)) == Active(w) - {w.todo[0].id} && Active(w.(failing := true)) == Active(NextJob(w))
    ensures Held(NextJob(w)) <= Held(w) && Active(w) <= Held(w)
    ensures forall j :: j in NextJob(w).todo ==> j in w.todo
  {
    assert w.todo == [w.todo[0]] + w.todo[1..];
    forall id
      ensures id in JobIds(w.todo[1..]) <==> id in JobIds(w.todo) && id != w.todo[0].id
    {
      if id in JobIds(w.todo[1..]) {
        var j :| j in w.todo[1..] && j.id == id;
        var k :| 0 <= k < |w.todo[1..]| && w.todo[1..][k] == j;
        assert w.todo[k + 1] == j;
      }
    }
  }

  // --- Every action keeps the invariant ------------------------------------------------------

  lemma CreateKeeps(s: State, act: Action)
    requires Inv(s) && Enabled(s, act) && act.Create?
    ensures Inv(Apply(s, act))
  {
    var t := Apply(s, act);
    assert forall id :: Finished(s, id) ==> Finished(t, id);
    forall a | a in t.actors
      ensures ActorOk(t, t.actors[a])
    {
      assert ActorOk(s, s.actors[a]);
      if t.actors[a].Worker? {
        ActiveIsHeld(t.actors[a]);
      }
    }
  }

  lemma ActiveIsHeld(w: Actor)
    ensures Active(w) <= Held(w)
    ensures w.Worker? ==> forall id :: id in Held(w) ==> exists j :: j in w.todo && j.id == id
  {
  }

  lemma ClaimedJobs(s: State, batch: set<Id>, order: seq<Id>)
    requires Lists(order, batch) && batch <= s.rows.Keys
    ensures JobIds(JobsOf(s, order)) == batch
  {
    var todo := JobsOf(s, order);
    forall id | id in batch
      ensures id in JobIds(todo)
    {
      var i :| 0 <= i < |order| && order[i] == id;
      assert todo[i] in todo;
    }
  }

  lemma ClaimedArePending(s: State, act: Action)
    requires Enabled(s, act) && act.Claim?
    ensures forall id :: id in act.batch ==> id in s.rows && s.rows[id].status == Pending
    ensures Apply(s, act).rows == ClaimRows(s.rows, act.batch)
    ensures Apply(s, act).actors == s.actors[act.actor := Worker(JobsOf(s, act.order), None, false)]
    ensures act.actor !in s.actors && Lists(act.order, act.batch)
  {
  }

  lemma ClaimKeepsActor(s: State, batch: set<Id>, actor: Actor, t: State)
    requires ActorOk(s, actor) && Held(actor) !! batch
    requires forall id :: id in batch ==> id in s.rows && s.rows[id].status == Pending && s.rows[id].filePath.None?
    requires t.rows == ClaimRows(s.rows, batch) && t.blobs == s.blobs && t.used == s.used && t.pipeline == s.pipeline
    requires forall id :: Finished(s, id) && id !in batch ==> Finished(t, id)
    ensures ActorOk(t, actor)
  {
    ActiveIsHeld(actor);
    assert forall id :: id in t.rows && id !in batch ==> t.rows[id] == s.rows[id];
    if actor.Worker? {
      assert forall j :: j in actor.todo ==> j.id in Held(actor);
    }
  }

  lemma ClaimerOk(s: State, batch: set<Id>, order: seq<Id>, t: State)
    requires forall id :: id in s.rows ==> RowOk(s, id)
    requires forall id :: id in batch ==> id in s.rows && s.rows[id].status == Pending
    requires Lists(order, batch)
    requires t.rows == ClaimRows(s.rows, batch) && t.used == s.used && t.pipeline == s.pipeline
    ensures WorkerOk(t, Worker(JobsOf(s, order), None, false))
  {
    var w := Worker(JobsOf(s, order), None, false);
    ClaimedJobs(s, batch, order);
    forall j | j in w.todo
      ensures JobOk(t, j)
    {
      var i :| 0 <= i < |order| && w.todo[i] == j;
      assert order[i] in batch && RowOk(s, order[i]);
    }
    assert forall id :: id in batch ==> RowOk(s, id);
  }

  lemma ClaimKeepsRow(s: State, batch: set<Id>, t: State, id: Id)
    requires id in s.rows && RowOk(s, id)
    requires forall x :: x in batch ==> x in s.rows && s.rows[x].status == Pending
    requires t.rows == ClaimRows(s.rows, batch) && t.blobs == s.blobs && t.used == s.used && t.pipeline == s.pipeline
    requires forall x :: Finished(s, x) && x !in batch ==> Finished(t, x)
    ensures RowOk(t, id)
  {
  }

  lemma ClaimLeavesFinished(s: State, act: Action, id: Id)
    requires Enabled(s, act) && act.Claim? && Finished(s, id) && id !in act.batch
    ensures Finished(Apply(s, act), id)
  {
    ClaimedArePending(s, act);
    ClaimedJobs(s, act.batch, act.order);
    assert Active(Worker(JobsOf(s, act.order), None, false)) == act.batch;
  }

  lemma ClaimIsApart(s: State, act: Action, a: ActorId)
    requires Inv(s) && Enabled(s, act) && act.Claim? && a in s.actors
    ensures Held(s.actors[a]) !! act.batch
  {
    ClaimedArePending(s, act);
    ActiveIsHeld(s.actors[a]);
    assert ActorOk(s, s.actors[a]);
  }

  lemma ClaimKeepsActors(s: State, act: Action, a: ActorId)
    requires Inv(s) && Enabled(s, act) && act.Claim? && a in Apply(s, act).actors
    requires forall id :: Finished(s, id) && id !in act.batch ==> Finished(Apply(s, act), id)
    ensures ActorOk(Apply(s, act), Apply(s, act).actors[a])
  {
    var t := Apply(s, act);
    ClaimedArePending(s, act);
    assert forall id :: id in act.batch ==> RowOk(s, id);
    if a == act.actor {
      ClaimerOk(s, act.batch, act.order, t);
    } else {
      ClaimIsApart(s, act, a);
      ClaimKeepsActor(s, act.batch, s.actors[a], t);
    }
  }

  lemma ClaimKeeps(s: State, act: Action)
    requires Inv(s) && Enabled(s, act) && act.Claim?
    ensures Inv(Apply(s, act))
  {
    var t := Apply(s, act);
    ClaimedArePending(s, act);
    forall id | Finished(s, id) && id !in act.batch
      ensures Finished(t, id)
    {
      ClaimLeavesFinished(s, act, id);
    }
    forall id | id in t.rows
      ensures RowOk(t, id)
    {
      ClaimKeepsRow(s, act.batch, t, id);
    }
    forall a | a in t.actors
      ensures ActorOk(t, t.actors[a])
    {
      ClaimKeepsActors(s, act, a);
    }
    forall a | a in s.actors
      ensures Held(s.actors[a]) !! Held(t.actors[act.actor])
    {
      ClaimIsApart(s, act, a);
      ClaimedJobs(s, act.batch, act.order);
    }
  }

  lemma WorkerStepKeeps(s: State, act: Action)
    requires Inv(s) && Enabled(s, act) && (act.BuildFailed? || act.FailJob?)
    ensures Inv(Apply(s, act))
  {
    var a, w := act.actor, s.actors[act.actor];
    ActiveAfterPop(w);
    assert w.todo[0] in w.todo;
    if act.BuildFailed? {
      Shrinks(s, a, w.(failing := true));
    } else if !act.applied || w.todo[0].id !in s.rows {
      Shrinks(s, a, NextJob(w));
    } else {
      var id := w.todo[0].id;
      forall b | b in s.actors
        ensures id !in Active(s.actors[b])
      {
        ActiveIsHeld(s.actors[b]);
        assert id in Held(w);
      }
      FailedRowKeeps(s, id, act.now);
      var s1 := s.(rows := FailRow(s.rows, id, act.now));
      assert ActorOk(s1, s1.actors[a]);
      Shrinks(s1, a, NextJob(w));
    }
  }

  lemma FailedRowKeeps(s: State, id: Id, now: int)
    requires Inv(s) && id in s.rows && s.rows[id].status != Pending
    requires forall b :: b in s.actors ==> id !in Active(s.actors[b])
    ensures Inv(s.(rows := FailRow(s.rows, id, now)))
  {
    var t := s.(rows := FailRow(s.rows, id, now));
    assert forall x :: Finished(s, x) ==> Finished(t, x);
    forall a | a in s.actors
      ensures ActorOk(t, s.actors[a])
    {
      assert ActorOk(s, s.actors[a]);
    }
  }

  /** A new actor that holds no job. */
  lemma Joins(s: State, a: ActorId, actor: Actor)
    requires Inv(s) && a !in s.actors && !actor.Worker? && ActorOk(s, actor)
    ensures Inv(Become(s, a, actor))
  {
    var t := Become(s, a, actor);
    assert forall id :: Finished(s, id) ==> Finished(t, id);
    forall b | b in t.actors
      ensures ActorOk(t, t.actors[b])
    {
      assert b in s.actors ==> ActorOk(s, s.actors[b]);
    }
  }

  /** The worker may do as it likes with the blob of the job it is on. */
  lemma BlobWriteKeeps(s: State, a: ActorId, blobs: map<Path, Bytes>)
    requires Inv(s) && OnJob(s, a) && s.actors[a].stored.None?
    requires forall p :: p != s.actors[a].todo[0].path ==>
               (p in blobs <==> p in s.blobs) && (p in blobs ==> blobs[p] == s.blobs[p])
    ensures Inv(s.(blobs := blobs))
  {
    var t, w := s.(blobs := blobs), s.actors[a];
    var job := w.todo[0];
    assert job in w.todo && job.id in Active(w) && job.id in Held(w);
    assert forall id :: Finished(s, id) ==> Finished(t, id);
    forall id | id in t.rows
      ensures RowOk(t, id)
    {
      assert RowOk(s, id);
    }
    forall b | b in s.actors
      ensures ActorOk(t, s.actors[b])
    {
      assert ActorOk(s, s.actors[b]);
      if b != a && s.actors[b].Worker? && s.actors[b].todo != [] {
        assert s.actors[b].todo[0] in s.actors[b].todo && s.actors[b].todo[0].id in Held(s.actors[b]);
      }
    }
  }

  lemma PutStepKeeps(s: State, act: Action)
    requires Inv(s) && Enabled(s, act) && (act.Put? || act.PutFailed? || act.CrashInPut?)
    ensures Inv(Apply(s, act))
  {
    var a, w := act.actor, s.actors[act.actor];
    var t := Apply(s, act);
    assert w.todo[0] in w.todo;
    BlobWriteKeeps(s, a, t.blobs);
    var s1 := s.(blobs := t.blobs);
    assert ActorOk(s1, w);
    if act.CrashInPut? {
      Leaves(s1, a);
    } else {
      ActiveAfterPop(w);
      Shrinks(s1, a, t.actors[a]);
    }
  }

  lemma CompletedRowKeeps(s: State, id: Id, path: Path, receipt: Receipt, now: int)
    requires Inv(s) && id in s.rows && s.rows[id].status == Running && s.rows[id].filePath.None?
    requires Finished(s, id) && path == PathOf(s.pipeline, id, s.rows[id])
    requires path in s.blobs && receipt == ReceiptFor(s.blobs[path])
    ensures Inv(s.(rows := CompleteRow(s.pipeline, s.rows, id, path, receipt, now)))
  {
    var t := s.(rows := CompleteRow(s.pipeline, s.rows, id, path, receipt, now));
    assert forall x :: Finished(s, x) ==> Finished(t, x);
    forall a | a in s.actors
      ensures ActorOk(t, s.actors[a])
    {
      assert ActorOk(s, s.actors[a]);
    }
  }

  lemma CompleteStepKeeps(s: State, act: Action)
    requires Inv(s) && Enabled(s, act) && (act.CompleteJob? || act.CompleteError?)
    ensures Inv(Apply(s, act))
  {
    var a, w := act.actor, s.actors[act.actor];
    var job := w.todo[0];
    assert ActorOk(s, w) && job in w.todo && job.id in Active(w);
    ActiveAfterPop(w);
    var w' := if act.CompleteJob? && job.id in s.rows then NextJob(w) else w.(failing := true);
    Shrinks(s, a, w');
    var s1 := Become(s, a, w');
    if job.id in s.rows && (act.CompleteJob? || act.applied) {
      forall b | b in s1.actors
        ensures job.id !in Active(s1.actors[b])
      {
        ActiveIsHeld(s1.actors[b]);
        assert job.id in Held(w);
      }
      CompletedRowKeeps(s1, job.id, job.path, w.stored.value, act.now);
    }
  }

  /** Some complete rows become expired. */
  lemma ExpiredRowsKeep(s: State, ids: set<Id>, rows: map<Id, Row>)
    requires Inv(s)
    requires forall id :: id in ids ==> id in s.rows && s.rows[id].status == Complete
    requires rows == map id | id in s.rows :: if id in ids then s.rows[id].(status := Expired) else s.rows[id]
    ensures Inv(s.(rows := rows))
    ensures forall id :: id in ids ==>
              Retired(s.(rows := rows), id) && rows[id].filePath.Some? && PathId(rows[id].filePath.value) == id
  {
    var t := s.(rows := rows);
    assert forall x :: Finished(s, x) ==> Finished(t, x);
    forall id | id in ids
      ensures Retired(t, id)
    {
      assert RowOk(s, id);
    }
    forall id | id in t.rows
      ensures RowOk(t, id)
    {
      assert RowOk(s, id);
    }
    forall a | a in s.actors
      ensures ActorOk(t, s.actors[a])
    {
      assert ActorOk(s, s.actors[a]);
    }
  }

  /** Some rows are deleted for good. */
  lemma DeletedRowsKeep(s: State, rows: map<Id, Row>)
    requires Inv(s)
    requires forall id :: id in rows ==> id in s.rows && rows[id] == s.rows[id]
    ensures Inv(s.(rows := rows))
    ensures forall id :: Finished(s, id) ==> Finished(s.(rows := rows), id)
    ensures forall id :: id in s.rows && id !in rows && s.rows[id].filePath.Some? ==> Retired(s.(rows := rows), id)
  {
    var t := s.(rows := rows);
    assert forall x :: Finished(s, x) ==> Finished(t, x);
    forall id | id in s.rows
      ensures RowOk(s, id) && (id in rows ==> RowOk(t, id))
    {
      assert RowOk(s, id);
    }
    forall a | a in s.actors
      ensures ActorOk(t, s.actors[a])
    {
      assert ActorOk(s, s.actors[a]);
    }
  }

  lemma CleanupStepKeeps(s: State, act: Action)
    requires Inv(s) && Enabled(s, act) && (act.ExpireOld? || act.PurgeOld?)
    ensures Inv(Apply(s, act))
  {
    var t, a := Apply(s, act), act.actor;
    var s1 := s.(rows := t.rows);
    if act.ExpireOld? {
      ExpiredRowsKeep(s, Expiring(s.rows, act.now), t.rows);
    } else {
      DeletedRowsKeep(s, t.rows);
    }
    forall p | p in act.paths
      ensures Retired(s1, PathId(p))
    {
      var id :| id in s.rows && s.rows[id].filePath == Some(p) && (act.ExpireOld? ==> id in Expiring(s.rows, act.now))
                && (act.PurgeOld? ==> id in Purging(s.rows, act.now, act.retentionDays));
      assert RowOk(s, id);
    }
    Shrinks(s1, a, Deleter(act.paths));
  }

  lemma DownloadStepKeeps(s: State, act: Action)
    requires Inv(s) && Enabled(s, act) && (act.OpenDownload? || act.GetBlob? || act.Retire? || act.RetireError?)
    ensures Inv(Apply(s, act))
  {
    var a := act.actor;
    if act.OpenDownload? {
      Joins(s, a, Download(act.id, act.user, s.rows[act.id].filePath, false));
    } else if act.GetBlob? {
      Shrinks(s, a, s.actors[a].(streaming := true));
    } else {
      var d := s.actors[a];
      if MayRetire(s.rows, d.id, d.user) && (act.Retire? || act.applied) {
        var rows := s.rows[d.id := s.rows[d.id].(status := Expired)];
        var s1 := s.(rows := rows);
        ExpiredRowsKeep(s, {d.id}, rows);
        if act.Retire? {
          Shrinks(s1, a, Deleter([rows[d.id].filePath.value]));
        } else {
          Leaves(s1, a);
        }
      } else {
        Leaves(s, a);
      }
    }
  }

  lemma AnonymizeStepKeeps(s: State, act: Action)
    requires Inv(s) && Enabled(s, act) && (act.ListPaths? || act.CommitAnonymize?)
    ensures Inv(Apply(s, act))
  {
    var a := act.actor;
    if act.ListPaths? {
      var an := Anonymizer(act.user, act.paths);
      forall p | p in act.paths
        ensures Finished(s, PathId(p))
                && (PathId(p) in s.rows ==> s.rows[PathId(p)].owner == act.user && s.rows[PathId(p)].filePath.Some?)
      {
        var id :| id in OwnedBy(s.rows, act.user) && id in s.rows && s.rows[id].filePath == Some(p);
        assert RowOk(s, id);
      }
      Joins(s, a, an);
    } else {
      var an := s.actors[a];
      assert ActorOk(s, an);
      DeletedRowsKeep(s, WithoutUser(s.rows, an.user));
      Shrinks(s.(rows := WithoutUser(s.rows, an.user)), a, Deleter(an.paths));
    }
  }

  lemma DeleteBlobKeeps(s: State, act: Action)
    requires Inv(s) && Enabled(s, act) && (act.DeleteBlob? || act.DeleteBlobFailed?)
    ensures Inv(Apply(s, act))
  {
    var a, path := act.actor, s.actors[act.actor].paths[0];
    assert ActorOk(s, s.actors[a]) && path in s.actors[a].paths;
    var s1 := s.(blobs := if act.DeleteBlob? then s.blobs - {path} else s.blobs);
    assert forall x :: Finished(s, x) ==> Finished(s1, x);
    forall id | id in s1.rows
      ensures RowOk(s1, id)
    {
      assert RowOk(s, id);
    }
    forall b | b in s1.actors
      ensures ActorOk(s1, s1.actors[b])
    {
      assert ActorOk(s, s.actors[b]);
      var w := s.actors[b];
      if w.Worker? && w.todo != [] && !w.failing {
        assert w.todo[0] in w.todo && w.todo[0].id in Active(w);
      }
    }
    Shrinks(s1, a, Deleter(s.actors[a].paths[1..]));
  }

  /** Every action of every actor keeps the invariant. */
  lemma StepKeepsInv(s: State, act: Action)
    requires Inv(s) && Enabled(s, act)
    ensures Inv(Apply(s, act))
  {
    match act
    case Create(_, _, _, _) => CreateKeeps(s, act);
    case Claim(_, _, _, _) => ClaimKeeps(s, act);
    case BuildFailed(_) => WorkerStepKeeps(s, act);
    case FailJob(_, _, _) => WorkerStepKeeps(s, act);
    case PutFailed(_, _) => PutStepKeeps(s, act);
    case Put(_, _, _) => PutStepKeeps(s, act);
    case CrashInPut(_, _) => PutStepKeeps(s, act);
    case CompleteJob(_, _) => CompleteStepKeeps(s, act);
    case CompleteError(_, _, _) => CompleteStepKeeps(s, act);
    case ExpireOld(_, _, _) => CleanupStepKeeps(s, act);
    case PurgeOld(_, _, _, _) => CleanupStepKeeps(s, act);
    case OpenDownload(_, _, _) => DownloadStepKeeps(s, act);
    case GetBlob(_) => DownloadStepKeeps(s, act);
    case Retire(_) => DownloadStepKeeps(s, act);
    case RetireError(_, _) => DownloadStepKeeps(s, act);
    case ListPaths(_, _, _) => AnonymizeStepKeeps(s, act);
    case CommitAnonymize(_) => AnonymizeStepKeeps(s, act);
    case DeleteBlob(_) => DeleteBlobKeeps(s, act);
    case DeleteBlobFailed(_) => DeleteBlobKeeps(s, act);
    case Leave(_) => Leaves(s, act.actor);
  }
}
