/**
 The dispatchers as code. The contracts say that a tick only ever takes steps of the protocol, so everything
 proved about its runs applies, and what it has brought about by the end, whoever else was at work.
 */
module ExportWorkers {
  import opened Wrappers
  import opened ClaimQueue
  import opened ExportModel
  import opened ExportSafety
  import opened ExportRuns
  import opened ExportReach
  import opened ExportBackend

  /**
   What goes wrong with one job: its archive or dump cannot be produced; the store takes only so many chunks,
   and then removes or keeps what it wrote; the completing UPDATE errs, with or without effect; and the
   failing UPDATE errs.
   */
  datatype Faults = Faults(source: bool, accepts: nat, removes: bool, complete: Option<bool>, fail: bool)

  predicate Faultless(f: Faults, chunks: seq<Bytes>) {
    !f.source && |chunks| <= f.accepts && f.complete.None?
  }

  /**
   A job after its turn. Without faults its row, while there is one, records exactly the archive; otherwise the
   row is marked failed or gone, unless that failed too.
   */
  ghost predicate JobDone(s: State, id: Id, chunks: seq<Bytes>, f: Faults) {
    if Faultless(f, chunks) then Recorded(s, id, ReceiptFor(Concat(chunks))) || Rank(s, id) == 6
    else f.fail || Rank(s, id) >= 5
  }

  lemma DoneForGood(s: State, t: State, id: Id, chunks: seq<Bytes>, f: Faults)
    requires Reachable(s) && Reaches(s, t) && JobDone(s, id, chunks, f)
    ensures JobDone(t, id, chunks, f)
  {
    RankForGood(s, t, id);
    if Recorded(s, id, ReceiptFor(Concat(chunks))) {
      RecordedForGood(s, t, id, ReceiptFor(Concat(chunks)));
    }
  }

  /**
   Stream the chunks to the store; the receipt is of the bytes written. A user's archive is first built in a
   temporary file, so that a failure to produce it leaves the store alone; a failing dump breaks off the write.
   */
  method StoreJob(db: Backend, ghost a: ActorId, job: Job, chunks: seq<Bytes>, f: Faults)
    returns (receipt: Receipt, ok: bool)
    requires OnJob(db.S(), a) && db.actors[a].todo[0] == job && db.actors[a].stored.None?
    modifies db
    ensures Reaches(old(db.S()), db.S()) && a in db.actors
    ensures ok <==> !f.source && |chunks| <= f.accepts
    ensures ok ==> receipt == ReceiptFor(Concat(chunks)) && db.actors[a] == old(db.actors)[a].(stored := Some(receipt))
    ensures ok ==> job.path in db.blobs && db.blobs[job.path] == Concat(chunks)
    ensures !ok ==> db.actors[a] == old(db.actors)[a].(failing := true)
  {
    ghost var s0 := db.S();
    db.Interfere(a);
    ghost var s1 := db.S();
    if db.pipeline == UserExports && f.source {
      receipt, ok := Receipt(0, Sha256([])), false;
      db.GiveUp(a);
      OneStep(s1, BuildFailed(a), db.S());
    } else {
      var written;
      written, receipt, ok := CopyToStore(chunks, f.source, f.accepts);
      if ok {
        db.StorePut(a, job, written, receipt);
        OneStep(s1, Put(a, written, receipt), db.S());
      } else {
        db.StorePutFails(a, job, written, f.removes);
        OneStep(s1, PutFailed(a, if f.removes then None else Some(written)), db.S());
      }
    }
    Onward(s0, s1, db.S());
  }

  /** The row is complete from `now` on, and an export expires one hour later. */
  predicate CompletedAt(pipeline: Pipeline, rows: map<Id, Row>, job: Job, receipt: Receipt, now: int) {
    && job.id in rows
    && var row := rows[job.id];
       && row.status == Complete && row.filePath == Some(job.path) && row.receipt == Some(receipt)
       && row.completedAt == Some(now)
       && (pipeline == UserExports ==> row.expiresAt == Some(now + 3_600_000_000))
  }

  /** The completing UPDATE; only if it brings back the row does the job count as done. */
  method RecordJob(db: Backend, ghost a: ActorId, job: Job, receipt: Receipt, now: int, errs: Option<bool>)
    returns (ok: bool)
    requires Reachable(db.S()) && OnJob(db.S(), a) && db.actors[a].todo[0] == job
             && db.actors[a].stored == Some(receipt)
    modifies db
    ensures Reaches(old(db.S()), db.S()) && a in db.actors
    ensures ok ==> errs.None? && Recorded(db.S(), job.id, receipt) && db.actors[a] == NextJob(old(db.actors)[a])
    ensures ok ==> CompletedAt(db.pipeline, db.rows, job, receipt, now)
    ensures !ok ==> db.actors[a] == old(db.actors)[a].(failing := true)
    ensures !ok && errs.None? ==> Rank(db.S(), job.id) == 6
  {
    ghost var s0 := db.S();
    db.Interfere(a);
    ghost var s1 := db.S();
    StaysReachable(s0, s1);
    ReachableInv(s1);
    ok := db.CompleteExport(a, job, receipt, now, errs);
    OneStep(s1, if errs.Some? then CompleteError(a, errs.value, now) else CompleteJob(a, now), db.S());
    Onward(s0, s1, db.S());
    if ok {
      CompletedIsRecorded(s1, a, now);
    } else if errs.None? {
      MissingIsGone(s1, a, now);
    }
  }

  lemma MissingIsGone(s: State, a: ActorId, now: int)
    requires Inv(s) && Enabled(s, CompleteJob(a, now)) && s.actors[a].todo[0].id !in s.rows
    ensures Rank(Apply(s, CompleteJob(a, now)), s.actors[a].todo[0].id) == 6
  {
    var w := s.actors[a];
    assert ActorOk(s, w) && w.todo[0] in w.todo && JobOk(s, w.todo[0]);
  }

  /** Put, then complete. */
  method ProcessJob(db: Backend, ghost a: ActorId, job: Job, chunks: seq<Bytes>, f: Faults, now: int) returns (ok: bool)
    requires Reachable(db.S()) && OnJob(db.S(), a) && db.actors[a].todo[0] == job && db.actors[a].stored.None?
    modifies db
    ensures Reaches(old(db.S()), db.S()) && a in db.actors
    ensures ok ==> db.actors[a] == NextJob(old(db.actors)[a]) && Faultless(f, chunks)
                   && Recorded(db.S(), job.id, ReceiptFor(Concat(chunks)))
                   && CompletedAt(db.pipeline, db.rows, job, ReceiptFor(Concat(chunks)), now)
    ensures !ok ==> db.actors[a].Worker? && db.actors[a].failing && db.actors[a].todo == old(db.actors)[a].todo
    ensures !ok && Faultless(f, chunks) ==> Rank(db.S(), job.id) == 6
  {
    ghost var s0 := db.S();
    var receipt;
    receipt, ok := StoreJob(db, a, job, chunks, f);
    if ok {
      ghost var s1 := db.S();
      StaysReachable(s0, s1);
      ok := RecordJob(db, a, job, receipt, now, f.complete);
      Onward(s0, s1, db.S());
    }
  }

  /** Process one job and, when that fails, record the failure. */
  method SettleJob(db: Backend, ghost a: ActorId, job: Job, chunks: seq<Bytes>, f: Faults, now: int)
    requires Reachable(db.S()) && OnJob(db.S(), a) && db.actors[a].todo[0] == job && db.actors[a].stored.None?
    modifies db
    ensures Reaches(old(db.S()), db.S())
    ensures a in db.actors && db.actors[a] == NextJob(old(db.actors)[a])
    ensures JobDone(db.S(), job.id, chunks, f)
  {
    ghost var s0 := db.S();
    var ok := ProcessJob(db, a, job, chunks, f, now);
    if !ok {
      ghost var s1 := db.S();
      StaysReachable(s0, s1);
      RecordFailure(db, a, job, f, now);
      RankForGood(s1, db.S(), job.id);
      Onward(s0, s1, db.S());
    }
  }

  method RecordFailure(db: Backend, ghost a: ActorId, job: Job, f: Faults, now: int)
    requires Reachable(db.S()) && IsWorker(db.S(), a) && db.actors[a].failing
    requires db.actors[a].todo != [] && db.actors[a].todo[0] == job
    modifies db
    ensures Reaches(old(db.S()), db.S()) && a in db.actors && db.actors[a] == NextJob(old(db.actors)[a])
    ensures f.fail || Rank(db.S(), job.id) >= 5
  {
    ghost var s0 := db.S();
    db.Interfere(a);
    ghost var s1 := db.S();
    StaysReachable(s0, s1);
    ReachableInv(s1);
    db.FailExport(a, job.id, now, f.fail);
    OneStep(s1, FailJob(a, !f.fail, now), db.S());
    Onward(s0, s1, db.S());
    if !f.fail {
      FailedIsSettled(s1, a, now);
    }
  }

  lemma FailedIsSettled(s: State, a: ActorId, now: int)
    requires Inv(s) && Enabled(s, FailJob(a, true, now))
    ensures Rank(Apply(s, FailJob(a, true, now)), s.actors[a].todo[0].id) >= 5
  {
    var w := s.actors[a];
    assert ActorOk(s, w) && w.todo[0] in w.todo && JobOk(s, w.todo[0]);
  }

  ghost predicate AllDone(s: State, jobs: seq<Job>, n: nat, archive: Id -> seq<Bytes>, faults: Id -> Faults)
    requires n <= |jobs|
  {
    forall i :: 0 <= i < n ==> JobDone(s, jobs[i].id, archive(jobs[i].id), faults(jobs[i].id))
  }

  lemma AllDoneForGood(s: State, t: State, jobs: seq<Job>, n: nat, archive: Id -> seq<Bytes>, faults: Id -> Faults)
    requires Reachable(s) && Reaches(s, t) && n <= |jobs| && AllDone(s, jobs, n, archive, faults)
    ensures AllDone(t, jobs, n, archive, faults)
  {
    forall i | 0 <= i < n
      ensures JobDone(t, jobs[i].id, archive(jobs[i].id), faults(jobs[i].id))
    {
      DoneForGood(s, t, jobs[i].id, archive(jobs[i].id), faults(jobs[i].id));
    }
  }

  /** The loop over the claimed rows. */
  method SettleAll(db: Backend, ghost a: ActorId, jobs: seq<Job>, archive: Id -> seq<Bytes>, faults: Id -> Faults,
                   now: int)
    requires Reachable(db.S()) && a in db.actors && db.actors[a] == Worker(jobs, None, false)
    modifies db
    ensures Reaches(old(db.S()), db.S())
    ensures a in db.actors && db.actors[a] == Worker([], None, false)
    ensures AllDone(db.S(), jobs, |jobs|, archive, faults)
  {
    ghost var s0 := db.S();
    Stays(s0);
    var i := 0;
    while i < |jobs|
      invariant 0 <= i <= |jobs|
      invariant Reaches(s0, db.S())
      invariant a in db.actors && db.actors[a] == Worker(jobs[i..], None, false)
      invariant AllDone(db.S(), jobs, i, archive, faults)
    {
      ghost var s1 := db.S();
      StaysReachable(s0, s1);
      SettleNext(db, a, jobs, i, archive, faults, now);
      Onward(s0, s1, db.S());
      i := i + 1;
    }
  }

  method SettleNext(db: Backend, ghost a: ActorId, jobs: seq<Job>, i: nat, archive: Id -> seq<Bytes>,
                    faults: Id -> Faults, now: int)
    requires Reachable(db.S()) && i < |jobs| && a in db.actors && db.actors[a] == Worker(jobs[i..], None, false)
    requires AllDone(db.S(), jobs, i, archive, faults)
    modifies db
    ensures Reaches(old(db.S()), db.S())
    ensures a in db.actors && db.actors[a] == Worker(jobs[i + 1..], None, false)
    ensures AllDone(db.S(), jobs, i + 1, archive, faults)
  {
    ghost var s0 := db.S();
    SettleJob(db, a, jobs[i], archive(jobs[i].id), faults(jobs[i].id), now);
    AllDoneForGood(s0, db.S(), jobs, i, archive, faults);
  }

  // --- Clean-up -------------------------------------------------------------------------------------

  /** The jobs of these files are over; those of `paths[..n]` are gone, except where the store refused. */
  ghost predicate Deleted(s: State, paths: seq<Path>, n: nat, failing: set<Path>)
    requires n <= |paths|
  {
    && (forall i :: 0 <= i < |paths| ==> Settled(s, PathId(paths[i])))
    && (forall i :: 0 <= i < n ==> paths[i] in failing || paths[i] !in s.blobs)
  }

  lemma DeletedForGood(s: State, t: State, paths: seq<Path>, n: nat, failing: set<Path>)
    requires Reachable(s) && Reaches(s, t) && n <= |paths| && Deleted(s, paths, n, failing)
    ensures Deleted(t, paths, n, failing)
  {
    forall i | 0 <= i < |paths|
      ensures Settled(t, PathId(paths[i])) && (paths[i] !in s.blobs ==> paths[i] !in t.blobs)
    {
      GoneForGood(s, t, paths[i]);
    }
  }

  method DeleteOne(db: Backend, ghost a: ActorId, paths: seq<Path>, i: nat, failing: set<Path>)
    requires Reachable(db.S()) && i < |paths| && a in db.actors && db.actors[a] == Deleter(paths[i..])
    requires Deleted(db.S(), paths, i, failing)
    modifies db
    ensures Reaches(old(db.S()), db.S()) && a in db.actors && db.actors[a] == Deleter(paths[i + 1..])
    ensures Deleted(db.S(), paths, i + 1, failing)
  {
    ghost var s0 := db.S();
    db.Interfere(a);
    ghost var s1 := db.S();
    StaysReachable(s0, s1);
    DeletedForGood(s0, s1, paths, i, failing);
    db.StoreDelete(a, paths[i], paths[i] in failing);
    ghost var s2 := db.S();
    OneStep(s1, if paths[i] in failing then DeleteBlobFailed(a) else DeleteBlob(a), s2);
    DeletedForGood(s1, s2, paths, i, failing);
    Onward(s0, s1, s2);
  }

  lemma DeleterIsSettled(s: State, a: ActorId)
    requires Reachable(s) && a in s.actors && s.actors[a].Deleter?
    ensures Deleted(s, s.actors[a].paths, 0, {})
  {
    ReachableInv(s);
    assert ActorOk(s, s.actors[a]);
  }

  /** The clean-up loop: a failed delete is logged and skipped. */
  method DeletePaths(db: Backend, ghost a: ActorId, paths: seq<Path>, failing: set<Path>)
    requires Reachable(db.S()) && a in db.actors && db.actors[a] == Deleter(paths)
    modifies db
    ensures Reaches(old(db.S()), db.S()) && a !in db.actors
    ensures forall p :: p in paths ==> p in failing || p !in db.blobs
  {
    ghost var s0 := db.S();
    Stays(s0);
    DeleterIsSettled(s0, a);
    var i := 0;
    while i < |paths|
      invariant 0 <= i <= |paths|
      invariant Reaches(s0, db.S())
      invariant a in db.actors && db.actors[a] == Deleter(paths[i..])
      invariant Deleted(db.S(), paths, i, failing)
    {
      ghost var s1 := db.S();
      StaysReachable(s0, s1);
      DeleteOne(db, a, paths, i, failing);
      Onward(s0, s1, db.S());
      i := i + 1;
    }
    ghost var s2 := db.S();
    db.Quit(a);
    OneStep(s2, Leave(a), db.S());
    Onward(s0, s2, db.S());
  }

  /** An export whose hour is over, or a backup that ended more than the days of retention ago. */
  predicate Over(pipeline: Pipeline, row: Row, now: int, retentionDays: nat) {
    match pipeline
    case UserExports => row.status == Complete && row.expiresAt.Some? && row.expiresAt.value < now
    case AdminBackups => (row.status == Complete || row.status == Failed) && row.completedAt.Some?
                         && row.completedAt.value < now - retentionDays * 86_400_000_000
  }

  /** Exports that are over are expired, and backups deleted; every other row is as it was. */
  ghost predicate Pruned(pipeline: Pipeline, rows: map<Id, Row>, after: map<Id, Row>, now: int, retentionDays: nat) {
    && (forall id :: id in after <==>
          id in rows && (pipeline == AdminBackups ==> !Over(pipeline, rows[id], now, retentionDays)))
    && (forall id :: id in after ==>
          after[id] == if Over(pipeline, rows[id], now, retentionDays) then rows[id].(status := Expired) else rows[id])
  }

  /** Expire old exports, or delete old backups, and remove their files. `after`: what the statement left. */
  method CleanUp(db: Backend, ghost a: ActorId, now: int, retentionDays: nat, failing: set<Path>)
    returns (ghost after: State)
    requires Reachable(db.S()) && IsWorker(db.S(), a) && db.actors[a].todo == []
    modifies db
    ensures Reaches(old(db.S()), after) && Reaches(after, db.S()) && a !in db.actors
    ensures Pruned(db.pipeline, old(db.rows), after.rows, now, retentionDays)
    ensures forall id :: id in old(db.rows) && Over(db.pipeline, old(db.rows)[id], now, retentionDays) ==>
                           && Rank(db.S(), id) >= (if db.pipeline == UserExports then 4 else 6)
                           && (old(db.rows)[id].filePath.Some? ==>
                                 old(db.rows)[id].filePath.value in failing
                                   || old(db.rows)[id].filePath.value !in db.blobs)
  {
    ghost var s0 := db.S();
    ReachableInv(s0);
    var paths;
    ghost var act;
    if db.pipeline == UserExports {
      paths := db.ExpireUserExports(a, now);
      act := ExpireOld(a, now, paths);
    } else {
      paths := db.DeleteExpiredAdminBackups(a, now, retentionDays);
      act := PurgeOld(a, now, retentionDays, paths);
    }
    after := db.S();
    OneStep(s0, act, after);
    StaysReachable(s0, after);
    DeletePaths(db, a, paths, failing);
    forall id | id in s0.rows && Over(s0.pipeline, s0.rows[id], now, retentionDays)
      ensures Rank(db.S(), id) >= (if db.pipeline == UserExports then 4 else 6)
      ensures s0.rows[id].filePath.Some? ==> s0.rows[id].filePath.value in paths
    {
      OverIsOver(s0, act, now, retentionDays, id);
      RankForGood(after, db.S(), id);
    }
  }

  lemma OverIsOver(s: State, act: Action, now: int, retentionDays: nat, id: Id)
    requires Inv(s) && Enabled(s, act)
    requires (act.ExpireOld? && act.now == now)
             || (act.PurgeOld? && act.now == now && act.retentionDays == retentionDays)
    requires id in s.rows && Over(s.pipeline, s.rows[id], now, retentionDays)
    ensures Rank(Apply(s, act), id) >= (if s.pipeline == UserExports then 4 else 6)
    ensures s.rows[id].filePath.Some? ==> s.rows[id].filePath.value in act.paths
  {
    assert RowOk(s, id);
  }

  /** The claim and what it gave the tick to do. */
  ghost predicate Claimed(s: State, skipped: set<Id>, jobs: seq<Job>) {
    exists batch: set<Id>, order: seq<Id> ::
      && EarliestBatch(PendingSince(s.rows), PendingSince(s.rows).Keys - skipped, ClaimLimit(s.pipeline), batch)
      && Lists(order, batch) && jobs == JobsOf(s, order)
  }

  method ClaimJobs(db: Backend, ghost a: ActorId, skipped: set<Id>) returns (jobs: seq<Job>)
    requires a !in db.actors
    modifies db
    ensures Reaches(old(db.S()), db.S()) && Claimed(old(db.S()), skipped, jobs)
    ensures a in db.actors && db.actors[a] == Worker(jobs, None, false)
  {
    ghost var s0 := db.S();
    jobs := db.ClaimPending(a, skipped);
    ghost var s1 := db.S();
    ghost var batch, order :| Steps(s0, Claim(a, skipped, batch, order), s1);
    OneStep(s0, Claim(a, skipped, batch, order), s1);
    ClaimIs(s0, a, skipped, batch, order, jobs);
  }

  lemma ClaimIs(s: State, a: ActorId, skipped: set<Id>, batch: set<Id>, order: seq<Id>, jobs: seq<Job>)
    requires Enabled(s, Claim(a, skipped, batch, order))
    requires Apply(s, Claim(a, skipped, batch, order)).actors[a] == Worker(jobs, None, false)
    ensures Claimed(s, skipped, jobs)
  {
    assert jobs == JobsOf(s, order);
  }

  /** One dispatcher tick: claim the earliest pending rows, settle each, and clean up. */
  method Work(db: Backend, ghost a: ActorId, skipped: set<Id>, archive: Id -> seq<Bytes>, faults: Id -> Faults,
              now: int, retentionDays: nat, failing: set<Path>)
    returns (jobs: seq<Job>)
    requires Reachable(db.S()) && a !in db.actors
    modifies db
    ensures Reaches(old(db.S()), db.S()) && a !in db.actors
    ensures Claimed(old(db.S()), skipped, jobs)
    ensures AllDone(db.S(), jobs, |jobs|, archive, faults)
  {
    ghost var s0 := db.S();
    jobs := ClaimJobs(db, a, skipped);
    ghost var s1 := db.S();
    StaysReachable(s0, s1);
    SettleAll(db, a, jobs, archive, faults, now);
    ghost var s2 := db.S();
    Onward(s0, s1, s2);
    StaysReachable(s0, s2);
    db.Interfere(a);
    ghost var s3 := db.S();
    StaysReachable(s2, s3);
    ghost var s4 := CleanUp(db, a, now, retentionDays, failing);
    Onward(s3, s4, db.S());
    Onward(s2, s3, db.S());
    AllDoneForGood(s2, db.S(), jobs, |jobs|, archive, faults);
    Onward(s0, s2, db.S());
  }
}
