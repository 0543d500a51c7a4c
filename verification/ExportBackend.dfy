/**
 The database and the store as an object. Each SQL statement and each store call is a method, which takes one
 step of the protocol; failures are parameters. Between two of them anyone else may act: `Interfere`.
 */
module ExportBackend {
  import Fresh
  import opened Wrappers
  import opened ClaimQueue
  import opened ExportModel
  import opened ExportSafety
  import opened ExportRuns
  import opened ExportReach

  // --- Streaming into the store ------------------------------------------------------------

  function Concat(chunks: seq<Bytes>): Bytes {
    if chunks == [] then [] else Concat(chunks[..|chunks| - 1]) + chunks[|chunks| - 1]
  }

  /** Every chunk is there, in its place. */
  lemma {:induction false} ConcatAt(chunks: seq<Bytes>, i: nat)
    requires i < |chunks|
    ensures Concat(chunks) == Concat(chunks[..i]) + chunks[i] + Concat(chunks[i + 1..])
    decreases |chunks|
  {
    var n := |chunks| - 1;
    if i < n {
      ConcatAt(chunks[..n], i);
      assert chunks[..n][..i] == chunks[..i];
      assert chunks[i + 1..][..n - i - 1] == chunks[..n][i + 1..];
      assert chunks[i + 1..][n - i - 1] == chunks[n];
    }
  }

  /** Counts what passes through it, and feeds the hash on the way. */
  class CountingReader {
    const chunks: seq<Bytes>
    var next: nat
    var n: nat
    var hashed: Bytes

    constructor (chunks: seq<Bytes>)
      ensures this.chunks == chunks && next == 0 && n == 0 && hashed == []
    {
      this.chunks := chunks;
      next, n, hashed := 0, 0, [];
    }

    method Read() returns (p: Bytes)
      requires next < |chunks|
      modifies this
      ensures p == chunks[old(next)] && next == old(next) + 1
      ensures n == old(n) + |p| && hashed == old(hashed) + p
    {
      p := chunks[next];
      n := n + |p|;
      hashed := hashed + p;
      next := next + 1;
    }
  }

  /**
   The copy loop of a store's `Put`: whatever sizes the reads return, the recorded length and digest are
   those of the bytes written. A read error (a failed dump closes the pipe with one) ends it, and so does a
   write error: the store takes `accepts` chunks.
   */
  method CopyToStore(chunks: seq<Bytes>, readFails: bool, accepts: nat)
    returns (written: Bytes, receipt: Receipt, ok: bool)
    ensures ok <==> !readFails && |chunks| <= accepts
    ensures ok ==> written == Concat(chunks) && receipt == ReceiptFor(written)
  {
    var cr := new CountingReader(chunks);
    written, ok := [], true;
    while ok && cr.next < |chunks|
      invariant cr.chunks == chunks && cr.next <= |chunks|
      invariant ok ==> cr.next <= accepts
      invariant ok ==> written == Concat(chunks[..cr.next]) && cr.n == |written| && cr.hashed == written
      invariant !ok ==> accepts < cr.next
      decreases ok, |chunks| - cr.next
    {
      var p := cr.Read();
      assert chunks[..cr.next][..cr.next - 1] == chunks[..cr.next - 1];
      if accepts < cr.next {
        ok := false;
      } else {
        written := written + p;
      }
    }
    if readFails {
      ok := false;
    }
    receipt := Receipt(cr.n, Sha256(cr.hashed));
    assert chunks[..|chunks|] == chunks;
  }

  // --- What the claim and the completing UPDATE do --------------------------------------------------

  /** The job is a pending row's that is not skipped, under the row's own path. */
  predicate IsPendingJob(pipeline: Pipeline, rows: map<Id, Row>, skipped: set<Id>, job: Job) {
    && job.id in rows && rows[job.id].status == Pending && job.id !in skipped
    && job.path == if pipeline == UserExports then ExportPath(rows[job.id].owner, job.id, rows[job.id].format)
                   else BackupPath(job.id)
  }

  predicate IsListed(jobs: seq<Job>, id: Id) {
    exists j :: 0 <= j < |jobs| && jobs[j].id == id
  }

  /** The earliest pending rows that are not skipped, at most five exports or one backup, each once. */
  ghost predicate EarliestPending(pipeline: Pipeline, rows: map<Id, Row>, skipped: set<Id>, jobs: seq<Job>) {
    var limit := if pipeline == UserExports then 5 else 1;
    && |jobs| <= limit
    && (forall i, j :: 0 <= i < j < |jobs| ==> jobs[i].id != jobs[j].id)
    && (forall j :: 0 <= j < |jobs| ==> IsPendingJob(pipeline, rows, skipped, jobs[j]))
    && (forall id :: id in rows && rows[id].status == Pending && id !in skipped && !IsListed(jobs, id) ==>
          |jobs| == limit && forall j :: 0 <= j < |jobs| ==> rows[jobs[j].id].createdAt <= rows[id].createdAt)
  }

  lemma ListedIsClaimed(s: State, batch: set<Id>, order: seq<Id>, jobs: seq<Job>)
    requires Lists(order, batch) && batch <= s.rows.Keys && jobs == JobsOf(s, order)
    ensures forall id :: id in batch <==> IsListed(jobs, id)
    ensures |jobs| == |batch|
  {
    ListsAll(order, batch);
    forall id | id in batch
      ensures IsListed(jobs, id)
    {
      var i :| 0 <= i < |order| && order[i] == id;
      assert jobs[i].id == id;
    }
  }

  lemma OthersCameLater(s: State, skipped: set<Id>, batch: set<Id>, id: Id)
    requires EarliestBatch(PendingSince(s.rows), PendingSince(s.rows).Keys - skipped, ClaimLimit(s.pipeline), batch)
    requires id in s.rows && s.rows[id].status == Pending && id !in skipped && id !in batch
    ensures |batch| == ClaimLimit(s.pipeline)
    ensures forall b :: b in batch ==> b in s.rows && s.rows[b].createdAt <= s.rows[id].createdAt
  {
    LeftAreLater(PendingSince(s.rows), PendingSince(s.rows).Keys - skipped, ClaimLimit(s.pipeline), batch, id);
    forall b | b in batch
      ensures b in s.rows && s.rows[b].createdAt <= s.rows[id].createdAt
    {
      assert PendingSince(s.rows)[b] <= PendingSince(s.rows)[id];
    }
  }

  lemma ClaimIsEarliest(s: State, skipped: set<Id>, batch: set<Id>, order: seq<Id>, jobs: seq<Job>)
    requires EarliestBatch(PendingSince(s.rows), PendingSince(s.rows).Keys - skipped, ClaimLimit(s.pipeline), batch)
    requires Lists(order, batch) && jobs == JobsOf(s, order)
    ensures EarliestPending(s.pipeline, s.rows, skipped, jobs)
    ensures forall id :: id in batch <==> IsListed(jobs, id)
  {
    ListedIsClaimed(s, batch, order, jobs);
    forall id | id in s.rows && s.rows[id].status == Pending && id !in skipped && !IsListed(jobs, id)
      ensures |jobs| == (if s.pipeline == UserExports then 5 else 1)
      ensures forall j :: 0 <= j < |jobs| ==> s.rows[jobs[j].id].createdAt <= s.rows[id].createdAt
    {
      OthersCameLater(s, skipped, batch, id);
      assert forall j :: 0 <= j < |jobs| ==> order[j] in batch;
    }
    assert forall j :: 0 <= j < |jobs| ==> order[j] in batch;
  }

  /** The row with its file, receipt and times; an export expires an hour later. */
  function CompletedAs(pipeline: Pipeline, row: Row, path: Path, receipt: Receipt, now: int): Row {
    Row(row.owner, row.format, Complete, Some(path), Some(receipt), row.createdAt, Some(now),
        if pipeline == UserExports then Some(now + 3_600_000_000) else row.expiresAt)
  }

  class Backend {
    const pipeline: Pipeline
    var rows: map<Id, Row>
    var blobs: map<Path, Bytes>
    var used: set<Id>
    ghost var actors: map<ActorId, Actor>

    ghost function S(): State
      reads this
    {
      State(pipeline, rows, used, blobs, actors)
    }

    constructor (pipeline: Pipeline)
      ensures S() == Empty(pipeline) && Inv(S())
    {
      this.pipeline := pipeline;
      rows, blobs, used, actors := map[], map[], {}, map[];
      new;
      EmptyInv(pipeline);
    }

    /** Any steps of others. The contract is all a caller may use; doing nothing is one of the possibilities. */
    method Interfere(ghost a: ActorId)
      modifies this
      ensures Reaches(old(S()), S())
      ensures a in actors <==> a in old(actors)
      ensures a in actors ==> actors[a] == old(actors)[a]
    {
      Stays(S());
    }

    // --- SQL statements ---------------------------------------------------------------------

    method CreateUserExport(user: UserId, format: Format, now: int) returns (id: Id)
      modifies this
      ensures Steps(old(S()), Create(id, user, format, now), S())
      ensures id !in old(used) && rows == old(rows)[id := Row(user, format, Pending, None, None, now, None, None)]
    {
      id := Fresh.UnusedId(used);
      rows := rows[id := NewRow(user, format, now)];
      used := used + {id};
    }

    method ClaimPending(ghost a: ActorId, skipped: set<Id>) returns (jobs: seq<Job>)
      requires a !in actors
      modifies this
      ensures exists batch, order :: Steps(old(S()), Claim(a, skipped, batch, order), S())
      ensures actors == old(actors)[a := Worker(jobs, None, false)]
      ensures EarliestPending(pipeline, old(rows), skipped, jobs)
      ensures forall id :: id in rows <==> id in old(rows)
      ensures forall id :: id in rows ==>
                             rows[id] == if IsListed(jobs, id) then old(rows)[id].(status := Running)
                                         else old(rows)[id]
    {
      var since := PendingSince(rows);
      var order, batch := SelectEarliest(since, since.Keys - skipped, ClaimLimit(pipeline));
      jobs := [];
      while |jobs| < |order|
        invariant |jobs| <= |order|
        invariant forall i :: 0 <= i < |jobs| ==>
                    order[i] in rows && jobs[i] == Job(order[i], PathOf(pipeline, order[i], rows[order[i]]))
      {
        var id := order[|jobs|];
        assert id in batch;
        jobs := jobs + [Job(id, PathOf(pipeline, id, rows[id]))];
      }
      assert jobs == JobsOf(S(), order);
      ghost var act := Claim(a, skipped, batch, order);
      assert Enabled(S(), act);
      rows := ClaimRows(rows, batch);
      actors := actors[a := Worker(jobs, None, false)];
      assert Steps(old(S()), act, S());
      ClaimIsEarliest(old(S()), skipped, batch, order, jobs);
    }

    /** Not ok: no row came back, or an error `errs`, which tells whether the UPDATE took effect all the same. */
    method CompleteExport(ghost a: ActorId, job: Job, receipt: Receipt, now: int, errs: Option<bool>) returns (ok: bool)
      requires OnJob(S(), a) && actors[a].todo[0] == job && actors[a].stored == Some(receipt)
      modifies this
      ensures Steps(old(S()), if errs.Some? then CompleteError(a, errs.value, now) else CompleteJob(a, now), S())
      ensures ok <==> errs.None? && job.id in old(rows)
      ensures (errs.None? || errs.value) && job.id in old(rows) ==>
                rows == old(rows)[job.id := CompletedAs(pipeline, old(rows)[job.id], job.path, receipt, now)]
      ensures !(errs.None? || errs.value) || job.id !in old(rows) ==> rows == old(rows)
      ensures actors == old(actors)[a := if ok then NextJob(old(actors)[a]) else old(actors)[a].(failing := true)]
    {
      ok := errs.None? && job.id in rows;
      if errs.None? || errs.value {
        rows := CompleteRow(pipeline, rows, job.id, job.path, receipt, now);
      }
      actors := actors[a := if ok then NextJob(actors[a]) else actors[a].(failing := true)];
    }

    method FailExport(ghost a: ActorId, id: Id, now: int, fails: bool)
      requires IsWorker(S(), a) && actors[a].todo != [] && actors[a].failing && actors[a].todo[0].id == id
      modifies this
      ensures Steps(old(S()), FailJob(a, !fails, now), S())
      ensures !fails && id in old(rows) ==>
                rows == old(rows)[id := old(rows)[id].(status := Failed, completedAt := Some(now))]
      ensures fails || id !in old(rows) ==> rows == old(rows)
    {
      if !fails {
        rows := FailRow(rows, id, now);
      }
      actors := actors[a := NextJob(actors[a])];
    }

    /** The paths of the rows `ids`, collected row by row. */
    method CollectPaths(ids: set<Id>) returns (paths: seq<Path>)
      requires ids <= rows.Keys
      ensures PathsOf(rows, ids, paths)
    {
      paths := [];
      var todo := ids;
      while todo != {}
        invariant todo <= ids && PathsOf(rows, ids - todo, paths)
        decreases |todo|
      {
        var id :| id in todo;
        if rows[id].filePath.Some? {
          paths := paths + [rows[id].filePath.value];
        }
        todo := todo - {id};
      }
      assert ids - todo == ids;
    }

    method ExpireUserExports(ghost a: ActorId, now: int) returns (paths: seq<Path>)
      requires pipeline == UserExports && IsWorker(S(), a) && actors[a].todo == []
      modifies this
      ensures Steps(old(S()), ExpireOld(a, now, paths), S())
      ensures forall id :: id in rows <==> id in old(rows)
      ensures forall id :: id in rows ==>
                             var row := old(rows)[id];
                             rows[id] == if row.status == Complete && row.expiresAt.Some? && row.expiresAt.value < now
                                         then row.(status := Expired) else row
      ensures forall p :: p in paths <==>
                            exists id :: id in old(rows) && old(rows)[id].filePath == Some(p)
                                         && old(rows)[id].status == Complete && rows[id].status == Expired
    {
      paths := CollectPaths(Expiring(rows, now));
      rows := ExpireRows(rows, now);
      actors := actors[a := Deleter(paths)];
    }

    method DeleteExpiredAdminBackups(ghost a: ActorId, now: int, retentionDays: nat) returns (paths: seq<Path>)
      requires pipeline == AdminBackups && IsWorker(S(), a) && actors[a].todo == []
      modifies this
      ensures Steps(old(S()), PurgeOld(a, now, retentionDays, paths), S())
      ensures forall id :: id in rows <==>
                             && id in old(rows)
                             && var row := old(rows)[id];
                                !((row.status == Complete || row.status == Failed) && row.completedAt.Some?
                                  && row.completedAt.value < now - retentionDays * 86_400_000_000)
      ensures forall id :: id in rows ==> rows[id] == old(rows)[id]
      ensures forall p :: p in paths <==>
                            exists id :: id in old(rows) && old(rows)[id].filePath == Some(p) && id !in rows
    {
      paths := CollectPaths(Purging(rows, now, retentionDays));
      rows := PurgeRows(rows, now, retentionDays);
      actors := actors[a := Deleter(paths)];
    }

    /** The unlocked read; `found` only for the user's own, complete export. */
    method GetUserExport(ghost a: ActorId, id: Id, user: UserId)
      returns (found: bool, header: Option<Receipt>, path: Option<Path>)
      requires pipeline == UserExports && a !in actors
      modifies this
      ensures found <==> id in old(rows) && old(rows)[id].owner == user && old(rows)[id].status == Complete
      ensures !found ==> S() == old(S())
      ensures found ==>
                Steps(old(S()), OpenDownload(a, id, user), S()) && header == rows[id].receipt
                && path == rows[id].filePath
    {
      found, header, path := MayRetire(rows, id, user), None, None;
      if found {
        header, path := rows[id].receipt, rows[id].filePath;
        actors := actors[a := Download(id, user, path, false)];
      }
    }

    /** The path of the row this caller retired, if it won the flip. */
    method ExpireUserExportByID(ghost a: ActorId, id: Id, user: UserId) returns (won: Option<Option<Path>>)
      requires a in actors && actors[a].Download? && actors[a].streaming && actors[a].id == id && actors[a].user == user
      modifies this
      ensures Steps(old(S()), Retire(a), S())
      ensures won.Some? <==> id in old(rows) && old(rows)[id].owner == user && old(rows)[id].status == Complete
      ensures won.Some? ==> won.value == old(rows)[id].filePath
                            && rows == old(rows)[id := old(rows)[id].(status := Expired)]
      ensures won.None? ==> rows == old(rows)
      ensures won.Some? ==> a in actors && actors[a] == Deleter(if won.value.Some? then [won.value.value] else [])
      ensures won.None? ==> a !in actors
    {
      if MayRetire(rows, id, user) {
        won := Some(rows[id].filePath);
        actors := actors[a := Deleter(if won.value.Some? then [won.value.value] else [])];
        rows := rows[id := rows[id].(status := Expired)];
      } else {
        won := None;
        actors := actors - {a};
      }
    }

    /** The flip returned an error; `applied` tells whether the database made it all the same. */
    method ExpireUserExportByIDFails(ghost a: ActorId, id: Id, user: UserId, applied: bool)
      requires a in actors && actors[a].Download? && actors[a].streaming && actors[a].id == id && actors[a].user == user
      modifies this
      ensures Steps(old(S()), RetireError(a, applied), S())
    {
      if applied && MayRetire(rows, id, user) {
        rows := rows[id := rows[id].(status := Expired)];
      }
      actors := actors - {a};
    }

    method ListUserExportFilePaths(ghost a: ActorId, user: UserId) returns (paths: seq<Path>)
      requires pipeline == UserExports && a !in actors
      modifies this
      ensures Steps(old(S()), ListPaths(a, user, paths), S())
      ensures forall p :: p in paths <==>
                            exists id :: id in rows && rows[id].owner == user && rows[id].filePath == Some(p)
    {
      paths := CollectPaths(OwnedBy(rows, user));
      actors := actors[a := Anonymizer(user, paths)];
    }

    method DeleteUserExportsAndCommit(ghost a: ActorId, user: UserId)
      requires a in actors && actors[a].Anonymizer? && actors[a].user == user
      modifies this
      ensures Steps(old(S()), CommitAnonymize(a), S())
      ensures forall id :: id in rows <==> id in old(rows) && old(rows)[id].owner != user
      ensures forall id :: id in rows ==> rows[id] == old(rows)[id]
    {
      rows := WithoutUser(rows, user);
      actors := actors[a := Deleter(actors[a].paths)];
    }

    // --- Store calls ----------------------------------------------------------------------------

    method StorePut(ghost a: ActorId, job: Job, content: Bytes, receipt: Receipt)
      requires OnJob(S(), a) && actors[a].todo[0] == job && actors[a].stored.None? && receipt == ReceiptFor(content)
      modifies this
      ensures Steps(old(S()), Put(a, content, receipt), S())
    {
      blobs := blobs[job.path := content];
      actors := actors[a := actors[a].(stored := Some(receipt))];
    }

    /** `fails`: an error that is not about a missing file. */
    method StoreGet(ghost a: ActorId, path: Option<Path>, fails: bool) returns (rc: Option<Bytes>)
      requires a in actors && actors[a].Download? && !actors[a].streaming && actors[a].path == path
      modifies this
      ensures Steps(old(S()), if rc.Some? then GetBlob(a) else Leave(a), S())
      ensures blobs == old(blobs) && (rc.Some? <==> !fails && path.Some? && path.value in blobs)
      ensures rc.Some? ==> rc.value == blobs[path.value]
    {
      if !fails && path.Some? && path.value in blobs {
        rc := Some(blobs[path.value]);
        actors := actors[a := actors[a].(streaming := true)];
      } else {
        rc := None;
        actors := actors - {a};
      }
    }

    /** The store removes what it had written of the file, if it can. */
    method StorePutFails(ghost a: ActorId, job: Job, written: Bytes, removes: bool)
      requires OnJob(S(), a) && actors[a].todo[0] == job && actors[a].stored.None?
      modifies this
      ensures Steps(old(S()), PutFailed(a, if removes then None else Some(written)), S())
    {
      blobs := if removes then blobs - {job.path} else blobs[job.path := written];
      actors := actors[a := actors[a].(failing := true)];
    }

    method StoreDelete(ghost a: ActorId, path: Path, fails: bool)
      requires a in actors && actors[a].Deleter? && actors[a].paths != [] && actors[a].paths[0] == path
      modifies this
      ensures Steps(old(S()), if fails then DeleteBlobFailed(a) else DeleteBlob(a), S())
      ensures actors == old(actors)[a := Deleter(old(actors)[a].paths[1..])]
    {
      if !fails {
        blobs := blobs - {path};
      }
      actors := actors[a := Deleter(actors[a].paths[1..])];
    }

    /** The archive could not be built in the temporary file; the store was not touched. */
    ghost method GiveUp(a: ActorId)
      requires OnJob(S(), a) && actors[a].stored.None?
      modifies this`actors
      ensures Steps(old(S()), BuildFailed(a), S())
      ensures actors == old(actors)[a := old(actors)[a].(failing := true)]
    {
      actors := actors[a := actors[a].(failing := true)];
    }

    ghost method Quit(a: ActorId)
      requires a in actors
      modifies this`actors
      ensures Steps(old(S()), Leave(a), S())
    {
      actors := actors - {a};
    }
  }
}
