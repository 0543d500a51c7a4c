/** The requests that touch exports, as code: trigger, download and anonymise. */
module ExportRequests {
  import opened Wrappers
  import opened ClaimQueue
  import opened ExportModel
  import opened ExportSafety
  import opened ExportRuns
  import opened ExportReach
  import opened ExportTriggers
  import opened ExportDownloads
  import opened ExportBackend
  import opened ExportWorkers

  method HasPending(db: Backend, user: UserId) returns (busy: bool)
    ensures busy <==> Busy(db.rows, user)
  {
    var todo := db.rows.Keys;
    busy := false;
    while todo != {}
      invariant todo <= db.rows.Keys
      invariant busy <==>
                  exists x :: x in db.rows.Keys - todo && db.rows[x].owner == user && IsActive(db.rows[x])
      decreases |todo|
    {
      var x :| x in todo;
      if db.rows[x].owner == user && IsActive(db.rows[x]) {
        busy := true;
      }
      todo := todo - {x};
    }
  }

  /**
   A new export is refused exactly if one of the user's is pending or running when the handler looks, an abandoned
   one included. The insert finds the state `late`: in between others may act. It makes a second active export
   exactly if another one of the user's, still active, was started in between.
   */
  method HandleTriggerExport(db: Backend, ghost a: ActorId, user: UserId, format: Format, now: int)
    returns (created: Option<Id>, ghost late: State)
    requires db.pipeline == UserExports && Reachable(db.S())
    modifies db
    ensures Reaches(old(db.S()), late)
    ensures created.None? <==>
              exists x :: x in old(db.rows) && old(db.rows)[x].owner == user
                          && (old(db.rows)[x].status == Pending || old(db.rows)[x].status == Running)
    ensures created.None? ==> db.S() == late == old(db.S())
    ensures created.Some? ==> Steps(late, Create(created.value, user, format, now), db.S())
    ensures created.Some? ==> && created.value !in old(db.used) && created.value in db.rows
                              && db.rows[created.value] == Row(user, format, Pending, None, None, now, None, None)
    ensures created.Some? ==> (Busy(late.rows, user) <==> StartedSince(old(db.S()), late, user))
    ensures created.Some? && OneActive(late.rows) ==>
              (OneActive(db.rows) <==> !StartedSince(old(db.S()), late, user))
  {
    late := db.S();
    Stays(late);
    var busy := HasPending(db, user);
    if busy {
      created := None;
      return;
    }
    ghost var s0 := db.S();
    db.Interfere(a);
    late := db.S();
    var id := db.CreateUserExport(user, format, now);
    created := Some(id);
    ReachableInv(s0);
    ReachKeepsInv(s0, late);
    BusySinceIff(s0, late, user);
    if OneActive(late.rows) {
      OneActiveIff(late, Create(id, user, format, now));
    }
  }

  // --- Download -----------------------------------------------------------------------------------------

  /** What the client gets: 404 or 409, 500, a body that breaks off, or all of it under the announced header. */
  datatype Response = Refused | InternalError | BrokenOff | Delivered(header: Option<Receipt>, body: Bytes)

  /** What goes wrong: the row read, the store for another reason than a missing file, the copy, the flip. */
  datatype DownloadFaults = DownloadFaults(read: bool, get: bool, breaksOff: bool, flip: Option<bool>)

  /** What the row announced when it was read still describes the file, if the file is still there. */
  lemma HeaderMatchesFile(s: State, t: State, id: Id)
    requires Reachable(s) && Reaches(s, t) && id in s.rows && s.rows[id].status == Complete
    ensures s.rows[id].filePath.Some?
    ensures var path := s.rows[id].filePath.value;
            Settled(s, PathId(path)) && (path in t.blobs ==> s.rows[id].receipt == Some(ReceiptFor(t.blobs[path])))
  {
    ReachableInv(s);
    assert RowOk(s, id);
    CompleteFileIsFrozen(s, t, id);
  }

  /** The read of the file in the state `at`, some time after the read of the row. */
  method FetchFile(db: Backend, ghost a: ActorId, id: Id, path: Option<Path>, fails: bool)
    returns (rc: Option<Bytes>, ghost at: State)
    requires Reachable(db.S()) && id in db.rows && db.rows[id].status == Complete && db.rows[id].filePath == path
    requires a in db.actors && db.actors[a].Download? && !db.actors[a].streaming && db.actors[a].path == path
    modifies db
    ensures Reaches(old(db.S()), at) && Reaches(old(db.S()), db.S()) && path.Some? && db.blobs == at.blobs
    ensures rc.Some? <==> !fails && path.value in at.blobs
    ensures rc.Some? ==> old(db.rows)[id].receipt == Some(ReceiptFor(rc.value))
    ensures rc.Some? ==> a in db.actors && db.actors[a] == old(db.actors)[a].(streaming := true)
    ensures rc.None? ==> a !in db.actors
  {
    ghost var s0 := db.S();
    db.Interfere(a);
    at := db.S();
    HeaderMatchesFile(s0, at, id);
    rc := db.StoreGet(a, path, fails);
    OneStep(at, if rc.Some? then GetBlob(a) else Leave(a), db.S());
    Onward(s0, at, db.S());
  }

  /** The row is this user's, if it is still there, and has at least been completed. */
  ghost predicate Served(s: State, a: ActorId, id: Id, user: UserId) {
    && a in s.actors && s.actors[a].Download? && s.actors[a].id == id && s.actors[a].user == user
       && s.actors[a].streaming
    && Rank(s, id) >= 3 && (id in s.rows ==> s.rows[id].owner == user)
  }

  lemma ServedForGood(s: State, t: State, a: ActorId, id: Id, user: UserId)
    requires Reachable(s) && Reaches(s, t) && Served(s, a, id, user) && a in t.actors && t.actors[a] == s.actors[a]
    ensures Served(t, a, id, user)
  {
    RankForGood(s, t, id);
    if id in t.rows {
      ReachableInv(s);
      OwnersAreFixed(s, t, id);
    }
  }

  /** After the last byte: flip the row, and delete the file if this request won the flip. `errs`: the flip errs. */
  method RetireExport(db: Backend, ghost a: ActorId, id: Id, user: UserId, errs: Option<bool>, failing: set<Path>)
    requires Reachable(db.S()) && Served(db.S(), a, id, user)
    modifies db
    ensures Reaches(old(db.S()), db.S()) && a !in db.actors
    ensures errs.None? ==> Rank(db.S(), id) >= 4
    ensures errs.None? && id in old(db.rows) && old(db.rows)[id].owner == user && old(db.rows)[id].status == Complete
            && old(db.rows)[id].filePath.Some?
            ==> old(db.rows)[id].filePath.value in failing || old(db.rows)[id].filePath.value !in db.blobs
  {
    ghost var s0 := db.S();
    if errs.Some? {
      db.ExpireUserExportByIDFails(a, id, user, errs.value);
      OneStep(s0, RetireError(a, errs.value), db.S());
      return;
    }
    var won := db.ExpireUserExportByID(a, id, user);
    ghost var s1 := db.S();
    OneStep(s0, Retire(a), s1);
    StaysReachable(s0, s1);
    assert Rank(s1, id) >= 4;
    if won.Some? {
      DeletePaths(db, a, if won.value.Some? then [won.value.value] else [], failing);
      RankForGood(s1, db.S(), id);
      Onward(s0, s1, db.S());
    }
  }

  /** The copy to the client. If it breaks off, the row is left alone and the request just ends. */
  method StreamExport(db: Backend, ghost a: ActorId, id: Id, user: UserId, breaksOff: bool, errs: Option<bool>,
                      failing: set<Path>)
    requires Reachable(db.S()) && Served(db.S(), a, id, user)
    modifies db
    ensures Reaches(old(db.S()), db.S()) && a !in db.actors
    ensures !breaksOff && errs.None? ==> Rank(db.S(), id) >= 4
  {
    ghost var s0 := db.S();
    db.Interfere(a);
    ghost var s1 := db.S();
    StaysReachable(s0, s1);
    ServedForGood(s0, s1, a, id, user);
    if breaksOff {
      db.Quit(a);
      OneStep(s1, Leave(a), db.S());
    } else {
      RetireExport(db, a, id, user, errs, failing);
    }
    Onward(s0, s1, db.S());
  }

  /**
   Stream, flip the row, then delete the file. Whoever else downloads, prunes or anonymizes meanwhile, a body
   delivered in full has exactly the announced length and digest, and unless the flip errs the row is complete
   no longer. Of several downloads that find the row complete, those fail whose read of the file, in the state
   `at`, errs or comes after somebody's deletion of it; then it is gone for good.
   */
  method HandleDownloadExport(db: Backend, ghost a: ActorId, id: Id, user: UserId, f: DownloadFaults,
                              failing: set<Path>)
    returns (r: Response, ghost at: State)
    requires db.pipeline == UserExports && Reachable(db.S()) && a !in db.actors
    modifies db
    ensures Reaches(old(db.S()), db.S()) && Reaches(old(db.S()), at) && a !in db.actors
    ensures r == Refused <==>
              !f.read && !(id in old(db.rows) && old(db.rows)[id].owner == user && old(db.rows)[id].status == Complete)
    ensures r == InternalError <==>
              || f.read
              || (r != Refused && f.get)
              || (r != Refused && old(db.rows)[id].filePath.Some?
                  && DeletedBetween(old(db.S()), at, old(db.rows)[id].filePath.value))
    ensures r == Refused || f.read ==> db.S() == old(db.S())
    ensures r == InternalError && !f.read && !f.get ==>
              old(db.rows)[id].filePath.Some? && old(db.rows)[id].filePath.value !in db.blobs
    ensures r == BrokenOff ==> f.breaksOff
    ensures r.Delivered? ==> r.header == old(db.rows)[id].receipt
    ensures r.Delivered? ==>
              && !f.breaksOff && r.header == Some(Receipt(|r.body|, Sha256(r.body)))
              && (f.flip.None? ==> Rank(db.S(), id) >= 4)
  {
    ghost var s0 := db.S();
    at := s0;
    Stays(s0);
    if f.read {
      r := InternalError;
      return;
    }
    var found, header, path := db.GetUserExport(a, id, user);
    if !found {
      r := Refused;
      return;
    }
    ghost var s1 := db.S();
    OneStep(s0, OpenDownload(a, id, user), s1);
    StaysReachable(s0, s1);
    var rc;
    rc, at := FetchFile(db, a, id, path, f.get);
    ghost var s2 := db.S();
    Onward(s0, s1, s2);
    Onward(s0, s1, at);
    ReachableInv(s0);
    FileIsGoneBetweenIff(s0, at, id);
    if rc.None? {
      r := InternalError;
      return;
    }
    ServedAfterFetch(s0, s1, s2, a, id, user);
    StreamExport(db, a, id, user, f.breaksOff, f.flip, failing);
    Onward(s0, s2, db.S());
    r := if f.breaksOff then BrokenOff else Delivered(header, rc.value);
  }

  lemma ServedAfterFetch(s0: State, s1: State, s2: State, a: ActorId, id: Id, user: UserId)
    requires Reachable(s0) && Steps(s0, OpenDownload(a, id, user), s1) && Reaches(s1, s2) && s2.pipeline == s0.pipeline
    requires a in s2.actors && s2.actors[a] == s1.actors[a].(streaming := true)
    ensures Reachable(s2) && Served(s2, a, id, user)
  {
    OneStep(s0, OpenDownload(a, id, user), s1);
    StaysReachable(s0, s1);
    StaysReachable(s1, s2);
    RankForGood(s1, s2, id);
    ReachableInv(s1);
    OwnersAreFixed(s1, s2, id);
  }

  // --- Anonymise --------------------------------------------------------------------------------------------

  lemma AnonymizedForGood(s0: State, s2: State, s3: State, s4: State, user: UserId, id: Id)
    requires Reachable(s0) && Reaches(s0, s2) && Reachable(s3) && Reaches(s3, s4)
    requires s3.rows == WithoutUser(s2.rows, user) && s3.used == s2.used
    requires id in s0.rows && s0.rows[id].owner == user
    ensures id !in s4.rows
  {
    ReachableInv(s0);
    assert RowOk(s0, id);
    ReachKeepsInv(s0, s2);
    OwnersAreFixed(s0, s2, id);
    RankForGood(s3, s4, id);
  }

  /** The transaction's end, and then the files, `s0` being the state in which their paths were read. */
  method CommitAnonymization(db: Backend, ghost a: ActorId, user: UserId, paths: seq<Path>, failing: set<Path>,
                             ghost s0: State)
    requires Reachable(s0) && Reachable(db.S()) && Reaches(s0, db.S())
    requires a in db.actors && db.actors[a] == Anonymizer(user, paths)
    modifies db
    ensures Reaches(old(db.S()), db.S()) && a !in db.actors
    ensures forall id :: id in s0.rows && s0.rows[id].owner == user ==> id !in db.rows
    ensures forall p :: p in paths ==> p in failing || p !in db.blobs
  {
    ghost var s2 := db.S();
    db.DeleteUserExportsAndCommit(a, user);
    ghost var s3 := db.S();
    OneStep(s2, CommitAnonymize(a), s3);
    StaysReachable(s2, s3);
    DeletePaths(db, a, paths, failing);
    Onward(s2, s3, db.S());
    forall id | id in s0.rows && s0.rows[id].owner == user
      ensures id !in db.rows
    {
      AnonymizedForGood(s0, s2, s3, db.S(), user, id);
    }
  }

  /**
   When it commits, every export row the user had at the start is gone, and so is every file those rows named,
   except where the store refused; both stay gone.
   */
  method Anonymize(db: Backend, ghost a: ActorId, user: UserId, commits: bool, failing: set<Path>)
    requires db.pipeline == UserExports && Reachable(db.S()) && a !in db.actors
    modifies db
    ensures Reaches(old(db.S()), db.S()) && a !in db.actors
    ensures commits ==>
              forall id :: id in old(db.rows) && old(db.rows)[id].owner == user ==>
                             && id !in db.rows
                             && (old(db.rows)[id].filePath.Some? ==>
                                   old(db.rows)[id].filePath.value in failing
                                     || old(db.rows)[id].filePath.value !in db.blobs)
  {
    ghost var s0 := db.S();
    var paths := db.ListUserExportFilePaths(a, user);
    ghost var s1 := db.S();
    OneStep(s0, ListPaths(a, user, paths), s1);
    db.Interfere(a);
    ghost var s2 := db.S();
    Onward(s0, s1, s2);
    StaysReachable(s0, s2);
    if commits {
      CommitAnonymization(db, a, user, paths, failing, s0);
    } else {
      db.Quit(a);
      OneStep(s2, Leave(a), db.S());
    }
    Onward(s0, s2, db.S());
  }
}
