/**
 The export and backup pipelines as a state machine: job rows in the database, blobs in the store,
 and the local state of every dispatcher, request and clean-up that is in flight.

 Each action is one SQL statement (or one transaction) or one call on the store. Any two actions of
 different actors may interleave, and an actor may stop for good between any two of its own.
 */
module ExportModel {
  import opened Wrappers
  import opened ClaimQueue

  type Bytes = seq<bv8>
  type Id = nat
  type UserId = nat
  type ActorId = nat

  /** SHA-256 as a symbol: the digest names the bytes that were hashed. */
  datatype Digest = Sha256(of: Bytes)

  datatype Format = Zip | TarGz | Zstd

  datatype Pipeline = UserExports | AdminBackups

  datatype Status = Pending | Running | Complete | Failed | Expired

  datatype Path = ExportPath(user: UserId, id: Id, format: Format) | BackupPath(id: Id)

  datatype Receipt = Receipt(size: nat, digest: Digest)

  /** One job row. `owner` and `expiresAt` are used by user exports only. */
  datatype Row = Row(owner: UserId, format: Format, status: Status, filePath: Option<Path>,
                     receipt: Option<Receipt>, createdAt: int, completedAt: Option<int>, expiresAt: Option<int>)

  datatype Job = Job(id: Id, path: Path)

  /** Control state of whatever is in flight; `Worker.todo[0]` is the job being processed. */
  datatype Actor =
    | Worker(todo: seq<Job>, stored: Option<Receipt>, failing: bool)
    | Deleter(paths: seq<Path>)
    | Download(id: Id, user: UserId, path: Option<Path>, streaming: bool)
    | Anonymizer(user: UserId, paths: seq<Path>)

  /** `used` remembers every row id ever handed out: ids are random UUIDs and never come back. */
  datatype State = State(pipeline: Pipeline, rows: map<Id, Row>, used: set<Id>,
                         blobs: map<Path, Bytes>, actors: map<ActorId, Actor>)

  const HOUR := 3_600_000_000
  const DAY := 24 * HOUR

  function ClaimLimit(pipeline: Pipeline): nat {
    if pipeline == UserExports then 5 else 1
  }

  function PathOf(pipeline: Pipeline, id: Id, row: Row): Path {
    if pipeline == UserExports then ExportPath(row.owner, id, row.format) else BackupPath(id)
  }

  function ReceiptFor(content: Bytes): Receipt {
    Receipt(|content|, Sha256(content))
  }

  // --- What each statement does to the table ------------------------------------------

  function NewRow(owner: UserId, format: Format, now: int): Row {
    Row(owner, format, Pending, None, None, now, None, None)
  }

  function PendingSince(rows: map<Id, Row>): map<Id, int> {
    map id | id in rows && rows[id].status == Pending :: rows[id].createdAt
  }

  function ClaimRows(rows: map<Id, Row>, batch: set<Id>): map<Id, Row> {
    map id | id in rows :: if id in batch then rows[id].(status := Running) else rows[id]
  }

  function CompleteRow(pipeline: Pipeline, rows: map<Id, Row>, id: Id, path: Path, receipt: Receipt, now: int)
    : map<Id, Row>
  {
    if id !in rows then rows
    else rows[id := rows[id].(status := Complete, filePath := Some(path), receipt := Some(receipt),
                              completedAt := Some(now),
                              expiresAt := if pipeline == UserExports then Some(now + HOUR) else rows[id].expiresAt)]
  }

  function FailRow(rows: map<Id, Row>, id: Id, now: int): map<Id, Row> {
    if id !in rows then rows else rows[id := rows[id].(status := Failed, completedAt := Some(now))]
  }

  predicate MayExpire(row: Row, now: int) {
    row.status == Complete && row.expiresAt.Some? && row.expiresAt.value < now
  }

  function Expiring(rows: map<Id, Row>, now: int): set<Id> {
    set id | id in rows && MayExpire(rows[id], now)
  }

  function ExpireRows(rows: map<Id, Row>, now: int): map<Id, Row> {
    map id | id in rows :: if MayExpire(rows[id], now) then rows[id].(status := Expired) else rows[id]
  }

  predicate MayRetire(rows: map<Id, Row>, id: Id, user: UserId) {
    id in rows && rows[id].owner == user && rows[id].status == Complete
  }

  predicate MayPurge(row: Row, now: int, retentionDays: nat) {
    row.status in {Complete, Failed} && row.completedAt.Some? && row.completedAt.value < now - retentionDays * DAY
  }

  function Purging(rows: map<Id, Row>, now: int, retentionDays: nat): set<Id> {
    set id | id in rows && MayPurge(rows[id], now, retentionDays)
  }

  function PurgeRows(rows: map<Id, Row>, now: int, retentionDays: nat): map<Id, Row> {
    map id | id in rows && !MayPurge(rows[id], now, retentionDays) :: rows[id]
  }

  function OwnedBy(rows: map<Id, Row>, user: UserId): set<Id> {
    set id | id in rows && rows[id].owner == user
  }

  function WithoutUser(rows: map<Id, Row>, user: UserId): map<Id, Row> {
    map id | id in rows && rows[id].owner != user :: rows[id]
  }

  /** The stored paths of the rows `ids`, in whatever order the database returns them. */
  ghost predicate PathsOf(rows: map<Id, Row>, ids: set<Id>, paths: seq<Path>) {
    && (forall p :: p in paths ==> exists id :: id in ids && id in rows && rows[id].filePath == Some(p))
    && (forall id :: id in ids && id in rows && rows[id].filePath.Some? ==> rows[id].filePath.value in paths)
  }

  // --- Actions ---------------------------------------------------------------------------

  datatype Action =
    | Create(id: Id, owner: UserId, format: Format, now: int)
    | Claim(actor: ActorId, skipped: set<Id>, batch: set<Id>, order: seq<Id>)
    | BuildFailed(actor: ActorId)
    | PutFailed(actor: ActorId, leftover: Option<Bytes>)
    | Put(actor: ActorId, content: Bytes, receipt: Receipt)
    | CompleteJob(actor: ActorId, now: int)
    | CompleteError(actor: ActorId, applied: bool, now: int)
    | FailJob(actor: ActorId, applied: bool, now: int)
    | ExpireOld(actor: ActorId, now: int, paths: seq<Path>)
    | PurgeOld(actor: ActorId, now: int, retentionDays: nat, paths: seq<Path>)
    | OpenDownload(actor: ActorId, id: Id, user: UserId)
    | GetBlob(actor: ActorId)
    | Retire(actor: ActorId)
    | RetireError(actor: ActorId, applied: bool)
    | ListPaths(actor: ActorId, user: UserId, paths: seq<Path>)
    | CommitAnonymize(actor: ActorId)
    | DeleteBlob(actor: ActorId)
    | DeleteBlobFailed(actor: ActorId)
    | Leave(actor: ActorId)
    | CrashInPut(actor: ActorId, partial: Bytes)

  predicate IsWorker(s: State, a: ActorId) {
    a in s.actors && s.actors[a].Worker?
  }

  /** The worker is on a job it has not given up. */
  predicate OnJob(s: State, a: ActorId) {
    IsWorker(s, a) && s.actors[a].todo != [] && !s.actors[a].failing
  }

  ghost predicate Enabled(s: State, act: Action) {
    match act
    case Create(id, owner, format, now) => id !in s.used
    case Claim(a, skipped, batch, order) =>
      && a !in s.actors
      && EarliestBatch(PendingSince(s.rows), PendingSince(s.rows).Keys - skipped, ClaimLimit(s.pipeline), batch)
      && Lists(order, batch)
    case BuildFailed(a) => OnJob(s, a) && s.actors[a].stored.None?
    case PutFailed(a, leftover) => OnJob(s, a) && s.actors[a].stored.None?
    case Put(a, content, receipt) => OnJob(s, a) && s.actors[a].stored.None? && receipt == ReceiptFor(content)
    case CompleteJob(a, now) => OnJob(s, a) && s.actors[a].stored.Some?
    case CompleteError(a, applied, now) => OnJob(s, a) && s.actors[a].stored.Some?
    case FailJob(a, applied, now) => IsWorker(s, a) && s.actors[a].todo != [] && s.actors[a].failing
    case ExpireOld(a, now, paths) =>
      && s.pipeline == UserExports && IsWorker(s, a) && s.actors[a].todo == []
      && PathsOf(s.rows, Expiring(s.rows, now), paths)
    case PurgeOld(a, now, days, paths) =>
      && s.pipeline == AdminBackups && IsWorker(s, a) && s.actors[a].todo == []
      && PathsOf(s.rows, Purging(s.rows, now, days), paths)
    case OpenDownload(a, id, user) =>
      s.pipeline == UserExports && a !in s.actors && MayRetire(s.rows, id, user)
    case GetBlob(a) =>
      && a in s.actors && s.actors[a].Download? && !s.actors[a].streaming
      && s.actors[a].path.Some? && s.actors[a].path.value in s.blobs
    case Retire(a) => a in s.actors && s.actors[a].Download? && s.actors[a].streaming
    case RetireError(a, applied) => a in s.actors && s.actors[a].Download? && s.actors[a].streaming
    case ListPaths(a, user, paths) =>
      && s.pipeline == UserExports && a !in s.actors
      && PathsOf(s.rows, OwnedBy(s.rows, user), paths)
    case CommitAnonymize(a) => a in s.actors && s.actors[a].Anonymizer?
    case DeleteBlob(a) => a in s.actors && s.actors[a].Deleter? && s.actors[a].paths != []
    case DeleteBlobFailed(a) => a in s.actors && s.actors[a].Deleter? && s.actors[a].paths != []
    case Leave(a) => a in s.actors
    case CrashInPut(a, partial) => OnJob(s, a) && s.actors[a].stored.None?
  }

  function JobsOf(s: State, order: seq<Id>): seq<Job>
    requires forall id :: id in order ==> id in s.rows
  {
    seq(|order|, i requires 0 <= i < |order| => Job(order[i], PathOf(s.pipeline, order[i], s.rows[order[i]])))
  }

  function Become(s: State, a: ActorId, actor: Actor): State {
    s.(actors := s.actors[a := actor])
  }

  function Gone(s: State, a: ActorId): State {
    s.(actors := s.actors - {a})
  }

  function NextJob(w: Actor): Actor
    requires w.Worker? && w.todo != []
  {
    Worker(w.todo[1..], None, false)
  }

  ghost function Apply(s: State, act: Action): State
    requires Enabled(s, act)
  {
    match act
    case Create(id, owner, format, now) =>
      s.(rows := s.rows[id := NewRow(owner, format, now)], used := s.used + {id})
    case Claim(a, skipped, batch, order) =>
      Become(s.(rows := ClaimRows(s.rows, batch)), a, Worker(JobsOf(s, order), None, false))
    case BuildFailed(a) =>
      Become(s, a, s.actors[a].(failing := true))
    case PutFailed(a, leftover) =>
      var path := s.actors[a].todo[0].path;
      var blobs := if leftover.Some? then s.blobs[path := leftover.value] else s.blobs - {path};
      Become(s.(blobs := blobs), a, s.actors[a].(failing := true))
    case Put(a, content, receipt) =>
      Become(s.(blobs := s.blobs[s.actors[a].todo[0].path := content]), a, s.actors[a].(stored := Some(receipt)))
    case CompleteJob(a, now) =>
      var job := s.actors[a].todo[0];
      if job.id in s.rows then
        Become(s.(rows := CompleteRow(s.pipeline, s.rows, job.id, job.path, s.actors[a].stored.value, now)), a,
               NextJob(s.actors[a]))
      else
        Become(s, a, s.actors[a].(failing := true))
    case CompleteError(a, applied, now) =>
      var job := s.actors[a].todo[0];
      var rows := if applied then CompleteRow(s.pipeline, s.rows, job.id, job.path, s.actors[a].stored.value, now)
        else s.rows;
      Become(s.(rows := rows), a, s.actors[a].(failing := true))
    case FailJob(a, applied, now) =>
      Become(s.(rows := if applied then FailRow(s.rows, s.actors[a].todo[0].id, now) else s.rows), a,
             NextJob(s.actors[a]))
    case ExpireOld(a, now, paths) =>
      Become(s.(rows := ExpireRows(s.rows, now)), a, Deleter(paths))
    case PurgeOld(a, now, days, paths) =>
      Become(s.(rows := PurgeRows(s.rows, now, days)), a, Deleter(paths))
    case OpenDownload(a, id, user) => Become(s, a, Download(id, user, s.rows[id].filePath, false))
    case GetBlob(a) => Become(s, a, s.actors[a].(streaming := true))
    case Retire(a) =>
      var d := s.actors[a];
      if MayRetire(s.rows, d.id, d.user) then
        Become(s.(rows := s.rows[d.id := s.rows[d.id].(status := Expired)]), a,
               Deleter(if s.rows[d.id].filePath.Some? then [s.rows[d.id].filePath.value] else []))
      else Gone(s, a)
    case RetireError(a, applied) =>
      var d := s.actors[a];
      Gone(if applied && MayRetire(s.rows, d.id, d.user)
           then s.(rows := s.rows[d.id := s.rows[d.id].(status := Expired)]) else s, a)
    case ListPaths(a, user, paths) => Become(s, a, Anonymizer(user, paths))
    case CommitAnonymize(a) =>
      Become(s.(rows := WithoutUser(s.rows, s.actors[a].user)), a, Deleter(s.actors[a].paths))
    case DeleteBlob(a) =>
      Become(s.(blobs := s.blobs - {s.actors[a].paths[0]}), a, Deleter(s.actors[a].paths[1..]))
    case DeleteBlobFailed(a) => Become(s, a, Deleter(s.actors[a].paths[1..]))
    case Leave(a) => Gone(s, a)
    case CrashInPut(a, partial) => Gone(s.(blobs := s.blobs[s.actors[a].todo[0].path := partial]), a)
  }

  function Empty(pipeline: Pipeline): State {
    State(pipeline, map[], {}, map[], map[])
  }

  // --- Runs ---------------------------------------------------------------------------------

  ghost predicate ValidRun(s: State, acts: seq<Action>)
    decreases |acts|
  {
    acts == [] || (Enabled(s, acts[0]) && ValidRun(Apply(s, acts[0]), acts[1..]))
  }

  ghost function RunFrom(s: State, acts: seq<Action>): State
    requires ValidRun(s, acts)
    decreases |acts|
  {
    if acts == [] then s else RunFrom(Apply(s, acts[0]), acts[1..])
  }
}
