/**
 At most one active export per user: when the requests that start exports keep it, and when they do not. A request
 looks whether the user has an active export and, if not, inserts one with another statement.
 */
module ExportTriggers {
  import opened Wrappers
  import opened ClaimQueue
  import opened ExportModel
  import opened ExportSafety
  import opened ExportRuns
  import opened ExportReach

  predicate IsActive(row: Row) {
    row.status in {Pending, Running}
  }

  /** The user has an export that is pending or running. */
  ghost predicate Busy(rows: map<Id, Row>, user: UserId) {
    exists x :: x in rows && rows[x].owner == user && IsActive(rows[x])
  }

  ghost predicate OneActive(rows: map<Id, Row>) {
    forall x, y :: x in rows && y in rows && IsActive(rows[x]) && IsActive(rows[y]) && rows[x].owner == rows[y].owner
                   ==> x == y
  }

  // --- One statement ----------------------------------------------------------------------------

  /** Active rows come from inserts alone. */
  lemma ActiveWas(s: State, act: Action, x: Id)
    requires Inv(s) && Enabled(s, act) && x in Apply(s, act).rows && IsActive(Apply(s, act).rows[x])
    ensures if act.Create? && x == act.id then Apply(s, act).rows[x].owner == act.owner
            else x in s.rows && IsActive(s.rows[x]) && s.rows[x].owner == Apply(s, act).rows[x].owner
  {
    if act.Claim? {
      ClaimedArePending(s, act);
    }
  }

  /** An insert for a user who has an active export breaks it, and no other statement does. */
  lemma OneActiveIff(s: State, act: Action)
    requires Inv(s) && Enabled(s, act) && OneActive(s.rows)
    ensures OneActive(Apply(s, act).rows) <==> !(act.Create? && Busy(s.rows, act.owner))
  {
    var t := Apply(s, act);
    if act.Create? && Busy(s.rows, act.owner) {
      var x :| x in s.rows && s.rows[x].owner == act.owner && IsActive(s.rows[x]);
      assert RowOk(s, x);
      assert x in t.rows && t.rows[x] == s.rows[x] && IsActive(t.rows[act.id]);
    } else {
      forall x, y | x in t.rows && y in t.rows && IsActive(t.rows[x]) && IsActive(t.rows[y])
                    && t.rows[x].owner == t.rows[y].owner
        ensures x == y
      {
        ActiveWas(s, act, x);
        ActiveWas(s, act, y);
      }
    }
  }

  /** No insert of the run is for a user who has an active export. */
  ghost predicate NoneDoubles(s: State, acts: seq<Action>)
    requires ValidRun(s, acts)
    decreases |acts|
  {
    acts != [] ==>
      && !(acts[0].Create? && Busy(s.rows, acts[0].owner))
      && NoneDoubles(Apply(s, acts[0]), acts[1..])
  }

  ghost predicate AlwaysOneActive(s: State, acts: seq<Action>)
    requires ValidRun(s, acts)
    decreases |acts|
  {
    OneActive(s.rows) && (acts != [] ==> AlwaysOneActive(Apply(s, acts[0]), acts[1..]))
  }

  lemma {:induction false} AlwaysOneActiveIff(s: State, acts: seq<Action>)
    requires Inv(s) && ValidRun(s, acts) && OneActive(s.rows)
    ensures AlwaysOneActive(s, acts) <==> NoneDoubles(s, acts)
    decreases |acts|
  {
    if acts != [] {
      StepKeepsInv(s, acts[0]);
      OneActiveIff(s, acts[0]);
      if OneActive(Apply(s, acts[0]).rows) {
        AlwaysOneActiveIff(Apply(s, acts[0]), acts[1..]);
      }
    }
  }

  /** A user without an active export gets one by an insert, and in no other way. */
  lemma BusyIff(s: State, act: Action, user: UserId)
    requires Inv(s) && Enabled(s, act) && !Busy(s.rows, user)
    ensures Busy(Apply(s, act).rows, user) <==> act.Create? && act.owner == user
  {
    var t := Apply(s, act);
    if Busy(t.rows, user) {
      var x :| x in t.rows && t.rows[x].owner == user && IsActive(t.rows[x]);
      ActiveWas(s, act, x);
    }
    if act.Create? && act.owner == user {
      assert act.id in t.rows && IsActive(t.rows[act.id]);
    }
  }

  /** An export of the user that came since `s` is still active at `t`. */
  ghost predicate StartedSince(s: State, t: State, user: UserId) {
    exists x :: x !in s.used && x in t.rows && t.rows[x].owner == user && IsActive(t.rows[x])
  }

  lemma BusySinceIff(s: State, t: State, user: UserId)
    requires Inv(s) && Reaches(s, t) && !Busy(s.rows, user)
    ensures Busy(t.rows, user) <==> StartedSince(s, t, user)
  {
    if Busy(t.rows, user) {
      var x :| x in t.rows && t.rows[x].owner == user && IsActive(t.rows[x]);
      ReachKeepsInv(s, t);
      assert RowOk(t, x);
      ReachKeepsRank(s, t, x);
      if x in s.rows {
        assert RowOk(s, x);
        OwnersAreFixed(s, t, x);
      }
      assert x !in s.used;
    }
  }

  // --- Requests ---------------------------------------------------------------------------------

  /** The pipeline, and the requests that have looked, found nothing and not yet inserted, with their users. */
  datatype Server = Server(exports: State, looked: map<nat, UserId>)

  /** `Elsewhere` is a step of anybody but a request that starts an export. */
  datatype Event =
    | Look(request: nat, user: UserId)
    | Insert(request: nat, id: Id, format: Format, now: int)
    | Elsewhere(act: Action)

  ghost predicate Allowed(v: Server, e: Event) {
    match e
    case Look(q, user) => q !in v.looked && !Busy(v.exports.rows, user)
    case Insert(q, id, format, now) => q in v.looked && Enabled(v.exports, Create(id, v.looked[q], format, now))
    case Elsewhere(act) => !act.Create? && Enabled(v.exports, act)
  }

  ghost function Next(v: Server, e: Event): Server
    requires Allowed(v, e)
  {
    match e
    case Look(q, user) => v.(looked := v.looked[q := user])
    case Insert(q, id, format, now) =>
      Server(Apply(v.exports, Create(id, v.looked[q], format, now)), v.looked - {q})
    case Elsewhere(act) => v.(exports := Apply(v.exports, act))
  }

  ghost predicate ServerRun(v: Server, events: seq<Event>)
    decreases |events|
  {
    events == [] || (Allowed(v, events[0]) && ServerRun(Next(v, events[0]), events[1..]))
  }

  /** After the first `n` events. */
  ghost function At(v: Server, events: seq<Event>, n: nat): Server
    requires ServerRun(v, events) && n <= |events|
    decreases n
  {
    if n == 0 then v else At(Next(v, events[0]), events[1..], n - 1)
  }

  lemma {:induction false} EventAt(v: Server, events: seq<Event>, n: nat)
    requires ServerRun(v, events) && n < |events|
    ensures Allowed(At(v, events, n), events[n])
    ensures At(v, events, n + 1) == Next(At(v, events, n), events[n])
    decreases n
  {
    var rest := events[1..];
    if n > 0 {
      EventAt(Next(v, events[0]), rest, n - 1);
      assert rest[n - 1] == events[n];
    }
  }

  lemma EventReaches(v: Server, e: Event)
    requires Allowed(v, e)
    ensures Reaches(v.exports, Next(v, e).exports)
  {
    match e
    case Look(_, _) => Stays(v.exports);
    case Insert(q, id, format, now) => OneStep(v.exports, Create(id, v.looked[q], format, now), Next(v, e).exports);
    case Elsewhere(act) => OneStep(v.exports, act, Next(v, e).exports);
  }

  /** The pipeline moves only along its own runs. */
  lemma {:induction false} ServerReaches(v: Server, events: seq<Event>, m: nat, n: nat)
    requires ServerRun(v, events) && m <= n <= |events|
    ensures Reaches(At(v, events, m).exports, At(v, events, n).exports)
    decreases n
  {
    if m == n {
      Stays(At(v, events, m).exports);
    } else {
      ServerReaches(v, events, m, n - 1);
      EventAt(v, events, n - 1);
      EventReaches(At(v, events, n - 1), events[n - 1]);
      Onward(At(v, events, m).exports, At(v, events, n - 1).exports, At(v, events, n).exports);
    }
  }

  lemma InvAt(v: Server, events: seq<Event>, n: nat)
    requires Inv(v.exports) && ServerRun(v, events) && n <= |events|
    ensures Inv(At(v, events, n).exports)
  {
    ServerReaches(v, events, 0, n);
    ReachKeepsInv(v.exports, At(v, events, n).exports);
  }

  predicate Of(e: Event, q: nat) {
    !e.Elsewhere? && e.request == q
  }

  /** Event i is the look of a request that does nothing else before event n. */
  predicate LookedAt(events: seq<Event>, i: nat, n: nat) {
    && i < n <= |events| && events[i].Look?
    && forall j :: i < j < n ==> !Of(events[j], events[i].request)
  }

  lemma {:induction false} LookBefore(v: Server, events: seq<Event>, q: nat, n: nat) returns (i: nat)
    requires ServerRun(v, events) && v.looked == map[] && n <= |events| && q in At(v, events, n).looked
    ensures LookedAt(events, i, n) && events[i].request == q
    decreases n
  {
    EventAt(v, events, n - 1);
    if Of(events[n - 1], q) {
      i := n - 1;
    } else {
      i := LookBefore(v, events, q, n - 1);
    }
  }

  lemma {:induction false} UserAtLook(v: Server, events: seq<Event>, i: nat, n: nat)
    requires ServerRun(v, events) && LookedAt(events, i, n)
    ensures events[i].request in At(v, events, n).looked
    ensures At(v, events, n).looked[events[i].request] == events[i].user
    ensures !Busy(At(v, events, i).exports.rows, events[i].user)
    decreases n
  {
    EventAt(v, events, n - 1);
    EventAt(v, events, i);
    if i < n - 1 {
      UserAtLook(v, events, i, n - 1);
    }
  }

  lemma UsedByInsert(v: Server, e: Event, x: Id)
    requires Allowed(v, e) && x !in v.exports.used && x in Next(v, e).exports.used
    ensures e.Insert? && e.id == x
  {
  }

  /** An id that came into use was inserted by a request. */
  lemma {:induction false} InsertedBetween(v: Server, events: seq<Event>, i: nat, n: nat, x: Id) returns (j: nat)
    requires ServerRun(v, events) && i <= n <= |events|
    requires x !in At(v, events, i).exports.used && x in At(v, events, n).exports.used
    ensures i <= j < n && events[j].Insert? && events[j].id == x
    decreases n
  {
    j := n - 1;
    if x in At(v, events, j).exports.used {
      j := InsertedBetween(v, events, i, n - 1, x);
    } else {
      EventAt(v, events, j);
      UsedByInsert(At(v, events, j), events[j], x);
    }
  }

  /** Event k inserts an export for a user who has an active one. */
  ghost predicate DoublesAt(v: Server, events: seq<Event>, k: nat)
    requires ServerRun(v, events) && k < |events|
  {
    var s := At(v, events, k);
    events[k].Insert? && events[k].request in s.looked && Busy(s.exports.rows, s.looked[events[k].request])
  }

  /**
   A request looks at event i and inserts at event k; in between, at event j, another request inserts an export for
   the same user, which is still active at k.
   */
  ghost predicate Overtaken(v: Server, events: seq<Event>, i: nat, j: nat, k: nat)
    requires ServerRun(v, events) && k < |events|
  {
    && LookedAt(events, i, k) && i < j < k && events[k].Insert? && events[k].request == events[i].request
    && events[j].Insert?
    && var rows := At(v, events, k).exports.rows;
       events[j].id in rows && rows[events[j].id].owner == events[i].user && IsActive(rows[events[j].id])
  }

  /** The exact condition for one insert. */
  lemma DoublesIff(v: Server, events: seq<Event>, k: nat)
    requires Inv(v.exports) && v.looked == map[] && ServerRun(v, events) && k < |events|
    ensures DoublesAt(v, events, k) <==> exists i: nat, j: nat :: Overtaken(v, events, i, j, k)
  {
    EventAt(v, events, k);
    if DoublesAt(v, events, k) {
      var i := LookBefore(v, events, events[k].request, k);
      var j := OvertakenBy(v, events, i, k);
      assert Overtaken(v, events, i, j, k);
    }
    forall i: nat, j: nat | Overtaken(v, events, i, j, k)
      ensures DoublesAt(v, events, k)
    {
      UserAtLook(v, events, i, k);
    }
  }

  lemma OvertakenBy(v: Server, events: seq<Event>, i: nat, k: nat) returns (j: nat)
    requires Inv(v.exports) && ServerRun(v, events) && k < |events| && DoublesAt(v, events, k)
    requires LookedAt(events, i, k) && events[k].request == events[i].request
    ensures Overtaken(v, events, i, j, k)
  {
    var user, s, t := events[i].user, At(v, events, i).exports, At(v, events, k).exports;
    UserAtLook(v, events, i, k);
    InvAt(v, events, i);
    InvAt(v, events, k);
    ServerReaches(v, events, i, k);
    BusySinceIff(s, t, user);
    var x :| x !in s.used && x in t.rows && t.rows[x].owner == user && IsActive(t.rows[x]);
    assert RowOk(t, x);
    j := InsertedBetween(v, events, i, k, x);
  }

  lemma EventKeepsOneActive(v: Server, events: seq<Event>, k: nat)
    requires Inv(v.exports) && ServerRun(v, events) && k < |events| && OneActive(At(v, events, k).exports.rows)
    ensures OneActive(At(v, events, k + 1).exports.rows) <==> !DoublesAt(v, events, k)
  {
    var s, e := At(v, events, k), events[k];
    EventAt(v, events, k);
    InvAt(v, events, k);
    match e
    case Look(_, _) =>
    case Insert(q, id, format, now) => OneActiveIff(s.exports, Create(id, s.looked[q], format, now));
    case Elsewhere(act) => OneActiveIff(s.exports, act);
  }

  ghost predicate OneActiveSoFar(v: Server, events: seq<Event>, n: nat)
    requires ServerRun(v, events) && n <= |events|
  {
    forall m: nat :: m <= n ==> OneActive(At(v, events, m).exports.rows)
  }

  ghost predicate OvertakenSoFar(v: Server, events: seq<Event>, n: nat)
    requires ServerRun(v, events) && n <= |events|
  {
    exists i: nat, j: nat, k: nat :: k < n && Overtaken(v, events, i, j, k)
  }

  /** Over every run of requests and of everything else: all is well exactly as long as no request is overtaken. */
  lemma {:induction false} OneActiveThroughoutIff(v: Server, events: seq<Event>, n: nat)
    requires Inv(v.exports) && v.looked == map[] && OneActive(v.exports.rows)
    requires ServerRun(v, events) && n <= |events|
    ensures OneActiveSoFar(v, events, n) <==> !OvertakenSoFar(v, events, n)
    decreases n
  {
    if n > 0 {
      var k := n - 1;
      OneActiveThroughoutIff(v, events, k);
      DoublesIff(v, events, k);
      if OneActiveSoFar(v, events, k) {
        EventKeepsOneActive(v, events, k);
      } else {
        assert OvertakenSoFar(v, events, k);
      }
    }
  }

  /** Every insert comes right after the look of its request. */
  predicate AtOnce(events: seq<Event>) {
    forall k :: 0 <= k < |events| && events[k].Insert? ==>
      k > 0 && events[k - 1].Look? && events[k - 1].request == events[k].request
  }

  lemma NoRoom(events: seq<Event>, i: nat, k: nat)
    requires AtOnce(events) && k < |events| && LookedAt(events, i, k)
    requires events[k].Insert? && events[k].request == events[i].request
    ensures i == k - 1
  {
    assert Of(events[k - 1], events[i].request);
  }

  /** If look and insert were one statement, every user would always have at most one. */
  lemma AtOnceIsSafe(v: Server, events: seq<Event>)
    requires Inv(v.exports) && v.looked == map[] && OneActive(v.exports.rows)
    requires ServerRun(v, events) && AtOnce(events)
    ensures OneActiveSoFar(v, events, |events|)
  {
    forall i: nat, j: nat, k: nat | k < |events| && Overtaken(v, events, i, j, k)
      ensures false
    {
      NoRoom(events, i, k);
    }
    OneActiveThroughoutIff(v, events, |events|);
  }

  // --- It happens -------------------------------------------------------------------------------

  function Idle(): Server {
    Server(Empty(UserExports), map[])
  }

  /** Two requests of one user look before either inserts. */
  function Overlap(): seq<Event> {
    [Look(0, 0), Look(1, 0), Insert(0, 0, Zip, 0), Insert(1, 1, Zip, 0)]
  }

  /** Both find nobody busy, both insert, and the user has two exports. */
  lemma OverlappingTriggers()
    ensures ServerRun(Idle(), Overlap()) && !OneActive(At(Idle(), Overlap(), 4).exports.rows)
    ensures Reachable(At(Idle(), Overlap(), 4).exports)
  {
    var row := NewRow(0, Zip, 0);
    var e := Overlap();
    var v1 := Server(Empty(UserExports), map[0 := 0]);
    var v2 := Server(Empty(UserExports), map[0 := 0, 1 := 0]);
    var v3 := Server(State(UserExports, map[0 := row], {0}, map[], map[]), map[1 := 0]);
    var v4 := Server(State(UserExports, map[0 := row, 1 := row], {0, 1}, map[], map[]), map[]);
    assert e[1..] == [e[1], e[2], e[3]] && e[1..][1..] == [e[2], e[3]] && e[1..][1..][1..] == [e[3]];
    assert v2.looked - {0} == v3.looked && v3.looked - {1} == v4.looked;
    assert Next(v2, e[2]) == v3 && Next(v3, e[3]) == v4;
    assert 0 in v4.exports.rows && 1 in v4.exports.rows && IsActive(v4.exports.rows[0]);
    assert At(v3, [e[3]], 1) == v4;
    assert At(v2, [e[2], e[3]], 2) == v4;
    assert ServerRun(v2, [e[2], e[3]]);
    assert At(Idle(), e, 4) == v4;
    ServerReaches(Idle(), e, 0, 4);
  }
}
