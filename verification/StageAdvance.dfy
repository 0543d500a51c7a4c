/**
 Batch events advance the batch's stage. A request reads the batch, records its event and then, with what it
 read, decides whether to write a later stage; another request may write in between, or a PATCH set any stage.
 */
module StageAdvance {
  import opened Wrappers

  datatype Stage = Planning | Primary | Secondary | Aging | Bottled | Archived
  datatype Kind = Pitch | Rack | Bottle | Other
  datatype Event = Event(kind: Kind, occurredAt: int)

  datatype Row = Row(stage: Stage, bottledAt: Option<int>)

  function Rank(stage: Stage): nat {
    match stage
    case Planning => 0
    case Primary => 1
    case Secondary => 2
    case Aging => 3
    case Bottled => 4
    case Archived => 5
  }

  function Target(kind: Kind): Option<Stage> {
    match kind
    case Pitch => Some(Primary)
    case Rack => Some(Secondary)
    case Bottle => Some(Bottled)
    case Other => None
  }

  lemma RankIsOneToOne(a: Stage, b: Stage)
    requires Rank(a) == Rank(b)
    ensures a == b
  {
  }

  class Batch {
    var row: Row

    constructor (row: Row)
      ensures this.row == row
    {
      this.row := row;
    }

    /** UPDATE with COALESCE: fields not given keep their value. A PATCH of the batch is just this. */
    method UpdateBatch(stage: Option<Stage>, bottledAt: Option<int>)
      modifies this
      ensures row == Patched(old(row), stage, bottledAt)
      ensures row.stage == if stage.Some? then stage.value else old(row).stage
      ensures row.bottledAt == if bottledAt.Some? then bottledAt else old(row).bottledAt
    {
      row := Row(if stage.Some? then stage.value else row.stage, if bottledAt.Some? then bottledAt else row.bottledAt);
    }

    /** `seen` is the row as the request read it, perhaps before other requests wrote. */
    method MaybeAdvanceStage(seen: Row, event: Event)
      modifies this
      ensures row == Advanced(old(row), seen.stage, event)
      ensures event.kind == Pitch ==>
                row == if seen.stage == Planning then Row(Primary, old(row).bottledAt) else old(row)
      ensures event.kind == Rack ==>
                row == if seen.stage == Planning || seen.stage == Primary then Row(Secondary, old(row).bottledAt)
                       else old(row)
      ensures event.kind == Bottle ==>
                row == if seen.stage == Bottled || seen.stage == Archived then old(row)
                       else Row(Bottled, Some(event.occurredAt))
      ensures event.kind == Other ==> row == old(row)
    {
      var target := Target(event.kind);
      if target.None? {
        return;
      }
      if Rank(target.value) <= Rank(seen.stage) {
        return;
      }
      var bottledAt := None;
      if target.value == Bottled {
        bottledAt := Some(event.occurredAt);
      }
      UpdateBatch(target, bottledAt);
    }

    /** Events one request after another, each reading what the one before left. */
    method RecordEvents(events: seq<Event>)
      modifies this
      ensures row == InTurn(old(row), events)
    {
      var i := 0;
      assert events[0..] == events;
      while i < |events|
        invariant 0 <= i <= |events|
        invariant InTurn(row, events[i..]) == InTurn(old(row), events)
      {
        assert events[i..][1..] == events[i + 1..];
        MaybeAdvanceStage(row, events[i]);
        i := i + 1;
      }
    }
  }

  function Patched(row: Row, stage: Option<Stage>, bottledAt: Option<int>): Row {
    Row(if stage.Some? then stage.value else row.stage, if bottledAt.Some? then bottledAt else row.bottledAt)
  }

  function Advanced(row: Row, seen: Stage, event: Event): Row {
    var target := Target(event.kind);
    if target.None? || Rank(target.value) <= Rank(seen) then row
    else Row(target.value, if target.value == Bottled then Some(event.occurredAt) else row.bottledAt)
  }

  function InTurn(row: Row, events: seq<Event>): Row
    decreases |events|
  {
    if events == [] then row else InTurn(Advanced(row, row.stage, events[0]), events[1..])
  }

  // --- One after another ----------------------------------------------------------------------------

  /** `stage` is where the batch was or what some event signals. */
  ghost predicate Signalled(start: Stage, events: seq<Event>, stage: Stage) {
    stage == start || exists i :: 0 <= i < |events| && Target(events[i].kind) == Some(stage)
  }

  ghost predicate IsLatest(start: Stage, events: seq<Event>, stage: Stage) {
    && Signalled(start, events, stage)
    && Rank(start) <= Rank(stage)
    && forall i :: 0 <= i < |events| && Target(events[i].kind).Some? ==>
         Rank(Target(events[i].kind).value) <= Rank(stage)
  }

  lemma {:induction false} InTurnIsLatest(row: Row, events: seq<Event>)
    ensures IsLatest(row.stage, events, InTurn(row, events).stage)
    decreases |events|
  {
    if events != [] {
      var next, end := Advanced(row, row.stage, events[0]), InTurn(row, events);
      InTurnIsLatest(next, events[1..]);
      forall i | 0 <= i < |events| && Target(events[i].kind).Some?
        ensures Rank(Target(events[i].kind).value) <= Rank(end.stage)
      {
        if i > 0 {
          assert events[1..][i - 1] == events[i];
        }
      }
      if end.stage != row.stage && end.stage != next.stage {
        var j :| 0 <= j < |events[1..]| && Target(events[1..][j].kind) == Some(end.stage);
        assert events[j + 1] == events[1..][j];
      }
    }
  }

  /** The bottling time is that of the first bottling, if the batch was not bottled before. */
  lemma {:induction false} InTurnBottledAt(row: Row, events: seq<Event>, i: nat)
    requires i < |events| && events[i].kind == Bottle && forall j :: 0 <= j < i ==> events[j].kind != Bottle
    ensures InTurn(row, events).bottledAt ==
            if row.stage == Bottled || row.stage == Archived then row.bottledAt else Some(events[i].occurredAt)
    decreases |events|
  {
    var next := Advanced(row, row.stage, events[0]);
    if i == 0 {
      OnceBottled(next, events[1..]);
    } else {
      assert events[0].kind != Bottle;
      assert events[1..][i - 1] == events[i];
      assert forall j :: 0 <= j < i - 1 ==> events[1..][j] == events[j + 1];
      InTurnBottledAt(next, events[1..], i - 1);
    }
  }

  lemma {:induction false} OnceBottled(row: Row, events: seq<Event>)
    requires row.stage == Bottled || row.stage == Archived
    ensures InTurn(row, events) == row
    decreases |events|
  {
    if events != [] {
      OnceBottled(row, events[1..]);
    }
  }

  lemma SignalledAgain(start: Stage, events: seq<Event>, others: seq<Event>, stage: Stage)
    requires multiset(events) == multiset(others) && Signalled(start, events, stage)
    ensures Signalled(start, others, stage)
  {
    if stage != start {
      var i :| 0 <= i < |events| && Target(events[i].kind) == Some(stage);
      assert events[i] in multiset(others);
      var j :| 0 <= j < |others| && others[j] == events[i];
    }
  }

  /** In turn, the order in which events are recorded does not matter to the stage. */
  lemma OrderDoesNotMatter(row: Row, events: seq<Event>, others: seq<Event>)
    requires multiset(events) == multiset(others)
    ensures InTurn(row, events).stage == InTurn(row, others).stage
  {
    var a, b := InTurn(row, events).stage, InTurn(row, others).stage;
    InTurnIsLatest(row, events);
    InTurnIsLatest(row, others);
    NotEarlier(row.stage, events, others, a, b);
    NotEarlier(row.stage, others, events, b, a);
    RankIsOneToOne(a, b);
  }

  lemma NotEarlier(start: Stage, events: seq<Event>, others: seq<Event>, a: Stage, b: Stage)
    requires multiset(events) == multiset(others) && IsLatest(start, events, a) && IsLatest(start, others, b)
    ensures Rank(a) <= Rank(b)
  {
    SignalledAgain(start, events, others, a);
  }

  // --- At the same time --------------------------------------------------------------------------------

  /** A request in flight: its event and the stage it read. */
  datatype Pending = Pending(event: Event, seen: Stage)
  datatype State = State(row: Row, requests: map<nat, Pending>)

  /** `Patch` is a PATCH of the batch: one UPDATE of the given fields, to any stage. */
  datatype Action =
    | Read(request: nat, event: Event)
    | Write(request: nat)
    | Patch(stage: Option<Stage>, bottledAt: Option<int>)

  predicate Enabled(s: State, act: Action) {
    match act
    case Read(q, event) => q !in s.requests
    case Write(q) => q in s.requests
    case Patch(_, _) => true
  }

  function Apply(s: State, act: Action): State
    requires Enabled(s, act)
  {
    match act
    case Read(q, event) => s.(requests := s.requests[q := Pending(event, s.row.stage)])
    case Write(q) => State(Advanced(s.row, s.requests[q].seen, s.requests[q].event), s.requests - {q})
    case Patch(stage, bottledAt) => s.(row := Patched(s.row, stage, bottledAt))
  }

  ghost predicate ValidRun(s: State, acts: seq<Action>)
    decreases |acts|
  {
    acts == [] || (Enabled(s, acts[0]) && ValidRun(Apply(s, acts[0]), acts[1..]))
  }

  ghost function RunFrom(s: State, acts: seq<Action>): State
    requires ValidRun(s, acts)
    decreases |acts|
  {
    if acts == [] then s else RunFrom(Apply(s, acts[0]), acts[1..])
  }

  /** A write moves the batch backwards exactly when its stage lies between what it read and what is there now. */
  lemma MovesBackIff(s: State, q: nat)
    requires q in s.requests
    ensures Rank(Apply(s, Write(q)).row.stage) < Rank(s.row.stage)
            <==> var target := Target(s.requests[q].event.kind);
                 target.Some? && Rank(s.requests[q].seen) < Rank(target.value) < Rank(s.row.stage)
  {
  }

  /** No request read an earlier stage than `start`. */
  ghost predicate NotBefore(start: Stage, s: State) {
    Rank(start) <= Rank(s.row.stage) && forall q :: q in s.requests ==> Rank(start) <= Rank(s.requests[q].seen)
  }

  /** A PATCH to an earlier stage than `start`. */
  predicate PatchesBefore(start: Stage, act: Action) {
    act.Patch? && act.stage.Some? && Rank(act.stage.value) < Rank(start)
  }

  lemma NotBeforeStep(start: Stage, s: State, act: Action)
    requires NotBefore(start, s) && Enabled(s, act)
    ensures NotBefore(start, Apply(s, act)) <==> !PatchesBefore(start, act)
  {
  }

  ghost predicate AlwaysNotBefore(start: Stage, s: State, acts: seq<Action>)
    requires ValidRun(s, acts)
    decreases |acts|
  {
    NotBefore(start, s) && (acts != [] ==> AlwaysNotBefore(start, Apply(s, acts[0]), acts[1..]))
  }

  /** Still, however requests overlap, the batch is never behind where it was, unless a PATCH puts it there. */
  lemma {:induction false} NeverBehindTheStart(start: Stage, s: State, acts: seq<Action>)
    requires NotBefore(start, s) && ValidRun(s, acts)
    ensures AlwaysNotBefore(start, s, acts) <==> forall k :: 0 <= k < |acts| ==> !PatchesBefore(start, acts[k])
    decreases |acts|
  {
    if acts != [] {
      var rest := acts[1..];
      NotBeforeStep(start, s, acts[0]);
      if !PatchesBefore(start, acts[0]) {
        NeverBehindTheStart(start, Apply(s, acts[0]), rest);
        assert forall k :: 0 <= k < |rest| ==> rest[k] == acts[k + 1];
        assert forall k :: 0 < k < |acts| ==> acts[k] == rest[k - 1];
      }
    }
  }

  /** bottled_at changes only when a write moves the batch to bottled, and then to that event's time. */
  lemma BottledAtComesWithBottling(s: State, q: nat)
    requires q in s.requests
    ensures Apply(s, Write(q)).row.bottledAt != s.row.bottledAt
            ==> s.requests[q].event.kind == Bottle
                && Apply(s, Write(q)).row == Row(Bottled, Some(s.requests[q].event.occurredAt))
  {
  }

  // --- Whole runs ---------------------------------------------------------------------------------------

  ghost function StateAt(s: State, acts: seq<Action>, n: nat): State
    requires ValidRun(s, acts) && n <= |acts|
    decreases n
  {
    if n == 0 then s else StateAt(Apply(s, acts[0]), acts[1..], n - 1)
  }

  lemma {:induction false} StepAt(s: State, acts: seq<Action>, n: nat)
    requires ValidRun(s, acts) && n < |acts|
    ensures Enabled(StateAt(s, acts, n), acts[n])
    ensures StateAt(s, acts, n + 1) == Apply(StateAt(s, acts, n), acts[n])
    decreases n
  {
    var rest := acts[1..];
    if n > 0 {
      StepAt(Apply(s, acts[0]), rest, n - 1);
      assert rest[n - 1] == acts[n];
    }
  }

  predicate Of(act: Action, q: nat) {
    !act.Patch? && act.request == q
  }

  /** Step i is a read, and its request does nothing else before step n. */
  predicate OpenSince(acts: seq<Action>, i: nat, n: nat) {
    && i < n <= |acts| && acts[i].Read?
    && forall j :: i < j < n ==> !Of(acts[j], acts[i].request)
  }

  /** What a request in flight saw is the stage at its read, if nobody was in flight at the start. */
  lemma {:induction false} ReadBefore(s: State, acts: seq<Action>, q: nat, n: nat) returns (i: nat)
    requires ValidRun(s, acts) && s.requests == map[] && n <= |acts|
    requires q in StateAt(s, acts, n).requests
    ensures OpenSince(acts, i, n) && acts[i].request == q
    decreases n
  {
    StepAt(s, acts, n - 1);
    if Of(acts[n - 1], q) {
      i := n - 1;
    } else {
      i := ReadBefore(s, acts, q, n - 1);
    }
  }

  lemma {:induction false} SawAtRead(s: State, acts: seq<Action>, i: nat, n: nat)
    requires ValidRun(s, acts) && OpenSince(acts, i, n)
    ensures var t := StateAt(s, acts, n);
            && acts[i].request in t.requests
            && t.requests[acts[i].request] == Pending(acts[i].event, StateAt(s, acts, i).row.stage)
    decreases n
  {
    StepAt(s, acts, n - 1);
    if i < n - 1 {
      SawAtRead(s, acts, i, n - 1);
    }
  }

  /** The stage drops at step k. */
  ghost predicate DropsAt(s: State, acts: seq<Action>, k: nat)
    requires ValidRun(s, acts) && k < |acts|
  {
    Rank(StateAt(s, acts, k + 1).row.stage) < Rank(StateAt(s, acts, k).row.stage)
  }

  /** A request reads at step i and writes at step k, and meanwhile the batch went past its event's stage. */
  ghost predicate Overtaken(s: State, acts: seq<Action>, i: nat, k: nat)
    requires ValidRun(s, acts) && k < |acts|
  {
    && OpenSince(acts, i, k) && acts[k] == Write(acts[i].request)
    && var target := Target(acts[i].event.kind);
       target.Some? && Rank(StateAt(s, acts, i).row.stage) < Rank(target.value) < Rank(StateAt(s, acts, k).row.stage)
  }

  /** Step k is a PATCH to an earlier stage. */
  ghost predicate PatchesBack(s: State, acts: seq<Action>, k: nat)
    requires ValidRun(s, acts) && k < |acts|
  {
    PatchesBefore(StateAt(s, acts, k).row.stage, acts[k])
  }

  /**
   In any run, the stage drops exactly where a PATCH says so, or where a request was overtaken between its read and
   its write.
   */
  lemma StageDropsIff(s: State, acts: seq<Action>, k: nat)
    requires ValidRun(s, acts) && s.requests == map[] && k < |acts|
    ensures DropsAt(s, acts, k) <==> PatchesBack(s, acts, k) || exists i :: Overtaken(s, acts, i, k)
  {
    var t := StateAt(s, acts, k);
    StepAt(s, acts, k);
    if acts[k].Write? {
      MovesBackIff(t, acts[k].request);
      var r := ReadBefore(s, acts, acts[k].request, k);
      SawAtRead(s, acts, r, k);
      if DropsAt(s, acts, k) {
        assert Overtaken(s, acts, r, k);
      }
      forall i | Overtaken(s, acts, i, k)
        ensures DropsAt(s, acts, k)
      {
        SawAtRead(s, acts, i, k);
      }
    }
  }

  /** No write acts on a stage that is no longer there. */
  ghost predicate NoneStale(s: State, acts: seq<Action>)
    requires ValidRun(s, acts)
    decreases |acts|
  {
    acts != [] ==>
      && (acts[0].Write? ==> s.requests[acts[0].request].seen == s.row.stage)
      && NoneStale(Apply(s, acts[0]), acts[1..])
  }

  /** What a request or a PATCH does to the batch, by itself. */
  datatype Change = Recorded(event: Event) | Given(stage: Option<Stage>, bottledAt: Option<int>)

  function Changed(row: Row, c: Change): Row {
    match c
    case Recorded(event) => Advanced(row, row.stage, event)
    case Given(stage, bottledAt) => Patched(row, stage, bottledAt)
  }

  function Serially(row: Row, changes: seq<Change>): Row
    decreases |changes|
  {
    if changes == [] then row else Serially(Changed(row, changes[0]), changes[1..])
  }

  /** The events in the order of their writes, and the PATCHes. */
  ghost function Changes(s: State, acts: seq<Action>): seq<Change>
    requires ValidRun(s, acts)
    decreases |acts|
  {
    if acts == [] then []
    else
      var rest := Changes(Apply(s, acts[0]), acts[1..]);
      match acts[0]
      case Read(_, _) => rest
      case Write(q) => [Recorded(s.requests[q].event)] + rest
      case Patch(stage, bottledAt) => [Given(stage, bottledAt)] + rest
  }

  /** Then overlapping requests do what they would do one after another in the order of their writes. */
  lemma {:induction false} NoneStaleIsInTurn(s: State, acts: seq<Action>)
    requires ValidRun(s, acts) && NoneStale(s, acts)
    ensures RunFrom(s, acts).row == Serially(s.row, Changes(s, acts))
    decreases |acts|
  {
    if acts != [] {
      var rest := Changes(Apply(s, acts[0]), acts[1..]);
      NoneStaleIsInTurn(Apply(s, acts[0]), acts[1..]);
      assert !acts[0].Read? ==> Changes(s, acts)[1..] == rest;
    }
  }

  function EventsOf(changes: seq<Change>): seq<Event> {
    if changes == [] then []
    else (if changes[0].Recorded? then [changes[0].event] else []) + EventsOf(changes[1..])
  }

  lemma {:induction false} SeriallyIsInTurn(row: Row, changes: seq<Change>)
    requires forall i :: 0 <= i < |changes| ==> changes[i].Recorded?
    ensures Serially(row, changes) == InTurn(row, EventsOf(changes))
    decreases |changes|
  {
    if changes != [] {
      SeriallyIsInTurn(Changed(row, changes[0]), changes[1..]);
      assert EventsOf(changes)[1..] == EventsOf(changes[1..]);
    }
  }

  lemma {:induction false} OnlyEvents(s: State, acts: seq<Action>)
    requires ValidRun(s, acts) && forall k :: 0 <= k < |acts| ==> !acts[k].Patch?
    ensures forall i :: 0 <= i < |Changes(s, acts)| ==> Changes(s, acts)[i].Recorded?
    decreases |acts|
  {
    if acts != [] {
      OnlyEvents(Apply(s, acts[0]), acts[1..]);
    }
  }

  /** Without a PATCH the batch then ends in the latest of its stage and those signalled. */
  lemma NoneStaleEndsLatest(s: State, acts: seq<Action>)
    requires ValidRun(s, acts) && NoneStale(s, acts) && forall k :: 0 <= k < |acts| ==> !acts[k].Patch?
    ensures RunFrom(s, acts).row == InTurn(s.row, EventsOf(Changes(s, acts)))
    ensures IsLatest(s.row.stage, EventsOf(Changes(s, acts)), RunFrom(s, acts).row.stage)
  {
    NoneStaleIsInTurn(s, acts);
    OnlyEvents(s, acts);
    SeriallyIsInTurn(s.row, Changes(s, acts));
    InTurnIsLatest(s.row, EventsOf(Changes(s, acts)));
  }

  /** The step gives the batch this bottling time: a PATCH, or a write that moves it to bottled. */
  ghost predicate SetsBottledAt(s: State, act: Action, at: Option<int>)
    requires Enabled(s, act)
  {
    if act.Patch? then at.Some? && act.bottledAt == at else Apply(s, act).row == Row(Bottled, at)
  }

  ghost predicate SetsAt(s: State, acts: seq<Action>, n: nat, at: Option<int>)
    requires ValidRun(s, acts) && n < |acts|
  {
    StepAt(s, acts, n);
    SetsBottledAt(StateAt(s, acts, n), acts[n], at)
  }

  /** A bottled_at that a run leaves behind was given by a PATCH, or is the time of a bottling that happened in it. */
  lemma {:induction false} BottledAtWasBottled(s: State, acts: seq<Action>)
    requires ValidRun(s, acts)
    ensures var at := RunFrom(s, acts).row.bottledAt;
            at != s.row.bottledAt ==> exists n: nat :: n < |acts| && SetsAt(s, acts, n, at)
    decreases |acts|
  {
    if acts != [] {
      var next, at := Apply(s, acts[0]), RunFrom(s, acts).row.bottledAt;
      BottledAtWasBottled(next, acts[1..]);
      if at != next.row.bottledAt {
        var n: nat :| n < |acts[1..]| && SetsAt(next, acts[1..], n, at);
        StepAt(s, acts, n + 1);
        assert SetsAt(s, acts, n + 1, at);
      } else if at != s.row.bottledAt {
        if acts[0].Write? {
          BottledAtComesWithBottling(s, acts[0].request);
        }
        assert SetsAt(s, acts, 0, at);
      }
    }
  }

  ghost predicate Reaches(s: State, t: State) {
    exists acts :: ValidRun(s, acts) && RunFrom(s, acts) == t
  }

  lemma StepFirst(s: State, act: Action, t: State, u: State)
    requires Enabled(s, act) && Apply(s, act) == t && Reaches(t, u)
    ensures Reaches(s, u)
  {
    var rest :| ValidRun(t, rest) && RunFrom(t, rest) == u;
    assert ([act] + rest)[1..] == rest;
    assert ValidRun(s, [act] + rest) && RunFrom(s, [act] + rest) == u;
  }

  /** Racking and bottling recorded at once: the batch can end in secondary with a bottling time. */
  lemma OverlapLosesBottling(rackedAt: int, bottledAt: int)
    ensures Reaches(State(Row(Primary, None), map[]), State(Row(Secondary, Some(bottledAt)), map[]))
  {
    var rack, bottle := Event(Rack, rackedAt), Event(Bottle, bottledAt);
    var s0 := State(Row(Primary, None), map[]);
    var s1 := State(Row(Primary, None), map[0 := Pending(rack, Primary)]);
    var s2 := State(Row(Primary, None), map[0 := Pending(rack, Primary), 1 := Pending(bottle, Primary)]);
    var s3 := State(Row(Bottled, Some(bottledAt)), map[0 := Pending(rack, Primary)]);
    var s4 := State(Row(Secondary, Some(bottledAt)), map[]);
    assert ValidRun(s4, []) && RunFrom(s4, []) == s4;
    assert s2.requests - {1} == s3.requests && s3.requests - {0} == s4.requests;
    StepFirst(s3, Write(0), s4, s4);
    StepFirst(s2, Write(1), s3, s4);
    StepFirst(s1, Read(1, bottle), s2, s4);
    StepFirst(s0, Read(0, rack), s1, s4);
  }
}
