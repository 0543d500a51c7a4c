/** At most one live reminder per template and batch, and at most one notification per firing. */
module ReminderSafety {
  import opened Wrappers
  import opened ClaimQueue
  import opened Collections
  import opened ReminderModel

  // --- One live reminder ------------------------------------------------------------------------------

  /** Two reminders of one template and one batch, neither cancelled nor dismissed. */
  predicate Twins(a: Reminder, b: Reminder) {
    a.template.Some? && a.batch.Some? && a.template == b.template && a.batch == b.batch && !Dead(a.status)
      && !Dead(b.status)
  }

  ghost predicate OneLive(reminders: Reminders) {
    forall r, q :: r in reminders && q in reminders && r != q ==> !Twins(reminders[r], reminders[q])
  }

  /** A PATCH that brings a cancelled or dismissed reminder back while its template and batch have a live one. */
  ghost predicate Revives(s: State, act: Action) {
    && act.Update? && act.id in s.reminders && Dead(s.reminders[act.id].status)
    && act.patch.status.Some? && !Dead(act.patch.status.value)
    && s.reminders[act.id].template.Some? && s.reminders[act.id].batch.Some?
    && HasLive(s.reminders, s.reminders[act.id].template.value, s.reminders[act.id].batch.value)
  }

  lemma MaterializeKeepsOneLive(s: State, call: Call, ids: map<ReminderId, TemplateId>)
    requires OneLive(s.reminders) && Enabled(s, Materialize(call, ids))
    ensures OneLive(Apply(s, Materialize(call, ids)).reminders)
  {
    var after := Materialized(s.templates, s.reminders, call, ids);
    forall r, q | r in after && q in after && r != q
      ensures !Twins(after[r], after[q])
    {
      if r in ids && q !in ids {
        assert Missing(s.templates, s.reminders, call, ids[r]);
        assert !LiveFor(s.reminders[q], ids[r], call.batch);
      } else if q in ids && r !in ids {
        assert Missing(s.templates, s.reminders, call, ids[q]);
        assert !LiveFor(s.reminders[r], ids[q], call.batch);
      }
    }
  }

  /** Updating one row's status to a dead one, or not at all, makes no twins. */
  lemma OneRowKeepsOneLive(reminders: Reminders, id: ReminderId, r: Reminder)
    requires OneLive(reminders) && id in reminders
    requires r.template == reminders[id].template && r.batch == reminders[id].batch
    requires Dead(r.status) || !Dead(reminders[id].status)
    ensures OneLive(reminders[id := r])
  {
    var after := reminders[id := r];
    forall p, q | p in after && q in after && p != q
      ensures !Twins(after[p], after[q])
    {
      assert !Twins(reminders[p], reminders[q]);
    }
  }

  lemma BulkKeepsOneLive(reminders: Reminders, after: Reminders)
    requires OneLive(reminders) && after.Keys == reminders.Keys
    requires forall r :: r in reminders ==>
               && after[r].template == reminders[r].template && after[r].batch == reminders[r].batch
               && (Dead(reminders[r].status) ==> Dead(after[r].status))
    ensures OneLive(after)
  {
    forall p, q | p in after && q in after && p != q
      ensures !Twins(after[p], after[q])
    {
      assert !Twins(reminders[p], reminders[q]);
    }
  }

  lemma ReviveMakesTwins(s: State, act: Action)
    requires Enabled(s, act) && Revives(s, act)
    ensures !OneLive(Apply(s, act).reminders)
  {
    var r := s.reminders[act.id];
    var q :| q in s.reminders && LiveFor(s.reminders[q], r.template.value, r.batch.value);
    var after := Apply(s, act).reminders;
    assert after[act.id] == Patched(r, act.patch) && after[q] == s.reminders[q];
    assert Twins(after[act.id], after[q]);
  }

  lemma LoneRevival(s: State, act: Action)
    requires OneLive(s.reminders) && Enabled(s, act) && act.Update? && !Revives(s, act)
    requires act.patch.status.Some? && !Dead(act.patch.status.value) && Dead(s.reminders[act.id].status)
    ensures OneLive(Apply(s, act).reminders)
  {
    var after := Apply(s, act).reminders;
    forall p, q | p in after && q in after && p != q
      ensures !Twins(after[p], after[q])
    {
      var r := s.reminders[act.id];
      assert after[act.id].template == r.template && after[act.id].batch == r.batch;
      if r.template.Some? && r.batch.Some? {
        assert !HasLive(s.reminders, r.template.value, r.batch.value);
        assert !LiveFor(s.reminders[p], r.template.value, r.batch.value);
        assert !LiveFor(s.reminders[q], r.template.value, r.batch.value);
      }
      assert p != act.id && q != act.id ==> !Twins(s.reminders[p], s.reminders[q]);
    }
  }

  lemma QuietStepKeepsOneLive(s: State, act: Action)
    requires OneLive(s.reminders) && Enabled(s, act) && !Revives(s, act)
    ensures OneLive(Apply(s, act).reminders)
  {
    match act
    case PutTemplate(_, _) =>
    case Materialize(call, ids) => MaterializeKeepsOneLive(s, call, ids);
    case Reanchor(call) => BulkKeepsOneLive(s.reminders, Reanchored(s.templates, s.reminders, call));
    case Create(_, _, _, _, _, _, _) =>
    case Update(id, _, patch) =>
      if patch.status.Some? && !Dead(patch.status.value) && Dead(s.reminders[id].status) {
        LoneRevival(s, act);
      } else {
        OneRowKeepsOneLive(s.reminders, id, Patched(s.reminders[id], patch));
      }
    case Cancel(id, _) => OneRowKeepsOneLive(s.reminders, id, s.reminders[id].(status := Cancelled));
    case ClaimDue(_, now, _, order) => FireKeepsOneLive(s.reminders, order, now);
    case Notify(_, _) =>
  }

  lemma FireKeepsOneLive(reminders: Reminders, order: seq<ReminderId>, now: int)
    requires OneLive(reminders) && forall id :: id in order ==> id in reminders && reminders[id].status == Scheduled
    ensures OneLive(Fire(reminders, order, now))
  {
    BulkKeepsOneLive(reminders, Fire(reminders, order, now));
  }

  /**
   A step from a state with at most one live reminder per template and batch leads to another such state,
   unless it is a PATCH that revives a dead reminder beside a live one; then it never does.
   */
  lemma OneLiveIff(s: State, act: Action)
    requires OneLive(s.reminders) && Enabled(s, act)
    ensures OneLive(Apply(s, act).reminders) <==> !Revives(s, act)
  {
    if Revives(s, act) {
      ReviveMakesTwins(s, act);
    } else {
      QuietStepKeepsOneLive(s, act);
    }
  }

  /** No step of the run is such a PATCH. */
  ghost predicate NoRevival(s: State, acts: seq<Action>)
    requires ValidRun(s, acts)
    decreases |acts|
  {
    acts == [] || (!Revives(s, acts[0]) && NoRevival(Apply(s, acts[0]), acts[1..]))
  }

  lemma {:induction false} RunsKeepOneLive(s: State, acts: seq<Action>)
    requires OneLive(s.reminders) && ValidRun(s, acts) && NoRevival(s, acts)
    ensures OneLive(RunFrom(s, acts).reminders)
    decreases |acts|
  {
    if acts != [] {
      OneLiveIff(s, acts[0]);
      RunsKeepOneLive(Apply(s, acts[0]), acts[1..]);
    }
  }

  // --- Notifications ----------------------------------------------------------------------------------

  /** Claims of one reminder. */
  function Firings(claims: seq<Claim>, id: ReminderId): nat {
    if claims == [] then 0
    else Firings(claims[..|claims| - 1], id) + (if claims[|claims| - 1].note.reminder == id then 1 else 0)
  }

  /** Notifications written for one reminder. */
  function NotesOf(notes: map<nat, Note>, id: ReminderId): set<nat> {
    set k | k in notes && notes[k].reminder == id
  }

  /** Each notification belongs to a claim, and no claim that is still to be handled has one. */
  ghost predicate NotesOk(s: State) {
    && (forall k :: k in s.handled ==> k < |s.claims|)
    && (forall k :: k in s.notes ==> k in s.handled && s.notes[k] == s.claims[k].note)
  }

  lemma StepKeepsNotesOk(s: State, act: Action)
    requires NotesOk(s) && Enabled(s, act)
    ensures NotesOk(Apply(s, act))
  {
  }

  lemma {:induction false} RunKeepsNotesOk(s: State, acts: seq<Action>)
    requires NotesOk(s) && ValidRun(s, acts)
    ensures NotesOk(RunFrom(s, acts))
    decreases |acts|
  {
    if acts != [] {
      StepKeepsNotesOk(s, acts[0]);
      RunKeepsNotesOk(Apply(s, acts[0]), acts[1..]);
    }
  }

  function ClaimsBelow(claims: seq<Claim>, id: ReminderId): set<nat> {
    set k | k in Indices(|claims|) && claims[k].note.reminder == id
  }

  function Indices(n: nat): (s: set<nat>)
    ensures forall k: nat :: k in s <==> k < n
  {
    if n == 0 then {} else Indices(n - 1) + {n - 1}
  }

  lemma {:induction false} FiringsCount(claims: seq<Claim>, id: ReminderId)
    ensures |ClaimsBelow(claims, id)| == Firings(claims, id)
    decreases |claims|
  {
    if claims != [] {
      var n := |claims| - 1;
      FiringsCount(claims[..n], id);
      if claims[n].note.reminder == id {
        assert ClaimsBelow(claims, id) == ClaimsBelow(claims[..n], id) + {n};
      } else {
        assert ClaimsBelow(claims, id) == ClaimsBelow(claims[..n], id);
      }
    }
  }

  /** A reminder is never notified more often than it fired. */
  lemma NotesWithinFirings(s: State, id: ReminderId)
    requires NotesOk(s)
    ensures |NotesOf(s.notes, id)| <= Firings(s.claims, id)
  {
    FiringsCount(s.claims, id);
    assert NotesOf(s.notes, id) <= ClaimsBelow(s.claims, id);
    Subset(NotesOf(s.notes, id), ClaimsBelow(s.claims, id));
  }

  /** Firings still open to the reminder without another PATCH: one before it exists or while it is scheduled. */
  function Charge(s: State, id: ReminderId): nat {
    if id in s.reminders && s.reminders[id].status != Scheduled then 0 else 1
  }

  /** The step is a PATCH that puts this reminder back to scheduled. */
  predicate Reschedules(s: State, act: Action, id: ReminderId) {
    && act.Update? && act.id == id && act.patch.status == Some(Scheduled)
    && id in s.reminders && s.reminders[id].status != Scheduled
  }

  ghost function Rescheduled(s: State, acts: seq<Action>, id: ReminderId): nat
    requires ValidRun(s, acts)
    decreases |acts|
  {
    if acts == [] then 0
    else (if Reschedules(s, acts[0], id) then 1 else 0) + Rescheduled(Apply(s, acts[0]), acts[1..], id)
  }

  lemma {:induction false} FiringsAdd(claims: seq<Claim>, more: seq<Claim>, id: ReminderId)
    ensures Firings(claims + more, id) == Firings(claims, id) + Firings(more, id)
    decreases |more|
  {
    if more == [] {
      assert claims + more == claims;
    } else {
      FiringsAdd(claims, more[..|more| - 1], id);
      assert (claims + more)[..|claims + more| - 1] == claims + more[..|more| - 1];
    }
  }

  /** One claim takes a reminder once, if it was scheduled, and not at all otherwise. */
  lemma {:induction false} ClaimFiresOnce(tick: TickId, reminders: Reminders, order: seq<ReminderId>,
                                          batch: set<ReminderId>, id: ReminderId)
    requires Lists(order, batch) && forall r :: r in order ==> r in reminders
    ensures Firings(ClaimsOf(tick, reminders, order), id) == if id in batch then 1 else 0
    decreases |order|
  {
    if order != [] {
      var n := |order| - 1;
      var rest := order[..n];
      forall r
        ensures r in rest <==> r in batch - {order[n]}
      {
        assert r in order <==> r in rest || r == order[n];
      }
      assert Lists(rest, batch - {order[n]});
      assert ClaimsOf(tick, reminders, order)[..n] == ClaimsOf(tick, reminders, rest);
      ClaimFiresOnce(tick, reminders, rest, batch - {order[n]}, id);
      assert order[n] in order;
    }
  }

  lemma ClaimSpendsCharge(s: State, act: Action, id: ReminderId)
    requires Enabled(s, act) && act.ClaimDue?
    ensures Firings(Apply(s, act).claims, id) + Charge(Apply(s, act), id) <= Firings(s.claims, id) + Charge(s, id)
  {
    var batch :| EarliestBatch(ScheduledAt(s.reminders), Due(s.reminders, act.now) - act.skipped, CLAIM_LIMIT, batch)
                 && Lists(act.order, batch);
    FiringsAdd(s.claims, ClaimsOf(act.tick, s.reminders, act.order), id);
    ClaimFiresOnce(act.tick, s.reminders, act.order, batch, id);
    assert id in act.order <==> id in batch;
    assert id in batch ==> id in s.reminders && s.reminders[id].status == Scheduled;
  }

  lemma StepSpendsCharge(s: State, act: Action, id: ReminderId)
    requires Enabled(s, act)
    ensures var t := Apply(s, act);
            Firings(t.claims, id) + Charge(t, id)
              <= Firings(s.claims, id) + Charge(s, id) + (if Reschedules(s, act, id) then 1 else 0)
  {
    if act.ClaimDue? {
      ClaimSpendsCharge(s, act, id);
    }
  }

  lemma {:induction false} RunSpendsCharge(s: State, acts: seq<Action>, id: ReminderId)
    requires ValidRun(s, acts)
    ensures var t := RunFrom(s, acts);
            Firings(t.claims, id) + Charge(t, id) <= Firings(s.claims, id) + Charge(s, id) + Rescheduled(s, acts, id)
    decreases |acts|
  {
    if acts != [] {
      StepSpendsCharge(s, acts[0], id);
      RunSpendsCharge(Apply(s, acts[0]), acts[1..], id);
    }
  }

  /**
   However ticks, cancels, PATCHes and materialisations interleave, a reminder gets at most one notification
   more than there were PATCHes that put it back to scheduled.
   */
  lemma NotificationsBounded(acts: seq<Action>, id: ReminderId)
    requires ValidRun(Empty(), acts)
    ensures |NotesOf(RunFrom(Empty(), acts).notes, id)| <= 1 + Rescheduled(Empty(), acts, id)
  {
    RunKeepsNotesOk(Empty(), acts);
    NotesWithinFirings(RunFrom(Empty(), acts), id);
    RunSpendsCharge(Empty(), acts, id);
  }

  // --- Draining -----------------------------------------------------------------------------------------

  /** Only dispatchers run; no row is locked by anybody else and no tick's clock is behind `now`. */
  ghost predicate OnlyTicks(acts: seq<Action>, now: int) {
    forall i :: 0 <= i < |acts| ==>
                  || acts[i].Notify?
                  || (acts[i].ClaimDue? && acts[i].skipped == {} && acts[i].now >= now)
  }

  function ClaimCount(acts: seq<Action>): nat {
    if acts == [] then 0 else (if acts[0].ClaimDue? then 1 else 0) + ClaimCount(acts[1..])
  }

  function Less(n: nat, m: nat): nat {
    if n > m then n - m else 0
  }

  lemma FiredIsNotDue(reminders: Reminders, order: seq<ReminderId>, batch: set<ReminderId>, at: int, now: int)
    requires Lists(order, batch)
    ensures Due(Fire(reminders, order, at), now) == Due(reminders, now) - batch
  {
    var after := Fire(reminders, order, at);
    forall id
      ensures id in Due(after, now) <==> id in Due(reminders, now) && id !in batch
    {
      assert id in order <==> id in batch;
    }
  }

  lemma BatchDrains(reminders: Reminders, order: seq<ReminderId>, batch: set<ReminderId>, at: int, now: int)
    requires Lists(order, batch) && now <= at
    requires EarliestBatch(ScheduledAt(reminders), Due(reminders, at), CLAIM_LIMIT, batch)
    ensures |Due(Fire(reminders, order, at), now)| == Less(|Due(reminders, now)|, CLAIM_LIMIT)
  {
    FiredIsNotDue(reminders, order, batch, at, now);
    EarlierDueFirst(ScheduledAt(reminders), now, at, CLAIM_LIMIT, batch);
  }

  lemma ClaimDrains(s: State, act: Action, now: int)
    requires Enabled(s, act) && act.ClaimDue? && act.skipped == {} && act.now >= now
    ensures |Due(Apply(s, act).reminders, now)| == Less(|Due(s.reminders, now)|, CLAIM_LIMIT)
  {
    assert Due(s.reminders, act.now) - act.skipped == Due(s.reminders, act.now);
    var batch :| EarliestBatch(ScheduledAt(s.reminders), Due(s.reminders, act.now), CLAIM_LIMIT, batch)
      && Lists(act.order, batch);
    BatchDrains(s.reminders, act.order, batch, act.now, now);
  }

  /**
   A hundred at a time, earliest first: after c claims, k reminders that were due at `now` are down to k - 100c.
   So they drain in ceil(k / 100) ticks and not in fewer, whatever falls due meanwhile.
   */
  lemma {:induction false} TicksDrain(s: State, acts: seq<Action>, now: int)
    requires ValidRun(s, acts) && OnlyTicks(acts, now)
    ensures |Due(RunFrom(s, acts).reminders, now)| == Less(|Due(s.reminders, now)|, 100 * ClaimCount(acts))
    decreases |acts|
  {
    if acts != [] {
      var t := Apply(s, acts[0]);
      if acts[0].ClaimDue? {
        ClaimDrains(s, acts[0], now);
      }
      assert forall i :: 0 <= i < |acts[1..]| ==> acts[1..][i] == acts[i + 1];
      TicksDrain(t, acts[1..], now);
    }
  }

  lemma DrainedIff(s: State, acts: seq<Action>, now: int)
    requires ValidRun(s, acts) && OnlyTicks(acts, now)
    ensures Due(RunFrom(s, acts).reminders, now) == {}
            <==> ClaimCount(acts) >= (|Due(s.reminders, now)| + 99) / 100
  {
    TicksDrain(s, acts, now);
    assert |Due(RunFrom(s, acts).reminders, now)| == 0 <==> Due(RunFrom(s, acts).reminders, now) == {};
  }

  // --- A revival that makes twins ---------------------------------------------------------------------

  const CALL := Call(0, 0, 0, Pitch, 0)
  const RACK := Template(0, "rack", None, Pitch, 0, None)

  ghost predicate Reaches(s: State, t: State) {
    exists acts :: ValidRun(s, acts) && RunFrom(s, acts) == t
  }

  lemma Stays(s: State)
    ensures Reaches(s, s)
  {
    assert ValidRun(s, []) && RunFrom(s, []) == s;
  }

  lemma StepFirst(s: State, act: Action, t: State, u: State)
    requires Enabled(s, act) && Apply(s, act) == t && Reaches(t, u)
    ensures Reaches(s, u)
  {
    var rest :| ValidRun(t, rest) && RunFrom(t, rest) == u;
    assert ([act] + rest)[1..] == rest;
    assert ValidRun(s, [act] + rest) && RunFrom(s, [act] + rest) == u;
  }

  function With(reminders: Reminders): State {
    State(map[0 := RACK], reminders, [], {}, map[])
  }

  function Row(): Reminder {
    FreshRow(0, RACK, CALL)
  }

  /** The template's reminder, once as it was inserted and once cancelled with a second one beside it. */
  function Single(): State {
    With(map[0 := Row()])
  }

  function Replaced(): State {
    With(map[0 := Row().(status := Cancelled), 1 := Row()])
  }

  lemma TemplateMaterializes()
    ensures Reaches(Empty(), Single())
  {
    Stays(Single());
    assert Missing(With(map[]).templates, map[], CALL, 0);
    assert map[0 := 0 as TemplateId].Values == {0} by { assert 0 in map[0 := 0 as TemplateId]; }
    StepFirst(With(map[]), Materialize(CALL, map[0 := 0]), Single(), Single());
    StepFirst(Empty(), PutTemplate(0, RACK), With(map[]), Single());
  }

  lemma CancelledIsReplaced()
    ensures Reaches(Single(), Replaced())
  {
    var cancelled := With(map[0 := Row().(status := Cancelled)]);
    Stays(Replaced());
    assert Missing(cancelled.templates, cancelled.reminders, CALL, 0);
    assert map[1 := 0 as TemplateId].Values == {0} by { assert 1 in map[1 := 0 as TemplateId]; }
    StepFirst(cancelled, Materialize(CALL, map[1 := 0]), Replaced(), Replaced());
    StepFirst(Single(), Cancel(0, 0), cancelled, Replaced());
  }

  lemma {:induction false} ReachesOn(s: State, acts: seq<Action>, t: State, u: State)
    requires ValidRun(s, acts) && RunFrom(s, acts) == t && Reaches(t, u)
    ensures Reaches(s, u)
    decreases |acts|
  {
    if acts != [] {
      ReachesOn(Apply(s, acts[0]), acts[1..], t, u);
      StepFirst(s, acts[0], Apply(s, acts[0]), u);
    }
  }

  lemma Then(s: State, t: State, u: State)
    requires Reaches(s, t) && Reaches(t, u)
    ensures Reaches(s, u)
  {
    var acts :| ValidRun(s, acts) && RunFrom(s, acts) == t;
    ReachesOn(s, acts, t, u);
  }

  /** Cancel a reminder, let the template materialise again, PATCH the first one back to scheduled. */
  lemma RevivalMakesTwins()
    ensures exists s :: Reaches(Empty(), s) && !OneLive(s.reminders)
  {
    var both := With(map[0 := Row(), 1 := Row()]);
    assert Twins(both.reminders[0], both.reminders[1]);
    assert Reaches(Replaced(), both) by {
      Stays(both);
      StepFirst(Replaced(), Update(0, 0, Patch(None, None, None, Some(Scheduled), None)), both, both);
    }
    CancelledIsReplaced();
    TemplateMaterializes();
    Then(Single(), Replaced(), both);
    Then(Empty(), Single(), both);
  }
}
