/** The reminder handlers, materializeTemplates and the dispatcher's tick as code over the tables. */
module ReminderHandlers {
  import opened Wrappers
  import opened ClaimQueue
  import Fresh
  import opened ReminderModel
  import opened ReminderSafety
  import opened Reconcile

  ghost predicate Steps(s: State, act: Action, t: State) {
    Enabled(s, act) && t == Apply(s, act)
  }

  lemma OneStep(s: State, act: Action, t: State)
    requires Steps(s, act, t)
    ensures Reaches(s, t)
  {
    Stays(t);
    StepFirst(s, act, t, t);
  }

  /** The templates outside `todo` have been looked at. */
  ghost predicate FitsSoFar(templates: Templates, reminders: Reminders, call: Call, ids: map<ReminderId, TemplateId>,
                            todo: set<TemplateId>)
  {
    && (forall r :: r in ids ==> r !in reminders && ids[r] !in todo && Missing(templates, reminders, call, ids[r]))
    && (forall r, q :: r in ids && q in ids && r != q ==> ids[r] != ids[q])
    && (forall t :: t !in todo && Missing(templates, reminders, call, t) ==> t in ids.Values)
  }

  lemma OneMoreRow(templates: Templates, reminders: Reminders, call: Call, ids: map<ReminderId, TemplateId>,
                   todo: set<TemplateId>, t: TemplateId, id: ReminderId)
    requires FitsSoFar(templates, reminders, call, ids, todo) && t in todo && Missing(templates, reminders, call, t)
    requires id !in ids && id !in reminders
    ensures FitsSoFar(templates, reminders, call, ids[id := t], todo - {t})
  {
    var more := ids[id := t];
    assert more[id] == t;
    forall q | q !in todo - {t} && Missing(templates, reminders, call, q)
      ensures q in more.Values
    {
      if q != t {
        var r :| r in ids && ids[r] == q;
        assert more[r] == q;
      }
    }
  }

  datatype Response = Done | NotFound | Unprocessable

  function ParseStatus(text: string): Option<Status> {
    if text == "scheduled" then Some(Scheduled)
    else if text == "snoozed" then Some(Snoozed)
    else if text == "completed" then Some(Completed)
    else if text == "dismissed" then Some(Dismissed)
    else None
  }

  /** The tick's claims that are still to be handled, and the notifications of those that were. */
  ghost predicate SameTick(tick: TickId, s: State, t: State) {
    && s.claims <= t.claims
    && forall k :: 0 <= k < |s.claims| && s.claims[k].tick == tick ==>
                     (k in t.handled <==> k in s.handled) && (k in t.notes <==> k in s.notes)
  }

  /** Each scheduled reminder of the anchor that was just inserted, or left alone since `mid`, is on time. */
  ghost predicate OnTimeUnlessTouched(mid: State, end: State, ids: map<ReminderId, TemplateId>, call: Call) {
    forall r :: r in end.reminders && Shifts(end.templates, call, end.reminders[r])
                && (r in ids || LeftAlone(mid, end, r))
                ==> end.reminders[r].fireAt == FireTime(end.templates[end.reminders[r].template.value], call)
  }

  /** Neither the row nor its template differs. */
  ghost predicate LeftAlone(mid: State, end: State, r: ReminderId) {
    && r in mid.reminders && r in end.reminders && mid.reminders[r] == end.reminders[r]
    && (end.reminders[r].template.Some? ==>
          var t := end.reminders[r].template.value;
          t in end.templates ==> t in mid.templates && mid.templates[t] == end.templates[t])
  }

  /** The two writes with nothing in between. */
  ghost predicate AttemptDone(s: State, end: State, call: Call, a: Attempt) {
    && Possible(s.templates, s.reminders, call, a)
    && end == s.(reminders := Attempted(s.templates, s.reminders, call, a))
    && (a.reanchors && a.materializes ==> OnTime(s.templates, call, end.reminders))
  }

  lemma FirstWrite(s: State, mid: State, call: Call, fails: bool)
    requires if fails then mid == s else Steps(s, Reanchor(call), mid)
    ensures Reaches(s, mid)
  {
    if fails {
      Stays(s);
    } else {
      OneStep(s, Reanchor(call), mid);
    }
  }

  lemma SecondWrite(late: State, end: State, call: Call, ids: map<ReminderId, TemplateId>, fails: bool)
    requires if fails then end == late else Steps(late, Materialize(call, ids), end)
    ensures Reaches(late, end)
    ensures !fails ==> AllLive(end.templates, call, end.reminders)
  {
    if fails {
      Stays(late);
    } else {
      OneStep(late, Materialize(call, ids), end);
      forall t | t in end.templates && Matches(end.templates[t], call)
        ensures HasLive(end.reminders, t, call.batch)
      {
        InsertedOrLive(late, end, call, ids, t);
      }
    }
  }

  lemma InsertedOrLive(late: State, end: State, call: Call, ids: map<ReminderId, TemplateId>, t: TemplateId)
    requires Steps(late, Materialize(call, ids), end) && t in end.templates && Matches(end.templates[t], call)
    ensures HasLive(end.reminders, t, call.batch)
  {
    if HasLive(late.reminders, t, call.batch) {
      var r :| r in late.reminders && LiveFor(late.reminders[r], t, call.batch);
      assert r !in ids;
      assert r in end.reminders && LiveFor(end.reminders[r], t, call.batch);
    } else {
      assert Missing(late.templates, late.reminders, call, t);
      var r :| r in ids && ids[r] == t;
      assert r in end.reminders && LiveFor(end.reminders[r], t, call.batch);
    }
  }

  lemma UntouchedAreOnTime(s: State, mid: State, late: State, end: State, call: Call, ids: map<ReminderId, TemplateId>)
    requires Steps(s, Reanchor(call), mid) && Steps(late, Materialize(call, ids), end)
    ensures OnTimeUnlessTouched(mid, end, ids, call)
  {
    forall r | r in end.reminders && Shifts(end.templates, call, end.reminders[r])
      && (r in ids || LeftAlone(mid, end, r))
      ensures end.reminders[r].fireAt == FireTime(end.templates[end.reminders[r].template.value], call)
    {
      if r in ids {
        assert end.reminders[r] == FreshRow(ids[r], late.templates[ids[r]], call);
      } else {
        assert mid.templates == s.templates && mid.reminders[r] == Shifted(s.templates, call, s.reminders[r]);
      }
    }
  }

  lemma NoneWanting(s: State, call: Call)
    requires AllLive(s.templates, call, s.reminders)
    ensures forall t :: !Wanting(s.templates, call, s.reminders, t)
  {
    forall t
      ensures !Wanting(s.templates, call, s.reminders, t)
    {
      WantingIsMissing(s.templates, s.reminders, call, t);
    }
  }

  lemma OnTimeInMinutes(mid: State, late: State, end: State, ids: map<ReminderId, TemplateId>, call: Call)
    requires OnTimeUnlessTouched(mid, end, ids, call) && Steps(late, Materialize(call, ids), end)
    ensures forall r :: r in end.reminders && OfAnchor(end.templates, call, end.reminders[r])
                        && (r !in late.reminders || LeftAlone(mid, end, r)) ==>
                          end.reminders[r].fireAt ==
                          call.anchorTime + end.templates[end.reminders[r].template.value].offsetMinutes * 60_000_000
  {
    forall r | r in end.reminders && OfAnchor(end.templates, call, end.reminders[r])
               && (r !in late.reminders || LeftAlone(mid, end, r))
      ensures end.reminders[r].fireAt ==
              call.anchorTime + end.templates[end.reminders[r].template.value].offsetMinutes * 60_000_000
    {
      assert Shifts(end.templates, call, end.reminders[r]);
      assert r !in late.reminders ==> r in ids;
    }
  }

  /** Each reminder taken is claimed by the tick, with the notification that says what the reminder says. */
  ghost predicate Announced(tick: TickId, reminders: Reminders, due: seq<ReminderId>, before: seq<Claim>,
                            claims: seq<Claim>)
  {
    && |before| + |due| <= |claims| && before <= claims
    && forall i :: 0 <= i < |due| ==>
         && due[i] in reminders
         && var r := reminders[due[i]];
            claims[|before| + i] == Claim(tick, Note(r.user, due[i], r.title, r.description, r.batch))
  }

  lemma QuietAttempt(s: State, mid: State, end: State, call: Call, a: Attempt)
    requires call.anchorTime == a.anchorTime
    requires if a.reanchors then Steps(s, Reanchor(call), mid) else mid == s
    requires if a.materializes then Steps(mid, Materialize(call, a.ids), end) else end == mid
    ensures AttemptDone(s, end, call, a)
  {
    assert CallOf(call, a) == call;
    if a.reanchors && a.materializes {
      SuccessReflectsAnchor(s.templates, call, s.reminders, a.ids);
    }
  }

  lemma NotesStayOk(s: State, t: State)
    requires NotesOk(s) && Reaches(s, t)
    ensures NotesOk(t)
  {
    var acts :| ValidRun(s, acts) && RunFrom(s, acts) == t;
    RunKeepsNotesOk(s, acts);
  }

  class Store {
    var templates: Templates
    var reminders: Reminders
    var claims: seq<Claim>
    var handled: set<nat>
    var notes: map<nat, Note>

    ghost function S(): State
      reads this
    {
      State(templates, reminders, claims, handled, notes)
    }

    constructor ()
      ensures S() == Empty()
    {
      templates, reminders, claims, handled, notes := map[], map[], [], {}, map[];
    }

    /** Any steps of anybody. The contract is all a caller may use. */
    method OthersAct()
      modifies this
      ensures Reaches(old(S()), S())
    {
      Stays(S());
    }

    /** Any steps of handlers and of other ticks. The contract is all a caller may use. */
    method Interfere(ghost tick: TickId)
      modifies this
      ensures Reaches(old(S()), S()) && SameTick(tick, old(S()), S())
    {
      Stays(S());
    }

    // --- Statements ---------------------------------------------------------------------------------

    /** `fails`: the database reports an error and nothing happens. */
    method ReanchorReminders(call: Call, fails: bool)
      modifies this
      ensures if fails then S() == old(S()) else Steps(old(S()), Reanchor(call), S())
      ensures !fails ==> ReanchoredTo(templates, call, old(reminders), reminders)
    {
      if !fails {
        ReanchorSpelled(templates, reminders, call);
        reminders := Reanchored(templates, reminders, call);
      }
    }

    /** The SELECT: one new id for each template of the call without a live reminder. */
    method SelectMissing(call: Call) returns (ids: map<ReminderId, TemplateId>)
      ensures IdsFit(templates, reminders, call, ids)
      ensures forall t :: t in ids.Values <==> Wanting(templates, call, reminders, t)
      ensures forall r :: r in ids ==> r !in reminders
    {
      ids := map[];
      var todo := templates.Keys;
      while todo != {}
        invariant todo <= templates.Keys && FitsSoFar(templates, reminders, call, ids, todo)
        decreases |todo|
      {
        var t :| t in todo;
        if Matches(templates[t], call) && !HasLive(reminders, t, call.batch) {
          var id := Fresh.UnusedId(reminders.Keys + ids.Keys);
          OneMoreRow(templates, reminders, call, ids, todo, t, id);
          ids := ids[id := t];
        }
        todo := todo - {t};
      }
      forall t
        ensures t in ids.Values <==> Wanting(templates, call, reminders, t)
      {
        WantingIsMissing(templates, reminders, call, t);
      }
    }

    method MaterializeReminderTemplates(call: Call, fails: bool) returns (ids: map<ReminderId, TemplateId>)
      modifies this
      ensures if fails then S() == old(S()) else Steps(old(S()), Materialize(call, ids), S())
      ensures !fails ==> InsertedFor(templates, call, old(reminders), reminders)
    {
      ids := map[];
      if !fails {
        ids := SelectMissing(call);
        MaterializeSpelled(templates, reminders, call, ids);
        reminders := Materialized(templates, reminders, call, ids);
      }
    }

    method ClaimDueReminders(tick: TickId, now: int, skipped: set<ReminderId>) returns (due: seq<ReminderId>)
      modifies this
      ensures Steps(old(S()), ClaimDue(tick, now, skipped, due), S())
      ensures EarliestDue(old(reminders), now, skipped, due)
      ensures forall r :: r in reminders <==> r in old(reminders)
      ensures forall r :: r in reminders ==>
                            reminders[r] == if r in due then old(reminders)[r].(status := Fired, firedAt := Some(now))
                                            else old(reminders)[r]
      ensures Announced(tick, old(reminders), due, old(claims), claims) && |claims| == |old(claims)| + |due|
    {
      ghost var batch;
      due, batch := SelectEarliest(ScheduledAt(reminders), Due(reminders, now) - skipped, CLAIM_LIMIT);
      assert ClaimFits(reminders, now, skipped, due);
      ClaimSpelled(reminders, now, skipped, due);
      var taken := ClaimsOf(tick, reminders, due);
      reminders := Fire(reminders, due, now);
      claims := claims + taken;
    }

    method CreateNotification(claim: nat, fails: bool)
      requires claim < |claims| && claim !in handled
      modifies this
      ensures Steps(old(S()), Notify(claim, !fails), S())
    {
      handled := handled + {claim};
      if !fails {
        notes := notes[claim := claims[claim].note];
      }
    }

    // --- Handlers -----------------------------------------------------------------------------------

    /**
     Both writes are best effort; without a recipe there is nothing to do. `mid` is the state the first write left
     and `late` the one the second found: between them others may act. If the second write succeeds, every template
     of the anchor has a live reminder, whatever came before. If both do, every scheduled reminder of the anchor is
     on time, except those that somebody touched in between. If nobody acted in between, the two writes are one
     attempt of `Reconcile`.
     */
    method MaterializeTemplates(batch: BatchId, user: UserId, recipe: Option<RecipeId>, anchor: Anchor, anchorTime: int,
                                firstFails: bool, secondFails: bool)
      returns (ids: map<ReminderId, TemplateId>, ghost mid: State, ghost late: State)
      modifies this
      ensures Reaches(old(S()), S())
      ensures recipe.None? ==> S() == old(S())
      ensures recipe.Some? ==>
                var call := Call(batch, user, recipe.value, anchor, anchorTime);
                && (if firstFails then mid == old(S()) else Steps(old(S()), Reanchor(call), mid))
                && Reaches(mid, late)
                && (if secondFails then S() == late else Steps(late, Materialize(call, ids), S()))
      ensures recipe.Some? && !firstFails ==>
                var call := Call(batch, user, recipe.value, anchor, anchorTime);
                mid.templates == old(templates) && ReanchoredTo(mid.templates, call, old(reminders), mid.reminders)
      ensures recipe.Some? && !secondFails ==>
                var call := Call(batch, user, recipe.value, anchor, anchorTime);
                && templates == late.templates && InsertedFor(templates, call, late.reminders, reminders)
                && forall t :: !Wanting(templates, call, reminders, t)
      ensures recipe.Some? && !firstFails && !secondFails ==>
                var call := Call(batch, user, recipe.value, anchor, anchorTime);
                forall r :: r in reminders && OfAnchor(templates, call, reminders[r])
                            && (r !in late.reminders || LeftAlone(mid, S(), r)) ==>
                              reminders[r].fireAt ==
                              anchorTime + templates[reminders[r].template.value].offsetMinutes * 60_000_000
      ensures recipe.Some? && !secondFails
              ==> AllLive(templates, Call(batch, user, recipe.value, anchor, anchorTime), reminders)
      ensures recipe.Some? && !firstFails && !secondFails ==>
                OnTimeUnlessTouched(mid, S(), ids, Call(batch, user, recipe.value, anchor, anchorTime))
      ensures recipe.Some? && mid == late ==>
                var call := Call(batch, user, recipe.value, anchor, anchorTime);
                AttemptDone(old(S()), S(), call, Attempt(anchorTime, !firstFails, !secondFails, ids))
    {
      ids, mid, late := map[], S(), S();
      Stays(S());
      if recipe.None? {
        return;
      }
      var call := Call(batch, user, recipe.value, anchor, anchorTime);
      ghost var s := S();
      ReanchorReminders(call, firstFails);
      mid := S();
      FirstWrite(s, mid, call, firstFails);
      OthersAct();
      late := S();
      Then(s, mid, late);
      ids := MaterializeReminderTemplates(call, secondFails);
      SecondWrite(late, S(), call, ids, secondFails);
      Then(s, late, S());
      if !secondFails {
        NoneWanting(S(), call);
      }
      if !firstFails && !secondFails {
        UntouchedAreOnTime(s, mid, late, S(), call, ids);
        OnTimeInMinutes(mid, late, S(), ids, call);
      }
      if mid == late {
        QuietAttempt(s, mid, S(), call, Attempt(anchorTime, !firstFails, !secondFails, ids));
      }
    }

    /** PATCH: only the listed statuses, and only the user's own reminder. */
    method HandleUpdateReminder(id: ReminderId, user: UserId, title: Option<string>, description: Option<string>,
                                fireAt: Option<int>, status: Option<string>, suggested: Option<EventKind>)
      returns (r: Response)
      modifies this
      ensures r == Unprocessable <==>
                status.Some? && status.value !in {"scheduled", "snoozed", "completed", "dismissed"}
      ensures r == NotFound <==> r != Unprocessable && !(id in old(reminders) && old(reminders)[id].user == user)
      ensures r == Done ==>
                && id in reminders && reminders == old(reminders)[id := reminders[id]]
                && var (was, now) := (old(reminders)[id], reminders[id]);
                   && now.title == (if title.Some? then title.value else was.title)
                   && now.description == (if description.Some? then description else was.description)
                   && now.fireAt == (if fireAt.Some? then fireAt.value else was.fireAt)
                   && now.suggested == (if suggested.Some? then suggested else was.suggested)
                   && (status.None? ==> now.status == was.status)
                   && (status == Some("scheduled") ==> now.status == Scheduled)
                   && (status == Some("snoozed") ==> now.status == Snoozed)
                   && (status == Some("completed") ==> now.status == Completed)
                   && (status == Some("dismissed") ==> now.status == Dismissed)
                   && now.user == was.user && now.batch == was.batch && now.template == was.template
                   && now.firedAt == was.firedAt
      ensures r == Done ==>
                var wanted := if status.Some? then ParseStatus(status.value) else None;
                Steps(old(S()), Update(id, user, Patch(title, description, fireAt, wanted, suggested)), S())
      ensures r != Done ==> S() == old(S())
    {
      var wanted := None;
      if status.Some? {
        wanted := ParseStatus(status.value);
        if wanted.None? {
          return Unprocessable;
        }
      }
      if id !in reminders || reminders[id].user != user {
        return NotFound;
      }
      reminders := reminders[id := Patched(reminders[id], Patch(title, description, fireAt, wanted, suggested))];
      r := Done;
    }

    /** DELETE cancels the user's reminder, unless it has fired or is completed. */
    method HandleDeleteReminder(id: ReminderId, user: UserId) returns (r: Response)
      modifies this
      ensures r == Done ==> Steps(old(S()), Cancel(id, user), S())
      ensures r == Done ==> reminders == old(reminders)[id := old(reminders)[id].(status := Cancelled)]
      ensures r != Done ==> r == NotFound && S() == old(S())
      ensures r == Done <==>
                id in old(reminders) && old(reminders)[id].user == user
                && !(old(reminders)[id].status in {Fired, Completed})
    {
      var found := id in reminders && reminders[id].user == user && reminders[id].status != Fired
        && reminders[id].status != Completed;
      if !found {
        return NotFound;
      }
      reminders := reminders[id := reminders[id].(status := Cancelled)];
      r := Done;
    }

    /**
     POST: a reminder of its own, tied to no template, for the user's own batch. `owners`: each batch's brewer when
     the handler asks. Between asking and the insert, which finds the state `late`, others may act.
     */
    method HandleCreateReminder(batch: BatchId, user: UserId, owners: map<BatchId, UserId>, title: string,
                                description: Option<string>, fireAt: int, suggested: Option<EventKind>)
      returns (r: Response, id: ReminderId, ghost late: State)
      modifies this
      ensures r == Unprocessable <==> title == ""
      ensures r == Done <==> title != "" && batch in owners && owners[batch] == user
      ensures Reaches(old(S()), late)
      ensures r == Done ==> Steps(late, Create(id, batch, user, title, description, fireAt, suggested), S())
      ensures r == Done ==>
                && id !in late.reminders
                && reminders == late.reminders[id := Reminder(Some(batch), user, None, title, description, fireAt,
                                                              Scheduled, None, suggested)]
      ensures r != Done ==> S() == late == old(S())
    {
      id, late := 0, S();
      Stays(late);
      if title == "" {
        r := Unprocessable;
        return;
      }
      if batch !in owners || owners[batch] != user {
        r := NotFound;
        return;
      }
      OthersAct();
      late := S();
      id := Fresh.UnusedId(reminders.Keys);
      reminders := reminders[id := Reminder(Some(batch), user, None, title, description, fireAt, Scheduled, None,
                                            suggested)];
      r := Done;
    }

    /** One notification of the tick, while others run. */
    method NotifyOne(tick: TickId, claim: nat, fails: bool)
      requires claim < |claims| && claim !in handled && claim !in notes && claims[claim].tick == tick
      modifies this
      ensures Reaches(old(S()), S()) && old(claims) <= claims
      ensures forall k :: 0 <= k < |old(claims)| && old(claims)[k].tick == tick ==>
                            && (k in handled <==> k in old(handled) || k == claim)
                            && (k in notes <==> k in old(notes) || (k == claim && !fails))
    {
      ghost var s := S();
      Interfere(tick);
      ghost var t := S();
      assert claims[claim] == s.claims[claim];
      CreateNotification(claim, fails);
      OneStep(t, Notify(claim, !fails), S());
      Then(s, t, S());
    }

    /** The tick owns the claims from `first` on and has come to the first `i` of them. */
    ghost predicate Progress(tick: TickId, first: nat, due: seq<ReminderId>, failing: set<ReminderId>, i: nat)
      reads this
    {
      && i <= |due| && first + |due| <= |claims|
      && (forall k :: first <= k < first + |due| ==> claims[k].tick == tick)
      && (forall k :: first <= k < first + i ==> k in handled && (k in notes <==> due[k - first] !in failing))
      && (forall k :: first + i <= k < first + |due| ==> k !in handled && k !in notes)
    }

    method NotifyNext(tick: TickId, first: nat, due: seq<ReminderId>, failing: set<ReminderId>, i: nat)
      requires i < |due| && Progress(tick, first, due, failing, i)
      modifies this
      ensures Reaches(old(S()), S()) && old(claims) <= claims
      ensures Progress(tick, first, due, failing, i + 1)
    {
      ghost var was := claims;
      NotifyOne(tick, first + i, due[i] in failing);
      assert forall k :: first <= k < first + |due| ==> claims[k] == was[k];
    }

    method NotifyAll(tick: TickId, first: nat, due: seq<ReminderId>, failing: set<ReminderId>)
      requires Progress(tick, first, due, failing, 0)
      modifies this
      ensures Reaches(old(S()), S()) && old(claims) <= claims
      ensures Progress(tick, first, due, failing, |due|)
    {
      ghost var s := S();
      Stays(s);
      var i := 0;
      while i < |due|
        invariant 0 <= i <= |due| && old(claims) <= claims && Reaches(s, S())
        invariant Progress(tick, first, due, failing, i)
      {
        ghost var t := S();
        NotifyNext(tick, first, due, failing, i);
        Then(s, t, S());
        i := i + 1;
      }
    }

    /**
     A tick: claim the earliest due reminders, then write one notification for each. `failing` are the ones
     whose notification the database refuses; the others get exactly theirs.
     */
    method Work(tick: TickId, now: int, skipped: set<ReminderId>, failing: set<ReminderId>)
      returns (due: seq<ReminderId>)
      requires NotesOk(S())
      modifies this
      ensures Reaches(old(S()), S()) && ClaimFits(old(reminders), now, skipped, due)
      ensures old(claims) + ClaimsOf(tick, old(reminders), due) <= claims
      ensures EarliestDue(old(reminders), now, skipped, due)
      ensures Announced(tick, old(reminders), due, old(claims), claims)
      ensures forall k :: k in notes ==> k < |claims| && notes[k] == claims[k].note
      ensures forall k :: |old(claims)| <= k < |old(claims)| + |due| ==>
                            k in handled && (k in notes <==> due[k - |old(claims)|] !in failing)
    {
      ghost var s := S();
      var first := |claims|;
      due := ClaimDueReminders(tick, now, skipped);
      ghost var t := S();
      OneStep(s, ClaimDue(tick, now, skipped, due), t);
      NotifyAll(tick, first, due, failing);
      Then(s, t, S());
      NotesStayOk(s, S());
    }
  }
}
