/**
 materializeTemplates: two writes without a shared transaction, either of which may fail.

 Whatever a history of such calls for one batch and anchor left behind, one call whose writes both succeed
 brings the reminders to where that call alone would have brought them, up to the ids of the new rows.
 */
module Reconcile {
  import opened Wrappers
  import opened ReminderModel

  /** One call of a history: its anchor time, which writes went through, and the ids of the rows it inserted. */
  datatype Attempt = Attempt(anchorTime: int, reanchors: bool, materializes: bool, ids: map<ReminderId, TemplateId>)

  function CallOf(call: Call, a: Attempt): Call {
    call.(anchorTime := a.anchorTime)
  }

  function AfterFirst(templates: Templates, reminders: Reminders, call: Call, a: Attempt): Reminders {
    if a.reanchors then Reanchored(templates, reminders, CallOf(call, a)) else reminders
  }

  ghost predicate Possible(templates: Templates, reminders: Reminders, call: Call, a: Attempt) {
    a.materializes ==> IdsFit(templates, AfterFirst(templates, reminders, call, a), CallOf(call, a), a.ids)
  }

  ghost function Attempted(templates: Templates, reminders: Reminders, call: Call, a: Attempt): Reminders
    requires Possible(templates, reminders, call, a)
  {
    var first := AfterFirst(templates, reminders, call, a);
    if a.materializes then Materialized(templates, first, CallOf(call, a), a.ids) else first
  }

  ghost predicate History(templates: Templates, reminders: Reminders, call: Call, calls: seq<Attempt>)
    decreases |calls|
  {
    calls == [] || (Possible(templates, reminders, call, calls[0])
                    && History(templates, Attempted(templates, reminders, call, calls[0]), call, calls[1..]))
  }

  ghost function After(templates: Templates, reminders: Reminders, call: Call, calls: seq<Attempt>): Reminders
    requires History(templates, reminders, call, calls)
    decreases |calls|
  {
    if calls == [] then reminders
    else After(templates, Attempted(templates, reminders, call, calls[0]), call, calls[1..])
  }

  // --- What a history can have done ------------------------------------------------------------------

  /** An original row differs at most in fire_at, and only if re-anchoring may touch it. */
  predicate Touched(templates: Templates, call: Call, was: Reminder, now: Reminder) {
    if Shifts(templates, call, was) then now == was.(fireAt := now.fireAt) else now == was
  }

  /** A row for template t as some call of the history made or moved it. */
  predicate NewRow(templates: Templates, call: Call, t: TemplateId, now: Reminder) {
    t in templates && now == FreshRow(t, templates[t], call).(fireAt := now.fireAt)
  }

  ghost predicate OldRowsTouched(templates: Templates, call: Call, start: Reminders, now: Reminders) {
    start.Keys <= now.Keys && forall r :: r in start ==> Touched(templates, call, start[r], now[r])
  }

  /** The new rows are for templates that were missing at the start, one each. */
  ghost predicate NewRowsFit(templates: Templates, call: Call, start: Reminders, now: Reminders) {
    && (forall r :: r in now && r !in start ==>
                      && now[r].template.Some? && NewRow(templates, call, now[r].template.value, now[r])
                      && Missing(templates, start, call, now[r].template.value))
    && (forall r, q :: r in now && q in now && r !in start && q !in start && r != q ==>
          now[r].template != now[q].template)
  }

  ghost predicate Partly(templates: Templates, call: Call, start: Reminders, now: Reminders) {
    OldRowsTouched(templates, call, start, now) && NewRowsFit(templates, call, start, now)
  }

  lemma TouchedMeansSameLiveness(templates: Templates, call: Call, was: Reminder, now: Reminder, t: TemplateId)
    requires Touched(templates, call, was, now)
    ensures LiveFor(now, t, call.batch) <==> LiveFor(was, t, call.batch)
  {
  }

  /** A template is missing now exactly if it was missing at the start and got no row since. */
  lemma MissingNow(templates: Templates, call: Call, start: Reminders, now: Reminders, t: TemplateId)
    requires Partly(templates, call, start, now)
    ensures Missing(templates, now, call, t) <==>
            Missing(templates, start, call, t) && forall r :: r in now && r !in start ==> now[r].template != Some(t)
  {
    if HasLive(start, t, call.batch) {
      var r :| r in start && LiveFor(start[r], t, call.batch);
      TouchedMeansSameLiveness(templates, call, start[r], now[r], t);
      assert r in now && LiveFor(now[r], t, call.batch);
    }
    if HasLive(now, t, call.batch) {
      var r :| r in now && LiveFor(now[r], t, call.batch);
      if r in start {
        TouchedMeansSameLiveness(templates, call, start[r], now[r], t);
        assert LiveFor(start[r], t, call.batch);
      }
    }
    forall r | r in now && r !in start && now[r].template == Some(t)
      ensures HasLive(now, t, call.batch)
    {
      assert LiveFor(now[r], t, call.batch);
    }
  }

  lemma ReanchorKeepsPartly(templates: Templates, call: Call, start: Reminders, now: Reminders, time: int)
    requires Partly(templates, call, start, now)
    ensures Partly(templates, call, start, Reanchored(templates, now, call.(anchorTime := time)))
  {
    var after := Reanchored(templates, now, call.(anchorTime := time));
    forall r | r in now
      ensures after[r] == now[r].(fireAt := after[r].fireAt)
      ensures r in start && !Shifts(templates, call, start[r]) ==> after[r] == now[r]
    {
    }
  }

  lemma MaterializeKeepsPartly(templates: Templates, call: Call, start: Reminders, now: Reminders, time: int,
                               ids: map<ReminderId, TemplateId>)
    requires Partly(templates, call, start, now) && IdsFit(templates, now, call.(anchorTime := time), ids)
    ensures Partly(templates, call, start, Materialized(templates, now, call.(anchorTime := time), ids))
  {
    var call2 := call.(anchorTime := time);
    var after := Materialized(templates, now, call2, ids);
    forall r | r in ids
      ensures NewRow(templates, call, ids[r], after[r]) && Missing(templates, start, call, ids[r])
      ensures forall q :: q in now && q !in start ==> now[q].template != Some(ids[r])
    {
      assert Missing(templates, now, call2, ids[r]);
      assert Missing(templates, now, call, ids[r]);
      MissingNow(templates, call, start, now, ids[r]);
    }
  }

  lemma AttemptKeepsPartly(templates: Templates, call: Call, start: Reminders, now: Reminders, a: Attempt)
    requires Partly(templates, call, start, now) && Possible(templates, now, call, a)
    ensures Partly(templates, call, start, Attempted(templates, now, call, a))
  {
    if a.reanchors {
      ReanchorKeepsPartly(templates, call, start, now, a.anchorTime);
    }
    if a.materializes {
      MaterializeKeepsPartly(templates, call, start, AfterFirst(templates, now, call, a), a.anchorTime, a.ids);
    }
  }

  lemma {:induction false} HistoryKeepsPartly(templates: Templates, call: Call, start: Reminders, now: Reminders,
                                              calls: seq<Attempt>)
    requires Partly(templates, call, start, now) && History(templates, now, call, calls)
    ensures Partly(templates, call, start, After(templates, now, call, calls))
    decreases |calls|
  {
    if calls != [] {
      AttemptKeepsPartly(templates, call, start, now, calls[0]);
      HistoryKeepsPartly(templates, call, start, Attempted(templates, now, call, calls[0]), calls[1..]);
    }
  }

  // --- What one full success does ------------------------------------------------------------------------

  /** Inserted since `start`. */
  predicate New(start: Reminders, now: Reminders, r: ReminderId) {
    r in now && r !in start
  }

  /** Exactly what a full success makes of `start`: the old rows re-anchored and one row per missing template. */
  ghost predicate Settled(templates: Templates, call: Call, start: Reminders, now: Reminders) {
    && (forall r {:trigger Shifted(templates, call, start[r])} ::
          r in start ==> r in now && now[r] == Shifted(templates, call, start[r]))
    && (forall r :: New(start, now, r) ==> SettledRow(templates, call, start, now[r]))
    && (forall r, q :: New(start, now, r) && New(start, now, q) && r != q ==> now[r].template != now[q].template)
    && (forall t {:trigger HasNew(start, now, t)} :: Missing(templates, start, call, t) ==> HasNew(start, now, t))
  }

  ghost predicate SettledRow(templates: Templates, call: Call, start: Reminders, r: Reminder) {
    r.template.Some? && Missing(templates, start, call, r.template.value)
    && r == FreshRow(r.template.value, templates[r.template.value], call)
  }

  ghost predicate HasNew(start: Reminders, now: Reminders, t: TemplateId) {
    exists r :: New(start, now, r) && now[r].template == Some(t)
  }

  /** The database finished: call 1 re-anchored, call 2 inserted. */
  ghost predicate Succeeds(templates: Templates, reminders: Reminders, call: Call, ids: map<ReminderId, TemplateId>) {
    IdsFit(templates, Reanchored(templates, reminders, call), call, ids)
  }

  ghost function Success(templates: Templates, reminders: Reminders, call: Call,
                         ids: map<ReminderId, TemplateId>): Reminders
    requires Succeeds(templates, reminders, call, ids)
  {
    Materialized(templates, Reanchored(templates, reminders, call), call, ids)
  }

  lemma SuccessSettlesOldRow(templates: Templates, call: Call, start: Reminders, now: Reminders,
                             ids: map<ReminderId, TemplateId>, r: ReminderId)
    requires Partly(templates, call, start, now) && Succeeds(templates, now, call, ids) && r in start
    ensures var end := Success(templates, now, call, ids); r in end && end[r] == Shifted(templates, call, start[r])
  {
    assert Touched(templates, call, start[r], now[r]);
    assert r in Reanchored(templates, now, call) && r !in ids;
  }

  lemma SuccessSettlesNewRow(templates: Templates, call: Call, start: Reminders, now: Reminders,
                             ids: map<ReminderId, TemplateId>, r: ReminderId)
    requires Partly(templates, call, start, now) && Succeeds(templates, now, call, ids)
    requires New(start, Success(templates, now, call, ids), r)
    ensures SettledRow(templates, call, start, Success(templates, now, call, ids)[r])
  {
    SuccessKeepsPartly(templates, call, start, now, ids);
    if r !in ids {
      assert NewRow(templates, call, now[r].template.value, now[r]);
    }
  }

  lemma SuccessKeepsPartly(templates: Templates, call: Call, start: Reminders, now: Reminders,
                           ids: map<ReminderId, TemplateId>)
    requires Partly(templates, call, start, now) && Succeeds(templates, now, call, ids)
    ensures Partly(templates, call, start, Reanchored(templates, now, call))
    ensures Partly(templates, call, start, Success(templates, now, call, ids))
  {
    assert call.(anchorTime := call.anchorTime) == call;
    ReanchorKeepsPartly(templates, call, start, now, call.anchorTime);
    MaterializeKeepsPartly(templates, call, start, Reanchored(templates, now, call), call.anchorTime, ids);
  }

  lemma SuccessSettles(templates: Templates, call: Call, start: Reminders, now: Reminders,
                       ids: map<ReminderId, TemplateId>)
    requires Partly(templates, call, start, now) && Succeeds(templates, now, call, ids)
    ensures Settled(templates, call, start, Success(templates, now, call, ids))
  {
    var end := Success(templates, now, call, ids);
    forall r | r in start
      ensures r in end && end[r] == Shifted(templates, call, start[r])
    {
      SuccessSettlesOldRow(templates, call, start, now, ids, r);
    }
    forall r | New(start, end, r)
      ensures SettledRow(templates, call, start, end[r])
    {
      SuccessSettlesNewRow(templates, call, start, now, ids, r);
    }
    forall t | Missing(templates, start, call, t)
      ensures HasNew(start, end, t)
    {
      EveryMissingGetsARow(templates, call, start, now, ids, t);
    }
    forall r, q | New(start, end, r) && New(start, end, q) && r != q
      ensures end[r].template != end[q].template
    {
      SuccessKeepsPartly(templates, call, start, now, ids);
    }
  }

  lemma EveryMissingGetsARow(templates: Templates, call: Call, start: Reminders, now: Reminders,
                             ids: map<ReminderId, TemplateId>, t: TemplateId)
    requires Partly(templates, call, start, now) && Succeeds(templates, now, call, ids)
             && Missing(templates, start, call, t)
    ensures HasNew(start, Success(templates, now, call, ids), t)
  {
    var mid, end := Reanchored(templates, now, call), Success(templates, now, call, ids);
    SuccessKeepsPartly(templates, call, start, now, ids);
    MissingNow(templates, call, start, mid, t);
    if Missing(templates, mid, call, t) {
      var r :| r in ids && ids[r] == t;
      assert New(start, end, r) && end[r].template == Some(t);
    } else {
      var r :| r in mid && r !in start && mid[r].template == Some(t);
      assert New(start, end, r) && end[r] == mid[r];
    }
  }

  // --- Reconciliation -----------------------------------------------------------------------------------

  /** The same rows under other ids; the rows of `start` keep theirs. */
  ghost predicate Renames(start: Reminders, a: Reminders, b: Reminders, f: map<ReminderId, ReminderId>) {
    && f.Keys == a.Keys && f.Values == b.Keys
    && (forall r :: r in a ==> f[r] in b && b[f[r]] == a[r])
    && (forall r, q :: r in a && q in a && r != q ==> f[r] != f[q])
    && (forall r :: r in start && r in a ==> f[r] == r)
  }

  ghost predicate SameUpToIds(start: Reminders, a: Reminders, b: Reminders) {
    exists f :: Renames(start, a, b, f)
  }

  /** The row itself, or the new row of b with this row's template. */
  ghost predicate Counterpart(start: Reminders, a: Reminders, b: Reminders, r: ReminderId, q: ReminderId)
    requires r in a
  {
    if r in start then q == r && q in b else New(start, b, q) && b[q].template == a[r].template
  }

  ghost predicate HasCounterpart(start: Reminders, a: Reminders, b: Reminders, r: ReminderId)
    requires r in a
  {
    exists q :: Counterpart(start, a, b, r, q)
  }

  ghost predicate AllPaired(start: Reminders, a: Reminders, b: Reminders) {
    forall r {:trigger HasCounterpart(start, a, b, r)} :: r in a ==> HasCounterpart(start, a, b, r)
  }

  lemma SettledPairs(templates: Templates, call: Call, start: Reminders, a: Reminders, b: Reminders, r: ReminderId)
    requires Settled(templates, call, start, a) && Settled(templates, call, start, b) && r in a
    ensures HasCounterpart(start, a, b, r)
  {
    if r in start {
      var shifted := Shifted(templates, call, start[r]);
      assert r in b && b[r] == shifted;
      assert Counterpart(start, a, b, r, r);
    } else {
      assert New(start, a, r);
      assert SettledRow(templates, call, start, a[r]);
      var t := a[r].template.value;
      assert HasNew(start, b, t);
      var q :| New(start, b, q) && b[q].template == Some(t);
      assert Counterpart(start, a, b, r, q);
    }
  }

  lemma CounterpartsAreEqual(templates: Templates, call: Call, start: Reminders, a: Reminders, b: Reminders,
                             r: ReminderId, q: ReminderId)
    requires Settled(templates, call, start, a) && Settled(templates, call, start, b) && r in a
    requires Counterpart(start, a, b, r, q)
    ensures q in b && b[q] == a[r] && Counterpart(start, b, a, q, r)
  {
    if r in start {
      assert b[r] == Shifted(templates, call, start[r]) && a[r] == Shifted(templates, call, start[r]);
    } else {
      assert New(start, a, r);
      assert SettledRow(templates, call, start, a[r]) && SettledRow(templates, call, start, b[q]);
    }
  }

  /** The new rows of a settled state have distinct templates. */
  lemma CounterpartsDiffer(templates: Templates, call: Call, start: Reminders, a: Reminders, b: Reminders,
                           r: ReminderId, q: ReminderId, p: ReminderId)
    requires Settled(templates, call, start, a)
    requires r in a && q in a && Counterpart(start, a, b, r, p) && Counterpart(start, a, b, q, p)
    ensures r == q
  {
    assert r in start || New(start, a, r);
    assert q in start || New(start, a, q);
  }

  ghost function Pick(start: Reminders, a: Reminders, b: Reminders, r: ReminderId): (q: ReminderId)
    requires r in a && HasCounterpart(start, a, b, r)
    ensures Counterpart(start, a, b, r, q)
  {
    var q :| Counterpart(start, a, b, r, q);
    q
  }

  ghost function Pairing(start: Reminders, a: Reminders, b: Reminders): map<ReminderId, ReminderId>
    requires AllPaired(start, a, b)
  {
    map r | r in a :: assert HasCounterpart(start, a, b, r); Pick(start, a, b, r)
  }

  lemma PairingPicks(start: Reminders, a: Reminders, b: Reminders, r: ReminderId)
    requires AllPaired(start, a, b) && r in a
    ensures Counterpart(start, a, b, r, Pairing(start, a, b)[r])
  {
  }

  lemma PairingKeepsRows(templates: Templates, call: Call, start: Reminders, a: Reminders, b: Reminders, r: ReminderId)
    requires Settled(templates, call, start, a) && Settled(templates, call, start, b) && AllPaired(start, a, b)
             && r in a
    ensures var q := Pairing(start, a, b)[r]; q in b && b[q] == a[r] && (r in start ==> q == r)
  {
    PairingPicks(start, a, b, r);
    CounterpartsAreEqual(templates, call, start, a, b, r, Pairing(start, a, b)[r]);
  }

  lemma PairingIsOneToOne(templates: Templates, call: Call, start: Reminders, a: Reminders, b: Reminders, r: ReminderId,
                          q: ReminderId)
    requires Settled(templates, call, start, a) && AllPaired(start, a, b) && r in a && q in a && r != q
    ensures Pairing(start, a, b)[r] != Pairing(start, a, b)[q]
  {
    PairingPicks(start, a, b, r);
    PairingPicks(start, a, b, q);
    if Pairing(start, a, b)[r] == Pairing(start, a, b)[q] {
      CounterpartsDiffer(templates, call, start, a, b, r, q, Pairing(start, a, b)[r]);
    }
  }

  lemma PairingIsOnto(templates: Templates, call: Call, start: Reminders, a: Reminders, b: Reminders, q: ReminderId)
    requires Settled(templates, call, start, a) && Settled(templates, call, start, b) && AllPaired(start, a, b)
             && q in b
    ensures q in Pairing(start, a, b).Values
  {
    SettledPairs(templates, call, start, b, a, q);
    var r := Pick(start, b, a, q);
    CounterpartsAreEqual(templates, call, start, b, a, q, r);
    PairingPicks(start, a, b, r);
    CounterpartsAreEqual(templates, call, start, a, b, r, Pairing(start, a, b)[r]);
    CounterpartsDiffer(templates, call, start, b, a, Pairing(start, a, b)[r], q, r);
    assert r in Pairing(start, a, b);
  }

  lemma RenamesIf(start: Reminders, a: Reminders, b: Reminders, f: map<ReminderId, ReminderId>)
    requires f.Keys == a.Keys
    requires forall r :: r in a ==> f[r] in b && b[f[r]] == a[r] && (r in start ==> f[r] == r)
    requires forall r, q :: r in a && q in a && r != q ==> f[r] != f[q]
    requires forall q :: q in b ==> q in f.Values
    ensures SameUpToIds(start, a, b)
  {
    assert f.Values == b.Keys;
    assert Renames(start, a, b, f);
  }

  /** Settling fixes the reminders but for the ids of the new rows. */
  lemma SettledOnce(templates: Templates, call: Call, start: Reminders, a: Reminders, b: Reminders)
    requires Settled(templates, call, start, a) && Settled(templates, call, start, b)
    ensures SameUpToIds(start, a, b)
  {
    forall r | r in a
      ensures HasCounterpart(start, a, b, r)
    {
      SettledPairs(templates, call, start, a, b, r);
    }
    var f := Pairing(start, a, b);
    forall r | r in a
      ensures f[r] in b && b[f[r]] == a[r] && (r in start ==> f[r] == r)
    {
      PairingKeepsRows(templates, call, start, a, b, r);
    }
    forall r, q | r in a && q in a && r != q
      ensures f[r] != f[q]
    {
      PairingIsOneToOne(templates, call, start, a, b, r, q);
    }
    forall q | q in b
      ensures q in f.Values
    {
      PairingIsOnto(templates, call, start, a, b, q);
    }
    RenamesIf(start, a, b, f);
  }

  lemma NothingYet(templates: Templates, call: Call, start: Reminders)
    ensures Partly(templates, call, start, start)
  {
  }

  /**
   Any history of calls for one batch and anchor, each write of which may have failed, followed by one call
   whose writes both succeed, ends with the same reminders as that call alone, up to the ids of the new rows.
   */
  lemma Reconciles(templates: Templates, call: Call, start: Reminders, calls: seq<Attempt>,
                   ids: map<ReminderId, TemplateId>, lone: map<ReminderId, TemplateId>)
    requires History(templates, start, call, calls)
    requires Succeeds(templates, After(templates, start, call, calls), call, ids)
             && Succeeds(templates, start, call, lone)
    ensures SameUpToIds(start, Success(templates, After(templates, start, call, calls), call, ids),
                        Success(templates, start, call, lone))
  {
    NothingYet(templates, call, start);
    HistoryKeepsPartly(templates, call, start, start, calls);
    SuccessSettles(templates, call, start, After(templates, start, call, calls), ids);
    SuccessSettles(templates, call, start, start, lone);
    SettledOnce(templates, call, start, Success(templates, After(templates, start, call, calls), call, ids),
                Success(templates, start, call, lone));
  }

  /** Every scheduled reminder of the anchor fires at the anchor time plus its template's offset. */
  ghost predicate OnTime(templates: Templates, call: Call, reminders: Reminders) {
    forall r :: r in reminders && Shifts(templates, call, reminders[r]) ==>
                  reminders[r].fireAt == FireTime(templates[reminders[r].template.value], call)
  }

  ghost predicate AllLive(templates: Templates, call: Call, reminders: Reminders) {
    forall t :: t in templates && Matches(templates[t], call) ==> HasLive(reminders, t, call.batch)
  }

  /** That is, at the anchor's time plus the offset in microseconds. */
  ghost predicate AllOnTime(templates: Templates, call: Call, reminders: Reminders) {
    forall r :: r in reminders && OfAnchor(templates, call, reminders[r]) ==>
                  reminders[r].fireAt ==
                  call.anchorTime + templates[reminders[r].template.value].offsetMinutes * 60_000_000
  }

  lemma OnTimeSpelled(templates: Templates, call: Call, reminders: Reminders)
    requires OnTime(templates, call, reminders)
    ensures AllOnTime(templates, call, reminders)
  {
  }

  lemma SuccessIsOnTime(templates: Templates, call: Call, start: Reminders, ids: map<ReminderId, TemplateId>)
    requires Succeeds(templates, start, call, ids)
    requires Settled(templates, call, start, Success(templates, start, call, ids))
    ensures OnTime(templates, call, Success(templates, start, call, ids))
  {
    var end := Success(templates, start, call, ids);
    forall r | r in end && Shifts(templates, call, end[r])
      ensures end[r].fireAt == FireTime(templates[end[r].template.value], call)
    {
      if r !in start {
        assert SettledRow(templates, call, start, end[r]);
      }
    }
  }

  lemma SuccessHasLive(templates: Templates, call: Call, start: Reminders, ids: map<ReminderId, TemplateId>,
                       t: TemplateId)
    requires Succeeds(templates, start, call, ids) && t in templates && Matches(templates[t], call)
    requires Settled(templates, call, start, Success(templates, start, call, ids))
    ensures HasLive(Success(templates, start, call, ids), t, call.batch)
  {
    var end := Success(templates, start, call, ids);
    if Missing(templates, start, call, t) {
      assert HasNew(start, end, t);
      var r :| r in end && r !in start && end[r].template == Some(t);
      assert SettledRow(templates, call, start, end[r]);
      assert LiveFor(end[r], t, call.batch);
    } else {
      var r :| r in start && LiveFor(start[r], t, call.batch);
      assert LiveFor(end[r], t, call.batch);
    }
  }

  /** From any reminders, a full success leaves the anchor's reminders on time, with no template without one. */
  lemma SuccessReflectsAnchor(templates: Templates, call: Call, start: Reminders, ids: map<ReminderId, TemplateId>)
    requires Succeeds(templates, start, call, ids)
    ensures var end := Success(templates, start, call, ids);
            OnTime(templates, call, end) && AllLive(templates, call, end) && Settled(templates, call, start, end)
    ensures exists mid :: ReanchoredTo(templates, call, start, mid)
                          && InsertedFor(templates, call, mid, Success(templates, start, call, ids))
    ensures AllOnTime(templates, call, Success(templates, start, call, ids))
    ensures forall t :: !Wanting(templates, call, Success(templates, start, call, ids), t)
  {
    ReanchorSpelled(templates, start, call);
    MaterializeSpelled(templates, Reanchored(templates, start, call), call, ids);
    var end := Success(templates, start, call, ids);
    assert Settled(templates, call, start, end) by {
      NothingYet(templates, call, start);
      SuccessSettles(templates, call, start, start, ids);
    }
    SuccessIsOnTime(templates, call, start, ids);
    forall t | t in templates && Matches(templates[t], call)
      ensures HasLive(end, t, call.batch)
    {
      SuccessHasLive(templates, call, start, ids, t);
    }
    OnTimeSpelled(templates, call, end);
    forall t
      ensures !Wanting(templates, call, end, t)
    {
      WantingIsMissing(templates, end, call, t);
    }
  }

  lemma NothingToInsert(templates: Templates, call: Call, reminders: Reminders, ids: map<ReminderId, TemplateId>)
    requires AllLive(templates, call, reminders) && IdsFit(templates, reminders, call, ids)
    ensures ids == map[]
  {
    assert forall r :: r in ids ==> Missing(templates, reminders, call, ids[r]);
    assert ids.Keys == {};
  }

  lemma NothingToShift(templates: Templates, call: Call, reminders: Reminders)
    requires OnTime(templates, call, reminders)
    ensures Reanchored(templates, reminders, call) == reminders
  {
  }

  /** Repeating the call changes nothing: no row moves and there is nothing to insert. */
  lemma RepeatingChangesNothing(templates: Templates, call: Call, start: Reminders, ids: map<ReminderId, TemplateId>)
    requires OnTime(templates, call, start) && AllLive(templates, call, start) && Succeeds(templates, start, call, ids)
    ensures Success(templates, start, call, ids) == start
  {
    NothingToShift(templates, call, start);
    NothingToInsert(templates, call, start, ids);
  }
}
