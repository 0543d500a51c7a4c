/**
 Reminder templates, reminders and their notifications, one SQL statement a step.

 A claim is one scheduled-to-fired transition of one reminder by one dispatcher tick. Claims are numbered in the
 order they happen, and the notification a tick creates for a claim is named after it.
 */
module ReminderModel {
  import opened Wrappers
  import opened ClaimQueue

  type BatchId = nat
  type RecipeId = nat
  type UserId = nat
  type TemplateId = nat
  type ReminderId = nat
  type TickId = nat

  datatype Anchor = Absolute | BatchStart | Pitch | Rack | Bottle | CustomEvent
  datatype EventKind = PitchEvent | RackEvent | BottleEvent | OtherEvent(name: string)

  datatype Template = Template(recipe: RecipeId, title: string, description: Option<string>, anchor: Anchor,
                               offsetMinutes: int, suggested: Option<EventKind>)

  datatype Status = Scheduled | Fired | Completed | Snoozed | Dismissed | Cancelled

  datatype Reminder = Reminder(batch: Option<BatchId>, user: UserId, template: Option<TemplateId>,
                               title: string, description: Option<string>, fireAt: int,
                               status: Status, firedAt: Option<int>, suggested: Option<EventKind>)

  /** Timestamps count microseconds. */
  const MINUTE := 60_000_000

  /** Parameters of the two statements that materializeTemplates runs. */
  datatype Call = Call(batch: BatchId, user: UserId, recipe: RecipeId, anchor: Anchor, anchorTime: int)

  datatype Patch = Patch(title: Option<string>, description: Option<string>, fireAt: Option<int>,
                         status: Option<Status>, suggested: Option<EventKind>)

  /** A notification row. */
  datatype Note = Note(user: UserId, reminder: ReminderId, title: string, body: Option<string>,
                       urlPath: Option<BatchId>)

  /** What a tick got for one claimed row, as the notification it is going to write. */
  datatype Claim = Claim(tick: TickId, note: Note)

  type Reminders = map<ReminderId, Reminder>
  type Templates = map<TemplateId, Template>

  datatype State = State(templates: Templates, reminders: Reminders,
                         claims: seq<Claim>, handled: set<nat>, notes: map<nat, Note>)

  function Empty(): State {
    State(map[], map[], [], {}, map[])
  }

  // --- materializeTemplates -----------------------------------------------------------------------------

  predicate Dead(status: Status) {
    status == Cancelled || status == Dismissed
  }

  predicate Matches(t: Template, call: Call) {
    t.recipe == call.recipe && t.anchor == call.anchor
  }

  function FireTime(t: Template, call: Call): int {
    call.anchorTime + t.offsetMinutes * MINUTE
  }

  function FreshRow(id: TemplateId, t: Template, call: Call): Reminder {
    Reminder(Some(call.batch), call.user, Some(id), t.title, t.description, FireTime(t, call), Scheduled, None,
             t.suggested)
  }

  /** A live reminder for (template, batch). */
  predicate LiveFor(r: Reminder, template: TemplateId, batch: BatchId) {
    r.template == Some(template) && r.batch == Some(batch) && !Dead(r.status)
  }

  predicate HasLive(reminders: Reminders, template: TemplateId, batch: BatchId) {
    exists r :: r in reminders && LiveFor(reminders[r], template, batch)
  }

  /** Templates of the call that have no live reminder yet. */
  predicate Missing(templates: Templates, reminders: Reminders, call: Call, t: TemplateId) {
    t in templates && Matches(templates[t], call) && !HasLive(reminders, t, call.batch)
  }

  /** Row ids the database hands out: new, and one for each missing template. */
  ghost predicate IdsFit(templates: Templates, reminders: Reminders, call: Call, ids: map<ReminderId, TemplateId>) {
    && (forall r :: r in ids ==> r !in reminders && Missing(templates, reminders, call, ids[r]))
    && (forall t :: Missing(templates, reminders, call, t) ==> t in ids.Values)
    && (forall r, q :: r in ids && q in ids && r != q ==> ids[r] != ids[q])
  }

  function Materialized(templates: Templates, reminders: Reminders, call: Call,
                        ids: map<ReminderId, TemplateId>): Reminders
    requires forall r :: r in ids ==> ids[r] in templates
  {
    reminders + map r | r in ids :: FreshRow(ids[r], templates[ids[r]], call)
  }

  /** The rows re-anchoring touches. */
  predicate Shifts(templates: Templates, call: Call, r: Reminder) {
    && r.status == Scheduled && r.batch == Some(call.batch)
    && r.template.Some? && r.template.value in templates && Matches(templates[r.template.value], call)
  }

  function Shifted(templates: Templates, call: Call, r: Reminder): Reminder {
    if Shifts(templates, call, r) then r.(fireAt := FireTime(templates[r.template.value], call)) else r
  }

  function Reanchored(templates: Templates, reminders: Reminders, call: Call): Reminders {
    map r | r in reminders :: Shifted(templates, call, reminders[r])
  }

  // --- Steps ----------------------------------------------------------------------------------------------

  const CLAIM_LIMIT := 100

  function ScheduledAt(reminders: Reminders): map<ReminderId, int> {
    map r | r in reminders && reminders[r].status == Scheduled :: reminders[r].fireAt
  }

  /** Rows a claim at `now` may take. */
  function Due(reminders: Reminders, now: int): set<ReminderId> {
    DueBy(ScheduledAt(reminders), now)
  }

  function Patched(r: Reminder, p: Patch): Reminder {
    r.(title := if p.title.Some? then p.title.value else r.title,
       description := if p.description.Some? then p.description else r.description,
       fireAt := if p.fireAt.Some? then p.fireAt.value else r.fireAt,
       status := if p.status.Some? then p.status.value else r.status,
       suggested := if p.suggested.Some? then p.suggested else r.suggested)
  }

  datatype Action =
    | PutTemplate(t: TemplateId, template: Template)
    | Materialize(call: Call, ids: map<ReminderId, TemplateId>)
    | Reanchor(call: Call)
    | Create(id: ReminderId, batch: BatchId, user: UserId, title: string, description: Option<string>, fireAt: int,
             suggested: Option<EventKind>)
    | Update(id: ReminderId, user: UserId, patch: Patch)
    | Cancel(id: ReminderId, user: UserId)
    | ClaimDue(tick: TickId, now: int, skipped: set<ReminderId>, order: seq<ReminderId>)
    | Notify(claim: nat, ok: bool)

  /** The statuses a PATCH may set. */
  predicate Allowed(status: Status) {
    status == Scheduled || status == Snoozed || status == Completed || status == Dismissed
  }

  ghost predicate ClaimFits(reminders: Reminders, now: int, skipped: set<ReminderId>, order: seq<ReminderId>) {
    exists batch ::
      && EarliestBatch(ScheduledAt(reminders), Due(reminders, now) - skipped, CLAIM_LIMIT, batch)
      && Lists(order, batch)
  }

  ghost predicate Enabled(s: State, act: Action) {
    match act
    case PutTemplate(t, template) => t in s.templates ==> s.templates[t].recipe == template.recipe
    case Materialize(call, ids) => IdsFit(s.templates, s.reminders, call, ids)
    case Reanchor(call) => true
    case Create(id, _, _, _, _, _, _) => id !in s.reminders
    case Update(id, user, patch) =>
      id in s.reminders && s.reminders[id].user == user && (patch.status.Some? ==> Allowed(patch.status.value))
    case Cancel(id, user) =>
      id in s.reminders && s.reminders[id].user == user && s.reminders[id].status != Fired
        && s.reminders[id].status != Completed
    case ClaimDue(tick, now, skipped, order) => ClaimFits(s.reminders, now, skipped, order)
    case Notify(claim, ok) => claim < |s.claims| && claim !in s.handled
  }

  function Fire(reminders: Reminders, order: seq<ReminderId>, now: int): Reminders {
    map r | r in reminders :: if r in order then reminders[r].(status := Fired, firedAt := Some(now)) else reminders[r]
  }

  /** The row of the notification for a claimed reminder. */
  function NoteFor(id: ReminderId, r: Reminder): Note {
    Note(r.user, id, r.title, r.description, r.batch)
  }

  function ClaimsOf(tick: TickId, reminders: Reminders, order: seq<ReminderId>): (claims: seq<Claim>)
    requires forall id :: id in order ==> id in reminders
    ensures |claims| == |order|
  {
    seq(|order|, i requires 0 <= i < |order| => Claim(tick, NoteFor(order[i], reminders[order[i]])))
  }

  ghost function Apply(s: State, act: Action): State
    requires Enabled(s, act)
  {
    match act
    case PutTemplate(t, template) => s.(templates := s.templates[t := template])
    case Materialize(call, ids) => s.(reminders := Materialized(s.templates, s.reminders, call, ids))
    case Reanchor(call) => s.(reminders := Reanchored(s.templates, s.reminders, call))
    case Create(id, batch, user, title, description, fireAt, suggested) =>
      s.(reminders := s.reminders[id := Reminder(Some(batch), user, None, title, description, fireAt, Scheduled, None,
                                                 suggested)])
    case Update(id, user, patch) => s.(reminders := s.reminders[id := Patched(s.reminders[id], patch)])
    case Cancel(id, user) => s.(reminders := s.reminders[id := s.reminders[id].(status := Cancelled)])
    case ClaimDue(tick, now, skipped, order) =>
      s.(reminders := Fire(s.reminders, order, now), claims := s.claims + ClaimsOf(tick, s.reminders, order))
    case Notify(claim, ok) =>
      s.(handled := s.handled + {claim}, notes := if ok then s.notes[claim := s.claims[claim].note] else s.notes)
  }

  // --- What the statements do, column by column ----------------------------------------------------

  /** A scheduled reminder that a template of the recipe and anchor made for the batch. */
  ghost predicate OfAnchor(templates: Templates, call: Call, r: Reminder) {
    && r.status == Scheduled && r.batch == Some(call.batch) && r.template.Some? && r.template.value in templates
    && templates[r.template.value].recipe == call.recipe && templates[r.template.value].anchor == call.anchor
  }

  /** The rows of the anchor move to the anchor's time plus the offset in microseconds; nothing else changes. */
  ghost predicate ReanchoredTo(templates: Templates, call: Call, before: Reminders, after: Reminders) {
    && (forall r :: r in after <==> r in before)
    && (forall r :: r in before ==>
          after[r] == if OfAnchor(templates, call, before[r])
                      then before[r].(fireAt := call.anchorTime
                                                + templates[before[r].template.value].offsetMinutes * 60_000_000)
                      else before[r])
  }

  /** The batch has a reminder of the template that is neither cancelled nor dismissed. */
  ghost predicate Alive(reminders: Reminders, t: TemplateId, batch: BatchId) {
    exists r :: r in reminders && reminders[r].template == Some(t) && reminders[r].batch == Some(batch)
                && reminders[r].status != Cancelled && reminders[r].status != Dismissed
  }

  /** A template of the recipe and anchor of which the batch has no reminder alive. */
  ghost predicate Wanting(templates: Templates, call: Call, reminders: Reminders, t: TemplateId) {
    t in templates && templates[t].recipe == call.recipe && templates[t].anchor == call.anchor
    && !Alive(reminders, t, call.batch)
  }

  /** One new row for each such template, as the template says; nothing else changes. */
  ghost predicate InsertedFor(templates: Templates, call: Call, before: Reminders, after: Reminders) {
    && (forall r :: r in before ==> r in after && after[r] == before[r])
    && (forall r :: r in after && r !in before ==>
          && after[r].template.Some? && Wanting(templates, call, before, after[r].template.value)
          && var t := templates[after[r].template.value];
             after[r] == Reminder(Some(call.batch), call.user, after[r].template, t.title, t.description,
                                  call.anchorTime + t.offsetMinutes * 60_000_000, Scheduled, None, t.suggested))
    && (forall r, q :: r in after && q in after && r !in before && q !in before && r != q ==>
          after[r].template != after[q].template)
    && (forall t: TemplateId :: Wanting(templates, call, before, t) ==>
          exists r :: r in after && r !in before && after[r].template == Some(t))
  }

  lemma ReanchorSpelled(templates: Templates, reminders: Reminders, call: Call)
    ensures ReanchoredTo(templates, call, reminders, Reanchored(templates, reminders, call))
  {
  }

  lemma WantingIsMissing(templates: Templates, reminders: Reminders, call: Call, t: TemplateId)
    ensures Wanting(templates, call, reminders, t) <==> Missing(templates, reminders, call, t)
  {
    if Alive(reminders, t, call.batch) {
      var r :| r in reminders && reminders[r].template == Some(t) && reminders[r].batch == Some(call.batch)
               && reminders[r].status != Cancelled && reminders[r].status != Dismissed;
      assert LiveFor(reminders[r], t, call.batch);
    }
    if HasLive(reminders, t, call.batch) {
      var r :| r in reminders && LiveFor(reminders[r], t, call.batch);
      assert reminders[r].template == Some(t);
    }
  }

  lemma MaterializeSpelled(templates: Templates, reminders: Reminders, call: Call, ids: map<ReminderId, TemplateId>)
    requires IdsFit(templates, reminders, call, ids)
    ensures InsertedFor(templates, call, reminders, Materialized(templates, reminders, call, ids))
  {
    var after := Materialized(templates, reminders, call, ids);
    forall t
      ensures Wanting(templates, call, reminders, t) <==> Missing(templates, reminders, call, t)
    {
      WantingIsMissing(templates, reminders, call, t);
    }
    forall r | r in after && r !in reminders
      ensures r in ids && after[r] == FreshRow(ids[r], templates[ids[r]], call)
    {
    }
    forall t: TemplateId | Wanting(templates, call, reminders, t)
      ensures exists r :: r in after && r !in reminders && after[r].template == Some(t)
    {
      var r :| r in ids && ids[r] == t;
      assert r in after && after[r].template == Some(t);
    }
  }

  /** The earliest scheduled reminders whose time has come, at most a hundred, each once. */
  ghost predicate EarliestDue(reminders: Reminders, now: int, skipped: set<ReminderId>, due: seq<ReminderId>) {
    && |due| <= 100
    && (forall i, j :: 0 <= i < j < |due| ==> due[i] != due[j])
    && (forall i :: 0 <= i < |due| ==>
          && due[i] in reminders && due[i] !in skipped
          && reminders[due[i]].status == Scheduled && reminders[due[i]].fireAt <= now)
    && (forall r :: r in reminders && r !in skipped && r !in due
                    && reminders[r].status == Scheduled && reminders[r].fireAt <= now ==>
          |due| == 100 && forall i :: 0 <= i < |due| ==> reminders[due[i]].fireAt <= reminders[r].fireAt)
  }

  lemma ClaimSpelled(reminders: Reminders, now: int, skipped: set<ReminderId>, due: seq<ReminderId>)
    requires ClaimFits(reminders, now, skipped, due)
    ensures EarliestDue(reminders, now, skipped, due)
  {
    var batch :| EarliestBatch(ScheduledAt(reminders), Due(reminders, now) - skipped, CLAIM_LIMIT, batch)
                 && Lists(due, batch);
    ListsAll(due, batch);
    forall i | 0 <= i < |due|
      ensures due[i] in reminders && due[i] !in skipped && reminders[due[i]].status == Scheduled
      ensures reminders[due[i]].fireAt <= now
    {
      assert due[i] in batch;
    }
    forall r | r in reminders && r !in skipped && r !in due
               && reminders[r].status == Scheduled && reminders[r].fireAt <= now
      ensures |due| == 100 && forall i :: 0 <= i < |due| ==> reminders[due[i]].fireAt <= reminders[r].fireAt
    {
      LeftAreLater(ScheduledAt(reminders), Due(reminders, now) - skipped, CLAIM_LIMIT, batch, r);
      assert forall i :: 0 <= i < |due| ==> due[i] in batch;
    }
  }

  ghost predicate ValidRun(s: State, acts: seq<Action>)
    decreases |acts|
  {
    acts == [] || (Enabled(s, acts[0]) && ValidRun(Apply(s, acts[0]), acts[1..]))
  }

  ghost function RunFrom(s: State, acts: seq<Action>): State
    requires ValidRun(s, acts)
    decreases |acts|
  {
    if acts == [] then s else RunFrom(Apply(s, acts[0]), acts[1..])
  }
}
