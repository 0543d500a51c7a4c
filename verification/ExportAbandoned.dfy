/** Claimed jobs that nobody is working on: how they come about, and what ends them. */
module ExportAbandoned {
  import opened Wrappers
  import opened ClaimQueue
  import opened ExportModel
  import opened ExportSafety
  import opened ExportRuns
  import opened ExportReach
  import opened ExportExample

  /** The row says `running`, but no worker has the job. */
  ghost predicate Abandoned(s: State, id: Id) {
    id in s.rows && s.rows[id].status == Running && forall a :: a in s.actors ==> id !in Held(s.actors[a])
  }

  // --- What ends it -----------------------------------------------------------------------------

  lemma AbandonedByWorkers(s: State, act: Action, id: Id)
    requires Inv(s) && Enabled(s, act) && Abandoned(s, id)
    requires act.CompleteJob? || act.CompleteError? || act.FailJob?
    ensures Abandoned(Apply(s, act), id)
  {
    var w := s.actors[act.actor];
    assert ActorOk(s, w) && w.todo[0] in w.todo && w.todo[0].id in Held(w);
    ActiveAfterPop(w);
  }

  lemma AbandonedByClaims(s: State, act: Action, id: Id)
    requires Enabled(s, act) && Abandoned(s, id) && act.Claim?
    ensures Abandoned(Apply(s, act), id)
  {
    ClaimedArePending(s, act);
    ClaimedJobs(s, act.batch, act.order);
  }

  /** The step deletes the export rows of `user`. */
  predicate Anonymizes(s: State, act: Action, user: UserId) {
    act.CommitAnonymize? && act.actor in s.actors && s.actors[act.actor].Anonymizer? && s.actors[act.actor].user == user
  }

  lemma AbandonedStepIff(s: State, act: Action, id: Id)
    requires Inv(s) && Enabled(s, act) && Abandoned(s, id)
    ensures Abandoned(Apply(s, act), id) <==> !Anonymizes(s, act, s.rows[id].owner)
    ensures Abandoned(Apply(s, act), id) ==> Apply(s, act).rows[id].owner == s.rows[id].owner
    ensures !Abandoned(Apply(s, act), id) ==> Rank(Apply(s, act), id) == 6
  {
    assert RowOk(s, id);
    if act.Claim? {
      AbandonedByClaims(s, act, id);
    } else if act.CompleteJob? || act.CompleteError? || act.FailJob? {
      AbandonedByWorkers(s, act, id);
    }
  }

  /** No step of the run anonymizes this user; others may be. */
  ghost predicate OwnerStays(s: State, acts: seq<Action>, owner: UserId)
    requires ValidRun(s, acts)
    decreases |acts|
  {
    acts == [] || (!Anonymizes(s, acts[0], owner) && OwnerStays(Apply(s, acts[0]), acts[1..], owner))
  }

  /**
   Nothing ever claims or settles an abandoned job: over any run it stays abandoned, and with it the user's only
   export slot, if and only if its owner is not anonymized.
   */
  lemma {:induction false} AbandonedForGood(s: State, acts: seq<Action>, id: Id)
    requires Inv(s) && ValidRun(s, acts) && Abandoned(s, id)
    ensures Abandoned(RunFrom(s, acts), id) <==> OwnerStays(s, acts, s.rows[id].owner)
    decreases |acts|
  {
    if acts != [] {
      var t := Apply(s, acts[0]);
      StepKeepsInv(s, acts[0]);
      AbandonedStepIff(s, acts[0], id);
      if Abandoned(t, id) {
        AbandonedForGood(t, acts[1..], id);
      } else {
        RankNeverDropsInRun(t, acts[1..], id);
      }
    }
  }

  // --- How it comes about -------------------------------------------------------------------------

  /**
   The holder of a running job stops between two of its writes, or in the middle of one; or it goes on, but the
   UPDATE that was to mark the job failed did not take effect.
   */
  predicate Abandons(s: State, act: Action, id: Id) {
    && id in s.rows && s.rows[id].status == Running
    && !act.Create? && act.actor in s.actors && id in Held(s.actors[act.actor])
    && (act.Leave? || act.CrashInPut? || (act.FailJob? && !act.applied && s.actors[act.actor].todo[0].id == id))
  }

  lemma TailStaysHeld(s: State, act: Action, id: Id)
    requires Inv(s) && Enabled(s, act) && (act.CompleteJob? || act.CompleteError? || act.FailJob?)
    requires id in Held(s.actors[act.actor]) && id != s.actors[act.actor].todo[0].id
    ensures act.actor in Apply(s, act).actors && id in Held(Apply(s, act).actors[act.actor])
  {
    var w := s.actors[act.actor];
    assert w.todo == [w.todo[0]] + w.todo[1..];
    assert id in JobIds(w.todo[1..]);
  }

  lemma HeadIsSettled(s: State, act: Action)
    requires Inv(s) && Enabled(s, act) && (act.CompleteJob? || act.CompleteError? || act.FailJob?)
    ensures var id := s.actors[act.actor].todo[0].id;
            Abandoned(Apply(s, act), id) <==> Abandons(s, act, id)
  {
    var w, t := s.actors[act.actor], Apply(s, act);
    assert ActorOk(s, w) && w.todo[0] in w.todo && w.todo[0].id in Held(w);
    HeadLeaves(w);
    assert !act.FailJob? ==> t.actors[act.actor] == NextJob(w) || w.todo[0].id in Held(t.actors[act.actor]);
  }

  lemma HeadLeaves(w: Actor)
    requires w.Worker? && w.todo != []
    requires forall i, j :: 0 <= i < j < |w.todo| ==> w.todo[i].id != w.todo[j].id
    ensures w.todo[0].id !in Held(NextJob(w))
  {
    forall j | j in w.todo[1..]
      ensures j.id != w.todo[0].id
    {
      var k :| 0 <= k < |w.todo[1..]| && w.todo[1..][k] == j;
      assert w.todo[k + 1] == j;
    }
  }

  lemma OwnStepAbandonsIff(s: State, act: Action, id: Id)
    requires Inv(s) && Enabled(s, act) && !act.Create? && act.actor in s.actors && id in Held(s.actors[act.actor])
    ensures Abandoned(Apply(s, act), id) <==> Abandons(s, act, id)
  {
    if act.CompleteJob? || act.CompleteError? || act.FailJob? {
      if id == s.actors[act.actor].todo[0].id {
        HeadIsSettled(s, act);
      } else {
        TailStaysHeld(s, act, id);
      }
    } else {
      StoppingAbandonsIff(s, act, id);
    }
  }

  lemma StoppingAbandonsIff(s: State, act: Action, id: Id)
    requires Inv(s) && Enabled(s, act) && !act.Create? && act.actor in s.actors && id in Held(s.actors[act.actor])
    requires !act.CompleteJob? && !act.CompleteError? && !act.FailJob?
    ensures Abandoned(Apply(s, act), id) <==> Abandons(s, act, id)
  {
    var w, t := s.actors[act.actor], Apply(s, act);
    assert ActorOk(s, w) && w.todo != [];
    forall a | a in s.actors && a != act.actor
      ensures id !in Held(s.actors[a])
    {
    }
    assert act.actor in t.actors ==> id in Held(t.actors[act.actor]);
  }

  /** A step leaves a job abandoned that was not, exactly in these three cases. */
  lemma AbandonsIff(s: State, act: Action, id: Id)
    requires Inv(s) && Enabled(s, act) && !Abandoned(s, id)
    ensures Abandoned(Apply(s, act), id) <==> Abandons(s, act, id)
  {
    var t := Apply(s, act);
    if a :| a in s.actors && id in Held(s.actors[a]) {
      if !act.Create? && act.actor == a {
        OwnStepAbandonsIff(s, act, id);
      } else {
        OthersStand(s, act, a);
        assert !act.Create? && act.actor in s.actors ==> Held(s.actors[act.actor]) !! Held(s.actors[a]);
      }
    } else {
      NotHeldNotAbandoned(s, act, id);
    }
  }

  lemma NotHeldNotAbandoned(s: State, act: Action, id: Id)
    requires Inv(s) && Enabled(s, act) && !Abandoned(s, id)
    requires forall a :: a in s.actors ==> id !in Held(s.actors[a])
    ensures !Abandoned(Apply(s, act), id)
  {
    if act.Claim? {
      ClaimedArePending(s, act);
      ClaimedJobs(s, act.batch, act.order);
      assert id in act.batch ==> id in Held(Apply(s, act).actors[act.actor]);
    }
  }

  // --- It happens -----------------------------------------------------------------------------------

  /** A user asks for an export, a dispatcher claims it and stops. */
  lemma ClaimantStops()
    ensures exists s, id :: Reachable(s) && Abandoned(s, id) && s.actors == map[]
  {
    var t := UnderWay(map[]);
    Stays(t);
    StepFirst(UnderWay(map[0 := WorkerOn(None, false)]), Leave(0), t, t);
    CreateAndClaim(t);
    assert Reachable(t) && Abandoned(t, 0);
  }

  /** The dispatcher need not stop: it is enough that it cannot build the archive and then cannot record that. */
  lemma FailureIsNotRecorded()
    ensures exists s, id, a :: Reachable(s) && Abandoned(s, id) && IsWorker(s, a)
  {
    var t := UnderWay(map[0 := Worker([], None, false)]);
    var failing := UnderWay(map[0 := WorkerOn(None, true)]);
    assert [Job(0, FILE)][1..] == [];
    Stays(t);
    StepFirst(failing, FailJob(0, false, 0), t, t);
    StepFirst(UnderWay(map[0 := WorkerOn(None, false)]), BuildFailed(0), failing, t);
    CreateAndClaim(t);
    assert Reachable(t) && Abandoned(t, 0) && IsWorker(t, 0);
  }
}
