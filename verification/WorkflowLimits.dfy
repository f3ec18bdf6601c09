/** What the workflow does not promise, each with the exact condition or the state it takes. */
module WorkflowLimits {
  import opened Common
  import opened Risk
  import opened Gate
  import opened Workflow
  import opened WorkflowSteps
  import opened Interleaving
  import opened History
  import opened Lifecycles
  import opened Decisions

  /* ------------------------------------------------------------------ proposals left pending_auto */

  /** `bypass_risk` passes the proposal over: it is past the watchlist and mark checks, and its quantity is not
      positive. */
  predicate PassedOver(l: Loop, d: Draft) {
    && l.mode.BypassRisk? && d.qty <= 0.0
    && (d.side.Buy? ==> Holdable(l.hold, d.symbol))
    && d.symbol in l.marks && l.marks[d.symbol] > 0.0
  }

  /** One proposal of the loop `from`, followed through the run. */
  datatype Watch = Watch(from: Loop, id: nat)

  /** The process is busy with the proposal, which has its first status to come until the order is out. */
  predicate Handles(p: Proc, id: nat) {
    (FirstStatusDue(p) || p.Polling? || p.Closing?) && p.proposal == id
  }

  predicate FirstStatusDue(p: Proc) {
    p.Queueing? || p.Refusing? || p.Mirroring? || p.Marking?
  }

  /** Nothing of the run waits for a person. */
  ghost predicate NothingWaits(t: Tables, run: nat) {
    !HasPending(t, run) && !HasAwaiting(t, run)
  }

  predicate SameReadings(l: Loop, from: Loop) {
    l.run == from.run && l.mode == from.mode && l.hold == from.hold && l.marks == from.marks
  }

  ghost predicate InLoop(t: Tables, p: Proc, w: Watch)
    requires w.id < |t.proposals| && LoopOf(p).Some?
  {
    var l := LoopOf(p).value;
    var pending := t.proposals[w.id].status.PendingAuto?;
    && SameReadings(l, w.from)
    && Distinct(l.todo)
    && (if w.id in l.todo then pending && !Handles(p, w.id)
        else if Handles(p, w.id) then !PassedOver(w.from, t.proposals[w.id].draft) && (FirstStatusDue(p) || !pending)
        else pending <==> PassedOver(w.from, t.proposals[w.id].draft))
  }

  /** The run ended well or waits for a person. */
  predicate EndedWell(t: Tables, run: nat) {
    run < |t.runs| && (t.runs[run].status.Executed? || t.runs[run].status.AwaitingApproval?)
  }

  ghost predicate Followed(t: Tables, p: Proc, w: Watch) {
    && w.id < |t.proposals| && t.proposals[w.id].run == w.from.run && w.from.run < |t.runs|
    && var pending := t.proposals[w.id].status.PendingAuto?;
       match p
       case Finished =>
         EndedWell(t, w.from.run) ==> (pending <==> PassedOver(w.from, t.proposals[w.id].draft))
       case Aborting(run, _) => run == w.from.run && (w.from.mode.BypassRisk? ==> NothingWaits(t, run))
       case Settling(run) =>
         run == w.from.run && (if w.from.mode.BypassRisk? then NothingWaits(t, run) else !pending)
       case Failing(run) => run == w.from.run
       case _ =>
         LoopOf(p).Some? && InLoop(t, p, w) && (w.from.mode.BypassRisk? ==> !p.Queueing? && NothingWaits(t, w.from.run))
  }

  /** Writes that leave every approval and give no proposal to a person. */
  predicate OnlySettles(t: Tables, t': Tables) {
    && t'.approvals == t.approvals && |t'.proposals| == |t.proposals|
    && forall i :: 0 <= i < |t.proposals| ==>
         && t'.proposals[i].run == t.proposals[i].run
         && (t'.proposals[i].status.Awaiting? ==> t.proposals[i].status.Awaiting?)
  }

  lemma StillNothingWaits(t: Tables, t': Tables, run: nat)
    requires NothingWaits(t, run) && OnlySettles(t, t')
    ensures NothingWaits(t', run)
  {
  }

  /** A bypassing loop never asks a person. */
  lemma BypassSettles(env: Env, t: Tables, l: Loop)
    requires l.mode.BypassRisk?
    ensures OnlySettles(t, StepLoop(env, t, l).0) && !StepLoop(env, t, l).1.Queueing?
  {
    hide Evaluate, GateOrder;
  }

  /** What one iteration does to the proposal it handles. */
  lemma FirstFollowed(env: Env, t: Tables, l: Loop, w: Watch)
    requires Followed(t, Looping(l), w) && l.todo != [] && w.id == l.todo[0] && LoopOf(StepLoop(env, t, l).1).Some?
    ensures var next := StepLoop(env, t, l);
            w.id < |next.0.proposals| && InLoop(next.0, next.1, w)
  {
    FirstTodo(l);
    hide Evaluate, GateOrder, NothingWaits;
  }

  /** One iteration leaves every other proposal alone. */
  lemma RestFollowed(env: Env, t: Tables, l: Loop, w: Watch)
    requires Followed(t, Looping(l), w) && l.todo != [] && w.id != l.todo[0] && LoopOf(StepLoop(env, t, l).1).Some?
    ensures var next := StepLoop(env, t, l);
            w.id < |next.0.proposals| && InLoop(next.0, next.1, w)
  {
    var next := StepLoop(env, t, l);
    FirstTodo(l);
    LoopPassesOn(env, t, l, w.id);
    hide StepLoop, NothingWaits, PassedOver;
  }

  lemma LoopPassesOn(env: Env, t: Tables, l: Loop, id: nat)
    requires l.todo != [] && id != l.todo[0] && LoopOf(StepLoop(env, t, l).1).Some? && id < |t.proposals|
    ensures var next := StepLoop(env, t, l);
            && LoopOf(next.1).value == l.(todo := l.todo[1..]) && !Handles(next.1, id)
            && id < |next.0.proposals| && next.0.proposals[id] == t.proposals[id]
  {
    hide VerdictOf;
  }

  lemma LoopFollowed(env: Env, t: Tables, l: Loop, w: Watch)
    requires Followed(t, Looping(l), w)
    ensures Followed(StepLoop(env, t, l).0, StepLoop(env, t, l).1, w)
  {
    var next := StepLoop(env, t, l);
    LoopExtends(env, t, l);
    if l.todo != [] && LoopOf(next.1).Some? {
      if w.id == l.todo[0] {
        FirstFollowed(env, t, l, w);
      } else {
        RestFollowed(env, t, l, w);
      }
    }
    if l.mode.BypassRisk? {
      BypassSettles(env, t, l);
      StillNothingWaits(t, next.0, w.from.run);
    }
    hide VerdictOf, Distinct, NothingWaits, Send, PassedOver;
  }

  lemma SubmitSettles(env: Env, t: Tables, p: Proc)
    requires Submits(p)
    ensures OnlySettles(t, StepSubmit(env, t, p).0)
  {
    hide CloseMirror, IsBrokerTerminal;
  }

  lemma WrittenFollowed(env: Env, t: Tables, p: Proc, w: Watch)
    requires Followed(t, p, w) && LoopOf(p).Some? && (p.Refusing? || p.Marking? || p.Closing?)
    ensures var next := StepSubmit(env, t, p);
            LoopOf(next.1).Some? && w.id < |next.0.proposals| && InLoop(next.0, next.1, w)
  {
    hide Distinct, PassedOver, NothingWaits;
  }

  lemma KeptFollowed(env: Env, t: Tables, p: Proc, w: Watch)
    requires Followed(t, p, w) && (p.Mirroring? || p.Polling? || p.Returning?) && LoopOf(StepSubmit(env, t, p).1).Some?
    ensures var next := StepSubmit(env, t, p);
            w.id < |next.0.proposals| && InLoop(next.0, next.1, w)
  {
    hide CloseMirror, IsBrokerTerminal, Distinct, PassedOver, NothingWaits;
  }

  lemma SubmitLeads(env: Env, t: Tables, p: Proc)
    requires Submits(p) && LoopOf(p).Some?
    ensures var next := StepSubmit(env, t, p);
            && next.0.runs == t.runs
            && ((next.1.Aborting? && next.1.run == LoopOf(p).value.run) || (LoopOf(next.1).Some? && !next.1.Queueing?))
  {
    hide CloseMirror, IsBrokerTerminal;
  }

  lemma SubmitFollowed(env: Env, t: Tables, p: Proc, w: Watch)
    requires Followed(t, p, w) && Submits(p)
    ensures Followed(StepSubmit(env, t, p).0, StepSubmit(env, t, p).1, w)
  {
    var next := StepSubmit(env, t, p);
    SubmitSettles(env, t, p);
    SubmitLeads(env, t, p);
    if w.from.mode.BypassRisk? {
      StillNothingWaits(t, next.0, w.from.run);
    }
    if p.Refusing? || p.Marking? || p.Closing? {
      WrittenFollowed(env, t, p, w);
    } else if LoopOf(next.1).Some? {
      KeptFollowed(env, t, p, w);
    }
    hide NothingWaits, StepSubmit, Distinct, PassedOver;
  }

  lemma OtherFollowed(env: Env, t: Tables, p: Proc, w: Watch)
    requires Followed(t, p, w) && (p.Queueing? || Fails(p))
    ensures Followed(Step(env, t, p).0, Step(env, t, p).1, w)
  {
    var next := Step(env, t, p);
    if p.Aborting? && w.from.mode.BypassRisk? {
      assert OnlySettles(t, next.0);
      StillNothingWaits(t, next.0, w.from.run);
    }
    hide Distinct, HasPending, HasAwaiting;
  }

  lemma {:induction false} RunFollowed(env: Env, t: Tables, p: Proc, w: Watch)
    requires Followed(t, p, w)
    ensures Followed(RunToEnd(env, t, p), Finished, w)
    decreases Phase(p), Left(p), Rank(p), WaitsOf(p)
  {
    if !p.Finished? {
      var next := Step(env, t, p);
      StepProgress(env, t, p);
      StepIsGrouped(env, t, p);
      FollowedGroups(t, p, w);
      hide *;
      OneStep(env, t, p);
      if p.Looping? {
        LoopFollowed(env, t, p.loop, w);
      } else if Submits(p) {
        SubmitFollowed(env, t, p, w);
      } else {
        OtherFollowed(env, t, p, w);
      }
      RunFollowed(env, next.0, next.1, w);
    }
  }

  lemma FollowedGroups(t: Tables, p: Proc, w: Watch)
    requires Followed(t, p, w)
    ensures p.Finished? || p.Looping? || Submits(p) || p.Queueing? || Fails(p)
  {
    hide InLoop, NothingWaits;
  }

  /** A run leaves a proposal `pending_auto` exactly when it passed it over: when a run ends as executed or waits for
      approvals, a proposal of its loop is still `pending_auto` if and only if the mode is `bypass_risk`, its quantity
      is not positive and it got past the watchlist and mark checks. */
  lemma PendingAutoIff(env: Env, t: Tables, l: Loop, i: nat)
    requires Distinct(l.todo) && i < |l.todo| && l.run < |t.runs|
    requires l.todo[i] < |t.proposals| && t.proposals[l.todo[i]].run == l.run
    requires t.proposals[l.todo[i]].status.PendingAuto?
    requires l.mode.BypassRisk? ==> NothingWaits(t, l.run)
    ensures var after := RunToEnd(env, t, Looping(l));
            && l.todo[i] < |after.proposals|
            && (EndedWell(after, l.run) ==>
                  (after.proposals[l.todo[i]].status.PendingAuto? <==> PassedOver(l, after.proposals[l.todo[i]].draft)))
  {
    var w := Watch(l, l.todo[i]);
    assert w.id in l.todo;
    assert Followed(t, Looping(l), w);
    hide RunToEnd, PassedOver, NothingWaits;
    RunFollowed(env, t, Looping(l), w);
  }

  /* ------------------------------------------------------------------ leaving `failed` */

  /** A decision on its way to set the run's status. */
  predicate Refreshes(p: Proc, run: nat) {
    || (p.Refreshing? && p.run == run)
    || (Submits(p) && CallerOf(p) == FromDecide(run))
  }

  lemma SubmissionRefreshes(env: Env, t: Tables, p: Proc, run: nat)
    requires Submits(p) && Refreshes(p, run)
    ensures Refreshes(StepSubmit(env, t, p).1, run) && StepSubmit(env, t, p).0.runs == t.runs
  {
    hide CloseMirror, IsBrokerTerminal;
  }

  lemma {:induction false} DecisionRefreshes(env: Env, t: Tables, p: Proc, run: nat)
    requires Refreshes(p, run) && run < |t.runs|
    ensures EndedWell(RunToEnd(env, t, p), run)
    decreases Phase(p), Left(p), Rank(p), WaitsOf(p)
  {
    if p.Refreshing? {
      RefreshEnds(env, t, run);
      hide RunToEnd, HasPending, HasAwaiting;
    } else {
      var next := Step(env, t, p);
      StepProgress(env, t, p);
      StepIsGrouped(env, t, p);
      hide Step, StepSubmit, EndedWell;
      SubmissionRefreshes(env, t, p, run);
      DecisionRefreshes(env, next.0, next.1, run);
    }
  }

  lemma GoesThroughEndsWell(env: Env, t: Tables, a: nat, approve: bool)
    requires GoesThrough(env, t, a, approve)
    ensures EndedWell(RunToEnd(env, t, Deciding(a, approve)), t.proposals[t.approvals[a].proposal].run)
  {
    var id := t.approvals[a].proposal;
    var run := t.proposals[id].run;
    if approve {
      DecideSends(env, t, a);
      var sent := Send(env, SetApproval(Tick(t), a, Approved), id, ByApproval(a), FromDecide(run));
      assert Refreshes(sent.1, run) && run < |sent.0.runs|;
      hide RunToEnd, EndedWell, Send, Refreshes;
      DecisionRefreshes(env, sent.0, sent.1, run);
    } else {
      DecideRejects(env, t, a);
      hide RunToEnd, HasPending, HasAwaiting;
    }
  }

  /** A run that failed keeps its pending approvals, and deciding one takes the run out of `failed` exactly when the
      decision goes through: the approval and its proposal are still open and, to approve, there is a broker whose
      account can be read. */
  lemma DecidingRevivesIff(env: Env, t: Tables, a: nat, approve: bool)
    requires a < |t.approvals| && t.approvals[a].proposal < |t.proposals|
    requires t.proposals[t.approvals[a].proposal].run < |t.runs|
    requires t.runs[t.proposals[t.approvals[a].proposal].run].status.Failed?
    ensures var run := t.proposals[t.approvals[a].proposal].run;
            var after := RunToEnd(env, t, Deciding(a, approve));
            && run < |after.runs|
            && (!after.runs[run].status.Failed? <==>
                && t.approvals[a].status.Pending? && t.proposals[t.approvals[a].proposal].status.Awaiting?
                && (approve ==> env.hasBroker && env.accountOk(t.clock)))
  {
    if GoesThrough(env, t, a, approve) {
      GoesThroughEndsWell(env, t, a, approve);
    } else if Decidable(t, a) && env.hasBroker {
      DecideWithoutAccount(env, t, a);
    } else {
      DecideRefused(env, t, a, approve);
    }
    hide RunToEnd;
  }
}
