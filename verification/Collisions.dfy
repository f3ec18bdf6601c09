/** The collisions that lifecycles do not survive, step by step. */
module Collisions {
  import opened Common
  import opened Risk
  import opened Gate
  import opened Workflow
  import opened WorkflowSteps
  import opened Interleaving
  import opened History
  import opened Lifecycles

  function ProposalAt(t: Tables, a: nat): nat
    requires a < |t.approvals|
  {
    t.approvals[a].proposal
  }

  function RunAt(t: Tables, a: nat): nat
    requires a < |t.approvals| && ProposalAt(t, a) < |t.proposals|
  {
    t.proposals[ProposalAt(t, a)].run
  }

  /* ------------------------------------------------------ a cancellation between the halves of a decision */

  lemma WithdrawnAt(t: Tables, run: nat, id: nat)
    requires id < |t.proposals| && t.proposals[id].run == run && t.proposals[id].status.Awaiting?
    ensures |RunCancelled(t, run).proposals| == |t.proposals| && RunCancelled(t, run).proposals[id].status.Withdrawn?
    ensures RunCancelled(t, run).clock == t.clock
  {
    assert id in AwaitingIds(t, run);
  }

  /** The first half of the decision, then the whole cancellation. */
  lemma CancelledInBetween(env: Env, t: Tables, a: nat)
    requires Decidable(t, a) && env.hasBroker && env.accountOk(t.clock)
    requires t.runs[RunAt(t, a)].status.AwaitingApproval? && env.brokerPrices(t.clock + 1)
    ensures var half := Step(env, t, Deciding(a, true));
            var t1 := RunToEnd(env, half.0, Cancelling(RunAt(t, a)));
            && half.1 == Dispatching(ProposalAt(t, a), RunAt(t, a), a)
            && HasStatus(t1, ProposalAt(t, a), Withdrawn) && t1.clock == t.clock + 2
  {
    var half := Step(env, t, Deciding(a, true));
    assert half == (SetApproval(Tick(t), a, Approved), Dispatching(ProposalAt(t, a), RunAt(t, a), a));
    hide RunToEnd;
    CancelSteps(env, half.0, RunAt(t, a));
    WithdrawnAt(Tick(half.0), RunAt(t, a), ProposalAt(t, a));
    hide RunCancelled;
  }

  /** The second half of a decision marks its proposal submitted, whatever its status is by then. */
  lemma DispatchMarks(env: Env, t: Tables, id: nat, run: nat, a: nat)
    requires id < |t.proposals| && env.submit(t.clock).Accepted?
    ensures var sent := Step(env, t, Dispatching(id, run, a));
            var mirrored := Step(env, sent.0, sent.1);
            var marked := Step(env, mirrored.0, mirrored.1);
            HasStatus(marked.0, id, Submitted)
  {
  }

  /** Between its two halves `Decide` holds nothing: a cancellation that lands there withdraws the proposal, and the
      second half submits it all the same, moving it from `cancelled` to `submitted`. */
  lemma CancelledProposalIsSubmitted(env: Env, t: Tables, a: nat)
    requires Decidable(t, a) && env.hasBroker && env.accountOk(t.clock)
    requires t.runs[RunAt(t, a)].status.AwaitingApproval? && env.brokerPrices(t.clock + 1)
    requires env.submit(t.clock + 2).Accepted?
    ensures var half := Step(env, t, Deciding(a, true));
            var t1 := RunToEnd(env, half.0, Cancelling(RunAt(t, a)));
            var sent := Step(env, t1, half.1);
            var mirrored := Step(env, sent.0, sent.1);
            var marked := Step(env, mirrored.0, mirrored.1);
            && HasStatus(t1, ProposalAt(t, a), Withdrawn)
            && HasStatus(marked.0, ProposalAt(t, a), Submitted)
            && !MovedOnOver(t1, marked.0)
  {
    CancelledInBetween(env, t, a);
    var half := Step(env, t, Deciding(a, true));
    var t1 := RunToEnd(env, half.0, Cancelling(RunAt(t, a)));
    hide RunToEnd, Step;
    DispatchMarks(env, t1, ProposalAt(t, a), RunAt(t, a), a);
  }

  /* ------------------------------------------------------ a decision between the halves of a cancellation */

  /** The cancellation reads which proposals await approval. */
  lemma CancelReads(env: Env, t: Tables, a: nat)
    requires Decidable(t, a) && t.runs[RunAt(t, a)].status.AwaitingApproval? && env.brokerPrices(t.clock)
    ensures var read := Step(env, t, Cancelling(RunAt(t, a)));
            read.0 == Tick(t) && read.1.Withdrawing? && ProposalAt(t, a) in read.1.ids
  {
    assert ProposalAt(t, a) in AwaitingIds(t, RunAt(t, a));
  }

  /** An accepted order that is filled at the first look. */
  lemma AcceptedFills(env: Env, t: Tables, id: nat, run: nat)
    requires id < |t.proposals| && env.getOrder(t.clock).Some? && env.getOrder(t.clock).value.status == "filled"
    ensures HasStatus(RunToEnd(env, t, Mirroring(id, FromDecide(run))), id, Done)
  {
    var m := |t.mirrors|;
    var marked := SetProposal(NewMirror(t, id), id, Submitted);
    var closed := Tick(Reconciled(marked, m, env.getOrder(t.clock).value));
    var done := SetProposal(closed, id, Done);
    assert id < |closed.proposals| by { hide CloseMirror; }
    assert HasStatus(done, id, Done);
    assert marked.clock == t.clock;
    assert HasStatus(Refreshed(done, run), id, Done) by { hide HasPending, HasAwaiting; }
    hide RunToEnd, SetProposal, NewMirror, Reconciled, Refreshed, HasStatus;
    MirroringSteps(env, t, id, FromDecide(run));
    ClosingSteps(env, marked, id, m, MAX_WAITS, FromDecide(run));
    DecideAfterSubmit(env, done, Synced(true), id, run);
  }

  /** A whole decision whose order is accepted and filled. */
  lemma DecideFills(env: Env, t: Tables, a: nat)
    requires Decidable(t, a) && env.hasBroker && env.accountOk(t.clock) && env.submit(t.clock + 1).Accepted?
    requires env.getOrder(t.clock + 2).Some? && env.getOrder(t.clock + 2).value.status == "filled"
    ensures HasStatus(RunToEnd(env, t, Deciding(a, true)), ProposalAt(t, a), Done)
  {
    var id, run := ProposalAt(t, a), RunAt(t, a);
    var sent := Send(env, SetApproval(Tick(t), a, Approved), id, ByApproval(a), FromDecide(run));
    assert sent.1 == Mirroring(id, FromDecide(run)) && sent.0.clock == t.clock + 2 && id < |sent.0.proposals|;
    hide RunToEnd, HasStatus, Send, SetApproval;
    DecideSends(env, t, a);
    AcceptedFills(env, sent.0, id, run);
  }

  /** The other way round it is worse: a decision that runs between a cancellation's read and its write has its order
      filled, and the cancellation then turns the proposal from filled to cancelled. */
  lemma FilledProposalIsCancelled(env: Env, t: Tables, a: nat)
    requires Decidable(t, a) && t.runs[RunAt(t, a)].status.AwaitingApproval? && env.brokerPrices(t.clock)
    requires env.hasBroker && env.accountOk(t.clock + 1) && env.submit(t.clock + 2).Accepted?
    requires env.getOrder(t.clock + 3).Some? && env.getOrder(t.clock + 3).value.status == "filled"
    ensures var read := Step(env, t, Cancelling(RunAt(t, a)));
            var t1 := RunToEnd(env, read.0, Deciding(a, true));
            var t2 := Step(env, t1, read.1).0;
            && HasStatus(t1, ProposalAt(t, a), Done)
            && HasStatus(t2, ProposalAt(t, a), Withdrawn)
            && !MovedOnOver(t1, t2)
  {
    CancelReads(env, t, a);
    hide RunToEnd;
    DecideFills(env, Tick(t), a);
  }

  /* ------------------------------------------------------------------ two resumes of one run */

  /** Nothing but the lock keeps two resumes of a paused run apart: both get past the checks, since the first writes
      nothing before its agent has answered. */
  lemma BothResumesGoOn(env: Env, t: Tables, run: nat, agent: string)
    requires Resumable(env, t, run, agent) && Reachable(env, t, run) && Reachable(env, Tick(t), run)
    ensures var first := Step(env, t, Resuming(run, agent));
            var second := Step(env, first.0, Resuming(run, agent));
            first.1.Asking? && second.1.Asking?
  {
    hide RestAfter, HasInterrupted, ResolveMode;
  }

  /** Then each goes through proposals of its own, and one that gives up after a fill withdraws those of the other: an
      order that is out by then takes its proposal from `cancelled` to `submitted`. */
  lemma OrphanIsSubmitted(env: Env, t: Tables, id: nat, m: nat, l: Loop)
    requires HasStatus(t, id, PendingAuto) && OfRun(t, id, l.run)
    ensures var t1 := Step(env, t, Aborting(l.run, true)).0;
            var t2 := Step(env, t1, Marking(id, m, FromLoop(l))).0;
            && HasStatus(t1, id, Withdrawn)
            && HasStatus(t2, id, Submitted)
            && !MovedOnOver(t1, t2)
  {
  }
}
