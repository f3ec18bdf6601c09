/** What a person's decision, a cancellation and giving up do to every row. */
module Decisions {
  import opened Common
  import opened Risk
  import opened Gate
  import opened Workflow
  import opened WorkflowSteps
  import opened Orders

  /** The decision is still open, and an approved order can be sent. */
  predicate GoesThrough(env: Env, t: Tables, a: nat, approve: bool) {
    Decidable(t, a) && (approve ==> env.hasBroker && env.accountOk(t.clock))
  }

  lemma RefreshedRows(t: Tables, run: nat)
    ensures var after := Refreshed(t, run);
            && after.proposals == t.proposals && after.approvals == t.approvals && after.mirrors == t.mirrors
            && after.log == t.log && after.clock == t.clock
  {
    hide HasPending, HasAwaiting;
  }

  /** Declining sends nothing: approval and proposal are closed, and no other row of theirs is touched. */
  lemma DeclinedIsClosed(env: Env, t: Tables, a: nat)
    requires Decidable(t, a)
    ensures var after := RunToEnd(env, t, Deciding(a, false));
            var id := t.approvals[a].proposal;
            && after.approvals == t.approvals[a := t.approvals[a].(status := Declined)]
            && after.proposals == t.proposals[id := t.proposals[id].(status := Rejected)]
            && after.log == t.log && after.mirrors == t.mirrors
  {
    var id := t.approvals[a].proposal;
    hide RunToEnd, Refreshed;
    DecideRejects(env, t, a);
    RefreshedRows(SetProposal(SetApproval(t, a, Declined), id, Rejected), t.proposals[id].run);
  }

  /** The one order that approving sends. */
  function Ordered(env: Env, t: Tables, a: nat): Submission
    requires a < |t.approvals|
  {
    Submission(t.approvals[a].proposal, ByApproval(a), env.submit(t.clock + 1).Accepted?, t.clock + 1)
  }

  lemma RefusedEnds(env: Env, t: Tables, a: nat)
    requires GoesThrough(env, t, a, true) && env.submit(t.clock + 1).Refused?
    ensures var after := RunToEnd(env, t, Deciding(a, true));
            var id := t.approvals[a].proposal;
            && after.approvals == t.approvals[a := t.approvals[a].(status := Approved)]
            && after.log == t.log + [Ordered(env, t, a)]
            && after.mirrors == t.mirrors
            && after.proposals == t.proposals[id := t.proposals[id].(status := Rejected, reasons := REFUSED)]
  {
    var id := t.approvals[a].proposal;
    var run := t.proposals[id].run;
    var sent := Send(env, SetApproval(Tick(t), a, Approved), id, ByApproval(a), FromDecide(run));
    assert sent.1 == AfterSubmit(SubmitFailed, id, FromDecide(run));
    hide RunToEnd, Refreshed;
    DecideSends(env, t, a);
    DecideAfterSubmit(env, sent.0, SubmitFailed, id, run);
    RefreshedRows(RejectProposal(sent.0, id, REFUSED), run);
  }

  lemma SyncedEnds(env: Env, t: Tables, id: nat, run: nat, ok: bool, filled: bool)
    ensures RunToEnd(env, t, Returning(ok, filled, FromDecide(run))) == Refreshed(t, run)
  {
    hide RunToEnd, Refreshed;
    DecideAfterSubmit(env, t, if ok then Synced(filled) else SyncFailed, id, run);
    if !ok {
      Leads(env, t, Returning(ok, filled, FromDecide(run)), t, Refreshing(run));
      RefreshEnds(env, t, run);
    }
  }

  /** The tables right after an approved order was taken. */
  function Taken(env: Env, t: Tables, a: nat): Tables
    requires a < |t.approvals|
  {
    SetApproval(Tick(Tick(t)), a, Approved).(log := t.log + [Ordered(env, t, a)])
  }

  lemma ApprovedSends(env: Env, t: Tables, a: nat)
    requires GoesThrough(env, t, a, true) && env.submit(t.clock + 1).Accepted?
    ensures RunToEnd(env, t, Deciding(a, true))
         == RunToEnd(env, Taken(env, t, a),
                     Mirroring(t.approvals[a].proposal, FromDecide(t.proposals[t.approvals[a].proposal].run)))
  {
    var id := t.approvals[a].proposal;
    var sent := Send(env, SetApproval(Tick(t), a, Approved), id, ByApproval(a), FromDecide(t.proposals[id].run));
    assert sent == (Taken(env, t, a), Mirroring(id, FromDecide(t.proposals[id].run)));
    hide RunToEnd, Send;
    DecideSends(env, t, a);
  }

  /** The broker was asked about the order of proposal `id` from `start` on; all replies but the last were open, the
      last one decided how proposal and new mirror end, and no other proposal or mirror was touched. */
  ghost predicate LastReplyDecides(env: Env, t: Tables, start: nat, id: nat, after: Tables) {
    && id < |t.proposals| && |after.proposals| == |t.proposals| && |after.mirrors| == |t.mirrors| + 1
    && start < after.clock
    && (forall k :: start <= k < after.clock - 1 ==> IsOpen(env.getOrder(k)))
    && Ended(env.getOrder(after.clock - 1), t.proposals[id].draft.qty,
             after.proposals[id].status, after.mirrors[|t.mirrors|])
    && after.proposals == t.proposals[id := t.proposals[id].(status := after.proposals[id].status)]
    && after.mirrors[..|t.mirrors|] == t.mirrors && after.mirrors[|t.mirrors|].proposal == id
  }

  /** Waiting for an order that is out, in terms of the tables before it was mirrored. */
  lemma EndedRows(env: Env, t: Tables, id: nat, after: Tables, ok: bool, filled: bool)
    requires id < |t.proposals| && IsOut(Out(t, id), id, |t.mirrors|, t.proposals[id].draft.qty)
    requires Waited(env, Out(t, id), id, |t.mirrors|, t.proposals[id].draft.qty, after, ok, filled)
    ensures LastReplyDecides(env, t, t.clock, id, after)
    ensures after.log == t.log && after.approvals == t.approvals
  {
    hide Ended, IsOpen;
  }

  lemma SameRows(env: Env, t: Tables, t': Tables, start: nat, id: nat, after: Tables, after': Tables)
    requires LastReplyDecides(env, t, start, id, after)
    requires t'.proposals == t.proposals && t'.mirrors == t.mirrors
    requires after'.proposals == after.proposals && after'.mirrors == after.mirrors && after'.clock == after.clock
    ensures LastReplyDecides(env, t', start, id, after')
  {
    hide Ended, IsOpen;
  }

  /** Approving sends exactly one order, for this proposal, and the broker's last reply decides how proposal and mirror
      end; no other proposal or approval is touched. */
  lemma ApprovedEnds(env: Env, t: Tables, a: nat)
    requires GoesThrough(env, t, a, true) && env.submit(t.clock + 1).Accepted?
    ensures var after := RunToEnd(env, t, Deciding(a, true));
            && after.approvals == t.approvals[a := t.approvals[a].(status := Approved)]
            && after.log == t.log + [Ordered(env, t, a)]
            && LastReplyDecides(env, t, t.clock + 2, t.approvals[a].proposal, after)
  {
    var id := t.approvals[a].proposal;
    var run := t.proposals[id].run;
    var taken := Taken(env, t, a);
    hide RunToEnd, Refreshed, Taken, Out, Waited, LastReplyDecides, IsOut;
    ApprovedSends(env, t, a);
    TakenRows(env, t, a);
    OutRows(taken, id);
    var ended, ok, filled := AcceptedOrderEnds(env, taken, id, FromDecide(run));
    EndedRows(env, taken, id, ended, ok, filled);
    SyncedEnds(env, ended, id, run, ok, filled);
    RefreshedRows(ended, run);
    SameRows(env, taken, t, taken.clock, id, ended, Refreshed(ended, run));
  }

  lemma TakenRows(env: Env, t: Tables, a: nat)
    requires a < |t.approvals|
    ensures var taken := Taken(env, t, a);
            && taken.proposals == t.proposals && taken.mirrors == t.mirrors && taken.clock == t.clock + 2
            && taken.approvals == t.approvals[a := t.approvals[a].(status := Approved)]
            && taken.log == t.log + [Ordered(env, t, a)]
  {
  }

  /* ------------------------------------------------------------------ cancelling */

  /** A run is cancelled exactly when it awaits approval and its value can be told: the broker has prices, or some
      proposal of the run carries its own. */
  lemma CancelledIff(env: Env, t: Tables, run: nat)
    requires run < |t.runs| && !t.runs[run].status.Cancelled?
    ensures var after := RunToEnd(env, t, Cancelling(run));
            && run < |after.runs|
            && (after.runs[run].status.Cancelled? <==>
                && t.runs[run].status == AwaitingApproval
                && (|| env.brokerPrices(t.clock)
                    || exists p :: 0 <= p < |t.proposals| && t.proposals[p].run == run
                                && t.proposals[p].draft.qty > 0.0 && t.proposals[p].draft.estimatedNotional > 0.0))
  {
    CancelRefused(env, t, run);
    if Cancellable(t, run) && SomePrice(env, t, run) {
      CancelSteps(env, t, run);
    }
    hide RunToEnd, AwaitingIds, WithdrawAll, RevokeAll;
    CancelledRuns(t, run);
  }

  lemma CancelledRuns(t: Tables, run: nat)
    requires run < |t.runs|
    ensures run < |RunCancelled(Tick(t), run).runs| && RunCancelled(Tick(t), run).runs[run].status.Cancelled?
  {
  }

  /** A cancellation that goes through withdraws every proposal of the run that awaits approval and revokes their open
      approvals; nothing else changes, and no order is sent. */
  lemma CancelWithdraws(env: Env, t: Tables, run: nat)
    requires run < |t.runs| && t.runs[run].status.AwaitingApproval? && SomePrice(env, t, run)
    ensures var after := RunToEnd(env, t, Cancelling(run));
            && |after.proposals| == |t.proposals| && |after.approvals| == |t.approvals| && after.log == t.log
            && (forall i :: 0 <= i < |t.proposals| ==>
                  after.proposals[i] == if t.proposals[i].run == run && t.proposals[i].status.Awaiting?
                                        then t.proposals[i].(status := Withdrawn) else t.proposals[i])
            && (forall a :: 0 <= a < |t.approvals| ==>
                  var open := t.approvals[a].status.Pending? && t.approvals[a].proposal in AwaitingIds(t, run);
                  after.approvals[a] == if open then t.approvals[a].(status := Revoked) else t.approvals[a])
  {
    CancelSteps(env, t, run);
    AwaitingIdsTicked(t, run);
    assert forall i: nat :: i in AwaitingIds(t, run) <==>
                              i < |t.proposals| && t.proposals[i].run == run && t.proposals[i].status.Awaiting?;
    hide RunToEnd, SomePrice, AwaitingIds;
  }

  /* ------------------------------------------------------------------ giving up */

  /** A run that gives up after a fill cancels every proposal nobody judged; it waits for approvals if any is still open
      and has failed otherwise.  One that gives up before any fill has failed, and its proposals stay as they are. */
  lemma GivingUp(env: Env, t: Tables, run: nat, anyFill: bool)
    requires run < |t.runs|
    ensures var after := RunToEnd(env, t, Aborting(run, anyFill));
            && |after.proposals| == |t.proposals| && after.approvals == t.approvals && after.log == t.log
            && (forall i :: 0 <= i < |t.proposals| ==>
                  after.proposals[i] == if anyFill && t.proposals[i].run == run && t.proposals[i].status.PendingAuto?
                                        then t.proposals[i].(status := Withdrawn) else t.proposals[i])
            && |after.runs| == |t.runs|
            && after.runs[run].status == if anyFill && (HasPending(t, run) || HasAwaiting(t, run))
                                         then AwaitingApproval else RunStatus.Failed
  {
    AbortEnds(env, t, run, anyFill);
    SameWaiting(t, run);
    hide RunToEnd, HasPending, HasAwaiting;
  }

  lemma SameWaiting(t: Tables, run: nat)
    ensures HasPending(WithdrawOrphans(t, run), run) <==> HasPending(t, run)
    ensures HasAwaiting(WithdrawOrphans(t, run), run) <==> HasAwaiting(t, run)
  {
    var after := WithdrawOrphans(t, run);
    if HasAwaiting(t, run) {
      var p :| 0 <= p < |t.proposals| && t.proposals[p].run == run && t.proposals[p].status.Awaiting?;
      assert after.proposals[p].run == run && after.proposals[p].status.Awaiting?;
    }
    if HasPending(t, run) {
      var a :| 0 <= a < |t.approvals| && t.approvals[a].status.Pending?
            && t.approvals[a].proposal < |t.proposals| && t.proposals[t.approvals[a].proposal].run == run;
      assert after.proposals[after.approvals[a].proposal].run == run;
    }
  }
}
