/** The workflow runner and the approvals service, writing their tables in place.  Every entry point leaves the tables
    that its steps, taken one after the other, lead to. */
module WorkflowService {
  import opened Common
  import opened Risk
  import opened Gate
  import opened Workflow
  import opened WorkflowSteps
  import opened Interleaving
  import opened History
  import opened Chain
  import opened Serial
  import opened SerialCalls
  import opened Marks
  import opened Modes
  import opened Orders
  import Lock

  /** What every call keeps: coherent tables stay coherent, and statuses only move forward. */
  ghost predicate Orderly(env: Env, t: Tables, t': Tables) {
    Coherent(env, t) && DistinctNames(env.chain) ==> Coherent(env, t') && MovedOnOver(t, t')
  }

  lemma CallIsOrderly(env: Env, t: Tables, entry: Proc)
    requires IsEntry(entry)
    ensures Orderly(env, t, RunToEnd(env, t, entry))
  {
    if Coherent(env, t) && DistinctNames(env.chain) {
      RestIsMid(env, t, entry);
      hide Coherent, Mid, RunToEnd, MovedOnOver;
      RunMovesOn(env, t, entry);
      CallKeepsCoherence(env, t, entry);
    }
  }

  lemma NoCallIsOrderly(env: Env, t: Tables)
    ensures Orderly(env, t, t)
  {
    hide Coherent;
  }

  /** The outputs a reply sets; of an agent other than the analyst only the result counts. */
  function WrittenBy(step: string, e: Envelope): set<string> {
    if step != ANALYST then {step}
    else {step} + (if e.handoff.Value? then {HANDOFF} else {}) + (if e.memory.Value? then {MEMORY} else {})
  }

  predicate SameAt(before: map<string, string>, after: map<string, string>, k: string) {
    (k in before <==> k in after) && (k in before ==> after[k] == before[k])
  }

  class Service {
    const env: Env
    /** Shared with every other process that runs or resumes. */
    const lock: Lock.Store
    const lockTtl: nat
    var runs: seq<Run>
    var proposals: seq<Proposal>
    var approvals: seq<Approval>
    var mirrors: seq<Mirror>
    var steps: seq<StepRow>
    /** Orders as the broker saw them. */
    ghost var log: seq<Submission>
    /** What each run inserted, kept as history. */
    var batches: seq<Batch>
    var clock: nat

    ghost function View(): Tables
      reads this
    {
      Tables(runs, proposals, approvals, mirrors, steps, log, batches, clock)
    }

    constructor (env: Env, lock: Lock.Store, lockTtl: nat)
      ensures this.env == env && this.lock == lock && this.lockTtl == lockTtl && View() == EMPTY.tables
    {
      this.env, this.lock, this.lockTtl := env, lock, lockTtl;
      runs, proposals, approvals, mirrors, steps, log, batches, clock := [], [], [], [], [], [], [], 0;
    }

    /* ---------------------------------------------------------------- rows */

    method WriteRun(run: nat, status: RunStatus)
      modifies this`runs
      ensures View() == SetRun(old(View()), run, status)
    {
      if run < |runs| {
        runs := runs[run := runs[run].(status := status)];
      }
    }

    method WriteProposal(id: nat, status: ProposalStatus)
      modifies this`proposals
      ensures View() == SetProposal(old(View()), id, status)
    {
      if id < |proposals| {
        proposals := proposals[id := proposals[id].(status := status)];
      }
    }

    method WriteRejection(id: nat, reasons: seq<string>)
      modifies this`proposals
      ensures View() == RejectProposal(old(View()), id, reasons)
    {
      if id < |proposals| {
        proposals := proposals[id := proposals[id].(status := Rejected, reasons := reasons)];
      }
    }

    method WriteApproval(id: nat, status: ApprovalStatus)
      modifies this`approvals
      ensures View() == SetApproval(old(View()), id, status)
    {
      if id < |approvals| {
        approvals := approvals[id := approvals[id].(status := status)];
      }
    }

    /** Marks every row of one run and step. */
    method UpdateStepRows(run: nat, step: string, status: StepStatus, payload: Envelope)
      modifies this`steps
      ensures View() == UpdateStep(old(View()), run, step, status, payload)
    {
      for i := 0 to |steps|
        invariant |steps| == |old(steps)|
        invariant forall k :: 0 <= k < i ==> steps[k] == UpdateRows(old(steps), run, step, status, payload)[k]
        invariant forall k :: i <= k < |steps| ==> steps[k] == old(steps)[k]
      {
        if steps[i].run == run && steps[i].step == step {
          steps := steps[i := steps[i].(status := status, payload := payload)];
        }
      }
      assert steps == UpdateRows(old(steps), run, step, status, payload);
    }

    /* ---------------------------------------------------------------- submitting one proposal */

    /** Writes the broker's terminal state to the mirror, then to the proposal. */
    method ApplyBrokerTerminal(id: nat, m: nat, order: BrokerOrder)
      modifies this`mirrors, this`proposals
      ensures View() == SetProposal(Reconciled(old(View()), m, order), id, StatusFor(order))
    {
      if m < |mirrors| {
        var mirror := mirrors[m];
        if order.status == "filled" {
          var fillPrice := order.filledAvgPrice;
          var notional := order.filledQty * fillPrice;
          if order.filledQty <= 0.0 {
            notional := mirror.qty * fillPrice;
          }
          mirror := mirror.(status := MirrorFilled, fillPrice := fillPrice, notional := notional);
          if order.filledQty > 0.0 {
            mirror := mirror.(qty := order.filledQty);
          }
          assert mirror.notional == mirror.qty * fillPrice;
        } else {
          mirror := mirror.(status := MirrorClosed(if order.status == "cancelled" then "canceled" else order.status));
        }
        assert mirror == CloseMirror(mirrors[m], order);
        mirrors := mirrors[m := mirror];
      }
      hide CloseMirror;
      WriteProposal(id, StatusFor(order));
    }

    /** Polls one order until the broker is done with it or waiting ends; its last reply decides. */
    method PollOrder(id: nat, m: nat, ghost ordered: real, ghost caller: Caller) returns (s: Submitting)
      modifies this`proposals, this`mirrors, this`clock
      ensures !s.SubmitFailed? && |proposals| == |old(proposals)|
      ensures RunToEnd(env, old(View()), Polling(id, m, MAX_WAITS, caller))
            == RunToEnd(env, View(), AfterSubmit(s, id, caller))
      ensures IsOut(old(View()), id, m, ordered) ==>
                Waited(env, old(View()), id, m, ordered, View(), s.Synced?, s.Synced? && s.filled)
    {
      hide RunToEnd, SetProposal, SetMirror, CloseMirror, IsBrokerTerminal, Reconciled, Waited, IsOver, IsOut;
      var waits := MAX_WAITS;
      while true
        invariant View() == old(View()).(clock := clock) && clock >= old(clock)
        invariant forall k :: old(clock) <= k < clock ==> IsOpen(env.getOrder(k))
        invariant RunToEnd(env, old(View()), Polling(id, m, MAX_WAITS, caller))
               == RunToEnd(env, View(), Polling(id, m, waits, caller))
        decreases waits
      {
        PollingSteps(env, View(), id, m, waits, caller);
        LaterOut(old(View()), clock, id, m, ordered);
        var order := env.getOrder(clock);
        if order.None? {
          LastUnanswered(env, old(View()), id, m, ordered, View(), false);
          clock := clock + 1;
          return SyncFailed;
        }
        OverIsTerminal(order.value.status);
        if IsBrokerTerminal(order.value.status) {
          ClosingSteps(env, View(), id, m, waits, caller);
          ReconciledTicked(View(), m, order.value);
          LastCloses(env, old(View()), id, m, ordered, View(), order.value);
          clock := clock + 1;
          ReconciledLength(View(), id, m, order.value);
          ApplyBrokerTerminal(id, m, order.value);
          return Synced(order.value.status == "filled");
        }
        var late, stopped := waits == 0 || env.late(clock), env.stopped(clock);
        LastUnanswered(env, old(View()), id, m, ordered, View(), late);
        clock := clock + 1;
        if late {
          return Synced(false);
        }
        if stopped {
          return SyncFailed;
        }
        waits := waits - 1;
      }
    }

    /** Sends one order, mirrors it, and waits for the broker. A refused order leaves no mirror; for one that the broker
        has taken, its last reply decides how mirror and proposal end. */
    method SubmitProposal(id: nat, ghost authority: Authority, ghost caller: Caller) returns (s: Submitting)
      modifies this`proposals, this`mirrors, this`log, this`clock
      ensures |proposals| == |old(proposals)|
      ensures var sent := Send(env, old(View()), id, authority, caller);
              RunToEnd(env, sent.0, sent.1) == RunToEnd(env, View(), AfterSubmit(s, id, caller))
      ensures s.SubmitFailed? <==> env.submit(old(clock)).Refused?
      ensures s.SubmitFailed? ==> proposals == old(proposals) && mirrors == old(mirrors) && clock == old(clock) + 1
      ensures log == old(log) + [Submission(id, authority, !s.SubmitFailed?, old(clock))]
      ensures !s.SubmitFailed? && id < |old(proposals)| ==>
                && old(clock) + 1 < clock && |mirrors| == |old(mirrors)| + 1 && mirrors[|old(mirrors)|].proposal == id
                && (forall k :: old(clock) + 1 <= k < clock - 1 ==> IsOpen(env.getOrder(k)))
                && Ended(env.getOrder(clock - 1), old(proposals)[id].draft.qty,
                         proposals[id].status, mirrors[|old(mirrors)|])
    {
      hide RunToEnd, AfterSubmit;
      var reply := env.submit(clock);
      log := log + [Submission(id, authority, reply.Accepted?, clock)];
      clock := clock + 1;
      if reply.Refused? {
        AfterRefusal(id, caller);
        return SubmitFailed;
      }
      MirroringSteps(env, View(), id, caller);
      ghost var taken := View();
      var m := |mirrors|;
      var qty := if id < |proposals| then proposals[id].draft.qty else 0.0;
      mirrors := mirrors + [Mirror(id, qty, MirrorSubmitted, 0.0, 0.0)];
      WriteProposal(id, Submitted);
      assert View() == Out(taken, id);
      if id < |proposals| {
        OutRows(taken, id);
      }
      hide Waited, Out, EndedBy;
      ghost var out := View();
      s := PollOrder(id, m, qty, caller);
      if id < |proposals| {
        WaitedFor(env, out, id, m, qty, View(), s.Synced?, s.Synced? && s.filled);
      }
    }

    /* ---------------------------------------------------------------- the proposal loop */

    /** One iteration: the loop variables for the next one, or None to give up. */
    method HandleProposal(l: Loop) returns (next: Option<Loop>, anyFill: bool)
      requires l.todo != [] && l.todo[0] < |proposals|
      modifies this`proposals, this`approvals, this`mirrors, this`log, this`clock
      ensures |proposals| == |old(proposals)|
      ensures next.Some? ==> next.value.todo == l.todo[1..] && next.value.run == l.run
      ensures next.Some? ==> RunToEnd(env, old(View()), Looping(l)) == RunToEnd(env, View(), Looping(next.value))
      ensures next.None? ==> RunToEnd(env, old(View()), Looping(l)) == RunToEnd(env, View(), Aborting(l.run, anyFill))
    {
      var id := l.todo[0];
      var d := proposals[id].draft;
      anyFill := l.anyFill;
      hide RunToEnd, VerdictOf, SetProposal, RejectProposal, Send;
      var v := Judge(env.engine, l.mode, l.hold, l.marks, l.state, d);
      match v {
        case NotHoldable =>
          LoopRejects(env, View(), l, ["not_holdable"]);
          WriteRejection(id, ["not_holdable"]);
          next := Some(Rest(l));
        case MissingMark =>
          LoopAborts(env, View(), l);
          next := None;
        case AutoRejected(breaches) =>
          LoopRejects(env, View(), l, breaches);
          WriteRejection(id, breaches);
          next := Some(Rest(l));
        case NeedsApproval(breaches) =>
          LoopQueues(env, View(), l);
          approvals := approvals + [Approval(id, Pending, breaches, l.hold, l.batch)];
          WriteProposal(id, Awaiting);
          next := Some(Rest(l).(queued := true));
        case Skipped =>
          LoopSkips(env, View(), l);
          next := Some(Rest(l));
        case Submit =>
          if !env.hasBroker {
            LoopAborts(env, View(), l);
            return None, anyFill;
          }
          next, anyFill := SubmitFromLoop(l);
      }
    }

    method SubmitFromLoop(l: Loop) returns (next: Option<Loop>, anyFill: bool)
      requires l.todo != [] && l.todo[0] < |proposals| && env.hasBroker && FirstVerdict(env, View(), l).Submit?
      modifies this`proposals, this`mirrors, this`log, this`clock
      ensures |proposals| == |old(proposals)|
      ensures next.Some? ==> next.value.todo == l.todo[1..] && next.value.run == l.run
      ensures next.Some? ==> RunToEnd(env, old(View()), Looping(l)) == RunToEnd(env, View(), Looping(next.value))
      ensures next.None? ==> RunToEnd(env, old(View()), Looping(l)) == RunToEnd(env, View(), Aborting(l.run, anyFill))
    {
      var rest := Rest(l);
      assert rest.todo == l.todo[1..] && rest.run == l.run;
      hide RunToEnd, Send, FirstVerdict, AfterSubmit, Rest, GateAuthority;
      LoopSends(env, View(), l);
      var s := SubmitProposal(l.todo[0], GateAuthority(l), FromLoop(rest));
      next, anyFill := FollowSubmission(s, l.todo[0], rest);
    }

    /** A refused proposal is rejected; after a synced one the portfolio is read again. */
    method FollowSubmission(s: Submitting, id: nat, l: Loop) returns (next: Option<Loop>, anyFill: bool)
      modifies this`proposals, this`clock
      ensures |proposals| == |old(proposals)|
      ensures next.Some? ==> next.value.todo == l.todo && next.value.run == l.run
      ensures next.Some? ==>
                RunToEnd(env, old(View()), AfterSubmit(s, id, FromLoop(l)))
                      == RunToEnd(env, View(), Looping(next.value))
      ensures next.None? ==>
                RunToEnd(env, old(View()), AfterSubmit(s, id, FromLoop(l)))
                      == RunToEnd(env, View(), Aborting(l.run, anyFill))
    {
      hide RunToEnd, AfterSubmit;
      anyFill := l.anyFill;
      match s {
        case SubmitFailed =>
          LoopAfterRefusal(env, View(), id, l);
          WriteRejection(id, REFUSED);
          next := Some(l);
        case SyncFailed =>
          LoopAfterSyncFailure(env, View(), id, l);
          next := None;
        case Synced(filled) =>
          LoopAfterSync(env, View(), filled, id, l);
          anyFill := l.anyFill || filled;
          var state := env.portfolio(clock);
          next := if state.None? then None else Some(l.(anyFill := anyFill, state := state.value, readAt := clock));
          clock := clock + 1;
      }
    }

    /** Where the broker has no price, the first estimate of the symbol serves. */
    static method EstimateMarks(brokerMarks: map<string, real>, drafts: seq<Draft>) returns (marks: map<string, real>)
      ensures marks == AddEstimates(brokerMarks, drafts)
      ensures MarksAre(brokerMarks, drafts, marks)
    {
      marks := brokerMarks;
      MarksAreCompleted(brokerMarks, drafts);
      for i := 0 to |drafts|
        invariant AddEstimates(marks, drafts[i..]) == AddEstimates(brokerMarks, drafts)
      {
        assert drafts[i..][1..] == drafts[i + 1..];
        var d := drafts[i];
        if d.symbol !in marks && d.qty > 0.0 && d.estimatedNotional > 0.0 {
          marks := marks[d.symbol := d.estimatedNotional / d.qty];
        }
      }
    }

    /** The portfolio agent's proposals; None when one of them has no symbol or a side other than buy and sell. */
    method ReadPortfolioResult(prior: map<string, string>) returns (drafts: Option<seq<Draft>>)
      ensures drafts == ReadDrafts(env, prior)
      ensures drafts.Some? <==> && "portfolio" in prior && env.parseDrafts(prior["portfolio"]).Some?
                                && forall d :: d in env.parseDrafts(prior["portfolio"]).value ==>
                                     d.symbol != "" && (d.side == Buy || d.side == Sell)
      ensures drafts.Some? ==> drafts == env.parseDrafts(prior["portfolio"])
    {
      if PORTFOLIO !in prior {
        return None;
      }
      drafts := env.parseDrafts(prior[PORTFOLIO]);
      if drafts.None? {
        return;
      }
      for i := 0 to |drafts.value|
        invariant drafts == env.parseDrafts(prior[PORTFOLIO])
        invariant forall k :: 0 <= k < i ==> ValidDraft(drafts.value[k])
      {
        if drafts.value[i].symbol == "" || drafts.value[i].side.Other? {
          assert !ValidDraft(drafts.value[i]);
          return None;
        }
      }
    }

    method InsertProposals(run: nat, drafts: seq<Draft>)
      modifies this`proposals
      ensures proposals == old(proposals) + NewProposals(run, drafts)
    {
      var rows: seq<Proposal> := [];
      for i := 0 to |drafts|
        invariant proposals == old(proposals)
        invariant |rows| == i && forall k :: 0 <= k < i ==> rows[k] == NewProposals(run, drafts)[k]
      {
        rows := rows + [Proposal(run, drafts[i], PendingAuto, [])];
      }
      assert rows == NewProposals(run, drafts);
      proposals := proposals + rows;
    }

    /** Inserts the proposals and handles them one by one. */
    method FinishProposals(job: Job) returns (failed: bool, anyFill: bool)
      modifies this`runs, this`proposals, this`approvals, this`mirrors, this`log, this`batches, this`clock
      ensures RunToEnd(env, old(View()), Inserting(job))
           == RunToEnd(env, View(), if failed then Aborting(job.run, anyFill) else Finished)
    {
      hide RunToEnd, ReadDrafts, AddEstimates;
      var drafts := ReadPortfolioResult(job.prior);
      if drafts.None? || (job.origin.ResumedAt? && !env.accountOk(clock)) {
        InsertFails(env, View(), job);
        clock := clock + 1;
        FailIsAbort(env, View(), job.run);
        return true, false;
      }
      InsertSteps(env, View(), job);
      var first, batch, now := |proposals|, |batches|, clock;
      var marks := EstimateMarks(env.brokerMarks(now), drafts.value);
      var state, hold := env.portfolio(now), env.watchlist(now);
      InsertProposals(job.run, drafts.value);
      batches := batches + [Batch(job.run, job.mode, job.origin, now, first, drafts.value)];
      clock := clock + 1;
      if state.None? || hold.None? {
        FailIsAbort(env, View(), job.run);
        return true, false;
      }
      var l := Loop(job.run, job.mode, hold.value, marks, state.value, Ids(first, |drafts.value|), false, false,
                    batch, now);
      while l.todo != []
        invariant forall k :: 0 <= k < |l.todo| ==> l.todo[k] < |proposals|
        invariant l.run == job.run
        invariant RunToEnd(env, old(View()), Inserting(job)) == RunToEnd(env, View(), Looping(l))
        decreases |l.todo|
      {
        ghost var before := l;
        var next, fill := HandleProposal(l);
        if next.None? {
          return true, fill;
        }
        l := next.value;
        assert forall k :: 0 <= k < |l.todo| ==> l.todo[k] == before.todo[k + 1];
      }
      LoopEnds(env, View(), l);
      WriteRun(l.run, if l.queued then AwaitingApproval else Executed);
      Ends(env, View());
      return false, l.anyFill;
    }

    /* ---------------------------------------------------------------- failing */

    /** A run fails, or, after a fill, cancels what no iteration reached and waits for what is still pending. */
    method GiveUp(run: nat, anyFill: bool)
      modifies this`runs, this`proposals
      ensures View() == RunToEnd(env, old(View()), Aborting(run, anyFill))
    {
      hide RunToEnd, SetRun, WithdrawOrphans;
      AbortEnds(env, View(), run, anyFill);
      if !anyFill {
        WriteRun(run, Failed);
        return;
      }
      CancelOrphans(run);
      var pending := CountPending(run);
      var awaiting := CountAwaiting(run);
      WriteRun(run, if pending > 0 || awaiting > 0 then AwaitingApproval else Failed);
    }

    method CancelOrphans(run: nat)
      modifies this`proposals
      ensures View() == WithdrawOrphans(old(View()), run)
    {
      for i := 0 to |proposals|
        invariant |proposals| == |old(proposals)|
        invariant forall k :: 0 <= k < i ==> proposals[k] == WithdrawOrphans(old(View()), run).proposals[k]
        invariant forall k :: i <= k < |proposals| ==> proposals[k] == old(proposals)[k]
      {
        if proposals[i].run == run && proposals[i].status.PendingAuto? {
          proposals := proposals[i := proposals[i].(status := Withdrawn)];
        }
      }
      assert proposals == WithdrawOrphans(old(View()), run).proposals;
    }

    method CountPending(run: nat) returns (n: nat)
      ensures n > 0 <==> HasPending(View(), run)
    {
      n := 0;
      for a := 0 to |approvals|
        invariant n > 0 <==> exists k :: 0 <= k < a && approvals[k].status.Pending?
                               && approvals[k].proposal < |proposals| && proposals[approvals[k].proposal].run == run
      {
        if approvals[a].status.Pending? && approvals[a].proposal < |proposals|
              && proposals[approvals[a].proposal].run == run {
          n := n + 1;
        }
      }
    }

    method CountAwaiting(run: nat) returns (n: nat)
      ensures n > 0 <==> HasAwaiting(View(), run)
    {
      n := 0;
      for p := 0 to |proposals|
        invariant n > 0 <==> exists k :: 0 <= k < p && proposals[k].run == run && proposals[k].status.Awaiting?
      {
        if proposals[p].run == run && proposals[p].status.Awaiting? {
          n := n + 1;
        }
      }
    }

    /* ---------------------------------------------------------------- the agent chain */

    /** Adds one reply to the outputs; None when a part of it that is read cannot be. */
    static method ApplyEnvelopeToPrior(step: string, e: Envelope, before: map<string, string>)
      returns (prior: Option<map<string, string>>)
      ensures prior == ApplyEnvelope(step, e, before)
      ensures prior.Some? <==> e.result.Value? && (step == ANALYST ==> !e.handoff.Garbled? && !e.memory.Garbled?)
      ensures prior.Some? ==>
                var after := prior.value;
                && step in after && after[step] == e.result.text
                && (forall k :: k !in WrittenBy(step, e) ==> SameAt(before, after, k))
                && (HANDOFF in WrittenBy(step, e) && step == ANALYST ==>
                      HANDOFF in after && after[HANDOFF] == e.handoff.text)
                && (MEMORY in WrittenBy(step, e) && step == ANALYST ==>
                      MEMORY in after && after[MEMORY] == e.memory.text)
    {
      if !e.result.Value? {
        return None;
      }
      var outputs := before[step := e.result.text];
      if step == ANALYST {
        if e.handoff.Garbled? {
          return None;
        }
        if e.handoff.Value? {
          outputs := outputs[HANDOFF := e.handoff.text];
        }
        if e.memory.Garbled? {
          return None;
        }
        if e.memory.Value? {
          outputs := outputs[MEMORY := e.memory.text];
        }
      }
      prior := Some(outputs);
    }

    /** Calls the agents one by one until one pauses or fails. */
    method RunAgentChain(job: Job) returns (w: Walked)
      modifies this`runs, this`steps, this`clock
      ensures RunToEnd(env, old(View()), Entering(job)) == RunToEnd(env, View(), AfterChain(w, job))
    {
      hide RunToEnd, ApplyEnvelope, SetRun;
      var prior := job.prior;
      for i := 0 to |job.rest|
        invariant RunToEnd(env, old(View()), Entering(job))
               == RunToEnd(env, View(), Entering(job.(rest := job.rest[i..], prior := prior)))
      {
        ghost var here := job.(rest := job.rest[i..], prior := prior);
        assert here.rest[1..] == job.rest[i + 1..];
        var name := job.rest[i];
        ChainEnters(env, View(), here);
        WriteRun(job.run, AtAgent(name));
        ChainCalls(env, View(), here);
        var reachable, reply := env.agentUrlOk(clock), env.agent(clock);
        clock := clock + 1;
        if !reachable {
          return ChainFailed;
        }
        match reply {
          case CallFails =>
            steps := steps + [StepRow(job.run, name, StepFailed, NOTHING)];
            return ChainFailed;
          case BadEnvelope =>
            return ChainFailed;
          case Interrupted(e) =>
            steps := steps + [StepRow(job.run, name, StepInterrupted, e)];
            WriteRun(job.run, AwaitingAgentInput);
            Ends(env, View());
            return ChainPaused;
          case Replies(e) =>
            steps := steps + [StepRow(job.run, name, StepOk, e)];
            var next := ApplyEnvelopeToPrior(name, e, prior);
            if next.None? {
              return ChainFailed;
            }
            prior := next.value;
        }
      }
      assert job.rest[|job.rest|..] == [];
      ChainEnters(env, View(), job.(rest := [], prior := prior));
      w := ChainDone(prior);
    }

    /** Walks the chain, then the proposals, and settles the run's status. */
    method WalkAndFinish(job: Job)
      modifies this
      ensures View() == RunToEnd(env, old(View()), Entering(job))
    {
      hide RunToEnd;
      var w := RunAgentChain(job);
      match w {
        case ChainFailed =>
          FailEnds(env, View(), job.run);
          WriteRun(job.run, Failed);
        case ChainPaused =>
          Ends(env, View());
        case ChainDone(prior) =>
          var failed, anyFill := FinishProposals(job.(rest := [], prior := prior));
          if failed {
            GiveUp(job.run, anyFill);
          } else {
            Ends(env, View());
          }
      }
    }

    /* ---------------------------------------------------------------- entry points */

    /** An explicit mode wins, then the strategy's, then approval; None when the strategy cannot be loaded. */
    method ResolveExecutionMode(explicit: Option<Mode>, strategy: Option<nat>) returns (mode: Option<Mode>)
      ensures mode == ResolveMode(env, clock, explicit, strategy)
    {
      if explicit.Some? {
        return explicit;
      }
      if strategy.Some? {
        var found := env.strategyMode(clock, strategy.value);
        if found.None? {
          return None;
        }
        if found.value.Some? {
          return found.value;
        }
      }
      mode := Some(RequireApproval);
    }

    /** Starts a run in the mode it is given; nothing is written when the lock is taken or the strategy cannot be
        loaded. */
    method RunWorkflow(strategy: Option<nat>, explicit: Option<Mode>)
      modifies this, lock
      ensures Lock.Live(old(lock.key), old(lock.now)) ==> View() == old(View()) && lock.key == old(lock.key)
      ensures !Lock.Live(old(lock.key), old(lock.now)) ==>
                lock.key == Lock.Absent && View() == RunToEnd(env, old(View()), Starting(strategy, explicit))
      ensures !Lock.Live(old(lock.key), old(lock.now)) ==>
                && (Unloadable(env, old(clock), explicit, strategy) ==> View() == Tick(old(View())))
                && (forall mode | ModeGiven(env, old(clock), explicit, strategy, mode) ::
                      && |old(runs)| < |runs| && runs[|old(runs)|].mode == mode
                      && InsertsFor(View(), |old(batches)|, Purpose(|old(runs)|, mode, Started)))
      ensures Orderly(env, old(View()), View())
    {
      hide Orderly, RunToEnd, ModeGiven, Unloadable, InsertsFor;
      var entered := lock.Acquire(lockTtl);
      if !entered {
        NoCallIsOrderly(env, View());
        return;
      }
      CallIsOrderly(env, View(), Starting(strategy, explicit));
      forall mode ensures ModeGiven(env, clock, explicit, strategy, mode) ==>
                            var after := RunToEnd(env, View(), Starting(strategy, explicit));
                            && |runs| < |after.runs| && after.runs[|runs|].mode == mode
                            && InsertsFor(after, |batches|, Purpose(|runs|, mode, Started))
      {
        StartedRunMode(env, View(), strategy, explicit, mode);
      }
      StartedRunMode(env, View(), strategy, explicit, RequireApproval);
      StartRun(strategy, explicit);
      lock.Unlock();
    }

    method StartRun(strategy: Option<nat>, explicit: Option<Mode>)
      modifies this
      ensures View() == RunToEnd(env, old(View()), Starting(strategy, explicit))
    {
      hide RunToEnd, SetRun, ResolveMode;
      var mode := ResolveExecutionMode(explicit, strategy);
      if mode.None? {
        StartRefused(env, View(), strategy, explicit);
        clock := clock + 1;
        return;
      }
      StartSteps(env, View(), strategy, explicit, mode.value);
      var run := |runs|;
      runs := runs + [Run(Created, strategy, explicit, mode.value, clock)];
      clock := clock + 1;
      var ok := env.preludeOk(clock);
      clock := clock + 1;
      if !ok {
        FailEnds(env, View(), run);
        WriteRun(run, Failed);
        return;
      }
      WalkAndFinish(Job(run, mode.value, env.chain, map[], Started));
    }

    static method RemainingChain(chain: seq<string>, agent: string) returns (rest: Option<seq<string>>)
      ensures rest == RestAfter(chain, agent)
    {
      for i := 0 to |chain|
        invariant RestAfter(chain, agent) == RestAfter(chain[i..], agent)
      {
        assert chain[i..][1..] == chain[i + 1..];
        if chain[i] == agent {
          return Some(chain[i + 1..]);
        }
      }
      rest := None;
    }

    /** Folds the ok rows of a run, oldest first. */
    method LoadPriorFromOkSteps(run: nat) returns (prior: Option<map<string, string>>)
      ensures prior == LoadPrior(steps, run)
    {
      var outputs := map[];
      for i := 0 to |steps|
        invariant LoadPrior(steps[..i], run) == Some(outputs)
      {
        LoadPriorNext(steps, run, i);
        var row := steps[i];
        if row.run == run && row.status.StepOk? {
          var next := ApplyEnvelopeToPrior(row.step, row.payload, outputs);
          if next.None? {
            NoPriorStays(steps, run, i + 1);
            return None;
          }
          outputs := next.value;
        }
      }
      assert steps[..|steps|] == steps;
      prior := Some(outputs);
    }

    /** Resumes a paused run with the human's answer, in the mode its strategy says; nothing is written when the lock is
        taken or the strategy cannot be loaded. */
    method ResumeAgent(run: nat, agent: string)
      modifies this, lock
      ensures Lock.Live(old(lock.key), old(lock.now)) ==> View() == old(View()) && lock.key == old(lock.key)
      ensures !Lock.Live(old(lock.key), old(lock.now)) ==>
                lock.key == Lock.Absent && View() == RunToEnd(env, old(View()), Resuming(run, agent))
      ensures run < |old(runs)| && Unloadable(env, old(clock), None, old(runs)[run].strategy) ==>
                View() == old(View()) || View() == Tick(old(View()))
      ensures run < |old(runs)| ==> forall mode | StrategySays(env, old(clock), old(runs)[run].strategy, mode) ::
                InsertsFor(View(), |old(batches)|, Purpose(run, mode, ResumedAt(old(clock))))
      ensures Orderly(env, old(View()), View())
    {
      hide Orderly, RunToEnd, StrategySays, Unloadable;
      var entered := lock.Acquire(lockTtl);
      if !entered {
        NoCallIsOrderly(env, View());
        return;
      }
      CallIsOrderly(env, View(), Resuming(run, agent));
      hide InsertsFor;
      if run < |runs| {
        forall mode ensures StrategySays(env, clock, runs[run].strategy, mode) ==>
                              InsertsFor(RunToEnd(env, View(), Resuming(run, agent)), |batches|,
                                         Purpose(run, mode, ResumedAt(clock)))
        {
          ResumedRunMode(env, View(), run, agent, mode);
        }
        ResumedRunMode(env, View(), run, agent, RequireApproval);
      }
      ResumeRun(run, agent);
      lock.Unlock();
    }

    method ResumeRun(run: nat, agent: string)
      modifies this
      ensures View() == RunToEnd(env, old(View()), Resuming(run, agent))
    {
      hide RunToEnd, RestAfter, HasInterrupted, ResolveMode;
      var known := RemainingChain(env.chain, agent);
      var paused := FindInterrupted(run, agent);
      if run >= |runs| || !runs[run].status.AwaitingAgentInput? || known.None? || !paused {
        ResumeRefused(env, View(), run, agent);
        return;
      }
      var mode := ResolveExecutionMode(None, runs[run].strategy);
      var at, reachable := clock, env.agentUrlOk(clock);
      if mode.None? || !reachable {
        ResumeUnreachable(env, View(), run, agent);
        clock := clock + 1;
        return;
      }
      ResumeAsks(env, View(), run, agent);
      clock := clock + 1;
      AskAgain(run, agent, mode.value, at);
    }

    /** Passes the answer on to the paused agent and follows its reply. */
    method AskAgain(run: nat, agent: string, mode: Mode, at: nat)
      modifies this
      ensures View() == RunToEnd(env, old(View()), Asking(run, agent, mode, at))
    {
      hide RunToEnd, UpdateStep, SetRun;
      var reply := env.agent(clock);
      match reply {
        case CallFails =>
          AskFails(env, View(), run, agent, mode, at);
          clock := clock + 1;
          UpdateStepRows(run, agent, StepFailed, NOTHING);
          WriteRun(run, Failed);
        case BadEnvelope =>
          AskFails(env, View(), run, agent, mode, at);
          clock := clock + 1;
          WriteRun(run, Failed);
        case Interrupted(e) =>
          AskPausesAgain(env, View(), run, agent, mode, at);
          clock := clock + 1;
          UpdateStepRows(run, agent, StepInterrupted, e);
        case Replies(e) =>
          AskGoesOn(env, View(), run, agent, mode, at);
          clock := clock + 1;
          UpdateStepRows(run, agent, StepOk, e);
          WriteRun(run, AtAgent(agent));
          GoOn(run, agent, mode, at);
      }
    }

    /** Rebuilds the outputs and walks the rest of the chain. */
    method GoOn(run: nat, agent: string, mode: Mode, at: nat)
      modifies this
      ensures View() == RunToEnd(env, old(View()), Reloading(run, agent, mode, at))
    {
      hide RunToEnd, RestAfter, LoadPrior, SetRun;
      ReloadSteps(env, View(), run, agent, mode, at);
      var prior := LoadPriorFromOkSteps(run);
      var rest := RemainingChain(env.chain, agent);
      var ok := env.preludeOk(clock);
      clock := clock + 1;
      if prior.None? || rest.None? || !ok {
        FailEnds(env, View(), run);
        WriteRun(run, Failed);
        return;
      }
      WalkAndFinish(Job(run, mode, rest.value, prior.value, ResumedAt(at)));
    }

    method FindInterrupted(run: nat, agent: string) returns (found: bool)
      ensures found == HasInterrupted(steps, run, agent)
    {
      for i := 0 to |steps|
        invariant forall k :: 0 <= k < i ==>
              !(steps[k].run == run && steps[k].step == agent && steps[k].status.StepInterrupted?)
      {
        if steps[i].run == run && steps[i].step == agent && steps[i].status.StepInterrupted? {
          return true;
        }
      }
      found := false;
    }

    /** Records a decision on a pending approval; an approved proposal is submitted. */
    method Decide(a: nat, approve: bool)
      modifies this
      ensures View() == RunToEnd(env, old(View()), Deciding(a, approve))
      ensures Orderly(env, old(View()), View())
    {
      hide Orderly, RunToEnd, SetApproval, SetProposal, RejectProposal, Send, Refreshed;
      CallIsOrderly(env, View(), Deciding(a, approve));
      if approve && !env.hasBroker {
        DecideRefused(env, View(), a, approve);
        return;
      }
      if a >= |approvals| || !approvals[a].status.Pending? {
        DecideRefused(env, View(), a, approve);
        return;
      }
      var id := approvals[a].proposal;
      if id >= |proposals| || !proposals[id].status.Awaiting? || proposals[id].run >= |runs| {
        DecideRefused(env, View(), a, approve);
        return;
      }
      var run := proposals[id].run;
      if !approve {
        DecideRejects(env, View(), a);
        WriteApproval(a, Declined);
        WriteProposal(id, Rejected);
        RefreshRunStatus(run);
        return;
      }
      var account := env.accountOk(clock);
      if !account {
        DecideWithoutAccount(env, View(), a);
        clock := clock + 1;
        return;
      }
      DecideSends(env, View(), a);
      clock := clock + 1;
      WriteApproval(a, Approved);
      var s := SubmitProposal(id, ByApproval(a), FromDecide(run));
      DecideAfterSubmit(env, View(), s, id, run);
      if s.SubmitFailed? {
        WriteRejection(id, REFUSED);
      }
      RefreshRunStatus(run);
    }

    method RefreshRunStatus(run: nat)
      modifies this`runs
      ensures View() == Refreshed(old(View()), run)
    {
      var pending := CountPending(run);
      var awaiting := CountAwaiting(run);
      hide HasPending, HasAwaiting, SetRun;
      WriteRun(run, if pending > 0 || awaiting > 0 then AwaitingApproval else Executed);
    }

    /** Cancels a run that awaits approval, with its proposals and approvals. */
    method CancelRun(run: nat)
      modifies this
      ensures View() == RunToEnd(env, old(View()), Cancelling(run))
      ensures Orderly(env, old(View()), View())
    {
      hide Orderly, RunToEnd, AwaitingIds, WithdrawAll, RevokeAll, SetRun;
      CallIsOrderly(env, View(), Cancelling(run));
      CancelRefused(env, View(), run);
      if run >= |runs| || !runs[run].status.AwaitingApproval? {
        return;
      }
      var priced := FindPrice(run);
      if !priced {
        clock := clock + 1;
        return;
      }
      CancelSteps(env, View(), run);
      clock := clock + 1;
      var ids := PluckAwaiting(run);
      if ids != {} {
        WithdrawProposals(ids);
        RevokeApprovals(ids);
      }
      WriteRun(run, Cancelled);
    }

    method FindPrice(run: nat) returns (found: bool)
      ensures found == SomePrice(env, View(), run)
    {
      if env.brokerPrices(clock) {
        return true;
      }
      for p := 0 to |proposals|
        invariant forall k :: 0 <= k < p ==>
                    !(&& proposals[k].run == run
                      && proposals[k].draft.qty > 0.0 && proposals[k].draft.estimatedNotional > 0.0)
      {
        if proposals[p].run == run && proposals[p].draft.qty > 0.0 && proposals[p].draft.estimatedNotional > 0.0 {
          return true;
        }
      }
      found := false;
    }

    method PluckAwaiting(run: nat) returns (ids: set<nat>)
      ensures ids == AwaitingIds(View(), run)
    {
      ids := {};
      for p := 0 to |proposals|
        invariant ids == set k: nat | k < p && proposals[k].run == run && proposals[k].status.Awaiting?
      {
        if proposals[p].run == run && proposals[p].status.Awaiting? {
          ids := ids + {p};
        }
      }
    }

    method WithdrawProposals(ids: set<nat>)
      modifies this`proposals
      ensures View() == WithdrawAll(old(View()), ids)
    {
      for i := 0 to |proposals|
        invariant |proposals| == |old(proposals)|
        invariant forall k :: 0 <= k < i ==> proposals[k] == WithdrawAll(old(View()), ids).proposals[k]
        invariant forall k :: i <= k < |proposals| ==> proposals[k] == old(proposals)[k]
      {
        if i in ids {
          proposals := proposals[i := proposals[i].(status := Withdrawn)];
        }
      }
      assert proposals == WithdrawAll(old(View()), ids).proposals;
    }

    method RevokeApprovals(ids: set<nat>)
      modifies this`approvals
      ensures View() == RevokeAll(old(View()), ids)
    {
      for i := 0 to |approvals|
        invariant |approvals| == |old(approvals)|
        invariant forall k :: 0 <= k < i ==> approvals[k] == RevokeAll(old(View()), ids).approvals[k]
        invariant forall k :: i <= k < |approvals| ==> approvals[k] == old(approvals)[k]
      {
        if approvals[i].proposal in ids && approvals[i].status.Pending? {
          approvals := approvals[i := approvals[i].(status := Revoked)];
        }
      }
      assert approvals == RevokeAll(old(View()), ids).approvals;
    }
  }

  /** Failing outright is giving up without a fill. */
  lemma FailIsAbort(env: Env, t: Tables, run: nat)
    ensures RunToEnd(env, t, Failing(run)) == RunToEnd(env, t, Aborting(run, false))
  {
    FailEnds(env, t, run);
    AbortEnds(env, t, run, false);
  }

  lemma LoadPriorNext(steps: seq<StepRow>, run: nat, i: nat)
    requires i < |steps|
    ensures var before := LoadPrior(steps[..i], run);
            LoadPrior(steps[..i + 1], run)
            == if steps[i].run != run || before.None? || !steps[i].status.StepOk? then before
               else ApplyEnvelope(steps[i].step, steps[i].payload, before.value)
  {
    hide ApplyEnvelope;
    assert steps[..i + 1][..i] == steps[..i];
    var rows := RowsOf(steps[..i], run);
    if steps[i].run == run {
      assert RowsOf(steps[..i + 1], run) == rows + [steps[i]];
      assert (rows + [steps[i]])[..|rows|] == rows;
    } else {
      assert RowsOf(steps[..i + 1], run) == rows + [];
      assert rows + [] == rows;
    }
  }

  lemma {:induction false} NoPriorStays(steps: seq<StepRow>, run: nat, i: nat)
    requires i <= |steps| && LoadPrior(steps[..i], run).None?
    ensures LoadPrior(steps, run).None?
    decreases |steps| - i
  {
    if i < |steps| {
      LoadPriorNext(steps, run, i);
      NoPriorStays(steps, run, i + 1);
    } else {
      assert steps[..i] == steps;
    }
  }

  lemma AfterRefusal(id: nat, caller: Caller)
    ensures AfterSubmit(SubmitFailed, id, caller) == Refusing(id, caller)
  {
  }

  lemma ReconciledLength(t: Tables, id: nat, m: nat, order: BrokerOrder)
    ensures |SetProposal(Reconciled(t, m, order), id, StatusFor(order)).proposals| == |t.proposals|
  {
  }
}
