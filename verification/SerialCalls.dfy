/** Whole serial calls: coherent tables in between, one-way lifecycles, and pauses that leave no trace in what an
    agent is told. */
module SerialCalls {
  import opened Common
  import opened Risk
  import opened Gate
  import opened Workflow
  import opened Interleaving
  import opened History
  import opened Chain
  import opened Serial
  import opened SerialSteps
  import opened SerialProposals

  /* ------------------------------------------------------------------ coherence */

  lemma {:induction false} RunToEndCoherent(env: Env, t: Tables, p: Proc)
    requires Mid(env, t, p) && DistinctNames(env.chain)
    ensures Coherent(env, RunToEnd(env, t, p))
    decreases Phase(p), Left(p), Rank(p), WaitsOf(p)
  {
    if p.Finished? {
      hide Referenced, Linked, Mirrored, OthersAtRest;
    } else {
      var next := Step(env, t, p);
      StepProgress(env, t, p);
      StepMid(env, t, p);
      hide Mid, Step;
      RunToEndCoherent(env, next.0, next.1);
    }
  }

  /** Each of the four calls keeps the tables coherent, on every branch and whatever agents and broker answer. */
  lemma CallKeepsCoherence(env: Env, t: Tables, entry: Proc)
    requires Coherent(env, t) && IsEntry(entry) && DistinctNames(env.chain)
    ensures Coherent(env, RunToEnd(env, t, entry))
  {
    RestIsMid(env, t, entry);
    hide Mid, Coherent, RunToEnd;
    RunToEndCoherent(env, t, entry);
  }

  /** Calls made one after the other. */
  ghost function RunCalls(env: Env, t: Tables, calls: seq<Proc>): Tables
    decreases |calls|
  {
    if calls == [] then t else RunCalls(env, RunToEnd(env, t, calls[0]), calls[1..])
  }

  predicate AllEntries(calls: seq<Proc>) {
    forall i :: 0 <= i < |calls| ==> IsEntry(calls[i])
  }

  lemma {:induction false} CallsKeepCoherence(env: Env, t: Tables, calls: seq<Proc>)
    requires Coherent(env, t) && AllEntries(calls) && DistinctNames(env.chain)
    ensures Coherent(env, RunCalls(env, t, calls))
    decreases |calls|
  {
    if calls != [] {
      hide Coherent, RunToEnd;
      CallKeepsCoherence(env, t, calls[0]);
      CallsKeepCoherence(env, RunToEnd(env, t, calls[0]), calls[1..]);
    }
  }

  lemma EmptyIsCoherent(env: Env)
    ensures Coherent(env, EMPTY.tables)
  {
  }

  /** Any calls, one after the other, on an empty database. */
  ghost function AfterCalls(env: Env, calls: seq<Proc>): Tables {
    RunCalls(env, EMPTY.tables, calls)
  }

  lemma CallsAreCoherent(env: Env, calls: seq<Proc>)
    requires AllEntries(calls) && DistinctNames(env.chain)
    ensures Coherent(env, AfterCalls(env, calls))
  {
    EmptyIsCoherent(env);
    hide Coherent, RunCalls;
    CallsKeepCoherence(env, EMPTY.tables, calls);
  }

  /** After any number of serial calls on an empty database an approval is pending exactly when its proposal awaits
      approval, and every such proposal has one. */
  lemma PendingIffAwaiting(env: Env, calls: seq<Proc>)
    requires AllEntries(calls) && DistinctNames(env.chain)
    ensures var t := AfterCalls(env, calls);
            && (forall a :: 0 <= a < |t.approvals| ==>
                  && t.approvals[a].proposal < |t.proposals|
                  && (t.approvals[a].status.Pending? <==> t.proposals[t.approvals[a].proposal].status.Awaiting?))
            && (forall i :: 0 <= i < |t.proposals| && t.proposals[i].status.Awaiting? ==>
                  exists a :: 0 <= a < |t.approvals| && t.approvals[a].proposal == i)
  {
    CallsAreCoherent(env, calls);
    hide AfterCalls, Mirrored, OthersAtRest;
    var t := AfterCalls(env, calls);
    forall i | 0 <= i < |t.proposals| && t.proposals[i].status.Awaiting?
      ensures exists a :: 0 <= a < |t.approvals| && t.approvals[a].proposal == i
    {
      assert HasApproval(t, i);
    }
  }

  /** What the status of a run says after any serial calls: none is in `created` or at an agent, one that awaits
      approval has a proposal that does, one that is executed or cancelled has none. */
  lemma RunStatusesHold(env: Env, calls: seq<Proc>, run: nat)
    requires AllEntries(calls) && DistinctNames(env.chain) && run < |AfterCalls(env, calls).runs|
    ensures var t := AfterCalls(env, calls);
            var status := t.runs[run].status;
            var awaiting :=
              exists i :: 0 <= i < |t.proposals| && t.proposals[i].run == run && t.proposals[i].status.Awaiting?;
            && !status.Created? && !status.AtAgent?
            && (status.AwaitingApproval? ==> awaiting)
            && (status.Executed? || status.Cancelled? ==> !awaiting)
  {
    CallsAreCoherent(env, calls);
    var t := AfterCalls(env, calls);
    hide AfterCalls, Referenced, Linked, Mirrored;
    assert RunAtRest(env, t, run);
  }

  /** A proposal has exactly one mirror, of matching status, when the broker accepted its order, and none otherwise. */
  lemma OneMirrorPerAcceptedOrder(env: Env, calls: seq<Proc>, id: nat)
    requires AllEntries(calls) && DistinctNames(env.chain) && id < |AfterCalls(env, calls).proposals|
    ensures var t := AfterCalls(env, calls);
            && ((exists i :: 0 <= i < |t.log| && t.log[i].proposal == id && t.log[i].accepted) <==>
                exists m :: 0 <= m < |t.mirrors| && t.mirrors[m].proposal == id)
            && (forall m, n :: 0 <= m < n < |t.mirrors| && t.mirrors[m].proposal == id ==> t.mirrors[n].proposal != id)
            && (forall m :: 0 <= m < |t.mirrors| && t.mirrors[m].proposal == id ==>
                  Matches(t.mirrors[m].status, t.proposals[id].status))
  {
    CallsAreCoherent(env, calls);
    hide AfterCalls, Linked, OthersAtRest;
    var t := AfterCalls(env, calls);
    assert HasMirror(t, id) <==> WasAccepted(t.log, id);
  }

  /** The rows of a paused run are those of the first agents in order, all ok but the last, which is interrupted, and
      it has no proposals. */
  lemma PausedRunHasOneInterruption(env: Env, calls: seq<Proc>, run: nat)
    requires AllEntries(calls) && DistinctNames(env.chain) && run < |AfterCalls(env, calls).runs|
    requires AfterCalls(env, calls).runs[run].status.AwaitingAgentInput?
    ensures var t := AfterCalls(env, calls);
            var rows := RowsOf(t.steps, run);
            && 0 < |rows| <= |env.chain|
            && (forall k :: 0 <= k < |rows| ==> rows[k].step == env.chain[k])
            && (forall k :: 0 <= k < |rows| - 1 ==> rows[k].status.StepOk?)
            && rows[|rows| - 1].status.StepInterrupted?
            && (forall i :: 0 <= i < |t.proposals| ==> t.proposals[i].run != run)
  {
    CallsAreCoherent(env, calls);
    var t := AfterCalls(env, calls);
    hide AfterCalls, Referenced, Linked, Mirrored, RowsOf;
    assert RunAtRest(env, t, run);
    var rows := RowsOf(t.steps, run);
    assert forall k :: 0 <= k < |rows| - 1 ==> rows[..|rows| - 1][k] == rows[k];
  }

  /* ------------------------------------------------------------------ lifecycles */

  lemma LoopMovesOn(env: Env, t: Tables, l: Loop)
    requires LoopCoherent(t, l)
    ensures MovedOn(t, StepLoop(env, t, l).0)
  {
    hide VerdictOf;
  }

  lemma SubmitMovesOn(env: Env, t: Tables, p: Proc)
    requires Submits(p) && Local(env, t, p)
    ensures MovedOn(t, StepSubmit(env, t, p).0)
  {
    hide LoopCoherent, CloseMirror, IsBrokerTerminal;
  }

  lemma DecideMovesOn(env: Env, t: Tables, p: Proc)
    requires Decides(p)
    ensures MovedOn(t, StepDecide(env, t, p).0)
  {
  }

  lemma CancelMovesOn(env: Env, t: Tables, p: Proc)
    requires Cancels(p) && Local(env, t, p)
    ensures MovedOn(t, StepCancel(env, t, p).0)
  {
  }

  lemma OtherMovesOn(env: Env, t: Tables, p: Proc)
    requires !p.Looping? && !Submits(p) && !Decides(p) && !Cancels(p)
    requires Local(env, t, p)
    ensures MovedOn(t, Step(env, t, p).0)
  {
    hide StepLoop, StepSubmit, StepDecide, StepCancel, JobSound, ResumedSound, LoopCoherent, RowsOf;
  }

  lemma MidIsLocal(env: Env, t: Tables, p: Proc)
    requires Mid(env, t, p)
    ensures Local(env, t, p)
    ensures p.Looping? ==> LoopCoherent(t, p.loop)
  {
    hide Referenced, Linked, Mirrored, OthersAtRest, LoopCoherent, JobSound, ResumedSound, CallerCoherent, Sendable,
          NoPendingFor, HasAwaiting;
  }

  /** In a serial call every single write moves statuses forward. */
  lemma StepMovesOn(env: Env, t: Tables, p: Proc)
    requires Mid(env, t, p)
    ensures MovedOn(t, Step(env, t, p).0)
  {
    hide Mid, Local, LoopCoherent, MovedOn, Step, StepLoop, StepSubmit, StepDecide, StepCancel;
    MidIsLocal(env, t, p);
    StepIsGrouped(env, t, p);
    if p.Looping? {
      LoopMovesOn(env, t, p.loop);
    } else if Submits(p) {
      SubmitMovesOn(env, t, p);
    } else if Decides(p) {
      DecideMovesOn(env, t, p);
    } else if Cancels(p) {
      CancelMovesOn(env, t, p);
    } else {
      OtherMovesOn(env, t, p);
    }
  }

  lemma {:induction false} RunMovesOn(env: Env, t: Tables, p: Proc)
    requires Mid(env, t, p) && DistinctNames(env.chain)
    ensures MovedOnOver(t, RunToEnd(env, t, p))
    decreases Phase(p), Left(p), Rank(p), WaitsOf(p)
  {
    if !p.Finished? {
      var next := Step(env, t, p);
      StepProgress(env, t, p);
      StepMid(env, t, p);
      StepMovesOn(env, t, p);
      hide Mid, Step;
      RunMovesOn(env, next.0, next.1);
      assert MovedOnOver(t, next.0);
      hide MovedOnOver;
      MovedOnTransitive(t, next.0, RunToEnd(env, next.0, next.1));
    }
  }

  /** Over any number of serial calls proposals only move pending -> awaiting -> submitted -> filled or rejected
      (rejected or cancelled also before submission), and an approval leaves `pending` at most once. */
  lemma {:induction false} LifecyclesAreOneWay(env: Env, t: Tables, calls: seq<Proc>)
    requires Coherent(env, t) && AllEntries(calls) && DistinctNames(env.chain)
    ensures MovedOnOver(t, RunCalls(env, t, calls))
    decreases |calls|
  {
    if calls != [] {
      var t1 := RunToEnd(env, t, calls[0]);
      RestIsMid(env, t, calls[0]);
      RunMovesOn(env, t, calls[0]);
      CallKeepsCoherence(env, t, calls[0]);
      hide Coherent, Mid, RunToEnd, MovedOnOver;
      LifecyclesAreOneWay(env, t1, calls[1..]);
      MovedOnTransitive(t, t1, RunCalls(env, t1, calls[1..]));
    }
  }

  /* ------------------------------------------------------------------ pauses rebuild the run */

  /** The state of a call after `n` steps. */
  ghost function StepMany(env: Env, t: Tables, p: Proc, n: nat): (Tables, Proc)
    decreases n
  {
    if n == 0 then (t, p)
    else
      var next := Step(env, t, p);
      StepMany(env, next.0, next.1, n - 1)
  }

  lemma StepManyFrom(env: Env, t: Tables, p: Proc, n: nat)
    ensures n == 0 ==> StepMany(env, t, p, n) == (t, p)
    ensures n > 0 ==> StepMany(env, t, p, n) == StepMany(env, Step(env, t, p).0, Step(env, t, p).1, n - 1)
  {
    hide Step;
  }

  ghost predicate MidAt(env: Env, at: (Tables, Proc)) {
    Mid(env, at.0, at.1)
  }

  lemma {:induction false} StepManyMid(env: Env, t: Tables, p: Proc, n: nat)
    requires Mid(env, t, p) && DistinctNames(env.chain)
    ensures MidAt(env, StepMany(env, t, p, n))
    decreases n
  {
    hide Mid, Step, StepMany;
    StepManyFrom(env, t, p, n);
    if n > 0 {
      StepMid(env, t, p);
      StepManyMid(env, Step(env, t, p).0, Step(env, t, p).1, n - 1);
    }
  }

  /** When a run reaches its proposals, after any history of pauses and resumes, its step rows are one ok row for each
      agent, in order, and the outputs in memory are those an uninterrupted chain collects from the same replies. */
  lemma ResumeRebuildsRun(env: Env, t: Tables, entry: Proc, n: nat)
    requires Coherent(env, t) && IsEntry(entry) && DistinctNames(env.chain)
    ensures var (t', p) := StepMany(env, t, entry, n);
            p.Inserting? ==>
              var rows := RowsOf(t'.steps, p.job.run);
              && |rows| == |env.chain| && WalkedTo(env.chain, rows)
              && Some(p.job.prior) == Uninterrupted(env.chain, Payloads(rows), map[])
  {
    var (t', p) := StepMany(env, t, entry, n);
    RestIsMid(env, t, entry);
    StepManyMid(env, t, entry, n);
    hide Coherent, StepMany, Referenced, Linked, Mirrored, OthersAtRest;
    if p.Inserting? {
      RowsRebuildChain(env.chain, RowsOf(t'.steps, p.job.run));
      assert env.chain[..|env.chain|] == env.chain;
    }
  }
}
