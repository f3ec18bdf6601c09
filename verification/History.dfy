/** What no step of any call changes: rows, batches and log entries stay, and the clock does not go back. */
module History {
  import opened Common
  import opened Risk
  import opened Gate
  import opened Workflow

  predicate SameRuns(t: Tables, t': Tables) {
    && |t.runs| <= |t'.runs|
    && (forall r :: 0 <= r < |t.runs| ==>
          && t'.runs[r].strategy == t.runs[r].strategy && t'.runs[r].explicit == t.runs[r].explicit
          && t'.runs[r].mode == t.runs[r].mode && t'.runs[r].startedAt == t.runs[r].startedAt)
  }

  predicate SameProposals(t: Tables, t': Tables) {
    && |t.proposals| <= |t'.proposals|
    && (forall i :: 0 <= i < |t.proposals| ==>
          t'.proposals[i].draft == t.proposals[i].draft && t'.proposals[i].run == t.proposals[i].run)
  }

  predicate ApprovalEdge(a: ApprovalStatus, b: ApprovalStatus) {
    a == b || a.Pending?
  }

  predicate SameApprovals(t: Tables, t': Tables) {
    && |t.approvals| <= |t'.approvals|
    && (forall a :: 0 <= a < |t.approvals| ==>
          && t'.approvals[a].proposal == t.approvals[a].proposal
          && t'.approvals[a].hold == t.approvals[a].hold
          && t'.approvals[a].batch == t.approvals[a].batch
          && ApprovalEdge(t.approvals[a].status, t'.approvals[a].status))
  }

  predicate SameBatches(t: Tables, t': Tables) {
    && |t.batches| <= |t'.batches|
    && (forall i :: 0 <= i < |t.batches| ==> t'.batches[i] == t.batches[i])
  }

  predicate SameLog(t: Tables, t': Tables) {
    && |t.log| <= |t'.log| <= |t.log| + 1
    && (forall i :: 0 <= i < |t.log| ==> t'.log[i] == t.log[i])
  }

  predicate Extends(t: Tables, t': Tables) {
    && SameRuns(t, t') && SameProposals(t, t') && SameApprovals(t, t') && SameBatches(t, t') && SameLog(t, t')
    && t.clock <= t'.clock
  }

  lemma SendExtends(env: Env, t: Tables, id: nat, authority: Authority, caller: Caller)
    ensures Extends(t, Send(env, t, id, authority, caller).0)
  {
  }

  lemma LoopExtends(env: Env, t: Tables, l: Loop)
    ensures Extends(t, StepLoop(env, t, l).0)
  {
    if l.todo != [] {
      SendExtends(env, t, l.todo[0], GateAuthority(l), FromLoop(l.(todo := l.todo[1..])));
    }
    hide VerdictOf, GateAuthority, Send;
  }

  lemma InsertExtends(env: Env, t: Tables, job: Job)
    ensures Extends(t, StepInsert(env, t, job).0)
  {
    hide ReadDrafts, AddEstimates;
  }

  lemma ChainExtends(env: Env, t: Tables, p: Proc)
    requires Walks(p)
    ensures Extends(t, StepChain(env, t, p).0)
  {
    hide ApplyEnvelope;
  }

  lemma ResumeExtends(env: Env, t: Tables, p: Proc)
    requires Resumes(p)
    ensures Extends(t, StepResume(env, t, p).0)
  {
    hide LoadPrior, RestAfter, HasInterrupted, UpdateRows;
  }

  lemma SubmitExtends(env: Env, t: Tables, p: Proc)
    requires Submits(p)
    ensures Extends(t, StepSubmit(env, t, p).0)
  {
    hide CloseMirror, IsBrokerTerminal;
  }

  lemma DecideExtends(env: Env, t: Tables, p: Proc)
    requires Decides(p)
    ensures Extends(t, StepDecide(env, t, p).0)
  {
    hide HasPending, HasAwaiting;
  }

  lemma CancelExtends(env: Env, t: Tables, p: Proc)
    requires Cancels(p)
    ensures Extends(t, StepCancel(env, t, p).0)
  {
    hide SomePrice, AwaitingIds;
  }

  lemma FailureExtends(t: Tables, p: Proc)
    requires Fails(p)
    ensures Extends(t, StepFailure(t, p).0)
  {
    hide HasPending, HasAwaiting;
  }

  lemma OtherExtends(env: Env, t: Tables, p: Proc)
    requires p.Starting? || p.Queueing? || p.Finished?
    ensures Extends(t, Step(env, t, p).0)
  {
    hide ResolveMode;
  }

  lemma StepExtends(env: Env, t: Tables, p: Proc)
    ensures Extends(t, Step(env, t, p).0)
  {
    hide Step, Extends, StepLoop, StepInsert, StepChain, StepResume, StepSubmit, StepDecide, StepCancel, StepFailure;
    StepIsGrouped(env, t, p);
    if p.Looping? {
      LoopExtends(env, t, p.loop);
    } else if p.Inserting? {
      InsertExtends(env, t, p.job);
    } else if Walks(p) {
      ChainExtends(env, t, p);
    } else if Resumes(p) {
      ResumeExtends(env, t, p);
    } else if Submits(p) {
      SubmitExtends(env, t, p);
    } else if Decides(p) {
      DecideExtends(env, t, p);
    } else if Cancels(p) {
      CancelExtends(env, t, p);
    } else if Fails(p) {
      FailureExtends(t, p);
    } else {
      OtherExtends(env, t, p);
    }
  }

  /* ------------------------------------------------------------------ lifecycles */

  /** No approval of the proposal is open. */
  predicate NoPendingFor(t: Tables, id: nat) {
    forall a :: 0 <= a < |t.approvals| && t.approvals[a].proposal == id ==> !t.approvals[a].status.Pending?
  }

  /** One write moves a proposal along one of these edges, or leaves it. */
  predicate ProposalEdge(a: ProposalStatus, b: ProposalStatus) {
    || a == b
    || (a.PendingAuto? && (b.Awaiting? || b.Submitted? || b.Rejected? || b.Withdrawn?))
    || (a.Awaiting? && (b.Submitted? || b.Rejected? || b.Withdrawn?))
    || (a.Submitted? && (b.Done? || b.Rejected?))
  }

  /** Reachable along edges: filled, rejected and cancelled proposals never move again. */
  predicate ProposalLater(a: ProposalStatus, b: ProposalStatus) {
    ProposalEdge(a, b) || ((a.PendingAuto? || a.Awaiting?) && b.Done?)
  }

  /** Rows stay, and every status has only moved along edges. */
  ghost predicate MovedOn(t: Tables, t': Tables) {
    && |t.proposals| <= |t'.proposals| && |t.approvals| <= |t'.approvals|
    && (forall i :: 0 <= i < |t.proposals| ==> ProposalEdge(t.proposals[i].status, t'.proposals[i].status))
    && (forall a :: 0 <= a < |t.approvals| ==> ApprovalEdge(t.approvals[a].status, t'.approvals[a].status))
  }

  ghost predicate MovedOnOver(t: Tables, t': Tables) {
    && |t.proposals| <= |t'.proposals| && |t.approvals| <= |t'.approvals|
    && (forall i :: 0 <= i < |t.proposals| ==> ProposalLater(t.proposals[i].status, t'.proposals[i].status))
    && (forall a :: 0 <= a < |t.approvals| ==> ApprovalEdge(t.approvals[a].status, t'.approvals[a].status))
  }

  lemma MovedOnTransitive(t: Tables, t1: Tables, t2: Tables)
    requires MovedOnOver(t, t1) && MovedOnOver(t1, t2)
    ensures MovedOnOver(t, t2)
  {
  }
}
