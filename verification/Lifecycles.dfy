/** Lifecycles under interleaved calls: approvals leave `pending` once whatever happens, and proposals only move forward
    unless two calls collide on one of them. */
module Lifecycles {
  import opened Common
  import opened Risk
  import opened Gate
  import opened Workflow
  import opened Interleaving
  import opened History

  /* ------------------------------------------------------------------ approvals */

  lemma ApprovalsTransitive(t: Tables, t1: Tables, t2: Tables)
    requires SameApprovals(t, t1) && SameApprovals(t1, t2)
    ensures SameApprovals(t, t2)
  {
  }

  /** In every interleaving an approval leaves `pending` at most once, and stays about the same proposal. */
  lemma {:induction false} ApprovalsLeavePendingOnce(env: Env, s: System, actions: seq<Action>)
    ensures SameApprovals(s.tables, Execute(env, s, actions).tables)
    decreases |actions|
  {
    if actions != [] {
      var s1 := Act(env, s, actions[0]);
      if actions[0].Advance? && actions[0].proc < |s.procs| {
        StepExtends(env, s.tables, s.procs[actions[0].proc]);
      }
      hide Step, SameApprovals;
      SameTables(s.tables);
      ApprovalsLeavePendingOnce(env, s1, actions[1..]);
      ApprovalsTransitive(s.tables, s1.tables, Execute(env, s1, actions[1..]).tables);
    }
  }

  lemma SameTables(t: Tables)
    ensures SameApprovals(t, t)
  {
  }

  /* ------------------------------------------------------------------ who works on a proposal */

  /** The proposal a call is queueing, submitting or about to submit. */
  function InFlight(p: Proc): Option<nat> {
    match p
    case Queueing(_, id) => Some(id)
    case Dispatching(id, _, _) => Some(id)
    case Refusing(id, _) => Some(id)
    case Mirroring(id, _) => Some(id)
    case Marking(id, _, _) => Some(id)
    case Polling(id, _, _, _) => Some(id)
    case Closing(id, _, _) => Some(id)
    case _ => None
  }

  predicate Owns(p: Proc, id: nat) {
    InTodo(p, id) || InFlight(p) == Some(id)
  }

  /** The order of the proposal is out. */
  predicate IsOut(p: Proc) {
    p.Polling? || p.Closing?
  }

  predicate HasStatus(t: Tables, id: nat, status: ProposalStatus) {
    id < |t.proposals| && t.proposals[id].status == status
  }

  predicate OfRun(t: Tables, id: nat, run: nat) {
    id < |t.proposals| && t.proposals[id].run == run
  }

  /** The run whose proposal a call is deciding on. */
  function DecisionRun(p: Proc): nat {
    if p.Dispatching? || p.Refreshing? then p.run
    else if Submits(p) && CallerOf(p).FromDecide? then CallerOf(p).run
    else 0
  }

  function CallerOf(p: Proc): Caller
    requires Submits(p)
  {
    p.caller
  }

  /** A decision on the proposal that has not marked it submitted yet. */
  predicate DecidesOn(t: Tables, p: Proc, id: nat) {
    || (p.Deciding? && p.approval < |t.approvals| && t.approvals[p.approval].proposal == id)
    || (InFlight(p) == Some(id) && LoopOf(p).None? && !IsOut(p))
  }

  /** Two calls collide: one withdraws a proposal that the other is deciding on, or gives up on what a run has not
      judged while the other is going through proposals of that run. */
  predicate Collides(t: Tables, p: Proc, q: Proc) {
    || (p.Withdrawing? && exists id :: id in p.ids && DecidesOn(t, q, id))
    || (p.Aborting? && p.anyFill && LoopOf(q).Some? && LoopOf(q).value.run == p.run)
  }

  ghost predicate Calm(s: System) {
    forall i, j :: 0 <= i < |s.procs| && 0 <= j < |s.procs| && i != j ==> !Collides(s.tables, s.procs[i], s.procs[j])
  }

  /** No two calls ever collide. */
  ghost predicate StaysCalm(env: Env, s: System, actions: seq<Action>)
    decreases |actions|
  {
    Calm(s) && (actions == [] || StaysCalm(env, Act(env, s, actions[0]), actions[1..]))
  }

  /* ------------------------------------------------------------------ the invariant */

  /** What a loop still has to handle is unjudged. */
  ghost predicate TodoOk(t: Tables, p: Proc) {
    forall id: nat :: InTodo(p, id) ==>
      HasStatus(t, id, PendingAuto) && OfRun(t, id, LoopOf(p).value.run) && InFlight(p) != Some(id)
  }

  /** A proposal in flight is unjudged in a loop, awaiting approval in a decision, submitted once its order is out. */
  ghost predicate FlightOk(t: Tables, p: Proc) {
    InFlight(p).Some? ==>
      var id := InFlight(p).value;
      if IsOut(p) then HasStatus(t, id, Submitted)
      else if LoopOf(p).Some? then HasStatus(t, id, PendingAuto) && OfRun(t, id, LoopOf(p).value.run)
      else HasStatus(t, id, Awaiting) && NoPendingFor(t, id) && OfRun(t, id, DecisionRun(p))
  }

  /** A cancellation withdraws what awaits approval. */
  ghost predicate CancelOk(t: Tables, p: Proc) {
    p.Withdrawing? ==> forall id :: id in p.ids ==>
          OfRun(t, id, p.run) && (HasStatus(t, id, Awaiting) || HasStatus(t, id, Withdrawn))
  }

  ghost predicate ProcOk(t: Tables, p: Proc) {
    TodoOk(t, p) && FlightOk(t, p) && CancelOk(t, p)
  }

  ghost predicate Strangers(p: Proc, q: Proc) {
    forall id: nat :: !(Owns(p, id) && Owns(q, id))
  }

  ghost predicate InStep(s: System) {
    && Tokens(s)
    && (forall i :: 0 <= i < |s.procs| ==> ProcOk(s.tables, s.procs[i]))
    && (forall i, j :: 0 <= i < j < |s.procs| ==> Strangers(s.procs[i], s.procs[j]))
  }

  /* ------------------------------------------------------------------ what one step writes */

  /** An open approval of a proposal that awaits it. */
  predicate OpenApproval(t: Tables, a: nat, id: nat) {
    a < |t.approvals| && t.approvals[a].proposal == id && t.approvals[a].status.Pending? && HasStatus(t, id, Awaiting)
  }

  /** The proposals whose status the next step of a call may change. */
  predicate MayWrite(t: Tables, p: Proc, id: nat) {
    || Owns(p, id)
    || (p.Deciding? && OpenApproval(t, p.approval, id))
    || (p.Withdrawing? && id in p.ids)
    || (p.Aborting? && p.anyFill && HasStatus(t, id, PendingAuto) && OfRun(t, id, p.run))
  }

  /** A step changes the statuses of these proposals only, along an edge, and only to withdraw when it is a
      cancellation. */
  ghost predicate WritesOwn(t: Tables, p: Proc, t': Tables) {
    && |t.proposals| <= |t'.proposals|
    && forall id: nat :: id < |t.proposals| && t'.proposals[id].status != t.proposals[id].status ==>
         && MayWrite(t, p, id)
         && ProposalEdge(t.proposals[id].status, t'.proposals[id].status)
         && (p.Withdrawing? ==> t'.proposals[id].status.Withdrawn?)
  }

  lemma LoopWrites(env: Env, t: Tables, l: Loop)
    requires ProcOk(t, Looping(l))
    ensures WritesOwn(t, Looping(l), StepLoop(env, t, l).0)
  {
    if l.todo != [] {
      assert InTodo(Looping(l), l.todo[0]);
    }
    hide VerdictOf;
  }

  lemma InsertWrites(env: Env, t: Tables, job: Job)
    ensures WritesOwn(t, Inserting(job), StepInsert(env, t, job).0)
  {
    hide ReadDrafts, AddEstimates;
  }

  lemma SubmitWrites(env: Env, t: Tables, p: Proc)
    requires Submits(p) && FlightOk(t, p)
    ensures WritesOwn(t, p, StepSubmit(env, t, p).0)
  {
    hide CloseMirror, IsBrokerTerminal, NoPendingFor;
  }

  lemma DecideWrites(env: Env, t: Tables, p: Proc)
    requires Decides(p)
    ensures WritesOwn(t, p, StepDecide(env, t, p).0)
  {
    hide HasPending, HasAwaiting;
  }

  lemma CancelWrites(env: Env, t: Tables, p: Proc)
    requires Cancels(p) && CancelOk(t, p)
    ensures WritesOwn(t, p, StepCancel(env, t, p).0)
  {
    hide SomePrice, AwaitingIds;
  }

  lemma FailureWrites(t: Tables, p: Proc)
    requires Fails(p)
    ensures WritesOwn(t, p, StepFailure(t, p).0)
  {
    hide HasPending, HasAwaiting;
  }

  lemma OtherWrites(env: Env, t: Tables, p: Proc)
    requires (Walks(p) || Resumes(p) || p.Starting? || p.Finished? || p.Queueing?) && ProcOk(t, p)
    ensures WritesOwn(t, p, Step(env, t, p).0)
  {
    hide ApplyEnvelope, LoadPrior, RestAfter, HasInterrupted, UpdateRows;
  }

  lemma StepWrites(env: Env, t: Tables, p: Proc)
    requires ProcOk(t, p)
    ensures WritesOwn(t, p, Step(env, t, p).0)
  {
    hide Step, WritesOwn, StepLoop, StepInsert, StepChain, StepResume, StepSubmit, StepDecide, StepCancel, StepFailure,
         TodoOk, FlightOk, CancelOk;
    StepIsGrouped(env, t, p);
    if p.Looping? {
      LoopWrites(env, t, p.loop);
    } else if p.Inserting? {
      InsertWrites(env, t, p.job);
    } else if Submits(p) {
      SubmitWrites(env, t, p);
    } else if Decides(p) {
      DecideWrites(env, t, p);
    } else if Cancels(p) {
      CancelWrites(env, t, p);
    } else if Fails(p) {
      FailureWrites(t, p);
    } else {
      OtherWrites(env, t, p);
    }
  }

  /* ------------------------------------------------------------------ the process that does not move */

  /** Calls that do not collide write nothing that belongs to the other. */
  lemma NotMine(t: Tables, p: Proc, q: Proc, id: nat)
    requires ProcOk(t, p) && ProcOk(t, q) && Strangers(p, q) && !Collides(t, p, q) && !Collides(t, q, p)
    requires Owns(q, id)
    ensures !MayWrite(t, p, id)
  {
    if LoopOf(q).None? && !IsOut(q) {
      assert DecidesOn(t, q, id);
    }
  }

  /** What a cancellation has read changes under it only by being withdrawn. */
  lemma OnlyWithdrawn(t: Tables, p: Proc, q: Proc, id: nat)
    requires ProcOk(t, p) && ProcOk(t, q) && !Collides(t, q, p)
    requires q.Withdrawing? && id in q.ids && MayWrite(t, p, id)
    ensures p.Withdrawing?
  {
    assert Collides(t, q, p) || !DecidesOn(t, p, id);
  }

  lemma StillNoPending(t: Tables, t': Tables, id: nat)
    requires NoPendingFor(t, id) && SameApprovals(t, t')
    requires forall a :: |t.approvals| <= a < |t'.approvals| ==> t'.approvals[a].proposal != id
    ensures NoPendingFor(t', id)
  {
  }

  /** A new approval is for a proposal of the loop that moves. */
  ghost predicate QueuesOwn(t: Tables, p: Proc, t': Tables) {
    forall a :: |t.approvals| <= a < |t'.approvals| ==> InTodo(p, t'.approvals[a].proposal)
  }

  /** Nothing the process owns has moved. */
  ghost predicate OwnedKept(t: Tables, t': Tables, q: Proc) {
    forall id: nat :: Owns(q, id) ==>
      && id < |t.proposals| <= |t'.proposals|
      && t'.proposals[id].status == t.proposals[id].status && t'.proposals[id].run == t.proposals[id].run
  }

  lemma OwnedStays(t: Tables, p: Proc, t': Tables, q: Proc)
    requires ProcOk(t, p) && ProcOk(t, q) && Strangers(p, q) && !Collides(t, p, q) && !Collides(t, q, p)
    requires WritesOwn(t, p, t') && SameProposals(t, t')
    ensures OwnedKept(t, t', q)
  {
    forall id: nat | Owns(q, id)
      ensures id < |t.proposals| && t'.proposals[id].status == t.proposals[id].status
      ensures t'.proposals[id].run == t.proposals[id].run
    {
      NotMine(t, p, q, id);
      OwnedIsClosed(t, q, id, 0);
      hide *;
    }
    hide ProcOk, Owns, MayWrite, Collides;
  }

  lemma FlightStays(t: Tables, p: Proc, t': Tables, q: Proc)
    requires FlightOk(t, q) && OwnedKept(t, t', q) && SameApprovals(t, t') && QueuesOwn(t, p, t') && Strangers(p, q)
    ensures FlightOk(t', q)
  {
    if InFlight(q).Some? {
      var id := InFlight(q).value;
      assert Owns(q, id);
      hide SameApprovals, NoPendingFor;
      if LoopOf(q).None? && !IsOut(q) {
        StillNoPending(t, t', id);
      }
    }
  }

  lemma TodoKept(t: Tables, t': Tables, q: Proc)
    requires TodoOk(t, q) && OwnedKept(t, t', q)
    ensures TodoOk(t', q)
  {
    assert forall id: nat :: InTodo(q, id) ==> Owns(q, id);
    hide InTodo, InFlight;
  }

  lemma CancelStays(t: Tables, p: Proc, t': Tables, q: Proc)
    requires ProcOk(t, p) && ProcOk(t, q) && !Collides(t, q, p) && WritesOwn(t, p, t') && SameProposals(t, t')
    ensures CancelOk(t', q)
  {
    if q.Withdrawing? {
      forall id | id in q.ids
        ensures OfRun(t', id, q.run) && (HasStatus(t', id, Awaiting) || HasStatus(t', id, Withdrawn))
      {
        if MayWrite(t, p, id) {
          OnlyWithdrawn(t, p, q, id);
        }
      }
    }
    hide MayWrite, Collides, TodoOk, FlightOk, ProposalEdge;
  }

  lemma BystanderOk(t: Tables, p: Proc, t': Tables, q: Proc)
    requires ProcOk(t, p) && ProcOk(t, q) && Strangers(p, q) && !Collides(t, p, q) && !Collides(t, q, p)
    requires WritesOwn(t, p, t') && Extends(t, t') && QueuesOwn(t, p, t')
    ensures ProcOk(t', q)
  {
    hide TodoOk, FlightOk, CancelOk, Strangers, Collides, WritesOwn, SameProposals, SameApprovals, QueuesOwn, OwnedKept;
    OwnedStays(t, p, t', q);
    TodoKept(t, t', q);
    FlightStays(t, p, t', q);
    CancelStays(t, p, t', q);
  }

  /* ------------------------------------------------------------------ the process that moves */

  /** The moving call stays in order, and gets hold of nothing that another one has. */
  ghost predicate MovesOk(t: Tables, p: Proc, t': Tables, p': Proc) {
    && ProcOk(t', p')
    && QueuesOwn(t, p, t')
    && forall id: nat :: Owns(p', id) ==>
         Owns(p, id) || |t.proposals| <= id || (exists a: nat :: OpenApproval(t, a, id))
  }

  /** A call that works on no proposal. */
  predicate Idle(p: Proc) {
    Todo(p) == [] && InFlight(p) == None && !p.Withdrawing?
  }

  /** What is left to handle is untouched by a write to another proposal. */
  lemma TodoStays(t: Tables, p: Proc, t': Tables, p': Proc, written: nat)
    requires TodoOk(t, p) && |t.proposals| <= |t'.proposals|
    requires LoopOf(p').Some? ==> LoopOf(p).Some? && LoopOf(p').value.run == LoopOf(p).value.run
    requires InFlight(p') == None || InFlight(p') == Some(written)
    requires forall id: nat :: InTodo(p', id) ==> InTodo(p, id) && id != written
    requires forall id: nat :: id < |t.proposals| && id != written ==> t'.proposals[id] == t.proposals[id]
    ensures TodoOk(t', p')
  {
    hide LoopOf, InFlight;
  }

  lemma LoopRest(env: Env, t: Tables, l: Loop)
    requires l.todo != []
    ensures var next := StepLoop(env, t, l);
            && (LoopOf(next.1).Some? ==> LoopOf(next.1).value.run == l.run && Todo(next.1) == l.todo[1..])
            && (LoopOf(next.1).None? ==> Todo(next.1) == [] && InFlight(next.1) == None)
            && (InFlight(next.1) == None || InFlight(next.1) == Some(l.todo[0]))
            && |next.0.proposals| == |t.proposals|
            && (forall id: nat :: id < |t.proposals| && id != l.todo[0] ==> next.0.proposals[id] == t.proposals[id])
  {
    hide VerdictOf;
  }

  lemma LoopFlight(env: Env, t: Tables, l: Loop)
    requires l.todo != [] && HasStatus(t, l.todo[0], PendingAuto) && OfRun(t, l.todo[0], l.run)
    ensures var next := StepLoop(env, t, l);
            && FlightOk(next.0, next.1) && CancelOk(next.0, next.1)
            && (forall a :: |t.approvals| <= a < |next.0.approvals| ==> next.0.approvals[a].proposal == l.todo[0])
  {
    hide VerdictOf;
  }

  lemma LoopMovesOk(env: Env, t: Tables, l: Loop)
    requires ProcOk(t, Looping(l)) && Distinct(l.todo)
    ensures MovesOk(t, Looping(l), StepLoop(env, t, l).0, StepLoop(env, t, l).1)
  {
    var next := StepLoop(env, t, l);
    if l.todo != [] {
      FirstTodo(l);
      assert InTodo(Looping(l), l.todo[0]);
      LoopRest(env, t, l);
      LoopFlight(env, t, l);
      hide StepLoop, FlightOk, CancelOk, TodoOk, InFlight;
      TodoStays(t, Looping(l), next.0, next.1, l.todo[0]);
    }
  }

  lemma InsertMovesOk(env: Env, t: Tables, job: Job)
    ensures MovesOk(t, Inserting(job), StepInsert(env, t, job).0, StepInsert(env, t, job).1)
  {
    hide ReadDrafts, AddEstimates;
  }

  lemma SubmitRows(env: Env, t: Tables, p: Proc)
    requires Submits(p)
    ensures var t' := StepSubmit(env, t, p).0;
            && t'.approvals == t.approvals && |t'.proposals| == |t.proposals|
            && (forall id: nat :: id < |t.proposals| && InFlight(p) != Some(id) ==> t'.proposals[id] == t.proposals[id])
  {
    hide CloseMirror, IsBrokerTerminal;
  }

  lemma SubmitRest(env: Env, t: Tables, p: Proc)
    requires Submits(p)
    ensures var p' := StepSubmit(env, t, p).1;
            && (LoopOf(p').Some? ==> LoopOf(p).Some? && LoopOf(p').value.run == LoopOf(p).value.run)
            && (Todo(p') == Todo(p) || Todo(p') == [])
            && (InFlight(p') == None || InFlight(p') == InFlight(p))
  {
    hide CloseMirror, IsBrokerTerminal, SetProposal, RejectProposal, SetMirror;
  }

  lemma SubmitFlight(env: Env, t: Tables, p: Proc)
    requires Submits(p) && FlightOk(t, p)
    ensures FlightOk(StepSubmit(env, t, p).0, StepSubmit(env, t, p).1)
    ensures CancelOk(StepSubmit(env, t, p).0, StepSubmit(env, t, p).1)
  {
    hide CloseMirror, IsBrokerTerminal;
  }

  lemma SubmitMovesOk(env: Env, t: Tables, p: Proc)
    requires Submits(p) && ProcOk(t, p)
    ensures MovesOk(t, p, StepSubmit(env, t, p).0, StepSubmit(env, t, p).1)
  {
    var next := StepSubmit(env, t, p);
    SubmitRest(env, t, p);
    SubmitRows(env, t, p);
    SubmitFlight(env, t, p);
    var written := InFlight(p).GetOr(|t.proposals|);
    hide StepSubmit, FlightOk, CancelOk, InFlight, LoopOf, Todo;
    forall id: nat | InTodo(next.1, id) ensures InTodo(p, id) && id != written {
      assert InTodo(p, id);
    }
    TodoStays(t, p, next.0, next.1, written);
  }

  lemma DecidingMovesOk(env: Env, t: Tables, p: Proc)
    requires p.Deciding? && ApprovalsSound(t)
    ensures MovesOk(t, p, StepDecide(env, t, p).0, StepDecide(env, t, p).1)
  {
    var next := StepDecide(env, t, p);
    if next.1.Dispatching? {
      assert OpenApproval(t, p.approval, next.1.proposal);
      assert NoPendingFor(next.0, next.1.proposal);
    } else {
      assert Idle(next.1) && |next.0.approvals| == |t.approvals|;
    }
    hide ApprovalsSound, NoPendingFor;
  }

  lemma DecideMovesOk(env: Env, t: Tables, p: Proc)
    requires Decides(p) && ProcOk(t, p) && ApprovalsSound(t)
    ensures MovesOk(t, p, StepDecide(env, t, p).0, StepDecide(env, t, p).1)
  {
    if p.Deciding? {
      DecidingMovesOk(env, t, p);
    } else {
      hide HasPending, HasAwaiting, ApprovalsSound;
    }
  }

  lemma CancelMovesOk(env: Env, t: Tables, p: Proc)
    requires Cancels(p) && ProcOk(t, p)
    ensures MovesOk(t, p, StepCancel(env, t, p).0, StepCancel(env, t, p).1)
  {
    hide SomePrice;
  }

  lemma QueueingMovesOk(env: Env, t: Tables, p: Proc)
    requires p.Queueing? && ProcOk(t, p)
    ensures MovesOk(t, p, Step(env, t, p).0, Step(env, t, p).1)
  {
    TodoStays(t, p, Step(env, t, p).0, Step(env, t, p).1, p.proposal);
  }

  lemma IdleIsOk(t: Tables, p: Proc, t': Tables, p': Proc)
    requires Idle(p') && t'.approvals == t.approvals
    ensures MovesOk(t, p, t', p')
  {
    assert forall id: nat :: !InTodo(p', id);
    hide Todo, InTodo, InFlight, LoopOf, NoPendingFor, HasStatus, OfRun, DecisionRun, OpenApproval;
  }

  lemma WalkIsIdle(env: Env, t: Tables, p: Proc)
    requires Walks(p) || Resumes(p)
    ensures Walks(p) ==> Idle(StepChain(env, t, p).1) && StepChain(env, t, p).0.approvals == t.approvals
    ensures Resumes(p) ==> Idle(StepResume(env, t, p).1) && StepResume(env, t, p).0.approvals == t.approvals
  {
    hide ApplyEnvelope, LoadPrior, RestAfter, HasInterrupted, UpdateRows;
  }

  lemma IdleMovesOk(env: Env, t: Tables, p: Proc)
    requires Walks(p) || Resumes(p) || Fails(p) || p.Starting? || p.Finished?
    ensures MovesOk(t, p, Step(env, t, p).0, Step(env, t, p).1)
  {
    if Walks(p) || Resumes(p) {
      WalkIsIdle(env, t, p);
    }
    hide MovesOk, StepChain, StepResume, HasPending, HasAwaiting;
    IdleIsOk(t, p, Step(env, t, p).0, Step(env, t, p).1);
  }

  lemma MoverOk(env: Env, t: Tables, p: Proc)
    requires ProcOk(t, p) && Distinct(Todo(p)) && ApprovalsSound(t)
    ensures MovesOk(t, p, Step(env, t, p).0, Step(env, t, p).1)
  {
    hide Step, MovesOk, StepLoop, StepInsert, StepChain, StepResume, StepSubmit, StepDecide, StepCancel, StepFailure,
         TodoOk, FlightOk, CancelOk, ApprovalsSound, Distinct;
    StepIsGrouped(env, t, p);
    if p.Looping? {
      LoopMovesOk(env, t, p.loop);
    } else if p.Inserting? {
      InsertMovesOk(env, t, p.job);
    } else if Submits(p) {
      SubmitMovesOk(env, t, p);
    } else if Decides(p) {
      DecideMovesOk(env, t, p);
    } else if Cancels(p) {
      CancelMovesOk(env, t, p);
    } else if p.Queueing? {
      QueueingMovesOk(env, t, p);
    } else {
      IdleMovesOk(env, t, p);
    }
  }

  /** Whoever owns a proposal, it has no open approval. */
  lemma OwnedIsClosed(t: Tables, q: Proc, id: nat, a: nat)
    requires ProcOk(t, q) && Owns(q, id)
    ensures id < |t.proposals| && !OpenApproval(t, a, id)
  {
  }

  lemma OwnsNothingOpen(t: Tables, q: Proc, id: nat)
    requires ProcOk(t, q) && Owns(q, id)
    ensures id < |t.proposals| && forall a: nat :: !OpenApproval(t, a, id)
  {
    OwnedIsClosed(t, q, id, 0);
    forall a: nat ensures !OpenApproval(t, a, id) {
      OwnedIsClosed(t, q, id, a);
    }
  }

  lemma StaysStranger(t: Tables, p: Proc, t': Tables, p': Proc, q: Proc)
    requires MovesOk(t, p, t', p') && ProcOk(t, q) && Strangers(p, q)
    ensures Strangers(p', q) && Strangers(q, p')
  {
    hide Owns, ProcOk, QueuesOwn, OpenApproval;
    forall id: nat ensures !(Owns(p', id) && Owns(q, id)) {
      if Owns(q, id) {
        OwnsNothingOpen(t, q, id);
      }
    }
  }

  lemma StrangersBoth(p: Proc, q: Proc)
    ensures Strangers(p, q) <==> Strangers(q, p)
  {
  }

  /* ------------------------------------------------------------------ any interleaving without collisions */

  lemma CalmPair(s: System, i: nat, j: nat)
    requires Calm(s) && i < |s.procs| && j < |s.procs| && i != j
    ensures !Collides(s.tables, s.procs[i], s.procs[j]) && !Collides(s.tables, s.procs[j], s.procs[i])
  {
    hide Collides;
  }

  lemma SoundMover(s: System, i: nat)
    requires Tokens(s) && i < |s.procs|
    ensures Distinct(Todo(s.procs[i])) && ApprovalsSound(s.tables)
  {
    assert HoldsSound(s.tables, s.procs[i]);
    hide ApprovalsSound, Todo, Disjoint;
  }

  lemma AdvanceInStep(env: Env, s: System, i: nat)
    requires InStep(s) && Calm(s) && i < |s.procs|
    ensures InStep(Act(env, s, Advance(i))) && MovedOn(s.tables, Act(env, s, Advance(i)).tables)
  {
    var t, p := s.tables, s.procs[i];
    var next := Step(env, t, p);
    hide Step, Tokens, ProcOk, Strangers, Calm, Extends, WritesOwn, MovesOk, MovedOn, Distinct, Todo, ApprovalsSound;
    ActKeepsTokens(env, s, Advance(i));
    SoundMover(s, i);
    StepExtends(env, t, p);
    StepWrites(env, t, p);
    MoverOk(env, t, p);
    MovedParts(t, p, next.0, next.1);
    forall j | 0 <= j < |s.procs| && j != i
      ensures ProcOk(next.0, s.procs[j]) && Strangers(next.1, s.procs[j]) && Strangers(s.procs[j], next.1)
    {
      StrangersBoth(p, s.procs[j]);
      CalmPair(s, i, j);
      BystanderOk(t, p, next.0, s.procs[j]);
      StaysStranger(t, p, next.0, next.1, s.procs[j]);
    }
  }

  lemma MovedParts(t: Tables, p: Proc, t': Tables, p': Proc)
    requires Extends(t, t') && WritesOwn(t, p, t') && MovesOk(t, p, t', p')
    ensures MovedOn(t, t') && ProcOk(t', p') && QueuesOwn(t, p, t')
  {
    hide MayWrite, ProcOk, QueuesOwn;
  }

  lemma ActInStep(env: Env, s: System, a: Action)
    requires InStep(s) && Calm(s)
    ensures InStep(Act(env, s, a)) && MovedOn(s.tables, Act(env, s, a).tables)
  {
    hide Calm, Tokens;
    match a
    case Advance(i) =>
      if i < |s.procs| {
        AdvanceInStep(env, s, i);
      }
    case Spawn(entry) =>
      ActKeepsTokens(env, s, a);
      if IsEntry(entry) {
        assert forall id: nat :: !Owns(entry, id);
      }
  }

  /** In every interleaving in which no two calls collide, proposals only move forward: `pending_auto`,
      `awaiting_approval`, `submitted`, then filled or rejected, with rejected and cancelled also before submission; and
      an approval leaves `pending` at most once. */
  lemma {:induction false} OneWayUnlessCollision(env: Env, s: System, actions: seq<Action>)
    requires InStep(s) && StaysCalm(env, s, actions)
    ensures InStep(Execute(env, s, actions)) && MovedOnOver(s.tables, Execute(env, s, actions).tables)
    decreases |actions|
  {
    if actions != [] {
      var s1 := Act(env, s, actions[0]);
      hide InStep, Calm, Act, MovedOnOver;
      ActInStep(env, s, actions[0]);
      OneStepOver(s.tables, s1.tables);
      OneWayUnlessCollision(env, s1, actions[1..]);
      MovedOnTransitive(s.tables, s1.tables, Execute(env, s1, actions[1..]).tables);
    } else {
      NotMoved(s.tables);
      hide InStep, Calm, MovedOnOver;
    }
  }

  lemma OneStepOver(t: Tables, t': Tables)
    requires MovedOn(t, t')
    ensures MovedOnOver(t, t')
  {
  }

  lemma NotMoved(t: Tables)
    ensures MovedOnOver(t, t)
  {
  }

  lemma {:induction false} ExecuteMore(env: Env, s: System, first: seq<Action>, second: seq<Action>)
    ensures Execute(env, s, first + second) == Execute(env, Execute(env, s, first), second)
    ensures StaysCalm(env, s, first + second) ==> StaysCalm(env, Execute(env, s, first), second)
    decreases |first|
  {
    if first == [] {
      assert first + second == second;
    } else {
      assert (first + second)[1..] == first[1..] + second;
      hide Act, Calm;
      ExecuteMore(env, Act(env, s, first[0]), first[1..], second);
    }
  }

  lemma {:induction false} CalmFirst(env: Env, s: System, first: seq<Action>, second: seq<Action>)
    requires StaysCalm(env, s, first + second)
    ensures StaysCalm(env, s, first)
    decreases |first|
  {
    if first == [] {
      hide Calm;
    } else {
      assert (first + second)[1..] == first[1..] + second;
      hide Act, Calm;
      CalmFirst(env, Act(env, s, first[0]), first[1..], second);
    }
  }

  /** From an empty database, between any two moments of such an interleaving. */
  lemma OneWayFromStart(env: Env, first: seq<Action>, second: seq<Action>)
    requires StaysCalm(env, EMPTY, first + second)
    ensures MovedOnOver(Execute(env, EMPTY, first).tables, Execute(env, EMPTY, first + second).tables)
  {
    EmptyHasTokens();
    hide StaysCalm, Execute, MovedOnOver, Tokens;
    CalmFirst(env, EMPTY, first, second);
    ExecuteMore(env, EMPTY, first, second);
    OneWayUnlessCollision(env, EMPTY, first);
    OneWayUnlessCollision(env, Execute(env, EMPTY, first), second);
  }

  /* ------------------------------------------------------------------ calls that do not overlap */

  /** The run a `Decide` is about. */
  predicate DecisionOf(t: Tables, p: Proc, run: nat) {
    || (p.Deciding? && p.approval < |t.approvals| && OfRun(t, t.approvals[p.approval].proposal, run))
    || ((p.Dispatching? || p.Refreshing? || (Submits(p) && CallerOf(p).FromDecide?)) && DecisionRun(p) == run)
  }

  /** The run a `RunWorkflow` or `ResumeAgent` is in the proposals of, or gives up on. */
  predicate RunnerOf(p: Proc, run: nat) {
    (LoopOf(p).Some? && LoopOf(p).value.run == run) || (Fails(p) && p.run == run)
  }

  /** No cancellation of a run overlaps a decision on it, and no two calls run it at once. */
  ghost predicate NoOverlap(s: System) {
    forall i, j, run: nat :: 0 <= i < |s.procs| && 0 <= j < |s.procs| && i != j ==>
      && !(Cancels(s.procs[i]) && s.procs[i].run == run && DecisionOf(s.tables, s.procs[j], run))
      && !(RunnerOf(s.procs[i], run) && RunnerOf(s.procs[j], run))
  }

  ghost predicate NeverOverlaps(env: Env, s: System, actions: seq<Action>)
    decreases |actions|
  {
    NoOverlap(s) && (actions == [] || NeverOverlaps(env, Act(env, s, actions[0]), actions[1..]))
  }

  lemma ApartDoNotCollide(t: Tables, p: Proc, q: Proc)
    requires ProcOk(t, p) && ProcOk(t, q)
    requires Cancels(p) ==> !DecisionOf(t, q, p.run)
    requires Fails(p) ==> !RunnerOf(q, p.run)
    ensures !Collides(t, p, q)
  {
    if p.Withdrawing? {
      forall id | id in p.ids ensures !DecidesOn(t, q, id) {
        assert OfRun(t, id, p.run);
      }
    }
  }

  lemma NoOverlapIsCalm(s: System)
    requires InStep(s) && NoOverlap(s)
    ensures Calm(s)
  {
    hide ProcOk, Collides, DecisionOf, Tokens, Strangers;
    forall i, j | 0 <= i < |s.procs| && 0 <= j < |s.procs| && i != j
      ensures !Collides(s.tables, s.procs[i], s.procs[j])
    {
      ApartDoNotCollide(s.tables, s.procs[i], s.procs[j]);
    }
  }

  lemma {:induction false} NeverOverlapsStaysCalm(env: Env, s: System, actions: seq<Action>)
    requires InStep(s) && NeverOverlaps(env, s, actions)
    ensures StaysCalm(env, s, actions)
    decreases |actions|
  {
    NoOverlapIsCalm(s);
    if actions != [] {
      ActInStep(env, s, actions[0]);
      hide InStep, NoOverlap, Act, Calm, MovedOn;
      NeverOverlapsStaysCalm(env, Act(env, s, actions[0]), actions[1..]);
    }
  }

  /** From an empty database lifecycles are one-way, between any two moments, in every interleaving in which no
      cancellation of a run overlaps a decision on it and no two calls work on the proposals of one run at once (which
      is what the run lock is for). */
  lemma OneWayWithoutOverlap(env: Env, first: seq<Action>, second: seq<Action>)
    requires NeverOverlaps(env, EMPTY, first + second)
    ensures MovedOnOver(Execute(env, EMPTY, first).tables, Execute(env, EMPTY, first + second).tables)
  {
    EmptyHasTokens();
    NeverOverlapsStaysCalm(env, EMPTY, first + second);
    hide StaysCalm, NeverOverlaps, Execute, MovedOnOver;
    OneWayFromStart(env, first, second);
  }
}
