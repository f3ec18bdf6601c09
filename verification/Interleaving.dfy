/** Concurrent calls: any number of runs, resumes, decisions and cancellations, interleaved write by write.

    A proposal's right to be submitted is a token.  It is minted when the proposal is inserted, into the loop that
    inserted it; it moves to the approval when the proposal is queued, from there to the one `Decide` that flips the
    approval, and is spent at `SubmitOrder`. */
module Interleaving {
  import opened Common
  import opened Risk
  import opened Gate
  import opened Workflow

  datatype System = System(tables: Tables, procs: seq<Proc>)

  /** A scheduler either lets a new call in or advances one already in progress. */
  datatype Action = Spawn(entry: Proc) | Advance(proc: nat)

  predicate IsEntry(p: Proc) {
    p.Starting? || p.Resuming? || p.Deciding? || p.Cancelling?
  }

  ghost function Act(env: Env, s: System, a: Action): System {
    match a
    case Spawn(entry) => if IsEntry(entry) then s.(procs := s.procs + [entry]) else s
    case Advance(i) =>
      if i < |s.procs| then
        var next := Step(env, s.tables, s.procs[i]);
        System(next.0, s.procs[i := next.1])
      else s
  }

  ghost function Execute(env: Env, s: System, actions: seq<Action>): System
    decreases |actions|
  {
    if actions == [] then s else Execute(env, Act(env, s, actions[0]), actions[1..])
  }

  const EMPTY := System(Tables([], [], [], [], [], [], [], 0), [])

  /* ------------------------------------------------------------------ tokens */

  function LoopOf(p: Proc): Option<Loop> {
    match p
    case Looping(l) => Some(l)
    case Queueing(l, _) => Some(l)
    case Refusing(_, caller) => CallerLoop(caller)
    case Mirroring(_, caller) => CallerLoop(caller)
    case Marking(_, _, caller) => CallerLoop(caller)
    case Polling(_, _, _, caller) => CallerLoop(caller)
    case Closing(_, _, caller) => CallerLoop(caller)
    case Returning(_, _, caller) => CallerLoop(caller)
    case _ => None
  }

  /** No order is out: the loop's state is the one to judge by. */
  predicate Fresh(p: Proc) {
    p.Looping? || p.Queueing? || p.Refusing?
  }

  function CallerLoop(caller: Caller): Option<Loop> {
    if caller.FromLoop? then Some(caller.loop) else None
  }

  function Todo(p: Proc): seq<nat> {
    if LoopOf(p).Some? then LoopOf(p).value.todo else []
  }

  predicate InTodo(p: Proc, id: nat) {
    id in Todo(p)
  }

  /** The process may still submit the proposal. */
  predicate Claims(p: Proc, id: nat) {
    InTodo(p, id) || (p.Dispatching? && p.proposal == id)
  }

  predicate Distinct(ids: seq<nat>) {
    forall i, j :: 0 <= i < j < |ids| ==> ids[i] != ids[j]
  }

  predicate Sent(log: seq<Submission>, id: nat) {
    exists i :: 0 <= i < |log| && log[i].proposal == id
  }

  /** The broker has seen at most one order for each proposal. */
  ghost predicate AtMostOnce(log: seq<Submission>) {
    forall i, j :: 0 <= i < j < |log| ==> log[i].proposal != log[j].proposal
  }

  ghost predicate ApprovalsSound(t: Tables) {
    && (forall a :: 0 <= a < |t.approvals| ==> t.approvals[a].proposal < |t.proposals|)
    && (forall a, b :: 0 <= a < b < |t.approvals| ==> t.approvals[a].proposal != t.approvals[b].proposal)
    && (forall a :: 0 <= a < |t.approvals| && t.approvals[a].status.Pending? ==> !Sent(t.log, t.approvals[a].proposal))
  }

  /** What a process may still submit exists and was never sent. */
  ghost predicate HoldsUnsent(t: Tables, p: Proc) {
    && Distinct(Todo(p))
    && (forall id: nat :: Claims(p, id) ==> id < |t.proposals| && !Sent(t.log, id))
  }

  /** What a process may still submit awaits no decision, and what is left in its loop was never queued. */
  ghost predicate HoldsUnasked(t: Tables, p: Proc) {
    && (forall id: nat, a :: Claims(p, id) && 0 <= a < |t.approvals| && t.approvals[a].status.Pending? ==>
          t.approvals[a].proposal != id)
    && (forall id: nat, a :: InTodo(p, id) && 0 <= a < |t.approvals| ==> t.approvals[a].proposal != id)
  }

  ghost predicate HoldsSound(t: Tables, p: Proc) {
    HoldsUnsent(t, p) && HoldsUnasked(t, p)
  }

  ghost predicate Disjoint(p: Proc, q: Proc) {
    forall id: nat :: !(Claims(p, id) && Claims(q, id))
  }

  ghost predicate Tokens(s: System) {
    && AtMostOnce(s.tables.log)
    && (forall i :: 0 <= i < |s.tables.log| ==> s.tables.log[i].proposal < |s.tables.proposals|)
    && ApprovalsSound(s.tables)
    && (forall i :: 0 <= i < |s.procs| ==> HoldsSound(s.tables, s.procs[i]))
    && (forall i, j :: 0 <= i < j < |s.procs| ==> Disjoint(s.procs[i], s.procs[j]))
  }

  /* ------------------------------------------------------------------ what one step does to tokens */

  ghost predicate LogEffect(t: Tables, p: Proc, t': Tables, p': Proc) {
    || t'.log == t.log
    || (&& |t'.log| == |t.log| + 1
        && t'.log[..|t.log|] == t.log
        && var id := t'.log[|t.log|].proposal;
           Claims(p, id) && !Claims(p', id) && |t'.approvals| == |t.approvals|)
  }

  ghost predicate ApprovalEffect(t: Tables, p: Proc, t': Tables, p': Proc) {
    && |t.approvals| <= |t'.approvals| <= |t.approvals| + 1
    && (forall a :: 0 <= a < |t.approvals| ==>
          && t'.approvals[a].proposal == t.approvals[a].proposal
          && (t'.approvals[a].status.Pending? ==> t.approvals[a].status.Pending?))
    && (|t'.approvals| > |t.approvals| ==>
          var id := t'.approvals[|t.approvals|].proposal;
          InTodo(p, id) && !Claims(p', id))
  }

  /** An approval of the proposal stops being pending in this step. */
  ghost predicate Flipped(t: Tables, t': Tables, id: nat)
    requires |t.approvals| <= |t'.approvals|
  {
    exists a :: 0 <= a < |t.approvals| && t.approvals[a].proposal == id
             && t.approvals[a].status.Pending? && !t'.approvals[a].status.Pending?
  }

  ghost predicate ClaimEffect(t: Tables, p: Proc, t': Tables, p': Proc)
    requires |t.approvals| <= |t'.approvals|
  {
    && |t.proposals| <= |t'.proposals|
    && Distinct(Todo(p'))
    && (forall id: nat :: InTodo(p', id) ==> InTodo(p, id) || |t.proposals| <= id < |t'.proposals|)
    && (forall id: nat :: Claims(p', id) ==>
          || Claims(p, id)
          || |t.proposals| <= id < |t'.proposals|
          || (id < |t.proposals| && Flipped(t, t', id)))
  }

  ghost predicate Effect(t: Tables, p: Proc, t': Tables, p': Proc) {
    LogEffect(t, p, t', p') && ApprovalEffect(t, p, t', p') && ClaimEffect(t, p, t', p')
  }

  lemma FirstTodo(l: Loop)
    requires l.todo != [] && Distinct(l.todo)
    ensures l.todo[0] in l.todo && l.todo[0] !in l.todo[1..] && Distinct(l.todo[1..])
    ensures forall x: nat :: x in l.todo[1..] ==> x in l.todo
  {
  }

  lemma LoopLogEffect(env: Env, t: Tables, l: Loop)
    requires Distinct(l.todo)
    ensures LogEffect(t, Looping(l), StepLoop(env, t, l).0, StepLoop(env, t, l).1)
  {
    if l.todo != [] {
      FirstTodo(l);
    }
    hide VerdictOf, Distinct;
  }

  lemma LoopApprovalEffect(env: Env, t: Tables, l: Loop)
    requires Distinct(l.todo)
    ensures ApprovalEffect(t, Looping(l), StepLoop(env, t, l).0, StepLoop(env, t, l).1)
  {
    if l.todo != [] {
      FirstTodo(l);
    }
    hide VerdictOf, Distinct;
  }

  lemma LoopTodo(env: Env, t: Tables, l: Loop)
    ensures var next := StepLoop(env, t, l);
            && !next.1.Dispatching? && |next.0.proposals| == |t.proposals|
            && (Todo(next.1) == [] || (l.todo != [] && Todo(next.1) == l.todo[1..]))
  {
    hide VerdictOf;
  }

  lemma LoopEffect(env: Env, t: Tables, l: Loop)
    requires HoldsSound(t, Looping(l))
    ensures Effect(t, Looping(l), StepLoop(env, t, l).0, StepLoop(env, t, l).1)
  {
    assert Distinct(l.todo);
    LoopLogEffect(env, t, l);
    LoopApprovalEffect(env, t, l);
    LoopTodo(env, t, l);
    if l.todo != [] {
      FirstTodo(l);
    }
    hide StepLoop, LogEffect, HoldsSound;
  }

  lemma InsertEffect(env: Env, t: Tables, job: Job)
    ensures Effect(t, Inserting(job), StepInsert(env, t, job).0, StepInsert(env, t, job).1)
  {
    var next := StepInsert(env, t, job);
    if next.1.Looping? {
      var ids := Todo(next.1);
      assert forall x: nat :: InTodo(next.1, x) ==> |t.proposals| <= x < |next.0.proposals|;
    }
  }

  /** A step that sends nothing, queues nothing and hands out no token. */
  ghost predicate Quiet(t: Tables, p: Proc, t': Tables, p': Proc) {
    && t'.log == t.log
    && |t'.proposals| == |t.proposals|
    && t'.approvals == t.approvals
    && (Todo(p') == Todo(p) || Todo(p') == [])
    && !p'.Dispatching?
  }

  lemma QuietClaims(p: Proc, p': Proc, id: nat)
    requires Todo(p') == Todo(p) || Todo(p') == []
    requires !p'.Dispatching?
    ensures InTodo(p', id) ==> InTodo(p, id)
    ensures Claims(p', id) ==> Claims(p, id)
  {
    hide Todo;
  }

  lemma QuietLog(t: Tables, p: Proc, t': Tables, p': Proc)
    requires Quiet(t, p, t', p')
    ensures LogEffect(t, p, t', p') && ApprovalEffect(t, p, t', p')
  {
    hide Todo, InTodo, Claims;
  }

  lemma QuietIsEffect(t: Tables, p: Proc, t': Tables, p': Proc)
    requires Quiet(t, p, t', p') && Distinct(Todo(p))
    ensures Effect(t, p, t', p')
  {
    QuietLog(t, p, t', p');
    hide Todo, InTodo, Claims, LogEffect, ApprovalEffect;
    forall id: nat ensures (InTodo(p', id) ==> InTodo(p, id)) && (Claims(p', id) ==> Claims(p, id)) {
      QuietClaims(p, p', id);
    }
  }

  lemma SubmitIsQuiet(env: Env, t: Tables, p: Proc)
    requires Submits(p)
    ensures Quiet(t, p, StepSubmit(env, t, p).0, StepSubmit(env, t, p).1)
  {
    hide CloseMirror, IsBrokerTerminal;
  }

  lemma DecidingEffect(env: Env, t: Tables, a: nat, approve: bool)
    ensures var next := StepDecide(env, t, Deciding(a, approve));
            Effect(t, Deciding(a, approve), next.0, next.1)
  {
    var next := StepDecide(env, t, Deciding(a, approve));
    if next.1.Dispatching? {
      assert t.approvals[a].proposal == next.1.proposal;
      assert Flipped(t, next.0, next.1.proposal);
    }
  }

  lemma DispatchingEffect(env: Env, t: Tables, p: Proc)
    requires p.Dispatching?
    ensures Effect(t, p, StepDecide(env, t, p).0, StepDecide(env, t, p).1)
  {
    var next := StepDecide(env, t, p);
    assert Claims(p, p.proposal) && Todo(next.1) == [];
    assert forall x: nat :: !Claims(next.1, x);
  }

  lemma CancelEffect(env: Env, t: Tables, p: Proc)
    requires Cancels(p)
    ensures Effect(t, p, StepCancel(env, t, p).0, StepCancel(env, t, p).1)
  {
    var next := StepCancel(env, t, p);
    assert Todo(next.1) == [];
    assert forall x: nat :: !Claims(next.1, x);
  }

  lemma ChainIsQuiet(env: Env, t: Tables, p: Proc)
    requires Walks(p)
    ensures Quiet(t, p, StepChain(env, t, p).0, StepChain(env, t, p).1)
  {
    hide ApplyEnvelope;
  }

  lemma ResumeIsQuiet(env: Env, t: Tables, p: Proc)
    requires Resumes(p)
    ensures Quiet(t, p, StepResume(env, t, p).0, StepResume(env, t, p).1)
  {
    hide LoadPrior, RestAfter, HasInterrupted, UpdateRows;
  }

  lemma OtherIsQuiet(env: Env, t: Tables, p: Proc)
    requires p.Finished? || p.Starting? || Fails(p) || p.Queueing? || p.Refreshing?
    ensures Quiet(t, p, Step(env, t, p).0, Step(env, t, p).1)
  {
    hide StepLoop, StepInsert, StepSubmit, StepCancel, StepChain, StepResume, HasPending, HasAwaiting, ResolveMode;
  }

  lemma StepEffect(env: Env, t: Tables, p: Proc)
    requires ApprovalsSound(t) && HoldsSound(t, p)
    ensures Effect(t, p, Step(env, t, p).0, Step(env, t, p).1)
  {
    var next := Step(env, t, p);
    hide Step, StepLoop, StepInsert, StepSubmit, StepDecide, StepCancel, StepChain, StepResume, StepFailure,
          ApprovalsSound, HoldsUnasked, Effect, Quiet;
    StepIsGrouped(env, t, p);
    if p.Looping? {
      LoopEffect(env, t, p.loop);
    } else if p.Inserting? {
      InsertEffect(env, t, p.job);
    } else if p.Deciding? {
      DecidingEffect(env, t, p.approval, p.approve);
    } else if p.Dispatching? {
      DispatchingEffect(env, t, p);
    } else if Cancels(p) {
      CancelEffect(env, t, p);
    } else {
      if Submits(p) {
        SubmitIsQuiet(env, t, p);
      } else if Walks(p) {
        ChainIsQuiet(env, t, p);
      } else if Resumes(p) {
        ResumeIsQuiet(env, t, p);
      } else {
        OtherIsQuiet(env, t, p);
      }
      QuietIsEffect(t, p, next.0, next.1);
    }
  }

  /* ------------------------------------------------------------------ tokens are never duplicated */

  lemma SentAfter(t: Tables, p: Proc, t': Tables, p': Proc, id: nat)
    requires LogEffect(t, p, t', p') && Sent(t'.log, id)
    ensures Sent(t.log, id) || (|t'.log| > |t.log| && t'.log[|t.log|].proposal == id)
  {
    var i :| 0 <= i < |t'.log| && t'.log[i].proposal == id;
    if i < |t.log| {
      assert t'.log[..|t.log|][i] == t'.log[i];
      assert t.log[i].proposal == id;
    }
  }

  /** A process that does not move keeps its tokens sound. */
  lemma BystanderKeeps(t: Tables, p: Proc, t': Tables, p': Proc, q: Proc)
    requires Effect(t, p, t', p') && HoldsSound(t, q) && HoldsSound(t, p) && Disjoint(p, q)
    ensures HoldsSound(t', q)
  {
    forall id: nat | Claims(q, id) ensures !Sent(t'.log, id) {
      if Sent(t'.log, id) {
        SentAfter(t, p, t', p', id);
      }
    }
    forall id: nat, a | Claims(q, id) && 0 <= a < |t'.approvals| && t'.approvals[a].status.Pending?
      ensures t'.approvals[a].proposal != id
    {
      NotQueuedBy(t, p, t', p', q, id, a);
    }
    forall id: nat, a | InTodo(q, id) && 0 <= a < |t'.approvals| ensures t'.approvals[a].proposal != id {
      NotQueuedBy(t, p, t', p', q, id, a);
    }
  }

  lemma NotQueuedBy(t: Tables, p: Proc, t': Tables, p': Proc, q: Proc, id: nat, a: nat)
    requires ApprovalEffect(t, p, t', p') && Disjoint(p, q) && Claims(q, id) && a < |t'.approvals|
    ensures a == |t.approvals| ==> t'.approvals[a].proposal != id
  {
    assert !(Claims(p, id) && Claims(q, id));
  }

  lemma MoverKeepsUnsent(t: Tables, p: Proc, t': Tables, p': Proc)
    requires Effect(t, p, t', p') && HoldsUnsent(t, p) && ApprovalsSound(t)
    requires forall i :: 0 <= i < |t.log| ==> t.log[i].proposal < |t.proposals|
    ensures HoldsUnsent(t', p')
  {
    forall id: nat | Claims(p', id) ensures !Sent(t'.log, id) {
      if Sent(t'.log, id) {
        SentAfter(t, p, t', p', id);
      }
    }
  }

  lemma FlippedIsTheOnly(t: Tables, t': Tables, id: nat, a: nat)
    requires ApprovalsSound(t) && |t.approvals| <= |t'.approvals| && Flipped(t, t', id)
    requires a < |t.approvals| && t.approvals[a].proposal == id
    ensures !t'.approvals[a].status.Pending?
  {
  }

  lemma MoverKeepsUnasked(t: Tables, p: Proc, t': Tables, p': Proc)
    requires ApprovalEffect(t, p, t', p') && ClaimEffect(t, p, t', p') && HoldsUnasked(t, p) && ApprovalsSound(t)
    ensures HoldsUnasked(t', p')
  {
    forall id: nat, a | Claims(p', id) && 0 <= a < |t.approvals| && t'.approvals[a].status.Pending?
      ensures t.approvals[a].proposal != id
    {
      if Flipped(t, t', id) && t.approvals[a].proposal == id {
        FlippedIsTheOnly(t, t', id, a);
      }
    }
  }

  lemma ApprovalsKeep(t: Tables, p: Proc, t': Tables, p': Proc)
    requires Effect(t, p, t', p') && HoldsSound(t, p) && ApprovalsSound(t)
    ensures ApprovalsSound(t')
  {
    if |t'.approvals| > |t.approvals| {
      assert Claims(p, t'.approvals[|t.approvals|].proposal);
    }
    forall a | 0 <= a < |t'.approvals| && t'.approvals[a].status.Pending?
      ensures !Sent(t'.log, t'.approvals[a].proposal)
    {
      var id := t'.approvals[a].proposal;
      if Sent(t'.log, id) {
        SentAfter(t, p, t', p', id);
      }
    }
  }

  lemma DisjointKeeps(t: Tables, p: Proc, t': Tables, p': Proc, q: Proc)
    requires Effect(t, p, t', p') && HoldsSound(t, q) && Disjoint(p, q)
    ensures Disjoint(p', q)
  {
    forall id: nat ensures !(Claims(p', id) && Claims(q, id)) {
      assert !(Claims(p, id) && Claims(q, id));
    }
  }

  lemma AdvanceKeepsTokens(env: Env, s: System, i: nat)
    requires Tokens(s) && i < |s.procs|
    ensures Tokens(Act(env, s, Advance(i)))
  {
    var t, p := s.tables, s.procs[i];
    var next := Step(env, t, p);
    var t', p' := next.0, next.1;
    StepEffect(env, t, p);
    hide Step, HoldsUnsent, HoldsUnasked, ApprovalsSound, Disjoint, ApprovalEffect;
    MoverKeepsUnsent(t, p, t', p');
    MoverKeepsUnasked(t, p, t', p');
    ApprovalsKeep(t, p, t', p');
    forall j | 0 <= j < |s.procs| && j != i
      ensures HoldsSound(t', s.procs[j]) && Disjoint(p', s.procs[j]) && Disjoint(s.procs[j], p')
    {
      DisjointSymmetric(p, s.procs[j]);
      BystanderKeeps(t, p, t', p', s.procs[j]);
      DisjointKeeps(t, p, t', p', s.procs[j]);
      DisjointSymmetric(p', s.procs[j]);
    }
    LogKeeps(t, p, t', p');
  }

  lemma DisjointSymmetric(p: Proc, q: Proc)
    ensures Disjoint(p, q) <==> Disjoint(q, p)
  {
  }

  lemma LogKeeps(t: Tables, p: Proc, t': Tables, p': Proc)
    requires LogEffect(t, p, t', p') && HoldsSound(t, p) && AtMostOnce(t.log)
    requires |t.proposals| <= |t'.proposals|
    requires forall i :: 0 <= i < |t.log| ==> t.log[i].proposal < |t.proposals|
    ensures AtMostOnce(t'.log)
    ensures forall i :: 0 <= i < |t'.log| ==> t'.log[i].proposal < |t'.proposals|
  {
    if t'.log != t.log {
      forall i | 0 <= i < |t.log| ensures t'.log[i] == t.log[i] && t'.log[i].proposal != t'.log[|t.log|].proposal {
        assert t'.log[..|t.log|][i] == t'.log[i];
        assert Sent(t.log, t.log[i].proposal);
      }
    }
  }

  lemma ActKeepsTokens(env: Env, s: System, a: Action)
    requires Tokens(s)
    ensures Tokens(Act(env, s, a))
  {
    match a
    case Advance(i) =>
      if i < |s.procs| {
        AdvanceKeepsTokens(env, s, i);
      }
    case Spawn(entry) =>
      if IsEntry(entry) {
        assert Todo(entry) == [];
        assert forall id: nat :: !Claims(entry, id);
      }
  }

  /** However many runs, resumes, decisions and cancellations are interleaved, and whatever agents and broker answer,
      the broker never sees two orders for one proposal. */
  lemma {:induction false} SubmittedAtMostOnce(env: Env, s: System, actions: seq<Action>)
    requires Tokens(s)
    ensures Tokens(Execute(env, s, actions))
    ensures AtMostOnce(Execute(env, s, actions).tables.log)
    decreases |actions|
  {
    if actions != [] {
      ActKeepsTokens(env, s, actions[0]);
      SubmittedAtMostOnce(env, Act(env, s, actions[0]), actions[1..]);
    }
  }

  lemma EmptyHasTokens()
    ensures Tokens(EMPTY)
  {
  }

  /** The same from an empty database, with no assumption at all on the schedule. */
  lemma AtMostOnceFromStart(env: Env, actions: seq<Action>)
    ensures AtMostOnce(Execute(env, EMPTY, actions).tables.log)
  {
    EmptyHasTokens();
    SubmittedAtMostOnce(env, EMPTY, actions);
  }
}
