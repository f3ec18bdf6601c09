/** Calls made one after the other: what the tables look like between calls, and how rows move. */
module Serial {
  import opened Common
  import opened Risk
  import opened Gate
  import opened Workflow
  import opened Interleaving
  import opened History
  import opened Chain

  /* ------------------------------------------------------------------ coherence between calls */

  predicate HasApproval(t: Tables, id: nat) {
    exists a :: 0 <= a < |t.approvals| && t.approvals[a].proposal == id
  }

  predicate HasMirror(t: Tables, id: nat) {
    exists m :: 0 <= m < |t.mirrors| && t.mirrors[m].proposal == id
  }

  predicate WasAccepted(log: seq<Submission>, id: nat) {
    exists i :: 0 <= i < |log| && log[i].proposal == id && log[i].accepted
  }

  /** References resolve, and a proposal has at most one approval and at most one mirror. */
  ghost predicate Referenced(t: Tables) {
    && (forall a :: 0 <= a < |t.approvals| ==> t.approvals[a].proposal < |t.proposals|)
    && (forall a, b :: 0 <= a < b < |t.approvals| ==> t.approvals[a].proposal != t.approvals[b].proposal)
    && (forall i :: 0 <= i < |t.proposals| ==> t.proposals[i].run < |t.runs|)
    && (forall m :: 0 <= m < |t.mirrors| ==> t.mirrors[m].proposal < |t.proposals|)
    && (forall m, n :: 0 <= m < n < |t.mirrors| ==> t.mirrors[m].proposal != t.mirrors[n].proposal)
    && (forall i :: 0 <= i < |t.steps| ==> t.steps[i].run < |t.runs|)
    && (forall i :: 0 <= i < |t.log| ==> t.log[i].proposal < |t.proposals|)
  }

  /** An approval is pending exactly when its proposal awaits approval; a proposal that awaits approval has one, a
      proposal nobody judged yet has none.  `ex` are the proposals a call in progress has half updated. */
  ghost predicate Linked(t: Tables, ex: set<nat>)
    requires Referenced(t)
  {
    && (forall a :: 0 <= a < |t.approvals| && t.approvals[a].proposal !in ex ==>
          var status := t.proposals[t.approvals[a].proposal].status;
          && (t.approvals[a].status.Pending? <==> status.Awaiting?)
          && !status.PendingAuto?)
    && (forall i: nat :: i < |t.proposals| && i !in ex && t.proposals[i].status.Awaiting? ==> HasApproval(t, i))
  }

  predicate Matches(m: MirrorStatus, p: ProposalStatus) {
    match m
    case MirrorSubmitted => p.Submitted?
    case MirrorFilled => p.Done?
    case MirrorClosed(_) => p.Rejected?
  }

  /** A proposal has a mirror exactly when the broker accepted its order, and their statuses agree. */
  ghost predicate Mirrored(t: Tables, ex: set<nat>)
    requires Referenced(t)
  {
    && (forall m :: 0 <= m < |t.mirrors| && t.mirrors[m].proposal !in ex ==>
          Matches(t.mirrors[m].status, t.proposals[t.mirrors[m].proposal].status))
    && (forall i: nat :: i < |t.proposals| && i !in ex ==>
          && (HasMirror(t, i) <==> WasAccepted(t.log, i))
          && (t.proposals[i].status.Submitted? || t.proposals[i].status.Done? ==> HasMirror(t, i)))
  }

  predicate NoProposals(t: Tables, run: nat) {
    forall i :: 0 <= i < |t.proposals| ==> t.proposals[i].run != run
  }

  /** What the status of a run at rest says about its rows. */
  predicate RunAtRest(env: Env, t: Tables, run: nat)
    requires run < |t.runs|
  {
    match t.runs[run].status
    case Created => false
    case AtAgent(_) => false
    case AwaitingApproval => HasAwaiting(t, run)
    case Executed => !HasAwaiting(t, run)
    case Cancelled => !HasAwaiting(t, run)
    case AwaitingAgentInput => PausedAt(env.chain, RowsOf(t.steps, run)) && NoProposals(t, run)
    case Failed => true
  }

  ghost predicate OthersAtRest(env: Env, t: Tables, busy: Option<nat>) {
    forall r: nat :: r < |t.runs| && busy != Some(r) ==> RunAtRest(env, t, r)
  }

  ghost predicate Coherent(env: Env, t: Tables) {
    Referenced(t) && Linked(t, {}) && Mirrored(t, {}) && OthersAtRest(env, t, None)
  }

  /* ------------------------------------------------------------------ the same, in the middle of a call */

  /** The run a call in progress works on. */
  function BusyRun(p: Proc): Option<nat> {
    match p
    case Prelude(job) => Some(job.run)
    case Entering(job) => Some(job.run)
    case Calling(job) => Some(job.run)
    case Inserting(job) => Some(job.run)
    case Parking(run) => Some(run)
    case ResumeFailed(run, _) => Some(run)
    case Asking(run, _, _, _) => Some(run)
    case Resumed(run, _, _, _) => Some(run)
    case Reloading(run, _, _, _) => Some(run)
    case Looping(l) => Some(l.run)
    case Queueing(l, _) => Some(l.run)
    case Aborting(run, _) => Some(run)
    case Settling(run) => Some(run)
    case Failing(run) => Some(run)
    case Refusing(_, caller) => Some(CallerRun(caller))
    case Mirroring(_, caller) => Some(CallerRun(caller))
    case Marking(_, _, caller) => Some(CallerRun(caller))
    case Polling(_, _, _, caller) => Some(CallerRun(caller))
    case Closing(_, _, caller) => Some(CallerRun(caller))
    case Returning(_, _, caller) => Some(CallerRun(caller))
    case Dispatching(_, run, _) => Some(run)
    case Refreshing(run) => Some(run)
    case Withdrawing(run, _) => Some(run)
    case Revoking(run, _) => Some(run)
    case MarkingCancelled(run) => Some(run)
    case _ => None
  }

  function CallerRun(caller: Caller): nat {
    match caller
    case FromLoop(l) => l.run
    case FromDecide(run) => run
  }

  /** Proposals whose approval is out of step: queued but not marked yet, or decided but not submitted yet. */
  function HalfLinked(p: Proc): set<nat> {
    match p
    case Queueing(_, id) => {id}
    case Dispatching(id, _, _) => {id}
    case Refusing(id, caller) => if caller.FromDecide? then {id} else {}
    case Mirroring(id, caller) => if caller.FromDecide? then {id} else {}
    case Marking(id, _, caller) => if caller.FromDecide? then {id} else {}
    case Revoking(_, ids) => ids
    case _ => {}
  }

  /** Proposals whose mirror is out of step. */
  function HalfMirrored(p: Proc): set<nat> {
    match p
    case Mirroring(id, _) => {id}
    case Marking(id, _, _) => {id}
    case Closing(id, _, _) => {id}
    case _ => {}
  }

  /** A run walking the chain: its rows so far are ok, rebuild its outputs, and it has no proposals. */
  predicate JobSound(env: Env, t: Tables, job: Job) {
    var rows := RowsOf(t.steps, job.run);
    && job.run < |t.runs|
    && WalkedTo(env.chain, rows)
    && job.rest == env.chain[|rows|..]
    && FoldRows(rows) == Some(job.prior)
    && NoProposals(t, job.run)
  }

  /** The proposal loop: what is left was not judged yet, and `queued` tells whether the run awaits approval. */
  ghost predicate LoopCoherent(t: Tables, l: Loop) {
    && l.run < |t.runs|
    && Distinct(l.todo)
    && (forall i :: 0 <= i < |l.todo| ==>
          && l.todo[i] < |t.proposals|
          && t.proposals[l.todo[i]].run == l.run && t.proposals[l.todo[i]].status.PendingAuto?)
    && (l.queued <==> HasAwaiting(t, l.run))
  }

  predicate BelongsTo(t: Tables, id: nat, run: nat) {
    id < |t.proposals| && run < |t.runs| && t.proposals[id].run == run
  }

  ghost predicate CallerCoherent(t: Tables, caller: Caller, id: nat) {
    && BelongsTo(t, id, CallerRun(caller))
    && (caller.FromLoop? ==> LoopCoherent(t, caller.loop) && id !in caller.loop.todo)
  }

  /** Status of a proposal whose order is being sent: judged by the loop or approved by a person. */
  ghost predicate Sendable(t: Tables, id: nat, caller: Caller)
    requires id < |t.proposals|
  {
    match caller
    case FromLoop(_) => t.proposals[id].status.PendingAuto? && !HasApproval(t, id)
    case FromDecide(_) => t.proposals[id].status.Awaiting? && NoPendingFor(t, id)
  }

  predicate AllWithdrawn(t: Tables, run: nat, ids: set<nat>) {
    forall i :: i in ids ==> BelongsTo(t, i, run) && t.proposals[i].status.Withdrawn?
  }

  ghost predicate Local(env: Env, t: Tables, p: Proc) {
    match p
    case Prelude(job) => JobSound(env, t, job)
    case Entering(job) => JobSound(env, t, job)
    case Calling(job) => JobSound(env, t, job) && job.rest != []
    case Inserting(job) => JobSound(env, t, job) && job.rest == []
    case Parking(run) => run < |t.runs| && PausedAt(env.chain, RowsOf(t.steps, run)) && NoProposals(t, run)
    case ResumeFailed(run, _) => run < |t.runs|
    case Asking(run, agent, _, _) => AskingSound(env, t, run, agent)
    case Resumed(run, agent, _, _) => ResumedSound(env, t, run, agent)
    case Reloading(run, agent, _, _) => ResumedSound(env, t, run, agent)
    case Looping(l) => LoopCoherent(t, l)
    case Queueing(l, id) =>
      && LoopCoherent(t, l) && BelongsTo(t, id, l.run) && id !in l.todo
      && t.proposals[id].status.PendingAuto?
      && exists a :: 0 <= a < |t.approvals| && t.approvals[a].proposal == id && t.approvals[a].status.Pending?
    case Aborting(run, _) => run < |t.runs|
    case Settling(run) => run < |t.runs|
    case Failing(run) => run < |t.runs|
    case Refusing(id, caller) => CallerCoherent(t, caller, id) && Sendable(t, id, caller)
    case Mirroring(id, caller) =>
      CallerCoherent(t, caller, id) && Sendable(t, id, caller) && !HasMirror(t, id) && WasAccepted(t.log, id)
    case Marking(id, m, caller) =>
      && CallerCoherent(t, caller, id) && Sendable(t, id, caller) && WasAccepted(t.log, id)
      && m < |t.mirrors| && t.mirrors[m].proposal == id && t.mirrors[m].status.MirrorSubmitted?
    case Polling(id, m, _, caller) =>
      && CallerCoherent(t, caller, id) && t.proposals[id].status.Submitted? && NoPendingFor(t, id)
      && m < |t.mirrors| && t.mirrors[m].proposal == id && t.mirrors[m].status.MirrorSubmitted?
    case Closing(id, filled, caller) =>
      && CallerCoherent(t, caller, id) && t.proposals[id].status.Submitted? && NoPendingFor(t, id)
      && WasAccepted(t.log, id)
      && exists m :: 0 <= m < |t.mirrors| && t.mirrors[m].proposal == id
                  && (if filled then t.mirrors[m].status.MirrorFilled? else t.mirrors[m].status.MirrorClosed?)
    case Returning(_, _, caller) =>
      && CallerRun(caller) < |t.runs| && (caller.FromLoop? ==> LoopCoherent(t, caller.loop))
    case Dispatching(id, run, _) => BelongsTo(t, id, run) && Sendable(t, id, FromDecide(run))
    case Refreshing(run) => run < |t.runs|
    case Withdrawing(run, ids) => run < |t.runs| && ids == AwaitingIds(t, run)
    case Revoking(run, ids) => run < |t.runs| && !HasAwaiting(t, run) && AllWithdrawn(t, run, ids)
    case MarkingCancelled(run) => run < |t.runs| && !HasAwaiting(t, run)
    case _ => true
  }

  /** A paused run whose agent is being asked again. */
  predicate AskingSound(env: Env, t: Tables, run: nat, agent: string) {
    && run < |t.runs| && t.runs[run].status.AwaitingAgentInput?
    && PausedAt(env.chain, RowsOf(t.steps, run)) && agent == PausedAgent(RowsOf(t.steps, run))
    && NoProposals(t, run)
  }

  /** A paused run whose agent has just answered. */
  predicate ResumedSound(env: Env, t: Tables, run: nat, agent: string) {
    var rows := RowsOf(t.steps, run);
    && run < |t.runs|
    && rows != [] && WalkedTo(env.chain, rows) && PausedAgent(rows) == agent
    && NoProposals(t, run)
  }

  ghost predicate Mid(env: Env, t: Tables, p: Proc) {
    && Referenced(t)
    && Linked(t, HalfLinked(p))
    && Mirrored(t, HalfMirrored(p))
    && OthersAtRest(env, t, BusyRun(p))
    && Local(env, t, p)
  }

  lemma RestIsMid(env: Env, t: Tables, p: Proc)
    requires Coherent(env, t) && (IsEntry(p) || p.Finished?)
    ensures Mid(env, t, p)
  {
  }
}
