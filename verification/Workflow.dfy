/** The trading workflow as tables and processes.

    Every table is a sequence of rows indexed by id; rows are added and updated, never deleted.  A call in progress
    is a `Proc`, and `Step` performs its next database write or its next call to an agent or the broker.  A serial
    call is `RunToEnd`; concurrent calls are interleaved `Step`s (module Interleaving).  `Env` is the outside world:
    its answers depend on the clock, which ticks at every question, so it may answer each one as it likes. */
module Workflow {
  import opened Common
  import opened Risk
  import opened Gate

  /* ------------------------------------------------------------------ tables */

  datatype RunStatus =
    Created | AtAgent(name: string) | AwaitingAgentInput | AwaitingApproval | Executed | Failed | Cancelled

  datatype ProposalStatus = PendingAuto | Awaiting | Submitted | Done | Rejected | Withdrawn

  datatype ApprovalStatus = Pending | Approved | Declined | Revoked

  datatype StepStatus = StepOk | StepFailed | StepInterrupted

  /** Status of the local mirror of a broker order. */
  datatype MirrorStatus = MirrorSubmitted | MirrorFilled | MirrorClosed(reason: string)

  /** `explicit` is the mode the run was started with, if one was given, `mode` the one it got, and `startedAt` the
      clock at which its strategy was read; all three are kept as history. */
  datatype Run = Run(status: RunStatus, strategy: Option<nat>, explicit: Option<Mode>, mode: Mode, startedAt: nat)

  datatype Proposal = Proposal(run: nat, draft: Draft, status: ProposalStatus, reasons: seq<string>)

  /** `hold` is the watchlist map of the loop that queued the proposal and `batch` what that loop inserted; both are
      kept as history. */
  datatype Approval = Approval(proposal: nat, status: ApprovalStatus, reasons: seq<string>, hold: map<string, bool>,
        batch: nat)

  datatype Mirror = Mirror(proposal: nat, qty: real, status: MirrorStatus, fillPrice: real, notional: real)

  datatype Field = Absent | Value(text: string) | Garbled

  /** The parts of an agent's reply that later agents see. */
  datatype Envelope = Envelope(result: Field, handoff: Field, memory: Field)

  datatype StepRow = StepRow(run: nat, step: string, status: StepStatus, payload: Envelope)

  /** How a call came by its execution mode: given when the run started, or resolved again on a resume. */
  datatype Origin = Started | ResumedAt(clock: nat)

  /** History of one insertion: the proposals `first`, `first + 1`, ... that a run's portfolio agent made, and when. */
  datatype Batch = Batch(run: nat, mode: Mode, origin: Origin, clock: nat, first: nat, drafts: seq<Draft>)

  /** Why an order was sent. `readAt` is when the portfolio state was read. */
  datatype Authority =
    | ByGate(batch: nat, mode: Mode, hold: map<string, bool>, marks: map<string, real>, state: PortfolioState,
          readAt: nat)
    | ByApproval(approval: nat)

  /** One `SubmitOrder` call as the broker saw it. */
  datatype Submission = Submission(proposal: nat, authority: Authority, accepted: bool, at: nat)

  datatype Tables = Tables(
    runs: seq<Run>,
    proposals: seq<Proposal>,
    approvals: seq<Approval>,
    mirrors: seq<Mirror>,
    steps: seq<StepRow>,
    log: seq<Submission>,
    batches: seq<Batch>,
    clock: nat)

  /* ------------------------------------------------------------------ the outside world */

  datatype AgentReply = CallFails | BadEnvelope | Interrupted(envelope: Envelope) | Replies(envelope: Envelope)

  datatype BrokerOrder = BrokerOrder(status: string, filledQty: real, filledAvgPrice: real)

  datatype SubmitReply = Refused | Accepted

  const BROKER_SYNC_TIMEOUT := 15000
  const BROKER_SYNC_POLL_INTERVAL := 250

  /** An order is polled at once and then after each wait; this many waits outlast the deadline. */
  const MAX_WAITS: nat := BROKER_SYNC_TIMEOUT / BROKER_SYNC_POLL_INTERVAL + 1

  datatype Env = Env(
    chain: seq<string>,
    engine: Engine,
    hasBroker: bool,
    strategyMode: (nat, nat) -> Option<Option<Mode>>,
    preludeOk: nat -> bool,
    agentUrlOk: nat -> bool,
    agent: nat -> AgentReply,
    parseDrafts: string -> Option<seq<Draft>>,
    brokerMarks: nat -> map<string, real>,
    portfolio: nat -> Option<PortfolioState>,
    watchlist: nat -> Option<map<string, bool>>,
    submit: nat -> SubmitReply,
    getOrder: nat -> Option<BrokerOrder>,
    late: nat -> bool,
    stopped: nat -> bool,
    accountOk: nat -> bool,
    brokerPrices: nat -> bool)

  /* ------------------------------------------------------------------ processes */

  /** A run walking the agent chain: the agents still to call and the outputs collected so far.  A resumed run
      loads the account only after the chain. */
  datatype Job = Job(run: nat, mode: Mode, rest: seq<string>, prior: map<string, string>, origin: Origin)

  /** The proposal loop: proposals still to handle and its loop variables. */
  datatype Loop = Loop(run: nat, mode: Mode, hold: map<string, bool>, marks: map<string, real>,
                       state: PortfolioState, todo: seq<nat>, queued: bool, anyFill: bool, batch: nat, readAt: nat)

  /** Where a submission returns to. */
  datatype Caller = FromLoop(loop: Loop) | FromDecide(run: nat)

  datatype Proc =
    | Finished
    // RunWorkflow and ResumeAgent
    | Starting(strategy: Option<nat>, explicit: Option<Mode>)
    | Prelude(job: Job)
    | Entering(job: Job)
    | Calling(job: Job)
    | Parking(run: nat)
    | Resuming(run: nat, agent: string)
    | Asking(run: nat, agent: string, mode: Mode, at: nat)
    | ResumeFailed(run: nat, agent: string)
    | Resumed(run: nat, agent: string, mode: Mode, at: nat)
    | Reloading(run: nat, agent: string, mode: Mode, at: nat)
    | Inserting(job: Job)
    | Looping(loop: Loop)
    | Queueing(loop: Loop, proposal: nat)
    | Aborting(run: nat, anyFill: bool)
    | Settling(run: nat)
    | Failing(run: nat)
    // SubmitProposal, after the broker's answer
    | Refusing(proposal: nat, caller: Caller)
    | Mirroring(proposal: nat, caller: Caller)
    | Marking(proposal: nat, mirror: nat, caller: Caller)
    | Polling(proposal: nat, mirror: nat, waits: nat, caller: Caller)
    | Closing(proposal: nat, filled: bool, caller: Caller)
    | Returning(ok: bool, filled: bool, caller: Caller)
    // Decide
    | Deciding(approval: nat, approve: bool)
    | Dispatching(proposal: nat, run: nat, approval: nat)
    | Refreshing(run: nat)
    // CancelRun
    | Cancelling(run: nat)
    | Withdrawing(run: nat, ids: set<nat>)
    | Revoking(run: nat, ids: set<nat>)
    | MarkingCancelled(run: nat)

  /* ------------------------------------------------------------------ table updates */

  function Tick(t: Tables): Tables {
    t.(clock := t.clock + 1)
  }

  function SetRun(t: Tables, run: nat, status: RunStatus): Tables {
    if run < |t.runs| then t.(runs := t.runs[run := t.runs[run].(status := status)]) else t
  }

  function SetProposal(t: Tables, id: nat, status: ProposalStatus): Tables {
    if id < |t.proposals| then t.(proposals := t.proposals[id := t.proposals[id].(status := status)]) else t
  }

  function RejectProposal(t: Tables, id: nat, reasons: seq<string>): Tables {
    if id < |t.proposals| then
      t.(proposals := t.proposals[id := t.proposals[id].(status := Rejected, reasons := reasons)])
    else t
  }

  function SetApproval(t: Tables, id: nat, status: ApprovalStatus): Tables {
    if id < |t.approvals| then t.(approvals := t.approvals[id := t.approvals[id].(status := status)]) else t
  }

  function SetMirror(t: Tables, id: nat, m: Mirror): Tables {
    if id < |t.mirrors| then t.(mirrors := t.mirrors[id := m]) else t
  }

  function AddStep(t: Tables, run: nat, step: string, status: StepStatus, payload: Envelope): Tables {
    t.(steps := t.steps + [StepRow(run, step, status, payload)])
  }

  function UpdateRows(steps: seq<StepRow>, run: nat, step: string, status: StepStatus,
        payload: Envelope): seq<StepRow> {
    seq(|steps|, i requires 0 <= i < |steps| =>
      if steps[i].run == run && steps[i].step == step then steps[i].(status := status, payload := payload)
      else steps[i])
  }

  /** `UPDATE ... WHERE run_id = ? AND step = ?`: every row of that run and step. */
  function UpdateStep(t: Tables, run: nat, step: string, status: StepStatus, payload: Envelope): Tables {
    t.(steps := UpdateRows(t.steps, run, step, status, payload))
  }

  const NOTHING := Envelope(Absent, Absent, Absent)

  /** Cancel the proposals of a run that no iteration reached. */
  function WithdrawOrphans(t: Tables, run: nat): Tables {
    t.(proposals := seq(|t.proposals|, i requires 0 <= i < |t.proposals| =>
        if t.proposals[i].run == run && t.proposals[i].status.PendingAuto?
        then t.proposals[i].(status := Withdrawn) else t.proposals[i]))
  }

  function WithdrawAll(t: Tables, ids: set<nat>): Tables {
    t.(proposals := seq(|t.proposals|, i requires 0 <= i < |t.proposals| =>
        if i in ids then t.proposals[i].(status := Withdrawn) else t.proposals[i]))
  }

  function RevokeAll(t: Tables, ids: set<nat>): Tables {
    t.(approvals := seq(|t.approvals|, i requires 0 <= i < |t.approvals| =>
        if t.approvals[i].proposal in ids && t.approvals[i].status.Pending?
        then t.approvals[i].(status := Revoked) else t.approvals[i]))
  }

  /** Some approval of the run is pending (joined through its proposal). */
  predicate HasPending(t: Tables, run: nat) {
    exists a :: 0 <= a < |t.approvals| && t.approvals[a].status.Pending?
             && t.approvals[a].proposal < |t.proposals| && t.proposals[t.approvals[a].proposal].run == run
  }

  predicate HasAwaiting(t: Tables, run: nat) {
    exists p :: 0 <= p < |t.proposals| && t.proposals[p].run == run && t.proposals[p].status.Awaiting?
  }

  function AwaitingIds(t: Tables, run: nat): set<nat> {
    set p: nat | p < |t.proposals| && t.proposals[p].run == run && t.proposals[p].status.Awaiting?
  }

  /* ------------------------------------------------------------------ the agent chain */

  const HANDOFF := "analyst_handoff"
  const MEMORY := "analyst_working_memory"
  const ANALYST := "analyst"
  const PORTFOLIO := "portfolio"

  /** Adds one envelope to the outputs later agents see; None when it has no readable result. */
  function ApplyEnvelope(step: string, e: Envelope, prior: map<string, string>): Option<map<string, string>> {
    if !e.result.Value? then None
    else
      var p1 := prior[step := e.result.text];
      if step != ANALYST then Some(p1)
      else if e.handoff.Garbled? then None
      else
        var p2 := if e.handoff.Value? then p1[HANDOFF := e.handoff.text] else p1;
        if e.memory.Garbled? then None
        else Some(if e.memory.Value? then p2[MEMORY := e.memory.text] else p2)
  }

  /** The step rows of one run, oldest first. */
  function RowsOf(steps: seq<StepRow>, run: nat): seq<StepRow> {
    if steps == [] then []
    else
      var last := steps[|steps| - 1];
      RowsOf(steps[..|steps| - 1], run) + (if last.run == run then [last] else [])
  }

  /** Folds the ok rows, oldest first. */
  function FoldRows(rows: seq<StepRow>): Option<map<string, string>> {
    if rows == [] then Some(map[])
    else
      var before := FoldRows(rows[..|rows| - 1]);
      var last := rows[|rows| - 1];
      if before.None? || !last.status.StepOk? then before else ApplyEnvelope(last.step, last.payload, before.value)
  }

  /** Outputs rebuilt from the persisted ok steps of a run. */
  function LoadPrior(steps: seq<StepRow>, run: nat): Option<map<string, string>> {
    FoldRows(RowsOf(steps, run))
  }

  /** The agents after `agent` in the chain; None when it is not an agent. */
  function RestAfter(chain: seq<string>, agent: string): Option<seq<string>> {
    if chain == [] then None
    else if chain[0] == agent then Some(chain[1..])
    else RestAfter(chain[1..], agent)
  }

  predicate HasInterrupted(steps: seq<StepRow>, run: nat, agent: string) {
    exists i :: 0 <= i < |steps| && steps[i].run == run && steps[i].step == agent && steps[i].status.StepInterrupted?
  }

  predicate ValidDraft(d: Draft) {
    d.symbol != "" && !d.side.Other?
  }

  /** The portfolio agent's proposals, when its result passes the schema check. */
  function ReadDrafts(env: Env, prior: map<string, string>): Option<seq<Draft>> {
    if PORTFOLIO !in prior then None
    else
      var parsed := env.parseDrafts(prior[PORTFOLIO]);
      if parsed.Some? && forall d :: d in parsed.value ==> ValidDraft(d) then parsed else None
  }

  /** The marks once one more proposal has been looked at. */
  function Completed(marks: map<string, real>, d: Draft): map<string, real> {
    if d.symbol !in marks && d.qty > 0.0 && d.estimatedNotional > 0.0
    then marks[d.symbol := d.estimatedNotional / d.qty] else marks
  }

  /** Where the broker has no price, the agent's own estimate per unit serves as the mark; the first one wins. */
  function AddEstimates(marks: map<string, real>, drafts: seq<Draft>): map<string, real>
    decreases |drafts|
  {
    if drafts == [] then marks
    else AddEstimates(Completed(marks, drafts[0]), drafts[1..])
  }

  function NewProposals(run: nat, drafts: seq<Draft>): seq<Proposal> {
    seq(|drafts|, i requires 0 <= i < |drafts| => Proposal(run, drafts[i], PendingAuto, []))
  }

  function Ids(from: nat, count: nat): seq<nat> {
    seq(count, i => from + i)
  }

  /* ------------------------------------------------------------------ broker order states */

  predicate IsBrokerTerminal(status: string) {
    status in ["filled", "canceled", "cancelled", "rejected", "expired"]
  }

  /** The mirror row once the broker reports a terminal state. */
  function CloseMirror(m: Mirror, o: BrokerOrder): Mirror {
    if o.status == "filled" then
      var qty := if o.filledQty > 0.0 then o.filledQty else m.qty;
      m.(status := MirrorFilled, fillPrice := o.filledAvgPrice, notional := qty * o.filledAvgPrice, qty := qty)
    else
      m.(status := MirrorClosed(if o.status == "cancelled" then "canceled" else o.status))
  }

  const REFUSED := ["broker: submit order failed"]

  /* ------------------------------------------------------------------ one step */

  /** `SubmitOrder` for one proposal: the broker's log grows and its answer decides what happens next. */
  function Send(env: Env, t: Tables, id: nat, authority: Authority, caller: Caller): (Tables, Proc) {
    var reply := env.submit(t.clock);
    var t1 := Tick(t).(log := t.log + [Submission(id, authority, reply.Accepted?, t.clock)]);
    (t1, if reply.Refused? then Refusing(id, caller) else Mirroring(id, caller))
  }

  function GateAuthority(l: Loop): Authority {
    ByGate(l.batch, l.mode, l.hold, l.marks, l.state, l.readAt)
  }

  /** The call is in the middle of sending one order. */
  predicate Submits(p: Proc) {
    p.Refusing? || p.Mirroring? || p.Marking? || p.Polling? || p.Closing? || p.Returning?
  }

  predicate Walks(p: Proc) {
    p.Prelude? || p.Entering? || p.Calling? || p.Parking?
  }

  predicate Resumes(p: Proc) {
    p.Resuming? || p.Asking? || p.ResumeFailed? || p.Resumed? || p.Reloading?
  }

  predicate Decides(p: Proc) {
    p.Deciding? || p.Dispatching? || p.Refreshing?
  }

  predicate Cancels(p: Proc) {
    p.Cancelling? || p.Withdrawing? || p.Revoking? || p.MarkingCancelled?
  }

  predicate Fails(p: Proc) {
    p.Aborting? || p.Settling? || p.Failing?
  }

  ghost function StepLoop(env: Env, t: Tables, l: Loop): (Tables, Proc) {
    if l.todo == [] then
      (SetRun(t, l.run, if l.queued then AwaitingApproval else Executed), Finished)
    else
      var id := l.todo[0];
      var rest := l.(todo := l.todo[1..]);
      if id >= |t.proposals| then (t, Aborting(l.run, l.anyFill))
      else
        match VerdictOf(env.engine, l.mode, l.hold, l.marks, l.state, t.proposals[id].draft)
        case NotHoldable => (RejectProposal(t, id, ["not_holdable"]), Looping(rest))
        case MissingMark => (t, Aborting(l.run, l.anyFill))
        case AutoRejected(breaches) => (RejectProposal(t, id, breaches), Looping(rest))
        case NeedsApproval(breaches) =>
          (t.(approvals := t.approvals + [Approval(id, Pending, breaches, l.hold, l.batch)]), Queueing(rest, id))
        case Skipped => (t, Looping(rest))
        case Submit =>
          if !env.hasBroker then (t, Aborting(l.run, l.anyFill))
          else Send(env, t, id, GateAuthority(l), FromLoop(rest))
  }

  function StepChain(env: Env, t: Tables, p: Proc): (Tables, Proc)
    requires Walks(p)
  {
    match p
    case Prelude(job) =>
      (Tick(t), if env.preludeOk(t.clock) then Entering(job) else Failing(job.run))
    case Entering(job) =>
      if job.rest == [] then (t, Inserting(job))
      else (SetRun(t, job.run, AtAgent(job.rest[0])), Calling(job))
    case Calling(job) =>
      if job.rest == [] || !env.agentUrlOk(t.clock) then (Tick(t), Failing(job.run))
      else
        var name := job.rest[0];
        (match env.agent(t.clock)
         case CallFails => (AddStep(Tick(t), job.run, name, StepFailed, NOTHING), Failing(job.run))
         case BadEnvelope => (Tick(t), Failing(job.run))
         case Interrupted(e) => (AddStep(Tick(t), job.run, name, StepInterrupted, e), Parking(job.run))
         case Replies(e) =>
           var prior := ApplyEnvelope(name, e, job.prior);
           (AddStep(Tick(t), job.run, name, StepOk, e),
            if prior.Some? then Entering(job.(rest := job.rest[1..], prior := prior.value)) else Failing(job.run)))
    case Parking(run) => (SetRun(t, run, AwaitingAgentInput), Finished)
  }

  function StepResume(env: Env, t: Tables, p: Proc): (Tables, Proc)
    requires Resumes(p)
  {
    match p
    case Resuming(run, agent) =>
      if run >= |t.runs| || !t.runs[run].status.AwaitingAgentInput? then (t, Finished)
      else if RestAfter(env.chain, agent).None? then (t, Finished)
      else if !HasInterrupted(t.steps, run, agent) then (t, Finished)
      else
        var mode := ResolveMode(env, t.clock, None, t.runs[run].strategy);
        (Tick(t), if mode.None? || !env.agentUrlOk(t.clock) then Finished else Asking(run, agent, mode.value, t.clock))
    case Asking(run, agent, mode, at) =>
      (match env.agent(t.clock)
       case CallFails => (UpdateStep(Tick(t), run, agent, StepFailed, NOTHING), ResumeFailed(run, agent))
       case BadEnvelope => (Tick(t), ResumeFailed(run, agent))
       case Interrupted(e) => (UpdateStep(Tick(t), run, agent, StepInterrupted, e), Finished)
       case Replies(e) => (UpdateStep(Tick(t), run, agent, StepOk, e), Resumed(run, agent, mode, at)))
    case ResumeFailed(run, agent) => (SetRun(t, run, Failed), Finished)
    case Resumed(run, agent, mode, at) => (SetRun(t, run, AtAgent(agent)), Reloading(run, agent, mode, at))
    case Reloading(run, agent, mode, at) =>
      var prior := LoadPrior(t.steps, run);
      var rest := RestAfter(env.chain, agent);
      if prior.None? || rest.None? || !env.preludeOk(t.clock) then (Tick(t), Failing(run))
      else (Tick(t), Entering(Job(run, mode, rest.value, prior.value, ResumedAt(at))))
  }

  function StepInsert(env: Env, t: Tables, job: Job): (Tables, Proc) {
    var drafts := ReadDrafts(env, job.prior);
    if drafts.None? || (job.origin.ResumedAt? && !env.accountOk(t.clock)) then (Tick(t), Failing(job.run))
    else
      var batch := Batch(job.run, job.mode, job.origin, t.clock, |t.proposals|, drafts.value);
      var t1 := Tick(t).(proposals := t.proposals + NewProposals(job.run, drafts.value),
                         batches := t.batches + [batch]);
      var marks := AddEstimates(env.brokerMarks(t.clock), drafts.value);
      var state, hold := env.portfolio(t.clock), env.watchlist(t.clock);
      if state.None? || hold.None? then (t1, Failing(job.run))
      else
        (t1, Looping(Loop(job.run, job.mode, hold.value, marks, state.value,
                          Ids(|t.proposals|, |drafts.value|), false, false, |t.batches|, t.clock)))
  }

  function StepSubmit(env: Env, t: Tables, p: Proc): (Tables, Proc)
    requires Submits(p)
  {
    match p
    case Refusing(id, caller) =>
      (RejectProposal(t, id, REFUSED),
       match caller case FromLoop(l) => Looping(l) case FromDecide(run) => Refreshing(run))
    case Mirroring(id, caller) =>
      var qty := if id < |t.proposals| then t.proposals[id].draft.qty else 0.0;
      (t.(mirrors := t.mirrors + [Mirror(id, qty, MirrorSubmitted, 0.0, 0.0)]), Marking(id, |t.mirrors|, caller))
    case Marking(id, m, caller) => (SetProposal(t, id, Submitted), Polling(id, m, MAX_WAITS, caller))
    case Polling(id, m, waits, caller) =>
      var order := env.getOrder(t.clock);
      if order.None? then (Tick(t), Returning(false, false, caller))
      else if IsBrokerTerminal(order.value.status) then
        (Tick(if m < |t.mirrors| then SetMirror(t, m, CloseMirror(t.mirrors[m], order.value)) else t),
         Closing(id, order.value.status == "filled", caller))
      else
        (Tick(t), if waits == 0 || env.late(t.clock) then Returning(true, false, caller)
                  else if env.stopped(t.clock) then Returning(false, false, caller)
                  else Polling(id, m, waits - 1, caller))
    case Closing(id, filled, caller) =>
      (SetProposal(t, id, if filled then Done else Rejected), Returning(true, filled, caller))
    case Returning(ok, filled, caller) =>
      match caller
      case FromDecide(run) => (t, Refreshing(run))
      case FromLoop(l) =>
        if !ok then (t, Aborting(l.run, l.anyFill))
        else
          var anyFill := l.anyFill || filled;
          var state := env.portfolio(t.clock);
          (Tick(t), if state.None? then Aborting(l.run, anyFill)
                    else Looping(l.(anyFill := anyFill, state := state.value, readAt := t.clock)))
  }

  function StepDecide(env: Env, t: Tables, p: Proc): (Tables, Proc)
    requires Decides(p)
  {
    match p
    case Deciding(a, approve) =>
      if approve && !env.hasBroker then (t, Finished)
      else if a >= |t.approvals| || !t.approvals[a].status.Pending? then (t, Finished)
      else
        var id := t.approvals[a].proposal;
        if id >= |t.proposals| || !t.proposals[id].status.Awaiting? then (t, Finished)
        else
          var run := t.proposals[id].run;
          if run >= |t.runs| then (t, Finished)
          else if approve then
            if !env.accountOk(t.clock) then (Tick(t), Finished)
            else (SetApproval(Tick(t), a, Approved), Dispatching(id, run, a))
          else (SetProposal(SetApproval(t, a, Declined), id, Rejected), Refreshing(run))
    case Dispatching(id, run, a) => Send(env, t, id, ByApproval(a), FromDecide(run))
    case Refreshing(run) =>
      (SetRun(t, run, if HasPending(t, run) || HasAwaiting(t, run) then AwaitingApproval else Executed), Finished)
  }

  /** A price exists for the run's NAV: from the broker, or from some proposal's own estimate. */
  predicate SomePrice(env: Env, t: Tables, run: nat) {
    env.brokerPrices(t.clock) ||
    exists p :: 0 <= p < |t.proposals| && t.proposals[p].run == run
             && t.proposals[p].draft.qty > 0.0 && t.proposals[p].draft.estimatedNotional > 0.0
  }

  function StepCancel(env: Env, t: Tables, p: Proc): (Tables, Proc)
    requires Cancels(p)
  {
    match p
    case Cancelling(run) =>
      if run >= |t.runs| || !t.runs[run].status.AwaitingApproval? then (t, Finished)
      else if !SomePrice(env, t, run) then (Tick(t), Finished)
      else
        var ids := AwaitingIds(t, run);
        (Tick(t), if ids == {} then MarkingCancelled(run) else Withdrawing(run, ids))
    case Withdrawing(run, ids) => (WithdrawAll(t, ids), Revoking(run, ids))
    case Revoking(run, ids) => (RevokeAll(t, ids), MarkingCancelled(run))
    case MarkingCancelled(run) => (SetRun(t, run, Cancelled), Finished)
  }

  function StepFailure(t: Tables, p: Proc): (Tables, Proc)
    requires Fails(p)
  {
    match p
    case Aborting(run, anyFill) => if anyFill then (WithdrawOrphans(t, run), Settling(run)) else (t, Failing(run))
    case Settling(run) =>
      (SetRun(t, run, if HasPending(t, run) || HasAwaiting(t, run) then AwaitingApproval else Failed), Finished)
    case Failing(run) => (SetRun(t, run, Failed), Finished)
  }

  /** An explicit mode wins, then the strategy's if it has one, then approval; None if the strategy cannot be loaded. */
  function ResolveMode(env: Env, clock: nat, explicit: Option<Mode>, strategy: Option<nat>): Option<Mode> {
    if explicit.Some? then explicit
    else if strategy.Some? then
      var found := env.strategyMode(clock, strategy.value);
      if found.None? then None else Some(found.value.GetOr(RequireApproval))
    else Some(RequireApproval)
  }

  /** A run is created once its mode is known. */
  function StepStart(env: Env, t: Tables, strategy: Option<nat>, explicit: Option<Mode>): (Tables, Proc) {
    var mode := ResolveMode(env, t.clock, explicit, strategy);
    if mode.None? then (Tick(t), Finished)
    else
      (Tick(t).(runs := t.runs + [Run(Created, strategy, explicit, mode.value, t.clock)]),
       Prelude(Job(|t.runs|, mode.value, env.chain, map[], Started)))
  }

  /** The next step of a call in progress. */
  ghost function Step(env: Env, t: Tables, p: Proc): (Tables, Proc) {
    if p.Starting? then StepStart(env, t, p.strategy, p.explicit)
    else if Walks(p) then StepChain(env, t, p)
    else if Resumes(p) then StepResume(env, t, p)
    else if p.Inserting? then StepInsert(env, t, p.job)
    else if p.Looping? then StepLoop(env, t, p.loop)
    else if p.Queueing? then (SetProposal(t, p.proposal, Awaiting), Looping(p.loop.(queued := true)))
    else if Submits(p) then StepSubmit(env, t, p)
    else if Decides(p) then StepDecide(env, t, p)
    else if Cancels(p) then StepCancel(env, t, p)
    else if Fails(p) then StepFailure(t, p)
    else (t, Finished)
  }

  /* ------------------------------------------------------------------ a call run to its end */

  /** Phase of a process; phases only go down. */
  function Phase(p: Proc): nat {
    match p
    case Finished => 0
    case Failing(_) => 1
    case Refreshing(_) => 1
    case MarkingCancelled(_) => 1
    case ResumeFailed(_, _) => 1
    case Parking(_) => 1
    case Settling(_) => 2
    case Revoking(_, _) => 2
    case Aborting(_, _) => 3
    case Withdrawing(_, _) => 3
    case Looping(_) => 4
    case Queueing(_, _) => 4
    case Refusing(_, _) => 4
    case Mirroring(_, _) => 4
    case Marking(_, _, _) => 4
    case Polling(_, _, _, _) => 4
    case Closing(_, _, _) => 4
    case Returning(_, _, _) => 4
    case Dispatching(_, _, _) => 5
    case Cancelling(_) => 5
    case Inserting(_) => 5
    case Entering(_) => 6
    case Calling(_) => 6
    case Deciding(_, _) => 6
    case Prelude(_) => 7
    case Reloading(_, _, _, _) => 7
    case Starting(_, _) => 8
    case Resumed(_, _, _, _) => 8
    case Asking(_, _, _, _) => 9
    case Resuming(_, _) => 10
  }

  function TodoOf(caller: Caller): nat {
    match caller
    case FromLoop(l) => |l.todo| + 1
    case FromDecide(_) => 0
  }

  /** Work left inside a phase: agents or proposals still to handle. */
  function Left(p: Proc): nat {
    match p
    case Looping(l) => |l.todo|
    case Queueing(l, _) => |l.todo| + 1
    case Refusing(_, caller) => TodoOf(caller)
    case Mirroring(_, caller) => TodoOf(caller)
    case Marking(_, _, caller) => TodoOf(caller)
    case Polling(_, _, _, caller) => TodoOf(caller)
    case Closing(_, _, caller) => TodoOf(caller)
    case Returning(_, _, caller) => TodoOf(caller)
    case Entering(job) => |job.rest|
    case Calling(job) => |job.rest|
    case _ => 0
  }

  /** Position inside one piece of work. */
  function Rank(p: Proc): nat {
    match p
    case Looping(_) => 9
    case Mirroring(_, _) => 7
    case Marking(_, _, _) => 6
    case Polling(_, _, _, _) => 5
    case Closing(_, _, _) => 4
    case Returning(_, _, _) => 3
    case Entering(_) => 2
    case _ => 1
  }

  /** Waits an order being polled still has before its deadline. */
  function WaitsOf(p: Proc): nat {
    match p
    case Polling(_, _, waits, _) => waits
    case _ => 0
  }

  predicate Earlier(p: Proc, q: Proc) {
    || Phase(q) < Phase(p)
    || (Phase(q) == Phase(p) && Left(q) < Left(p))
    || (Phase(q) == Phase(p) && Left(q) == Left(p) && Rank(q) < Rank(p))
    || (Phase(q) == Phase(p) && Left(q) == Left(p) && Rank(q) == Rank(p) && WaitsOf(q) < WaitsOf(p))
  }

  /** The step of a process, group by group. */
  lemma StepIsGrouped(env: Env, t: Tables, p: Proc)
    ensures p.Looping? ==> Step(env, t, p) == StepLoop(env, t, p.loop)
    ensures p.Inserting? ==> Step(env, t, p) == StepInsert(env, t, p.job)
    ensures Walks(p) ==> Step(env, t, p) == StepChain(env, t, p)
    ensures Resumes(p) ==> Step(env, t, p) == StepResume(env, t, p)
    ensures Submits(p) ==> Step(env, t, p) == StepSubmit(env, t, p)
    ensures Decides(p) ==> Step(env, t, p) == StepDecide(env, t, p)
    ensures Cancels(p) ==> Step(env, t, p) == StepCancel(env, t, p)
    ensures Fails(p) ==> Step(env, t, p) == StepFailure(t, p)
  {
    hide StepLoop, StepInsert, StepSubmit, StepDecide, StepCancel, StepChain, StepResume, StepFailure;
  }

  lemma LoopProgress(env: Env, t: Tables, l: Loop)
    ensures Earlier(Looping(l), StepLoop(env, t, l).1)
  {
    hide VerdictOf;
  }

  lemma SubmitProgress(env: Env, t: Tables, p: Proc)
    requires Submits(p)
    ensures Earlier(p, StepSubmit(env, t, p).1)
  {
    hide CloseMirror, SetMirror, IsBrokerTerminal;
  }

  lemma WalkProgress(env: Env, t: Tables, p: Proc)
    requires Walks(p) || Resumes(p)
    ensures Walks(p) ==> Earlier(p, StepChain(env, t, p).1)
    ensures Resumes(p) ==> Earlier(p, StepResume(env, t, p).1)
  {
    hide ApplyEnvelope, LoadPrior, RestAfter, HasInterrupted;
  }

  lemma OtherProgress(env: Env, t: Tables, p: Proc)
    requires !p.Finished? && !p.Looping? && !Submits(p) && !Walks(p) && !Resumes(p)
    ensures Earlier(p, Step(env, t, p).1)
  {
    hide StepLoop, StepSubmit, StepChain, StepResume, ReadDrafts, AddEstimates, SomePrice;
  }

  /** Every step brings a call closer to its end, whatever the outside world answers. */
  lemma StepProgress(env: Env, t: Tables, p: Proc)
    requires !p.Finished?
    ensures Earlier(p, Step(env, t, p).1)
  {
    hide Step, StepLoop, StepSubmit, StepChain, StepResume, Earlier;
    StepIsGrouped(env, t, p);
    if p.Looping? {
      LoopProgress(env, t, p.loop);
    } else if Submits(p) {
      SubmitProgress(env, t, p);
    } else if Walks(p) || Resumes(p) {
      WalkProgress(env, t, p);
    } else {
      OtherProgress(env, t, p);
    }
  }

  /** A call run to its end. */
  ghost function RunToEnd(env: Env, t: Tables, p: Proc): Tables
    decreases Phase(p), Left(p), Rank(p), WaitsOf(p)
  {
    if p.Finished? then t
    else
      StepProgress(env, t, p);
      var next := Step(env, t, p);
      RunToEnd(env, next.0, next.1)
  }
}
