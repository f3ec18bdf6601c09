/** What a stretch of steps does to the tables, in the terms of the code that takes it. */
module WorkflowSteps {
  import opened Common
  import opened Risk
  import opened Gate
  import opened Workflow

  lemma OneStep(env: Env, t: Tables, p: Proc)
    ensures !p.Finished? ==> RunToEnd(env, t, p) == RunToEnd(env, Step(env, t, p).0, Step(env, t, p).1)
    ensures p.Finished? ==> RunToEnd(env, t, p) == t
  {
    if !p.Finished? {
      StepProgress(env, t, p);
    }
    hide Step;
  }

  /** How submitting one proposal ends: the broker refuses it, polling fails, or it is synced. */
  datatype Submitting = SubmitFailed | SyncFailed | Synced(filled: bool)

  function AfterSubmit(s: Submitting, id: nat, caller: Caller): Proc {
    match s
    case SubmitFailed => Refusing(id, caller)
    case SyncFailed => Returning(false, false, caller)
    case Synced(filled) => Returning(true, filled, caller)
  }

  /** The mirror once the broker is done with its order. */
  function Reconciled(t: Tables, m: nat, order: BrokerOrder): Tables {
    if m < |t.mirrors| then SetMirror(t, m, CloseMirror(t.mirrors[m], order)) else t
  }

  function StatusFor(order: BrokerOrder): ProposalStatus {
    if order.status == "filled" then Done else Rejected
  }

  function NewMirror(t: Tables, id: nat): Tables {
    var qty := if id < |t.proposals| then t.proposals[id].draft.qty else 0.0;
    t.(mirrors := t.mirrors + [Mirror(id, qty, MirrorSubmitted, 0.0, 0.0)])
  }

  /** How walking the agent chain ends. */
  datatype Walked = ChainFailed | ChainPaused | ChainDone(prior: map<string, string>)

  function AfterChain(w: Walked, job: Job): Proc {
    match w
    case ChainFailed => Failing(job.run)
    case ChainPaused => Finished
    case ChainDone(prior) => Inserting(job.(rest := [], prior := prior))
  }

  /** The tables and process one step leads to. */
  lemma Leads(env: Env, t: Tables, p: Proc, t': Tables, p': Proc)
    requires !p.Finished? && Step(env, t, p) == (t', p')
    ensures RunToEnd(env, t, p) == RunToEnd(env, t', p')
  {
    hide Step, RunToEnd;
    OneStep(env, t, p);
  }

  lemma ReconciledTicked(t: Tables, m: nat, order: BrokerOrder)
    ensures Tick(Reconciled(t, m, order)) == Reconciled(Tick(t), m, order)
  {
    hide CloseMirror;
  }

  /** An order that is still open: the deadline, the end of the caller's context, or another wait. */
  function StillOpen(env: Env, clock: nat, id: nat, m: nat, waits: nat, caller: Caller): Proc {
    if waits == 0 || env.late(clock) then Returning(true, false, caller)
    else if env.stopped(clock) then Returning(false, false, caller)
    else Polling(id, m, waits - 1, caller)
  }

  lemma PollingSteps(env: Env, t: Tables, id: nat, m: nat, waits: nat, caller: Caller)
    ensures var order := env.getOrder(t.clock);
            && (order.None? ==>
                  RunToEnd(env, t, Polling(id, m, waits, caller))
                        == RunToEnd(env, Tick(t), Returning(false, false, caller)))
            && (order.Some? && !IsBrokerTerminal(order.value.status) ==>
                  RunToEnd(env, t, Polling(id, m, waits, caller))
                  == RunToEnd(env, Tick(t), StillOpen(env, t.clock, id, m, waits, caller)))
  {
    hide RunToEnd, IsBrokerTerminal;
    var order := env.getOrder(t.clock);
    if order.None? {
      Leads(env, t, Polling(id, m, waits, caller), Tick(t), Returning(false, false, caller));
    } else if !IsBrokerTerminal(order.value.status) {
      Leads(env, t, Polling(id, m, waits, caller), Tick(t), StillOpen(env, t.clock, id, m, waits, caller));
    }
  }

  lemma ClosingSteps(env: Env, t: Tables, id: nat, m: nat, waits: nat, caller: Caller)
    requires env.getOrder(t.clock).Some? && IsBrokerTerminal(env.getOrder(t.clock).value.status)
    ensures var order := env.getOrder(t.clock).value;
            RunToEnd(env, t, Polling(id, m, waits, caller))
            == RunToEnd(env, SetProposal(Tick(Reconciled(t, m, order)), id, StatusFor(order)),
                        Returning(true, order.status == "filled", caller))
  {
    hide RunToEnd, IsBrokerTerminal, CloseMirror, SetMirror, SetProposal;
    var order := env.getOrder(t.clock).value;
    var filled := order.status == "filled";
    var t1 := Tick(Reconciled(t, m, order));
    Leads(env, t, Polling(id, m, waits, caller), t1, Closing(id, filled, caller));
    Leads(env, t1, Closing(id, filled, caller), SetProposal(t1, id, StatusFor(order)), Returning(true, filled, caller));
  }

  lemma MirroringSteps(env: Env, t: Tables, id: nat, caller: Caller)
    ensures RunToEnd(env, t, Mirroring(id, caller))
         == RunToEnd(env, SetProposal(NewMirror(t, id), id, Submitted), Polling(id, |t.mirrors|, MAX_WAITS, caller))
  {
    hide RunToEnd, SetProposal;
    var t1 := NewMirror(t, id);
    Leads(env, t, Mirroring(id, caller), t1, Marking(id, |t.mirrors|, caller));
    Leads(env, t1, Marking(id, |t.mirrors|, caller), SetProposal(t1, id, Submitted),
          Polling(id, |t.mirrors|, MAX_WAITS, caller));
  }

  /* ------------------------------------------------------------------ the proposal loop */

  /** The loop once its first proposal is behind it. */
  function Rest(l: Loop): Loop
    requires l.todo != []
  {
    l.(todo := l.todo[1..])
  }

  ghost function FirstVerdict(env: Env, t: Tables, l: Loop): Verdict
    requires l.todo != [] && l.todo[0] < |t.proposals|
  {
    VerdictOf(env.engine, l.mode, l.hold, l.marks, l.state, t.proposals[l.todo[0]].draft)
  }

  lemma LoopRejects(env: Env, t: Tables, l: Loop, reasons: seq<string>)
    requires l.todo != [] && l.todo[0] < |t.proposals|
    requires var v := FirstVerdict(env, t, l);
             (v.NotHoldable? && reasons == ["not_holdable"]) || (v.AutoRejected? && reasons == v.breaches)
    ensures RunToEnd(env, t, Looping(l)) == RunToEnd(env, RejectProposal(t, l.todo[0], reasons), Looping(Rest(l)))
  {
    hide RunToEnd, VerdictOf, RejectProposal;
    Leads(env, t, Looping(l), RejectProposal(t, l.todo[0], reasons), Looping(Rest(l)));
  }

  lemma LoopSkips(env: Env, t: Tables, l: Loop)
    requires l.todo != [] && l.todo[0] < |t.proposals| && FirstVerdict(env, t, l).Skipped?
    ensures RunToEnd(env, t, Looping(l)) == RunToEnd(env, t, Looping(Rest(l)))
  {
    hide RunToEnd, VerdictOf;
    Leads(env, t, Looping(l), t, Looping(Rest(l)));
  }

  lemma LoopAborts(env: Env, t: Tables, l: Loop)
    requires l.todo != [] && l.todo[0] < |t.proposals|
    requires FirstVerdict(env, t, l).MissingMark? || (FirstVerdict(env, t, l).Submit? && !env.hasBroker)
    ensures RunToEnd(env, t, Looping(l)) == RunToEnd(env, t, Aborting(l.run, l.anyFill))
  {
    hide RunToEnd, VerdictOf;
    Leads(env, t, Looping(l), t, Aborting(l.run, l.anyFill));
  }

  function Queued(t: Tables, id: nat, breaches: seq<string>, l: Loop): Tables {
    t.(approvals := t.approvals + [Approval(id, Pending, breaches, l.hold, l.batch)])
  }

  lemma LoopQueues(env: Env, t: Tables, l: Loop)
    requires l.todo != [] && l.todo[0] < |t.proposals| && FirstVerdict(env, t, l).NeedsApproval?
    ensures RunToEnd(env, t, Looping(l))
         == RunToEnd(env, SetProposal(Queued(t, l.todo[0], FirstVerdict(env, t, l).breaches, l), l.todo[0], Awaiting),
                     Looping(Rest(l).(queued := true)))
  {
    var id := l.todo[0];
    var t1 := Queued(t, id, FirstVerdict(env, t, l).breaches, l);
    hide RunToEnd, VerdictOf, SetProposal;
    Leads(env, t, Looping(l), t1, Queueing(Rest(l), id));
    Leads(env, t1, Queueing(Rest(l), id), SetProposal(t1, id, Awaiting), Looping(Rest(l).(queued := true)));
  }

  lemma LoopSends(env: Env, t: Tables, l: Loop)
    requires l.todo != [] && l.todo[0] < |t.proposals| && FirstVerdict(env, t, l).Submit? && env.hasBroker
    ensures var sent := Send(env, t, l.todo[0], GateAuthority(l), FromLoop(Rest(l)));
            RunToEnd(env, t, Looping(l)) == RunToEnd(env, sent.0, sent.1)
  {
    var sent := Send(env, t, l.todo[0], GateAuthority(l), FromLoop(Rest(l)));
    hide RunToEnd, VerdictOf, Send;
    Leads(env, t, Looping(l), sent.0, sent.1);
  }

  /** After a submission the loop rejects a refused proposal, gives up when polling failed, or reads its state again. */
  lemma LoopAfterRefusal(env: Env, t: Tables, id: nat, l: Loop)
    ensures RunToEnd(env, t, AfterSubmit(SubmitFailed, id, FromLoop(l)))
         == RunToEnd(env, RejectProposal(t, id, REFUSED), Looping(l))
  {
    hide RunToEnd, RejectProposal;
    Leads(env, t, Refusing(id, FromLoop(l)), RejectProposal(t, id, REFUSED), Looping(l));
  }

  lemma LoopAfterSyncFailure(env: Env, t: Tables, id: nat, l: Loop)
    ensures RunToEnd(env, t, AfterSubmit(SyncFailed, id, FromLoop(l))) == RunToEnd(env, t, Aborting(l.run, l.anyFill))
  {
    hide RunToEnd;
    Leads(env, t, Returning(false, false, FromLoop(l)), t, Aborting(l.run, l.anyFill));
  }

  function AfterSync(env: Env, t: Tables, filled: bool, l: Loop): Proc {
    var state := env.portfolio(t.clock);
    if state.None? then Aborting(l.run, l.anyFill || filled)
    else Looping(l.(anyFill := l.anyFill || filled, state := state.value, readAt := t.clock))
  }

  lemma LoopAfterSync(env: Env, t: Tables, filled: bool, id: nat, l: Loop)
    ensures RunToEnd(env, t, AfterSubmit(Synced(filled), id, FromLoop(l)))
         == RunToEnd(env, Tick(t), AfterSync(env, t, filled, l))
  {
    hide RunToEnd;
    Leads(env, t, Returning(true, filled, FromLoop(l)), Tick(t), AfterSync(env, t, filled, l));
  }

  lemma LoopEnds(env: Env, t: Tables, l: Loop)
    requires l.todo == []
    ensures RunToEnd(env, t, Looping(l)) == SetRun(t, l.run, if l.queued then AwaitingApproval else Executed)
  {
    hide RunToEnd, SetRun;
    var t1 := SetRun(t, l.run, if l.queued then AwaitingApproval else Executed);
    Leads(env, t, Looping(l), t1, Finished);
    OneStep(env, t1, Finished);
  }

  /* ------------------------------------------------------------------ failing */

  function AfterPartialFill(t: Tables, run: nat): Tables {
    SetRun(t, run, if HasPending(t, run) || HasAwaiting(t, run) then AwaitingApproval else Failed)
  }

  lemma AbortEnds(env: Env, t: Tables, run: nat, anyFill: bool)
    ensures !anyFill ==> RunToEnd(env, t, Aborting(run, anyFill)) == SetRun(t, run, Failed)
    ensures anyFill ==> RunToEnd(env, t, Aborting(run, anyFill)) == AfterPartialFill(WithdrawOrphans(t, run), run)
  {
    hide RunToEnd, SetRun, WithdrawOrphans, HasPending, HasAwaiting;
    OneStep(env, t, Aborting(run, anyFill));
    if anyFill {
      var t1 := WithdrawOrphans(t, run);
      var t2 := SetRun(t1, run, if HasPending(t1, run) || HasAwaiting(t1, run) then AwaitingApproval else Failed);
      Leads(env, t1, Settling(run), t2, Finished);
      OneStep(env, t2, Finished);
    } else {
      FailEnds(env, t, run);
    }
  }

  lemma FailEnds(env: Env, t: Tables, run: nat)
    ensures RunToEnd(env, t, Failing(run)) == SetRun(t, run, Failed)
  {
    hide RunToEnd, SetRun;
    Leads(env, t, Failing(run), SetRun(t, run, Failed), Finished);
    OneStep(env, SetRun(t, run, Failed), Finished);
  }

  lemma Ends(env: Env, t: Tables)
    ensures RunToEnd(env, t, Finished) == t
  {
    OneStep(env, t, Finished);
  }

  /* ------------------------------------------------------------------ the agent chain */

  lemma ChainEnters(env: Env, t: Tables, job: Job)
    ensures job.rest == [] ==> RunToEnd(env, t, Entering(job)) == RunToEnd(env, t, Inserting(job))
    ensures job.rest != [] ==>
              RunToEnd(env, t, Entering(job)) == RunToEnd(env, SetRun(t, job.run, AtAgent(job.rest[0])), Calling(job))
  {
    hide RunToEnd, SetRun;
    OneStep(env, t, Entering(job));
  }

  lemma ChainCalls(env: Env, t: Tables, job: Job)
    requires job.rest != []
    ensures !env.agentUrlOk(t.clock) ==> RunToEnd(env, t, Calling(job)) == RunToEnd(env, Tick(t), Failing(job.run))
    ensures env.agentUrlOk(t.clock) ==>
              match env.agent(t.clock)
              case CallFails =>
                RunToEnd(env, t, Calling(job))
                == RunToEnd(env, AddStep(Tick(t), job.run, job.rest[0], StepFailed, NOTHING), Failing(job.run))
              case BadEnvelope =>
                RunToEnd(env, t, Calling(job)) == RunToEnd(env, Tick(t), Failing(job.run))
              case Interrupted(e) =>
                RunToEnd(env, t, Calling(job))
                == SetRun(AddStep(Tick(t), job.run, job.rest[0], StepInterrupted, e), job.run, AwaitingAgentInput)
              case Replies(e) =>
                var prior := ApplyEnvelope(job.rest[0], e, job.prior);
                RunToEnd(env, t, Calling(job))
                == RunToEnd(env, AddStep(Tick(t), job.run, job.rest[0], StepOk, e),
                            if prior.Some? then Entering(job.(rest := job.rest[1..], prior := prior.value))
                            else Failing(job.run))
  {
    hide RunToEnd, SetRun, AddStep, ApplyEnvelope;
    OneStep(env, t, Calling(job));
    if env.agentUrlOk(t.clock) && env.agent(t.clock).Interrupted? {
      var t1 := AddStep(Tick(t), job.run, job.rest[0], StepInterrupted, env.agent(t.clock).envelope);
      Leads(env, t1, Parking(job.run), SetRun(t1, job.run, AwaitingAgentInput), Finished);
      Ends(env, SetRun(t1, job.run, AwaitingAgentInput));
    }
  }

  /* ------------------------------------------------------------------ starting and resuming */

  /** A run is not started when its strategy cannot be loaded. */
  lemma StartRefused(env: Env, t: Tables, strategy: Option<nat>, explicit: Option<Mode>)
    requires ResolveMode(env, t.clock, explicit, strategy).None?
    ensures RunToEnd(env, t, Starting(strategy, explicit)) == Tick(t)
  {
    hide RunToEnd, ResolveMode;
    Leads(env, t, Starting(strategy, explicit), Tick(t), Finished);
    Ends(env, Tick(t));
  }

  /** The tables with a new run in `created`. */
  function WithRun(t: Tables, strategy: Option<nat>, explicit: Option<Mode>, mode: Mode): Tables {
    Tick(t).(runs := t.runs + [Run(Created, strategy, explicit, mode, t.clock)])
  }

  lemma StartSteps(env: Env, t: Tables, strategy: Option<nat>, explicit: Option<Mode>, mode: Mode)
    requires ResolveMode(env, t.clock, explicit, strategy) == Some(mode)
    ensures var t1 := WithRun(t, strategy, explicit, mode);
            var job := Job(|t.runs|, mode, env.chain, map[], Started);
            && RunToEnd(env, t, Starting(strategy, explicit)) == RunToEnd(env, t1, Prelude(job))
            && RunToEnd(env, t, Starting(strategy, explicit))
               == RunToEnd(env, Tick(t1), if env.preludeOk(t1.clock) then Entering(job) else Failing(|t.runs|))
  {
    hide RunToEnd, ResolveMode;
    var t1 := WithRun(t, strategy, explicit, mode);
    var job := Job(|t.runs|, mode, env.chain, map[], Started);
    Leads(env, t, Starting(strategy, explicit), t1, Prelude(job));
    OneStep(env, t1, Prelude(job));
  }

  predicate Resumable(env: Env, t: Tables, run: nat, agent: string) {
    && run < |t.runs| && t.runs[run].status.AwaitingAgentInput?
    && RestAfter(env.chain, agent).Some? && HasInterrupted(t.steps, run, agent)
  }

  /** Refused calls change nothing. */
  lemma ResumeRefused(env: Env, t: Tables, run: nat, agent: string)
    requires !Resumable(env, t, run, agent)
    ensures RunToEnd(env, t, Resuming(run, agent)) == t
  {
    hide RunToEnd, RestAfter, HasInterrupted;
    Leads(env, t, Resuming(run, agent), t, Finished);
    Ends(env, t);
  }

  predicate Reachable(env: Env, t: Tables, run: nat)
    requires run < |t.runs|
  {
    ResolveMode(env, t.clock, None, t.runs[run].strategy).Some? && env.agentUrlOk(t.clock)
  }

  lemma ResumeUnreachable(env: Env, t: Tables, run: nat, agent: string)
    requires Resumable(env, t, run, agent) && !Reachable(env, t, run)
    ensures RunToEnd(env, t, Resuming(run, agent)) == Tick(t)
  {
    hide RunToEnd, RestAfter, HasInterrupted, ResolveMode;
    Leads(env, t, Resuming(run, agent), Tick(t), Finished);
    Ends(env, Tick(t));
  }

  lemma ResumeAsks(env: Env, t: Tables, run: nat, agent: string)
    requires Resumable(env, t, run, agent) && Reachable(env, t, run)
    ensures var mode := ResolveMode(env, t.clock, None, t.runs[run].strategy).value;
            RunToEnd(env, t, Resuming(run, agent)) == RunToEnd(env, Tick(t), Asking(run, agent, mode, t.clock))
  {
    var mode := ResolveMode(env, t.clock, None, t.runs[run].strategy).value;
    hide RunToEnd, RestAfter, HasInterrupted, ResolveMode;
    Leads(env, t, Resuming(run, agent), Tick(t), Asking(run, agent, mode, t.clock));
  }

  lemma AskFails(env: Env, t: Tables, run: nat, agent: string, mode: Mode, at: nat)
    requires env.agent(t.clock).CallFails? || env.agent(t.clock).BadEnvelope?
    ensures var t1 := if env.agent(t.clock).CallFails? then UpdateStep(Tick(t), run, agent, StepFailed, NOTHING)
                      else Tick(t);
            RunToEnd(env, t, Asking(run, agent, mode, at)) == SetRun(t1, run, Failed)
  {
    hide RunToEnd, UpdateStep, SetRun;
    var t1 := if env.agent(t.clock).CallFails? then UpdateStep(Tick(t), run, agent, StepFailed, NOTHING) else Tick(t);
    Leads(env, t, Asking(run, agent, mode, at), t1, ResumeFailed(run, agent));
    Leads(env, t1, ResumeFailed(run, agent), SetRun(t1, run, Failed), Finished);
    Ends(env, SetRun(t1, run, Failed));
  }

  lemma AskPausesAgain(env: Env, t: Tables, run: nat, agent: string, mode: Mode, at: nat)
    requires env.agent(t.clock).Interrupted?
    ensures RunToEnd(env, t, Asking(run, agent, mode, at))
         == UpdateStep(Tick(t), run, agent, StepInterrupted, env.agent(t.clock).envelope)
  {
    hide RunToEnd, UpdateStep;
    var t1 := UpdateStep(Tick(t), run, agent, StepInterrupted, env.agent(t.clock).envelope);
    Leads(env, t, Asking(run, agent, mode, at), t1, Finished);
    Ends(env, t1);
  }

  /** The tables once a resumed agent has answered and its run has left `awaiting_agent_input`. */
  function Answered(t: Tables, run: nat, agent: string, e: Envelope): Tables {
    SetRun(UpdateStep(Tick(t), run, agent, StepOk, e), run, AtAgent(agent))
  }

  lemma AskGoesOn(env: Env, t: Tables, run: nat, agent: string, mode: Mode, at: nat)
    requires env.agent(t.clock).Replies?
    ensures var t1 := Answered(t, run, agent, env.agent(t.clock).envelope);
            RunToEnd(env, t, Asking(run, agent, mode, at)) == RunToEnd(env, t1, Reloading(run, agent, mode, at))
  {
    hide RunToEnd, UpdateStep, SetRun;
    var t1 := UpdateStep(Tick(t), run, agent, StepOk, env.agent(t.clock).envelope);
    Leads(env, t, Asking(run, agent, mode, at), t1, Resumed(run, agent, mode, at));
    Leads(env, t1, Resumed(run, agent, mode, at), SetRun(t1, run, AtAgent(agent)), Reloading(run, agent, mode, at));
  }

  function AfterReload(env: Env, t: Tables, run: nat, agent: string, mode: Mode, at: nat): Proc {
    var prior := LoadPrior(t.steps, run);
    var rest := RestAfter(env.chain, agent);
    if prior.None? || rest.None? || !env.preludeOk(t.clock) then Failing(run)
    else Entering(Job(run, mode, rest.value, prior.value, ResumedAt(at)))
  }

  lemma ReloadSteps(env: Env, t: Tables, run: nat, agent: string, mode: Mode, at: nat)
    ensures RunToEnd(env, t, Reloading(run, agent, mode, at))
         == RunToEnd(env, Tick(t), AfterReload(env, t, run, agent, mode, at))
  {
    hide RunToEnd, RestAfter, LoadPrior;
    OneStep(env, t, Reloading(run, agent, mode, at));
  }

  /** Inserting the portfolio agent's proposals and reading what the loop starts from. */
  function Inserted(t: Tables, job: Job, drafts: seq<Draft>): Tables {
    Tick(t).(proposals := t.proposals + NewProposals(job.run, drafts),
             batches := t.batches + [Batch(job.run, job.mode, job.origin, t.clock, |t.proposals|, drafts)])
  }

  /** The portfolio agent's result is unusable, or a resumed run finds no account. */
  predicate InsertRefused(env: Env, t: Tables, job: Job) {
    ReadDrafts(env, job.prior).None? || (job.origin.ResumedAt? && !env.accountOk(t.clock))
  }

  lemma InsertFails(env: Env, t: Tables, job: Job)
    requires InsertRefused(env, t, job)
    ensures RunToEnd(env, t, Inserting(job)) == RunToEnd(env, Tick(t), Failing(job.run))
  {
    hide RunToEnd, ReadDrafts;
    Leads(env, t, Inserting(job), Tick(t), Failing(job.run));
  }

  function AfterInsert(env: Env, t: Tables, job: Job, drafts: seq<Draft>): Proc {
    var state, hold := env.portfolio(t.clock), env.watchlist(t.clock);
    if state.None? || hold.None? then Failing(job.run)
    else Looping(Loop(job.run, job.mode, hold.value, AddEstimates(env.brokerMarks(t.clock), drafts), state.value,
                      Ids(|t.proposals|, |drafts|), false, false, |t.batches|, t.clock))
  }

  lemma InsertSteps(env: Env, t: Tables, job: Job)
    requires !InsertRefused(env, t, job)
    ensures var drafts := ReadDrafts(env, job.prior).value;
            RunToEnd(env, t, Inserting(job))
                  == RunToEnd(env, Inserted(t, job, drafts), AfterInsert(env, t, job, drafts))
  {
    InsertValue(env, t, job);
    hide RunToEnd, ReadDrafts, AfterInsert, Inserted, Step;
    var drafts := ReadDrafts(env, job.prior).value;
    Leads(env, t, Inserting(job), Inserted(t, job, drafts), AfterInsert(env, t, job, drafts));
  }

  lemma InsertValue(env: Env, t: Tables, job: Job)
    requires !InsertRefused(env, t, job)
    ensures var drafts := ReadDrafts(env, job.prior).value;
            Step(env, t, Inserting(job)) == (Inserted(t, job, drafts), AfterInsert(env, t, job, drafts))
  {
    hide ReadDrafts, AddEstimates, Ids, NewProposals;
  }

  /* ------------------------------------------------------------------ decisions and cancellations */

  /** The run status once a decision is through. */
  function Refreshed(t: Tables, run: nat): Tables {
    SetRun(t, run, if HasPending(t, run) || HasAwaiting(t, run) then AwaitingApproval else Executed)
  }

  lemma RefreshEnds(env: Env, t: Tables, run: nat)
    ensures RunToEnd(env, t, Refreshing(run)) == Refreshed(t, run)
  {
    hide RunToEnd, SetRun, HasPending, HasAwaiting;
    Leads(env, t, Refreshing(run), Refreshed(t, run), Finished);
    Ends(env, Refreshed(t, run));
  }

  predicate Decidable(t: Tables, a: nat) {
    && a < |t.approvals| && t.approvals[a].status.Pending?
    && t.approvals[a].proposal < |t.proposals| && t.proposals[t.approvals[a].proposal].status.Awaiting?
    && t.proposals[t.approvals[a].proposal].run < |t.runs|
  }

  lemma DecideRefused(env: Env, t: Tables, a: nat, approve: bool)
    requires (approve && !env.hasBroker) || !Decidable(t, a)
    ensures RunToEnd(env, t, Deciding(a, approve)) == t
  {
    hide RunToEnd;
    Leads(env, t, Deciding(a, approve), t, Finished);
    Ends(env, t);
  }

  lemma DecideRejects(env: Env, t: Tables, a: nat)
    requires Decidable(t, a)
    ensures var id := t.approvals[a].proposal;
            var t1 := SetProposal(SetApproval(t, a, Declined), id, Rejected);
            RunToEnd(env, t, Deciding(a, false)) == Refreshed(t1, t.proposals[id].run)
  {
    hide RunToEnd, Refreshed, SetProposal, SetApproval;
    var id := t.approvals[a].proposal;
    var run := t.proposals[id].run;
    var t1 := SetProposal(SetApproval(t, a, Declined), id, Rejected);
    Leads(env, t, Deciding(a, false), t1, Refreshing(run));
    RefreshEnds(env, t1, run);
  }

  lemma DecideWithoutAccount(env: Env, t: Tables, a: nat)
    requires Decidable(t, a) && env.hasBroker && !env.accountOk(t.clock)
    ensures RunToEnd(env, t, Deciding(a, true)) == Tick(t)
  {
    hide RunToEnd;
    Leads(env, t, Deciding(a, true), Tick(t), Finished);
    Ends(env, Tick(t));
  }

  lemma DecideSends(env: Env, t: Tables, a: nat)
    requires Decidable(t, a) && env.hasBroker && env.accountOk(t.clock)
    ensures var id := t.approvals[a].proposal;
            var run := t.proposals[id].run;
            var sent := Send(env, SetApproval(Tick(t), a, Approved), id, ByApproval(a), FromDecide(run));
            RunToEnd(env, t, Deciding(a, true)) == RunToEnd(env, sent.0, sent.1)
  {
    hide RunToEnd, Send, SetApproval;
    var id := t.approvals[a].proposal;
    var run := t.proposals[id].run;
    var t1 := SetApproval(Tick(t), a, Approved);
    var sent := Send(env, t1, id, ByApproval(a), FromDecide(run));
    Leads(env, t, Deciding(a, true), t1, Dispatching(id, run, a));
    Leads(env, t1, Dispatching(id, run, a), sent.0, sent.1);
  }

  lemma DecideAfterSubmit(env: Env, t: Tables, s: Submitting, id: nat, run: nat)
    ensures RunToEnd(env, t, AfterSubmit(s, id, FromDecide(run)))
         == Refreshed(if s.SubmitFailed? then RejectProposal(t, id, REFUSED) else t, run)
  {
    hide RunToEnd, Refreshed, RejectProposal;
    OneStep(env, t, AfterSubmit(s, id, FromDecide(run)));
    RefreshEnds(env, if s.SubmitFailed? then RejectProposal(t, id, REFUSED) else t, run);
  }

  predicate Cancellable(t: Tables, run: nat) {
    run < |t.runs| && t.runs[run].status.AwaitingApproval?
  }

  lemma CancelRefused(env: Env, t: Tables, run: nat)
    ensures !Cancellable(t, run) ==> RunToEnd(env, t, Cancelling(run)) == t
    ensures Cancellable(t, run) && !SomePrice(env, t, run) ==> RunToEnd(env, t, Cancelling(run)) == Tick(t)
  {
    hide RunToEnd, SomePrice;
    if !Cancellable(t, run) {
      Leads(env, t, Cancelling(run), t, Finished);
      Ends(env, t);
    } else if !SomePrice(env, t, run) {
      Leads(env, t, Cancelling(run), Tick(t), Finished);
      Ends(env, Tick(t));
    }
  }

  /** The awaiting proposals of the run and their pending approvals are withdrawn, then the run is cancelled. */
  function RunCancelled(t: Tables, run: nat): Tables {
    var ids := AwaitingIds(t, run);
    SetRun(if ids == {} then t else RevokeAll(WithdrawAll(t, ids), ids), run, Cancelled)
  }

  lemma CancelSteps(env: Env, t: Tables, run: nat)
    requires Cancellable(t, run) && SomePrice(env, t, run)
    ensures RunToEnd(env, t, Cancelling(run)) == RunCancelled(Tick(t), run)
  {
    hide RunToEnd, SomePrice, AwaitingIds, WithdrawAll, RevokeAll, SetRun;
    var ids := AwaitingIds(t, run);
    var t1 := Tick(t);
    assert AwaitingIds(t1, run) == ids by { AwaitingIdsTicked(t, run); }
    if ids == {} {
      Leads(env, t, Cancelling(run), t1, MarkingCancelled(run));
      CancelEnds(env, t1, run);
    } else {
      var t2 := WithdrawAll(t1, ids);
      Leads(env, t, Cancelling(run), t1, Withdrawing(run, ids));
      Leads(env, t1, Withdrawing(run, ids), t2, Revoking(run, ids));
      Leads(env, t2, Revoking(run, ids), RevokeAll(t2, ids), MarkingCancelled(run));
      CancelEnds(env, RevokeAll(t2, ids), run);
    }
  }

  lemma AwaitingIdsTicked(t: Tables, run: nat)
    ensures AwaitingIds(Tick(t), run) == AwaitingIds(t, run)
  {
  }

  lemma CancelEnds(env: Env, t: Tables, run: nat)
    ensures RunToEnd(env, t, MarkingCancelled(run)) == SetRun(t, run, Cancelled)
  {
    hide RunToEnd, SetRun;
    Leads(env, t, MarkingCancelled(run), SetRun(t, run, Cancelled), Finished);
    Ends(env, SetRun(t, run, Cancelled));
  }
}
