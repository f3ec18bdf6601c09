/** Every step of a serial call keeps the tables coherent up to what the call has half done. */
module SerialSteps {
  import opened Common
  import opened Risk
  import opened Gate
  import opened Workflow
  import opened Interleaving
  import opened History
  import opened Chain
  import opened Serial

  /* ------------------------------------------------------------------ frames */

  /** Nothing a run at rest depends on has changed. */
  predicate SameRun(t: Tables, t': Tables, r: nat) {
    && r < |t.runs| <= |t'.runs|
    && t'.runs[r] == t.runs[r]
    && RowsOf(t'.steps, r) == RowsOf(t.steps, r)
    && |t.proposals| <= |t'.proposals|
    && (forall i :: 0 <= i < |t.proposals| ==>
          && t'.proposals[i].run == t.proposals[i].run
          && (t.proposals[i].run == r ==> t'.proposals[i].status == t.proposals[i].status))
    && (forall i :: |t.proposals| <= i < |t'.proposals| ==> t'.proposals[i].run != r)
  }

  lemma SameRunAtRest(env: Env, t: Tables, t': Tables, r: nat)
    requires SameRun(t, t', r) && RunAtRest(env, t, r)
    ensures RunAtRest(env, t', r)
  {
  }

  /** Proposals, approvals, mirrors and the broker's log are as they were. */
  predicate SameBooks(t: Tables, t': Tables) {
    t'.proposals == t.proposals && t'.approvals == t.approvals && t'.mirrors == t.mirrors && t'.log == t.log
  }

  lemma BooksKept(t: Tables, t': Tables, ex: set<nat>, ex': set<nat>)
    requires Referenced(t) && SameBooks(t, t') && |t.runs| <= |t'.runs|
    requires forall i :: 0 <= i < |t'.steps| ==> t'.steps[i].run < |t'.runs|
    ensures Referenced(t')
    ensures Linked(t, ex) ==> Linked(t', ex)
    ensures Mirrored(t, ex') ==> Mirrored(t', ex')
  {
  }

  /** Only the row of `run` and the step rows of `run` have changed. */
  predicate OnlyRun(t: Tables, t': Tables, run: nat) {
    && SameBooks(t, t')
    && (|t'.runs| == |t.runs| || (|t'.runs| == |t.runs| + 1 && run == |t.runs|))
    && (forall r: nat :: r < |t.runs| && r != run ==>
          t'.runs[r] == t.runs[r] && RowsOf(t'.steps, r) == RowsOf(t.steps, r))
    && (forall i :: 0 <= i < |t'.steps| ==> t'.steps[i].run < |t'.runs|)
  }

  /** A step that writes only its run and its step rows needs its local fact re-established and no more. */
  lemma OnlyRunMid(env: Env, t: Tables, p: Proc, t': Tables, p': Proc, run: nat)
    requires Mid(env, t, p) && OnlyRun(t, t', run)
    requires HalfLinked(p) == {} && HalfMirrored(p) == {} && HalfLinked(p') == {} && HalfMirrored(p') == {}
    requires BusyRun(p) == None || BusyRun(p) == Some(run)
    requires BusyRun(p') == Some(run) || (BusyRun(p') == None && run < |t'.runs| && RunAtRest(env, t', run))
    requires Local(env, t', p')
    ensures Mid(env, t', p')
  {
    hide Local, Linked, Mirrored, RowsOf;
    BooksKept(t, t', {}, {});
    forall r: nat | r < |t'.runs| && r != run ensures RunAtRest(env, t', r) {
      SameRunAtRest(env, t, t', r);
    }
  }

  lemma AddStepOnly(t: Tables, run: nat, step: string, status: StepStatus, payload: Envelope)
    requires Referenced(t) && run < |t.runs|
    ensures OnlyRun(t, AddStep(Tick(t), run, step, status, payload), run)
    ensures RowsOf(AddStep(Tick(t), run, step, status, payload).steps, run)
         == RowsOf(t.steps, run) + [StepRow(run, step, status, payload)]
  {
    hide RowsOf;
    forall r: nat ensures RowsOf(t.steps + [StepRow(run, step, status, payload)], r)
                       == RowsOf(t.steps, r) + (if run == r then [StepRow(run, step, status, payload)] else [])
    {
      RowsOfAppend(t.steps, StepRow(run, step, status, payload), r);
    }
  }

  lemma UpdateStepOnly(t: Tables, run: nat, step: string, status: StepStatus, payload: Envelope)
    requires Referenced(t) && run < |t.runs|
    ensures OnlyRun(t, UpdateStep(Tick(t), run, step, status, payload), run)
    ensures RowsOf(UpdateStep(Tick(t), run, step, status, payload).steps, run)
         == UpdateRows(RowsOf(t.steps, run), run, step, status, payload)
  {
    hide RowsOf;
    forall r: nat ensures RowsOf(UpdateRows(t.steps, run, step, status, payload), r)
                       == if r == run then UpdateRows(RowsOf(t.steps, r), run, step, status, payload)
                          else RowsOf(t.steps, r)
    {
      RowsOfUpdate(t.steps, run, step, status, payload, r);
    }
  }

  lemma SetRunOnly(t: Tables, run: nat, status: RunStatus)
    requires Referenced(t) && run < |t.runs|
    ensures OnlyRun(t, SetRun(t, run, status), run)
  {
  }

  /* ------------------------------------------------------------------ the chain */

  lemma {:induction false} NoRowsYet(steps: seq<StepRow>, run: nat)
    requires forall i :: 0 <= i < |steps| ==> steps[i].run < run
    ensures RowsOf(steps, run) == []
  {
    if steps != [] {
      NoRowsYet(steps[..|steps| - 1], run);
    }
  }

  /** A call that has done nothing yet may be over after a question. */
  lemma IdleMid(env: Env, t: Tables, p: Proc)
    requires Mid(env, t, p) && (p.Resuming? || p.Starting?)
    ensures Mid(env, t, Finished)
    ensures Mid(env, Tick(t), Finished)
  {
    IdleIsCoherent(env, t, p);
    forall r: nat | r < |t.runs| ensures RunAtRest(env, Tick(t), r) {
      SameRunAtRest(env, t, Tick(t), r);
    }
    BooksKept(t, Tick(t), {}, {});
    hide Referenced, Linked, Mirrored, RunAtRest;
  }

  lemma IdleIsCoherent(env: Env, t: Tables, p: Proc)
    requires Mid(env, t, p) && (p.Resuming? || p.Starting?)
    ensures Coherent(env, t)
  {
    hide Referenced, Linked, Mirrored, OthersAtRest;
  }

  lemma StartingMid(env: Env, t: Tables, p: Proc)
    requires Mid(env, t, p) && p.Starting?
    ensures Mid(env, Step(env, t, p).0, Step(env, t, p).1)
  {
    var next := Step(env, t, p);
    if next.1.Finished? {
      IdleMid(env, t, p);
    } else {
      NoRowsYet(t.steps, |t.runs|);
      assert env.chain[0..] == env.chain;
      hide ResolveMode;
      OnlyRunMid(env, t, p, next.0, next.1, |t.runs|);
    }
  }

  /** One more row for the next agent of the chain. */
  lemma RowAppended(chain: seq<string>, rows: seq<StepRow>, row: StepRow)
    requires WalkedTo(chain, rows) && |rows| < |chain| && row.step == chain[|rows|]
    ensures row.status.StepOk? ==> WalkedTo(chain, rows + [row])
    ensures row.status.StepInterrupted? ==> PausedAt(chain, rows + [row])
  {
    hide FoldRows;
    assert (rows + [row])[..|rows|] == rows;
  }

  lemma RowFolded(rows: seq<StepRow>, row: StepRow)
    requires row.status.StepOk? && FoldRows(rows).Some?
    ensures FoldRows(rows + [row]) == ApplyEnvelope(row.step, row.payload, FoldRows(rows).value)
  {
    hide ApplyEnvelope;
    assert (rows + [row])[..|rows|] == rows;
  }

  lemma CallingMid(env: Env, t: Tables, p: Proc)
    requires Mid(env, t, p) && p.Calling?
    ensures Mid(env, StepChain(env, t, p).0, StepChain(env, t, p).1)
  {
    var job := p.job;
    var next := StepChain(env, t, p);
    hide Linked, Mirrored, OthersAtRest, Referenced, OnlyRun, JobSound;
    assert CallLeaves(env, t, job, next.0, next.1) by {
      hide CallLeaves, AddStep, ApplyEnvelope;
      FailureLeaves(env, t, job);
      if env.agentUrlOk(t.clock) && env.agent(t.clock).Interrupted? {
        InterruptedLeaves(env, t, job, env.agent(t.clock).envelope);
      }
      if env.agentUrlOk(t.clock) && env.agent(t.clock).Replies? {
        OkLeaves(env, t, job, env.agent(t.clock).envelope);
      }
    }
    hide StepChain;
    OnlyRunMid(env, t, p, next.0, next.1, job.run);
  }

  lemma NextAgent(env: Env, t: Tables, job: Job)
    requires JobSound(env, t, job) && job.rest != []
    ensures var rows := RowsOf(t.steps, job.run);
            |rows| < |env.chain| && job.rest[0] == env.chain[|rows|] && job.rest[1..] == env.chain[|rows| + 1..]
  {
    hide RowsOf, FoldRows;
    WalkedBound(env.chain, RowsOf(t.steps, job.run));
  }

  lemma AnsweredOk(env: Env, t: Tables, job: Job, e: Envelope)
    requires Referenced(t) && JobSound(env, t, job) && job.rest != []
    ensures var t' := AddStep(Tick(t), job.run, job.rest[0], StepOk, e);
            var prior := ApplyEnvelope(job.rest[0], e, job.prior);
            && OnlyRun(t, t', job.run)
            && (prior.Some? ==> JobSound(env, t', job.(rest := job.rest[1..], prior := prior.value)))
  {
    NextAgent(env, t, job);
    hide RowsOf, WalkedTo, FoldRows, ApplyEnvelope, Referenced, OnlyRun;
    AddStepOnly(t, job.run, job.rest[0], StepOk, e);
    RowAppended(env.chain, RowsOf(t.steps, job.run), StepRow(job.run, job.rest[0], StepOk, e));
    RowFolded(RowsOf(t.steps, job.run), StepRow(job.run, job.rest[0], StepOk, e));
  }

  lemma AnsweredInterrupted(env: Env, t: Tables, job: Job, e: Envelope)
    requires Referenced(t) && JobSound(env, t, job) && job.rest != []
    ensures var t' := AddStep(Tick(t), job.run, job.rest[0], StepInterrupted, e);
            && OnlyRun(t, t', job.run)
            && PausedAt(env.chain, RowsOf(t'.steps, job.run)) && NoProposals(t', job.run)
  {
    NextAgent(env, t, job);
    hide RowsOf, WalkedTo, PausedAt, FoldRows, Referenced, OnlyRun;
    AddStepOnly(t, job.run, job.rest[0], StepInterrupted, e);
    RowAppended(env.chain, RowsOf(t.steps, job.run), StepRow(job.run, job.rest[0], StepInterrupted, e));
  }

  /** What a call leaves behind: nothing outside its run, and a state its next step can go on from. */
  ghost predicate CallLeaves(env: Env, t: Tables, job: Job, t': Tables, p': Proc) {
    && OnlyRun(t, t', job.run) && Local(env, t', p')
    && HalfLinked(p') == {} && HalfMirrored(p') == {} && BusyRun(p') == Some(job.run)
  }

  lemma LeavesEntering(env: Env, t: Tables, job: Job, t': Tables, next: Job)
    requires OnlyRun(t, t', job.run) && JobSound(env, t', next) && next.run == job.run
    ensures CallLeaves(env, t, job, t', Entering(next))
  {
    hide JobSound, OnlyRun;
  }

  lemma LeavesFailing(env: Env, t: Tables, job: Job, t': Tables)
    requires OnlyRun(t, t', job.run) && job.run < |t'.runs|
    ensures CallLeaves(env, t, job, t', Failing(job.run))
  {
    hide OnlyRun;
  }

  lemma LeavesParking(env: Env, t: Tables, job: Job, t': Tables)
    requires OnlyRun(t, t', job.run) && job.run < |t'.runs|
    requires PausedAt(env.chain, RowsOf(t'.steps, job.run)) && NoProposals(t', job.run)
    ensures CallLeaves(env, t, job, t', Parking(job.run))
  {
    hide OnlyRun, RowsOf, PausedAt, NoProposals;
  }

  lemma JobInTable(env: Env, t: Tables, job: Job)
    requires JobSound(env, t, job)
    ensures job.run < |t.runs|
  {
    hide RowsOf, FoldRows, WalkedTo, NoProposals;
  }

  lemma AddStepRuns(t: Tables, run: nat, step: string, status: StepStatus, payload: Envelope)
    ensures AddStep(Tick(t), run, step, status, payload).runs == t.runs && Tick(t).runs == t.runs
  {
  }

  lemma OkLeaves(env: Env, t: Tables, job: Job, e: Envelope)
    requires Referenced(t) && JobSound(env, t, job) && job.rest != []
    ensures var prior := ApplyEnvelope(job.rest[0], e, job.prior);
            CallLeaves(env, t, job, AddStep(Tick(t), job.run, job.rest[0], StepOk, e),
                       if prior.Some? then Entering(job.(rest := job.rest[1..], prior := prior.value))
                       else Failing(job.run))
  {
    hide JobSound, RowsOf, ApplyEnvelope, Referenced, OnlyRun, AddStep, CallLeaves;
    var t' := AddStep(Tick(t), job.run, job.rest[0], StepOk, e);
    var prior := ApplyEnvelope(job.rest[0], e, job.prior);
    JobInTable(env, t, job);
    AddStepRuns(t, job.run, job.rest[0], StepOk, e);
    AnsweredOk(env, t, job, e);
    if prior.Some? {
      LeavesEntering(env, t, job, t', job.(rest := job.rest[1..], prior := prior.value));
    } else {
      LeavesFailing(env, t, job, t');
    }
  }

  lemma InterruptedLeaves(env: Env, t: Tables, job: Job, e: Envelope)
    requires Referenced(t) && JobSound(env, t, job) && job.rest != []
    ensures CallLeaves(env, t, job, AddStep(Tick(t), job.run, job.rest[0], StepInterrupted, e), Parking(job.run))
  {
    hide JobSound, RowsOf, PausedAt, NoProposals, Referenced, OnlyRun, AddStep, CallLeaves;
    JobInTable(env, t, job);
    AddStepRuns(t, job.run, job.rest[0], StepInterrupted, e);
    AnsweredInterrupted(env, t, job, e);
    LeavesParking(env, t, job, AddStep(Tick(t), job.run, job.rest[0], StepInterrupted, e));
  }

  lemma FailureLeaves(env: Env, t: Tables, job: Job)
    requires Referenced(t) && JobSound(env, t, job) && job.rest != []
    ensures CallLeaves(env, t, job, Tick(t), Failing(job.run))
    ensures CallLeaves(env, t, job, AddStep(Tick(t), job.run, job.rest[0], StepFailed, NOTHING), Failing(job.run))
  {
    hide JobSound, RowsOf, Referenced, OnlyRun, AddStep, CallLeaves;
    JobInTable(env, t, job);
    AddStepRuns(t, job.run, job.rest[0], StepFailed, NOTHING);
    TickOnly(t, job.run);
    AddStepOnly(t, job.run, job.rest[0], StepFailed, NOTHING);
    LeavesFailing(env, t, job, Tick(t));
    LeavesFailing(env, t, job, AddStep(Tick(t), job.run, job.rest[0], StepFailed, NOTHING));
  }

  lemma WalkedBound(chain: seq<string>, rows: seq<StepRow>)
    requires WalkedTo(chain, rows)
    ensures |rows| <= |chain|
  {
  }

  lemma TickOnly(t: Tables, run: nat)
    requires Referenced(t) && run < |t.runs|
    ensures OnlyRun(t, Tick(t), run) && OnlyRun(t, t, run)
  {
  }

  lemma ChainMid(env: Env, t: Tables, p: Proc)
    requires Mid(env, t, p) && (p.Prelude? || p.Entering? || p.Parking?)
    ensures Mid(env, StepChain(env, t, p).0, StepChain(env, t, p).1)
  {
    var next := StepChain(env, t, p);
    var run := BusyRun(p).value;
    hide RowsOf, Linked, Mirrored, OthersAtRest;
    TickOnly(t, run);
    match p
    case Prelude(job) => OnlyRunMid(env, t, p, next.0, next.1, run);
    case Entering(job) =>
      if job.rest != [] {
        SetRunOnly(t, run, AtAgent(job.rest[0]));
      }
      OnlyRunMid(env, t, p, next.0, next.1, run);
    case Parking(_) =>
      SetRunOnly(t, run, AwaitingAgentInput);
      OnlyRunMid(env, t, p, next.0, next.1, run);
  }

  /* ------------------------------------------------------------------ resuming */

  /** The paused agent's row takes the new status; nothing else changes. */
  lemma ResumeAnswered(env: Env, t: Tables, run: nat, agent: string, status: StepStatus, e: Envelope)
    requires Referenced(t) && run < |t.runs| && DistinctNames(env.chain)
    requires PausedAt(env.chain, RowsOf(t.steps, run)) && agent == PausedAgent(RowsOf(t.steps, run))
    requires NoProposals(t, run)
    ensures var t' := UpdateStep(Tick(t), run, agent, status, e);
            && OnlyRun(t, t', run)
            && (status.StepInterrupted? ==> PausedAt(env.chain, RowsOf(t'.steps, run)) && NoProposals(t', run))
            && (status.StepOk? ==> ResumedSound(env, t', run, agent))
  {
    var rows := RowsOf(t.steps, run);
    RowsOfAll(t.steps, run);
    hide RowsOf, PausedAt, WalkedTo, OnlyRun, Referenced;
    UpdateStepOnly(t, run, agent, status, e);
    UpdatePausedRow(env.chain, rows, run, status, e);
    PausedRowReplaced(env.chain, rows, status, e);
  }

  /** What asking a paused agent again leaves behind. */
  lemma AskingLeaves(env: Env, t: Tables, run: nat, agent: string, e: Envelope)
    requires Referenced(t) && AskingSound(env, t, run, agent) && DistinctNames(env.chain)
    ensures OnlyRun(t, Tick(t), run)
    ensures OnlyRun(t, UpdateStep(Tick(t), run, agent, StepFailed, NOTHING), run)
    ensures var t' := UpdateStep(Tick(t), run, agent, StepInterrupted, e);
            OnlyRun(t, t', run) && RunAtRest(env, t', run)
    ensures var t' := UpdateStep(Tick(t), run, agent, StepOk, e);
            OnlyRun(t, t', run) && ResumedSound(env, t', run, agent)
  {
    TickOnly(t, run);
    hide RowsOf, PausedAt, ResumedSound, NoProposals, Referenced, OnlyRun, UpdateRows;
    ResumeAnswered(env, t, run, agent, StepFailed, NOTHING);
    ResumeAnswered(env, t, run, agent, StepInterrupted, e);
    ResumeAnswered(env, t, run, agent, StepOk, e);
  }

  lemma AskingFacts(env: Env, t: Tables, p: Proc)
    requires Mid(env, t, p) && p.Asking?
    ensures Referenced(t) && AskingSound(env, t, p.run, p.agent) && p.run < |t.runs|
  {
    hide Referenced, Linked, Mirrored, OthersAtRest, PausedAt, NoProposals, RowsOf;
  }

  /** A step about one run that leaves it to be gone on with, or at rest. */
  ghost predicate AskLeaves(env: Env, t: Tables, run: nat, t': Tables, p': Proc) {
    && OnlyRun(t, t', run) && Local(env, t', p')
    && HalfLinked(p') == {} && HalfMirrored(p') == {}
    && (BusyRun(p') == Some(run) || (BusyRun(p') == None && run < |t'.runs| && RunAtRest(env, t', run)))
  }

  /** The answer of a paused agent is written to its run alone. */
  lemma AskingEnds(env: Env, t: Tables, p: Proc)
    requires Referenced(t) && p.Asking? && AskingSound(env, t, p.run, p.agent) && p.run < |t.runs|
    requires DistinctNames(env.chain)
    ensures AskLeaves(env, t, p.run, StepResume(env, t, p).0, StepResume(env, t, p).1)
  {
    var reply := env.agent(t.clock);
    hide RunAtRest, ResumedSound, AskingSound, Referenced, OnlyRun, UpdateStep;
    var e := if reply.Interrupted? || reply.Replies? then reply.envelope else NOTHING;
    AskingLeaves(env, t, p.run, p.agent, e);
    UpdateStepRuns(t, p.run, p.agent, StepFailed, NOTHING);
    UpdateStepRuns(t, p.run, p.agent, StepInterrupted, e);
  }

  lemma AskingMid(env: Env, t: Tables, p: Proc)
    requires Mid(env, t, p) && p.Asking? && DistinctNames(env.chain)
    ensures Mid(env, StepResume(env, t, p).0, StepResume(env, t, p).1)
  {
    var next := StepResume(env, t, p);
    hide Mid, RunAtRest, AskingSound, Referenced, OnlyRun, StepResume, Local;
    AskingFacts(env, t, p);
    AskingEnds(env, t, p);
    OnlyRunMid(env, t, p, next.0, next.1, p.run);
  }

  /** The agent to be asked is the one the run waits for. */
  lemma AcceptedResumeMid(env: Env, t: Tables, p: Proc, mode: Mode)
    requires Mid(env, t, p) && p.Resuming?
    requires p.run < |t.runs| && t.runs[p.run].status.AwaitingAgentInput? && HasInterrupted(t.steps, p.run, p.agent)
    ensures Mid(env, Tick(t), Asking(p.run, p.agent, mode, t.clock))
  {
    IdleIsCoherent(env, t, p);
    assert RunAtRest(env, t, p.run);
    OnlyInterrupted(env.chain, t.steps, p.run, p.agent);
    TickOnly(t, p.run);
    assert AskingSound(env, Tick(t), p.run, p.agent);
    hide Mid, RunAtRest, AskingSound, Referenced, Linked, Mirrored, OthersAtRest, OnlyRun, HasInterrupted;
    OnlyRunMid(env, t, p, Tick(t), Asking(p.run, p.agent, mode, t.clock), p.run);
  }

  lemma ResumingMid(env: Env, t: Tables, p: Proc)
    requires Mid(env, t, p) && p.Resuming?
    ensures Mid(env, StepResume(env, t, p).0, StepResume(env, t, p).1)
  {
    hide Mid, Coherent, RestAfter, HasInterrupted, ResolveMode;
    IdleMid(env, t, p);
    var next := StepResume(env, t, p);
    if next.1.Asking? {
      AcceptedResumeMid(env, t, p, next.1.mode);
    }
  }

  lemma UpdateStepRuns(t: Tables, run: nat, agent: string, status: StepStatus, e: Envelope)
    ensures UpdateStep(Tick(t), run, agent, status, e).runs == t.runs
  {
  }

  lemma PausedRowReplaced(chain: seq<string>, rows: seq<StepRow>, status: StepStatus, payload: Envelope)
    requires PausedAt(chain, rows)
    ensures var after := rows[..|rows| - 1] + [rows[|rows| - 1].(status := status, payload := payload)];
            && (status.StepInterrupted? ==> PausedAt(chain, after))
            && (status.StepOk? ==> WalkedTo(chain, after))
            && PausedAgent(after) == PausedAgent(rows)
  {
    var after := rows[..|rows| - 1] + [rows[|rows| - 1].(status := status, payload := payload)];
    assert after[..|after| - 1] == rows[..|rows| - 1];
    forall i | 0 <= i < |after| - 1 ensures after[i] == rows[i] && after[i].status.StepOk? {
      assert rows[..|rows| - 1][i] == rows[i];
    }
  }

  lemma ResumedMid(env: Env, t: Tables, p: Proc)
    requires Mid(env, t, p) && (p.Resumed? || p.ResumeFailed?)
    ensures Mid(env, StepResume(env, t, p).0, StepResume(env, t, p).1)
  {
    var next := StepResume(env, t, p);
    var run := BusyRun(p).value;
    hide RowsOf, FoldRows, Linked, Mirrored, OthersAtRest, OnlyRun;
    SetRunOnly(t, run, if p.Resumed? then AtAgent(p.agent) else Failed);
    OnlyRunMid(env, t, p, next.0, next.1, run);
  }

  /** Walking on from a paused agent: the outputs are rebuilt and the rest of the chain follows. */
  lemma ReloadedJob(env: Env, t: Tables, run: nat, agent: string, mode: Mode, origin: Origin)
    requires ResumedSound(env, t, run, agent) && DistinctNames(env.chain)
    ensures RestAfter(env.chain, agent) == Some(env.chain[|RowsOf(t.steps, run)|..])
    ensures LoadPrior(t.steps, run).Some? ==>
              JobSound(env, Tick(t), Job(run, mode, env.chain[|RowsOf(t.steps, run)|..],
                                         LoadPrior(t.steps, run).value, origin))
  {
    var rows := RowsOf(t.steps, run);
    RestAfterAt(env.chain, |rows| - 1);
    hide RowsOf, FoldRows, RestAfter;
  }

  lemma ReloadingMid(env: Env, t: Tables, p: Proc)
    requires Mid(env, t, p) && p.Reloading? && DistinctNames(env.chain)
    ensures Mid(env, StepResume(env, t, p).0, StepResume(env, t, p).1)
  {
    var next := StepResume(env, t, p);
    assert p.run < |t.runs|;
    hide RowsOf, Linked, Mirrored, OthersAtRest, RestAfter, OnlyRun, ResumedSound, JobSound, LoadPrior;
    TickOnly(t, p.run);
    ReloadedJob(env, t, p.run, p.agent, p.mode, ResumedAt(p.at));
    OnlyRunMid(env, t, p, next.0, next.1, p.run);
  }

  /* ------------------------------------------------------------------ one proposal changes status */

  /** Only the status (and reasons) of one proposal differ. */
  predicate StatusWritten(t: Tables, t': Tables, id: nat, status: ProposalStatus) {
    && t'.approvals == t.approvals && t'.mirrors == t.mirrors && t'.log == t.log
    && t'.runs == t.runs && t'.steps == t.steps
    && |t'.proposals| == |t.proposals| && id < |t.proposals|
    && (forall i :: 0 <= i < |t.proposals| && i != id ==> t'.proposals[i] == t.proposals[i])
    && t'.proposals[id].run == t.proposals[id].run
    && t'.proposals[id].status == status
  }

  lemma WriteFrame(env: Env, t: Tables, t': Tables, id: nat, status: ProposalStatus, run: nat)
    requires Referenced(t) && StatusWritten(t, t', id, status) && BelongsTo(t, id, run)
    ensures Referenced(t')
    ensures OthersAtRest(env, t, Some(run)) ==> OthersAtRest(env, t', Some(run))
  {
    if OthersAtRest(env, t, Some(run)) {
      forall r: nat | r < |t'.runs| && r != run ensures RunAtRest(env, t', r) {
        SameRunAtRest(env, t, t', r);
      }
    }
  }

  /** The approval of a proposal agrees with a status. */
  ghost predicate Agrees(t: Tables, id: nat, status: ProposalStatus) {
    && (forall a :: 0 <= a < |t.approvals| && t.approvals[a].proposal == id ==>
          (t.approvals[a].status.Pending? <==> status.Awaiting?) && !status.PendingAuto?)
    && (status.Awaiting? ==> HasApproval(t, id))
  }

  lemma WriteLinks(t: Tables, t': Tables, id: nat, status: ProposalStatus)
    requires Referenced(t) && Referenced(t') && StatusWritten(t, t', id, status)
    requires Linked(t, {id}) || Linked(t, {})
    ensures Linked(t', {id})
    ensures Agrees(t, id, status) ==> Linked(t', {})
  {
    assert forall i: nat :: HasApproval(t, i) ==> HasApproval(t', i);
  }

  /** The mirror of a proposal agrees with a status. */
  ghost predicate MirrorAgrees(t: Tables, id: nat, status: ProposalStatus) {
    && (forall m :: 0 <= m < |t.mirrors| && t.mirrors[m].proposal == id ==> Matches(t.mirrors[m].status, status))
    && (HasMirror(t, id) <==> WasAccepted(t.log, id))
    && (status.Submitted? || status.Done? ==> HasMirror(t, id))
  }

  lemma WriteMirrors(t: Tables, t': Tables, id: nat, status: ProposalStatus)
    requires Referenced(t) && Referenced(t') && StatusWritten(t, t', id, status)
    requires Mirrored(t, {id}) || Mirrored(t, {})
    ensures Mirrored(t', {id})
    ensures MirrorAgrees(t, id, status) ==> Mirrored(t', {})
  {
    assert forall i: nat :: HasMirror(t', i) <==> HasMirror(t, i);
  }

  /** A proposal outside the loop's list moves without awaiting approval before or after. */
  lemma WriteLoop(t: Tables, t': Tables, id: nat, status: ProposalStatus, l: Loop)
    requires StatusWritten(t, t', id, status) && LoopCoherent(t, l) && id !in l.todo && t.proposals[id].run == l.run
    requires !t.proposals[id].status.Awaiting?
    ensures !status.Awaiting? ==> LoopCoherent(t', l)
    ensures status.Awaiting? ==> LoopCoherent(t', l.(queued := true))
  {
    if status.Awaiting? {
      assert t'.proposals[id].run == l.run && t'.proposals[id].status.Awaiting?;
    } else {
      if HasAwaiting(t, l.run) {
        var p :| 0 <= p < |t.proposals| && t.proposals[p].run == l.run && t.proposals[p].status.Awaiting?;
        assert t'.proposals[p] == t.proposals[p];
      }
      if HasAwaiting(t', l.run) {
        var p :| 0 <= p < |t'.proposals| && t'.proposals[p].run == l.run && t'.proposals[p].status.Awaiting?;
        assert t'.proposals[p] == t.proposals[p];
      }
    }
  }

  /* ------------------------------------------------------------------ failing */

  lemma PendingMeansAwaiting(t: Tables, run: nat)
    requires Referenced(t) && Linked(t, {})
    ensures HasPending(t, run) ==> HasAwaiting(t, run)
  {
    if HasPending(t, run) {
      var a :| 0 <= a < |t.approvals| && t.approvals[a].status.Pending?
            && t.approvals[a].proposal < |t.proposals| && t.proposals[t.approvals[a].proposal].run == run;
      assert t.proposals[t.approvals[a].proposal].status.Awaiting?;
    }
  }

  /** The status a call leaves its run with, and whether it then is at rest. */
  lemma SettledAtRest(env: Env, t: Tables, run: nat, status: RunStatus)
    requires run < |t.runs|
    requires status.AwaitingApproval? || status.Executed? || status.Cancelled? || status.Failed?
    requires !status.Failed? ==> (status.AwaitingApproval? <==> HasAwaiting(t, run))
    ensures run < |SetRun(t, run, status).runs| && RunAtRest(env, SetRun(t, run, status), run)
  {
  }

  function StatusAtEnd(t: Tables, p: Proc): RunStatus {
    match p
    case Settling(run) => if HasPending(t, run) || HasAwaiting(t, run) then AwaitingApproval else RunStatus.Failed
    case Refreshing(run) => if HasPending(t, run) || HasAwaiting(t, run) then AwaitingApproval else Executed
    case MarkingCancelled(_) => Cancelled
    case _ => RunStatus.Failed
  }

  lemma SettlingFacts(env: Env, t: Tables, p: Proc)
    requires Mid(env, t, p) && (p.Failing? || p.Settling? || p.Refreshing? || p.MarkingCancelled?)
    ensures p.run < |t.runs| && Referenced(t) && Linked(t, {})
    ensures p.MarkingCancelled? ==> !HasAwaiting(t, p.run)
    ensures Step(env, t, p) == (SetRun(t, p.run, StatusAtEnd(t, p)), Finished)
  {
    hide Referenced, Linked, Mirrored, OthersAtRest, HasPending, HasAwaiting, SetRun;
  }

  /** A call that sets its run's status has nothing half done, and is over then. */
  lemma NothingHalfDone(env: Env, t: Tables, p: Proc)
    requires p.Failing? || p.Settling? || p.Refreshing? || p.MarkingCancelled?
    ensures HalfLinked(p) == {} && HalfMirrored(p) == {} && BusyRun(p) == Some(p.run)
    ensures HalfLinked(Finished) == {} && HalfMirrored(Finished) == {} && BusyRun(Finished) == None
    ensures Local(env, t, Finished)
  {
  }

  lemma StatusSetMid(env: Env, t: Tables, p: Proc)
    requires Mid(env, t, p) && (p.Failing? || p.Settling? || p.Refreshing? || p.MarkingCancelled?)
    ensures Mid(env, Step(env, t, p).0, Step(env, t, p).1)
  {
    var run, status := p.run, StatusAtEnd(t, p);
    SettlingFacts(env, t, p);
    assert status.Failed? || status.AwaitingApproval? || status.Executed? || status.Cancelled?;
    PendingMeansAwaiting(t, run);
    assert !status.Failed? ==> (status.AwaitingApproval? <==> HasAwaiting(t, run));
    hide *;
    SettledAtRest(env, t, run, status);
    SetRunOnly(t, run, status);
    NothingHalfDone(env, SetRun(t, run, status), p);
    OnlyRunMid(env, t, p, SetRun(t, run, status), Finished, run);
  }

  lemma OrphansBooks(t: Tables, run: nat)
    requires Referenced(t) && Linked(t, {}) && Mirrored(t, {})
    ensures var t' := WithdrawOrphans(t, run); Referenced(t') && Linked(t', {}) && Mirrored(t', {})
  {
    var t' := WithdrawOrphans(t, run);
    assert forall i: nat :: HasApproval(t, i) ==> HasApproval(t', i);
    assert forall i: nat :: HasMirror(t', i) <==> HasMirror(t, i);
  }

  lemma OrphansRest(env: Env, t: Tables, run: nat)
    requires OthersAtRest(env, t, Some(run))
    ensures OthersAtRest(env, WithdrawOrphans(t, run), Some(run)) && WithdrawOrphans(t, run).runs == t.runs
  {
    var t' := WithdrawOrphans(t, run);
    hide OthersAtRest;
    forall r: nat | r < |t'.runs| && r != run ensures RunAtRest(env, t', r) {
      AtRestElim(env, t, run, r);
      SameRunAtRest(env, t, t', r);
    }
    AtRestIntro(env, t', run);
  }

  lemma AbortingFacts(env: Env, t: Tables, p: Proc)
    requires Mid(env, t, p) && p.Aborting?
    ensures Referenced(t) && Linked(t, {}) && Mirrored(t, {}) && OthersAtRest(env, t, Some(p.run)) && p.run < |t.runs|
  {
    hide Referenced, Linked, Mirrored, OthersAtRest;
  }

  lemma SettlingMade(env: Env, t: Tables, run: nat)
    requires Referenced(t) && Linked(t, {}) && Mirrored(t, {}) && OthersAtRest(env, t, Some(run)) && run < |t.runs|
    ensures Mid(env, t, Settling(run))
  {
    hide Referenced, Linked, Mirrored, OthersAtRest;
  }

  lemma OrphansMid(env: Env, t: Tables, p: Proc)
    requires Mid(env, t, p) && p.Aborting?
    ensures Mid(env, StepFailure(t, p).0, StepFailure(t, p).1)
  {
    hide Mid, Referenced, Linked, Mirrored, OthersAtRest, WithdrawOrphans;
    AbortingFacts(env, t, p);
    if p.anyFill {
      OrphansBooks(t, p.run);
      OrphansRest(env, t, p.run);
      SettlingMade(env, WithdrawOrphans(t, p.run), p.run);
    } else {
      FailingMade(env, t, p.run);
    }
  }

  lemma AtRestElim(env: Env, t: Tables, run: nat, r: nat)
    requires OthersAtRest(env, t, Some(run)) && r < |t.runs| && r != run
    ensures RunAtRest(env, t, r)
  {
  }

  lemma AtRestIntro(env: Env, t: Tables, run: nat)
    requires forall r: nat :: r < |t.runs| && r != run ==> RunAtRest(env, t, r)
    ensures OthersAtRest(env, t, Some(run))
  {
  }

  /* ------------------------------------------------------------------ inserting proposals */

  lemma InsertedBooks(t: Tables, t': Tables, run: nat)
    requires Referenced(t) && Linked(t, {}) && Mirrored(t, {}) && run < |t.runs|
    requires t'.approvals == t.approvals && t'.mirrors == t.mirrors && t'.log == t.log && t'.runs == t.runs
    requires t'.steps == t.steps
    requires |t.proposals| <= |t'.proposals| && t'.proposals[..|t.proposals|] == t.proposals
    requires forall i :: |t.proposals| <= i < |t'.proposals| ==>
          t'.proposals[i].run == run && t'.proposals[i].status.PendingAuto?
    ensures Referenced(t') && Linked(t', {}) && Mirrored(t', {})
  {
    forall i | 0 <= i < |t.proposals| ensures t'.proposals[i] == t.proposals[i] {
      assert t'.proposals[..|t.proposals|][i] == t'.proposals[i];
    }
    assert forall i: nat :: HasApproval(t, i) ==> HasApproval(t', i);
    assert forall i: nat :: HasMirror(t', i) <==> HasMirror(t, i);
  }

  /** The loop starts on the rows just inserted. */
  lemma InsertedLoop(t: Tables, t': Tables, l: Loop, drafts: seq<Draft>)
    requires l.run < |t.runs| && NoProposals(t, l.run) && t'.runs == t.runs
    requires t'.proposals == t.proposals + NewProposals(l.run, drafts)
    requires l.todo == Ids(|t.proposals|, |drafts|) && !l.queued
    ensures LoopCoherent(t', l)
  {
  }

  lemma InsertedRest(env: Env, t: Tables, t': Tables, run: nat, drafts: seq<Draft>)
    requires OthersAtRest(env, t, Some(run))
    requires t'.proposals == t.proposals + NewProposals(run, drafts) && t'.runs == t.runs && t'.steps == t.steps
    ensures OthersAtRest(env, t', Some(run))
  {
    forall r: nat | r < |t'.runs| && r != run ensures RunAtRest(env, t', r) {
      SameRunAtRest(env, t, t', r);
    }
  }

  lemma InsertingFacts(env: Env, t: Tables, p: Proc)
    requires Mid(env, t, p) && p.Inserting?
    ensures Referenced(t) && Linked(t, {}) && Mirrored(t, {}) && OthersAtRest(env, t, Some(p.job.run))
    ensures p.job.run < |t.runs| && NoProposals(t, p.job.run)
  {
    hide Referenced, Linked, Mirrored, OthersAtRest, NoProposals, RowsOf, WalkedTo, FoldRows;
  }

  lemma LoopingMade(env: Env, t: Tables, l: Loop)
    requires Referenced(t) && Linked(t, {}) && Mirrored(t, {}) && OthersAtRest(env, t, Some(l.run))
    requires LoopCoherent(t, l)
    ensures Mid(env, t, Looping(l))
  {
    hide Referenced, Linked, Mirrored, OthersAtRest, LoopCoherent;
  }

  lemma FailingMade(env: Env, t: Tables, run: nat)
    requires Referenced(t) && Linked(t, {}) && Mirrored(t, {}) && OthersAtRest(env, t, Some(run)) && run < |t.runs|
    ensures Mid(env, t, Failing(run))
  {
    hide Referenced, Linked, Mirrored, OthersAtRest;
  }

  /** The tables with a run's proposals added, and the loop that starts on them. */
  lemma InsertedMid(env: Env, t: Tables, t': Tables, run: nat, drafts: seq<Draft>, batch: Batch, l: Loop)
    requires Referenced(t) && Linked(t, {}) && Mirrored(t, {}) && OthersAtRest(env, t, Some(run))
    requires run < |t.runs| && NoProposals(t, run)
    requires t' == Tick(t).(proposals := t.proposals + NewProposals(run, drafts), batches := t.batches + [batch])
    requires l.run == run && l.todo == Ids(|t.proposals|, |drafts|) && !l.queued
    ensures Mid(env, t', Failing(run)) && Mid(env, t', Looping(l))
  {
    hide Referenced, Linked, Mirrored, OthersAtRest, NewProposals, Ids, LoopCoherent, NoProposals, Mid;
    NewRows(t, run, drafts);
    InsertedBooks(t, t', run);
    InsertedRest(env, t, t', run, drafts);
    InsertedLoop(t, t', l, drafts);
    FailingMade(env, t', run);
    LoopingMade(env, t', l);
  }

  lemma InsertingMid(env: Env, t: Tables, p: Proc)
    requires Mid(env, t, p) && p.Inserting?
    ensures Mid(env, StepInsert(env, t, p.job).0, StepInsert(env, t, p.job).1)
  {
    var job := p.job;
    hide Mid, ReadDrafts, AddEstimates, Referenced, Linked, Mirrored, OthersAtRest, NewProposals, Ids, NoProposals;
    InsertingFacts(env, t, p);
    var drafts := ReadDrafts(env, job.prior);
    if drafts.None? || (job.origin.ResumedAt? && !env.accountOk(t.clock)) {
      TickedFailing(env, t, job.run);
    } else {
      var state, hold := env.portfolio(t.clock), env.watchlist(t.clock);
      var marks := AddEstimates(env.brokerMarks(t.clock), drafts.value);
      var l := Loop(job.run, job.mode, hold.GetOr(map[]), marks, state.GetOr(PortfolioState(0.0, 0.0, map[], map[])),
                    Ids(|t.proposals|, |drafts.value|), false, false, |t.batches|, t.clock);
      var batch := Batch(job.run, job.mode, job.origin, t.clock, |t.proposals|, drafts.value);
      InsertedMid(env, t, StepInsert(env, t, job).0, job.run, drafts.value, batch, l);
    }
  }

  lemma TickedFailing(env: Env, t: Tables, run: nat)
    requires Referenced(t) && Linked(t, {}) && Mirrored(t, {}) && OthersAtRest(env, t, Some(run)) && run < |t.runs|
    ensures Mid(env, Tick(t), Failing(run))
  {
    var t' := Tick(t);
    BooksKept(t, t', {}, {});
    forall r: nat | r < |t'.runs| && r != run ensures RunAtRest(env, t', r) {
      AtRestElim(env, t, run, r);
      SameRunAtRest(env, t, t', r);
    }
    hide Referenced, Linked, Mirrored, RunAtRest;
    AtRestIntro(env, t', run);
    FailingMade(env, t', run);
  }

  lemma NewRows(t: Tables, run: nat, drafts: seq<Draft>)
    ensures var rows := t.proposals + NewProposals(run, drafts);
            && |t.proposals| <= |rows| && rows[..|t.proposals|] == t.proposals
            && forall i :: |t.proposals| <= i < |rows| ==> rows[i].run == run && rows[i].status.PendingAuto?
  {
  }
}
