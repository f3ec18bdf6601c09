/** Which execution mode orders are judged in. */
module Modes {
  import opened Common
  import opened Risk
  import opened Gate
  import opened Workflow
  import opened History
  import opened WorkflowSteps

  /** What the strategy says: its own mode; approval when there is no strategy or it has no mode. */
  predicate StrategySays(env: Env, clock: nat, strategy: Option<nat>, mode: Mode) {
    match strategy
    case None => mode.RequireApproval?
    case Some(id) =>
      || env.strategyMode(clock, id) == Some(Some(mode))
      || (env.strategyMode(clock, id) == Some(None) && mode.RequireApproval?)
  }

  /** An explicit mode wins over the strategy's. */
  predicate ModeGiven(env: Env, clock: nat, explicit: Option<Mode>, strategy: Option<nat>, mode: Mode) {
    explicit == Some(mode) || (explicit.None? && StrategySays(env, clock, strategy, mode))
  }

  /** The mode depends on a strategy that cannot be loaded. */
  predicate Unloadable(env: Env, clock: nat, explicit: Option<Mode>, strategy: Option<nat>) {
    explicit.None? && strategy.Some? && env.strategyMode(clock, strategy.value).None?
  }

  /** Resolving finds the mode given, and nothing exactly when the strategy cannot be loaded. */
  lemma ResolvesIff(env: Env, clock: nat, explicit: Option<Mode>, strategy: Option<nat>, mode: Mode)
    ensures ResolveMode(env, clock, explicit, strategy) == Some(mode)
          <==> ModeGiven(env, clock, explicit, strategy, mode)
    ensures ResolveMode(env, clock, explicit, strategy).None? <==> Unloadable(env, clock, explicit, strategy)
  {
  }

  /** A run bypasses risk only when it was told to, by the caller or by its strategy. */
  lemma BypassIsGiven(env: Env, clock: nat, explicit: Option<Mode>, strategy: Option<nat>)
    requires ModeGiven(env, clock, explicit, strategy, BypassRisk)
    ensures || explicit == Some(BypassRisk)
            || (strategy.Some? && env.strategyMode(clock, strategy.value) == Some(Some(BypassRisk)))
  {
  }

  /* ------------------------------------------------------------------ the mode of a whole call */

  /** A call on its way to the proposals of a run, in a mode it came by in one way. */
  datatype Purpose = Purpose(run: nat, mode: Mode, origin: Origin)

  predicate JobFor(job: Job, w: Purpose) {
    job.run == w.run && job.mode == w.mode && job.origin == w.origin
  }

  predicate Serves(p: Proc, w: Purpose) {
    match p
    case Prelude(job) => JobFor(job, w)
    case Entering(job) => JobFor(job, w)
    case Calling(job) => JobFor(job, w)
    case Inserting(job) => JobFor(job, w)
    case Asking(run, _, mode, at) => Purpose(run, mode, ResumedAt(at)) == w
    case Resumed(run, _, mode, at) => Purpose(run, mode, ResumedAt(at)) == w
    case Reloading(run, _, mode, at) => Purpose(run, mode, ResumedAt(at)) == w
    case _ => !p.Starting? && !p.Resuming?
  }

  /** Every batch inserted since there were `base` of them. */
  predicate InsertsFor(t: Tables, base: nat, w: Purpose) {
    && base <= |t.batches|
    && forall i :: base <= i < |t.batches| ==>
         t.batches[i].run == w.run && t.batches[i].mode == w.mode && t.batches[i].origin == w.origin
  }

  lemma WalkServes(env: Env, t: Tables, p: Proc, w: Purpose)
    requires Serves(p, w) && (Walks(p) || Resumes(p))
    ensures Walks(p) ==> Serves(StepChain(env, t, p).1, w) && StepChain(env, t, p).0.batches == t.batches
    ensures Resumes(p) ==> Serves(StepResume(env, t, p).1, w) && StepResume(env, t, p).0.batches == t.batches
  {
    hide ApplyEnvelope, LoadPrior, RestAfter, HasInterrupted, UpdateRows, ResolveMode;
  }

  lemma InsertServes(env: Env, t: Tables, job: Job, w: Purpose, base: nat)
    requires JobFor(job, w) && InsertsFor(t, base, w)
    ensures Serves(StepInsert(env, t, job).1, w) && InsertsFor(StepInsert(env, t, job).0, base, w)
  {
    hide ReadDrafts, AddEstimates;
  }

  lemma LoopServes(env: Env, t: Tables, l: Loop, w: Purpose)
    ensures Serves(StepLoop(env, t, l).1, w) && StepLoop(env, t, l).0.batches == t.batches
  {
    hide VerdictOf;
  }

  lemma SubmitServes(env: Env, t: Tables, p: Proc, w: Purpose)
    requires Submits(p)
    ensures Serves(StepSubmit(env, t, p).1, w) && StepSubmit(env, t, p).0.batches == t.batches
  {
    hide CloseMirror, IsBrokerTerminal;
  }

  lemma OtherServes(env: Env, t: Tables, p: Proc, w: Purpose)
    requires Serves(p, w) && (Decides(p) || Cancels(p) || Fails(p) || p.Queueing? || p.Finished?)
    ensures Serves(Step(env, t, p).1, w) && Step(env, t, p).0.batches == t.batches
  {
    hide HasPending, HasAwaiting, SomePrice, AwaitingIds;
  }

  lemma StepServes(env: Env, t: Tables, p: Proc, w: Purpose, base: nat)
    requires Serves(p, w) && InsertsFor(t, base, w)
    ensures Serves(Step(env, t, p).1, w) && InsertsFor(Step(env, t, p).0, base, w)
  {
    StepIsGrouped(env, t, p);
    assert !p.Starting? && !p.Resuming?;
    assert p.Inserting? ==> JobFor(p.job, w);
    hide Step, StepLoop, StepInsert, StepChain, StepResume, StepSubmit, Serves, JobFor;
    if p.Looping? {
      LoopServes(env, t, p.loop, w);
    } else if p.Inserting? {
      InsertServes(env, t, p.job, w, base);
    } else if Walks(p) || Resumes(p) {
      WalkServes(env, t, p, w);
    } else if Submits(p) {
      SubmitServes(env, t, p, w);
    } else {
      OtherServes(env, t, p, w);
    }
  }

  /** Whatever a call inserts is for its run and in its mode. */
  lemma {:induction false} RunServes(env: Env, t: Tables, p: Proc, w: Purpose, base: nat)
    requires Serves(p, w) && InsertsFor(t, base, w)
    ensures InsertsFor(RunToEnd(env, t, p), base, w)
    decreases Phase(p), Left(p), Rank(p), WaitsOf(p)
  {
    OneStep(env, t, p);
    if !p.Finished? {
      var next := Step(env, t, p);
      StepProgress(env, t, p);
      hide Step, RunToEnd, Serves, InsertsFor;
      StepServes(env, t, p, w, base);
      RunServes(env, next.0, next.1, w, base);
    }
  }

  /* ------------------------------------------------------------------ the mode of a run */

  lemma {:induction false} RunKeepsRuns(env: Env, t: Tables, p: Proc)
    ensures SameRuns(t, RunToEnd(env, t, p))
    decreases Phase(p), Left(p), Rank(p), WaitsOf(p)
  {
    OneStep(env, t, p);
    if !p.Finished? {
      var next := Step(env, t, p);
      StepProgress(env, t, p);
      StepExtends(env, t, p);
      hide Step, RunToEnd;
      RunKeepsRuns(env, next.0, next.1);
    }
  }

  /** A run that is started works in the mode it is given, to the last proposal it inserts; when its strategy cannot be
      loaded nothing is started. */
  lemma StartedRunMode(env: Env, t: Tables, strategy: Option<nat>, explicit: Option<Mode>, mode: Mode)
    ensures Unloadable(env, t.clock, explicit, strategy) ==> RunToEnd(env, t, Starting(strategy, explicit)) == Tick(t)
    ensures ModeGiven(env, t.clock, explicit, strategy, mode) ==>
              var after := RunToEnd(env, t, Starting(strategy, explicit));
              && |t.runs| < |after.runs|
              && after.runs[|t.runs|].mode == mode
              && after.runs[|t.runs|].strategy == strategy && after.runs[|t.runs|].explicit == explicit
              && InsertsFor(after, |t.batches|, Purpose(|t.runs|, mode, Started))
  {
    ResolvesIff(env, t.clock, explicit, strategy, mode);
    hide RunToEnd, ResolveMode, ModeGiven, Unloadable;
    if ModeGiven(env, t.clock, explicit, strategy, mode) {
      StartSteps(env, t, strategy, explicit, mode);
      var t1 := WithRun(t, strategy, explicit, mode);
      var p := Prelude(Job(|t.runs|, mode, env.chain, map[], Started));
      RunKeepsRuns(env, t1, p);
      RunServes(env, t1, p, Purpose(|t.runs|, mode, Started), |t.batches|);
    }
    if Unloadable(env, t.clock, explicit, strategy) {
      StartRefused(env, t, strategy, explicit);
    }
  }

  /** A run that is resumed works in the mode its strategy says at that moment, and not in one given when it was
      started; when the strategy cannot be loaded nothing is written. */
  lemma ResumedRunMode(env: Env, t: Tables, run: nat, agent: string, mode: Mode)
    requires run < |t.runs|
    ensures var after := RunToEnd(env, t, Resuming(run, agent));
            && (Unloadable(env, t.clock, None, t.runs[run].strategy) ==> after == t || after == Tick(t))
            && (StrategySays(env, t.clock, t.runs[run].strategy, mode) ==>
                  InsertsFor(after, |t.batches|, Purpose(run, mode, ResumedAt(t.clock))))
  {
    var strategy := t.runs[run].strategy;
    ResolvesIff(env, t.clock, None, strategy, mode);
    assert ModeGiven(env, t.clock, None, strategy, mode) <==> StrategySays(env, t.clock, strategy, mode);
    hide RunToEnd, ResolveMode, ModeGiven, Unloadable, StrategySays, Resumable;
    if !Resumable(env, t, run, agent) {
      ResumeRefused(env, t, run, agent);
    } else if !Reachable(env, t, run) {
      ResumeUnreachable(env, t, run, agent);
    } else {
      ResumeAsks(env, t, run, agent);
      if StrategySays(env, t.clock, strategy, mode) {
        RunServes(env, Tick(t), Asking(run, agent, mode, t.clock), Purpose(run, mode, ResumedAt(t.clock)), |t.batches|);
      }
    }
  }
}
