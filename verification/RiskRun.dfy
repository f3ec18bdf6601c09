/** Risk limits over a whole run: what the broker holds after every order the proposal loop sends. */
module RiskRun {
  import opened Common
  import opened Risk
  import opened Gate
  import opened Workflow
  import opened Interleaving
  import opened History

  /** The account when the log had `base` entries, the marks, and how much of each later order the broker fills. */
  datatype Account = Account(base: nat, held: Holdings, marks: map<string, real>, fills: nat -> real)

  /** What a broker may do with an order: fill some of it at its mark, and sell no more than is held. */
  ghost function FilledIfPossible(h: Holdings, d: Draft, qty: real, marks: map<string, real>): Holdings {
    if d.symbol in marks && qty <= d.qty && Fillable(h, Part(d, qty)) then Filled(h, Part(d, qty), marks[d.symbol])
    else h
  }

  /** The holdings after the first `k` orders of the log; an order that was refused or ended unfilled moves nothing. */
  ghost function HeldAfter(a: Account, t: Tables, k: nat): Holdings
    requires k <= |t.log|
    decreases k
  {
    if k <= a.base then a.held
    else
      var before := HeldAfter(a, t, k - 1);
      var s := t.log[k - 1];
      if s.accepted && s.proposal < |t.proposals|
      then FilledIfPossible(before, t.proposals[s.proposal].draft, a.fills(k - 1), a.marks) else before
  }

  ghost function HeldNow(a: Account, t: Tables): Holdings {
    HeldAfter(a, t, |t.log|)
  }

  /** The limits hold after each order since `base`. */
  ghost predicate SafeThroughout(e: Engine, a: Account, t: Tables) {
    forall k :: a.base <= k <= |t.log| ==> Safe(e, HeldAfter(a, t, k), a.marks)
  }

  /** The loop is about to read its state again. */
  predicate Reads(p: Proc) {
    p.Returning? && p.ok && p.caller.FromLoop?
  }

  /** A report of what is held, with or without rows for flat positions; or none at all. */
  ghost predicate Reports(env: Env, t: Tables, a: Account) {
    env.portfolio(t.clock).Some? ==> SameState(env.portfolio(t.clock).value, StateOf(HeldNow(a, t), a.marks))
  }

  /** Whenever the loop reads its state again, the broker reports what it holds. */
  ghost predicate Truthful(env: Env, t: Tables, p: Proc, a: Account)
    decreases Phase(p), Left(p), Rank(p), WaitsOf(p)
  {
    p.Finished? ||
    (&& (Reads(p) ==> Reports(env, t, a))
     && (StepProgress(env, t, p);
         Truthful(env, Step(env, t, p).0, Step(env, t, p).1, a)))
  }

  lemma TruthfulNext(env: Env, t: Tables, p: Proc, a: Account)
    requires Truthful(env, t, p, a) && !p.Finished?
    ensures Truthful(env, Step(env, t, p).0, Step(env, t, p).1, a)
    ensures Reads(p) ==> Reports(env, t, a)
  {
    hide Step, Reports;
  }

  /* ------------------------------------------------------------------ the log grows, the drafts stay */

  /** Every order since `base` is for a proposal in the table. */
  ghost predicate Known(a: Account, t: Tables) {
    a.base <= |t.log| && forall i :: a.base <= i < |t.log| ==> t.log[i].proposal < |t.proposals|
  }

  lemma {:induction false} HeldSame(a: Account, t: Tables, t': Tables, k: nat)
    requires k <= |t.log| && Known(a, t) && SameProposals(t, t') && SameLog(t, t')
    ensures HeldAfter(a, t', k) == HeldAfter(a, t, k)
    decreases k
  {
    if k > a.base {
      HeldSame(a, t, t', k - 1);
      hide FilledIfPossible;
    }
  }

  /** Old entries stay safe, so only a new one has to be looked at. */
  lemma SafeMore(e: Engine, a: Account, t: Tables, t': Tables)
    requires Known(a, t) && SameProposals(t, t') && SameLog(t, t') && SafeThroughout(e, a, t)
    requires |t'.log| > |t.log| ==> Safe(e, HeldNow(a, t'), a.marks)
    ensures SafeThroughout(e, a, t')
  {
    hide Safe, HeldAfter;
    forall k | a.base <= k <= |t'.log| ensures Safe(e, HeldAfter(a, t', k), a.marks) {
      if k <= |t.log| {
        HeldSame(a, t, t', k);
      }
    }
  }

  /* ------------------------------------------------------------------ one order */

  /** An order the gate lets through keeps the limits, however much of it the broker fills. */
  lemma SentOrderIsSafe(e: Engine, mode: Mode, hold: map<string, bool>, h: Holdings, state: PortfolioState, d: Draft,
        qty: real, marks: map<string, real>)
    requires !mode.BypassRisk? && Safe(e, h, marks) && SameState(state, StateOf(h, marks))
    requires VerdictOf(e, mode, hold, marks, state, d).Submit?
    ensures Safe(e, FilledIfPossible(h, d, qty, marks), marks)
  {
    SameVerdict(e, mode, hold, marks, state, StateOf(h, marks), d);
    hide Safe, Filled, Evaluate, GateOrder, StateOf, SameState;
    if d.symbol in marks && qty <= d.qty && Fillable(h, Part(d, qty)) {
      if d.side.Sell? {
        SaleKeepsLimits(e, h, marks, Part(d, qty));
      } else {
        BuyKeepsLimits(e, h, marks, d, qty);
      }
    }
  }

  /* ------------------------------------------------------------------ the run */

  predicate Ending(p: Proc) {
    Fails(p) || p.Finished?
  }

  /** The loop works with the account's marks and judges by what is held. */
  ghost predicate LoopGuarded(t: Tables, p: Proc, a: Account) {
    && LoopOf(p).Some?
    && var l := LoopOf(p).value;
       && !l.mode.BypassRisk? && l.marks == a.marks
       && (Fresh(p) ==> SameState(l.state, StateOf(HeldNow(a, t), a.marks)))
  }

  ghost predicate Guarded(env: Env, t: Tables, p: Proc, a: Account) {
    Known(a, t) && SafeThroughout(env.engine, a, t) && (Ending(p) || LoopGuarded(t, p, a))
  }

  /** A step that sends nothing keeps what is held. */
  lemma QuietKeeps(e: Engine, a: Account, t: Tables, t': Tables)
    requires Known(a, t) && SafeThroughout(e, a, t) && t'.log == t.log && SameProposals(t, t')
    ensures Known(a, t') && SafeThroughout(e, a, t') && HeldNow(a, t') == HeldNow(a, t)
  {
    hide SafeThroughout, HeldAfter;
    SafeMore(e, a, t, t');
    HeldSame(a, t, t', |t.log|);
  }

  /** One more order that the gate let through. */
  lemma SentSafe(e: Engine, a: Account, t: Tables, t': Tables, l: Loop, id: nat)
    requires Known(a, t) && SafeThroughout(e, a, t) && SameLog(t, t') && t'.proposals == t.proposals
    requires |t'.log| == |t.log| + 1 && t'.log[|t.log|].proposal == id < |t.proposals|
    requires !l.mode.BypassRisk? && l.marks == a.marks && SameState(l.state, StateOf(HeldNow(a, t), a.marks))
    requires VerdictOf(e, l.mode, l.hold, l.marks, l.state, t.proposals[id].draft).Submit?
    ensures Known(a, t') && SafeThroughout(e, a, t')
    ensures !t'.log[|t.log|].accepted ==> HeldNow(a, t') == HeldNow(a, t)
  {
    hide Safe, VerdictOf, StateOf, FilledIfPossible, SameState;
    var h := HeldNow(a, t);
    assert Safe(e, h, a.marks);
    HeldSame(a, t, t', |t.log|);
    SentOrderIsSafe(e, l.mode, l.hold, h, l.state, t.proposals[id].draft, a.fills(|t.log|), a.marks);
    SafeMore(e, a, t, t');
  }

  lemma SendShape(env: Env, t: Tables, id: nat, authority: Authority, rest: Loop)
    ensures var next := Send(env, t, id, authority, FromLoop(rest));
            && SameLog(t, next.0) && |next.0.log| == |t.log| + 1 && next.0.log[|t.log|].proposal == id
            && next.0.proposals == t.proposals
            && LoopOf(next.1) == Some(rest) && (Fresh(next.1) ==> !next.0.log[|t.log|].accepted)
  {
  }

  lemma SendKeeps(env: Env, t: Tables, l: Loop, a: Account)
    requires Guarded(env, t, Looping(l), a) && l.todo != [] && l.todo[0] < |t.proposals|
    requires VerdictOf(env.engine, l.mode, l.hold, l.marks, l.state, t.proposals[l.todo[0]].draft).Submit?
    ensures var next := Send(env, t, l.todo[0], GateAuthority(l), FromLoop(l.(todo := l.todo[1..])));
            Guarded(env, next.0, next.1, a)
  {
    var rest := l.(todo := l.todo[1..]);
    var next := Send(env, t, l.todo[0], GateAuthority(l), FromLoop(rest));
    hide Send, SafeThroughout, HeldAfter, VerdictOf, StateOf, SameState, Known, SameLog;
    SendShape(env, t, l.todo[0], GateAuthority(l), rest);
    SentSafe(env.engine, a, t, next.0, l, l.todo[0]);
  }

  lemma LoopStepGuarded(env: Env, t: Tables, l: Loop, a: Account)
    requires Guarded(env, t, Looping(l), a)
    ensures Guarded(env, StepLoop(env, t, l).0, StepLoop(env, t, l).1, a)
  {
    var next := StepLoop(env, t, l);
    LoopExtends(env, t, l);
    hide SafeThroughout, HeldNow, VerdictOf, StateOf, SameState, Send, Known, SameProposals, SameLog;
    if next.0.log == t.log {
      QuietKeeps(env.engine, a, t, next.0);
    }
    if l.todo != [] && l.todo[0] < |t.proposals| && env.hasBroker {
      if VerdictOf(env.engine, l.mode, l.hold, l.marks, l.state, t.proposals[l.todo[0]].draft).Submit? {
        SendKeeps(env, t, l, a);
      }
    }
  }

  /** Every other step of the loop's process leaves the log alone and carries the loop along. */
  lemma SubmissionCarries(env: Env, t: Tables, p: Proc)
    requires LoopOf(p).Some? && Submits(p)
    ensures var next := StepSubmit(env, t, p);
            && next.0.log == t.log
            && (Ending(next.1) ||
                (&& LoopOf(next.1).Some?
                 && var l, l' := LoopOf(p).value, LoopOf(next.1).value;
                    && l'.mode == l.mode && l'.marks == l.marks
                    && (Fresh(next.1) && Fresh(p) ==> l'.state == l.state)
                    && (Fresh(next.1) && !Fresh(p) ==> Reads(p) && Some(l'.state) == env.portfolio(t.clock))))
  {
    hide CloseMirror, IsBrokerTerminal, RejectProposal, SetProposal, SetMirror;
    SubmissionLog(env, t, p);
  }

  lemma SubmissionLog(env: Env, t: Tables, p: Proc)
    requires Submits(p)
    ensures StepSubmit(env, t, p).0.log == t.log
  {
    hide CloseMirror, IsBrokerTerminal;
  }

  lemma SubmitStepGuarded(env: Env, t: Tables, p: Proc, a: Account)
    requires Guarded(env, t, p, a) && Submits(p) && (Reads(p) ==> Reports(env, t, a))
    ensures Guarded(env, StepSubmit(env, t, p).0, StepSubmit(env, t, p).1, a)
  {
    var next := StepSubmit(env, t, p);
    SubmitExtends(env, t, p);
    SubmissionCarries(env, t, p);
    hide StepSubmit, SafeThroughout, HeldNow, StateOf, SameState, Known, SameProposals, LoopOf;
    QuietKeeps(env.engine, a, t, next.0);
  }

  lemma OtherStepGuarded(env: Env, t: Tables, p: Proc, a: Account)
    requires Guarded(env, t, p, a) && (Fails(p) || p.Queueing?)
    ensures Guarded(env, Step(env, t, p).0, Step(env, t, p).1, a)
  {
    var next := Step(env, t, p);
    StepExtends(env, t, p);
    hide SafeThroughout, HeldNow, StateOf, SameState, Known, SameProposals, HasPending, HasAwaiting;
    QuietKeeps(env.engine, a, t, next.0);
  }

  lemma GuardedLoop(env: Env, t: Tables, p: Proc, a: Account)
    requires Guarded(env, t, p, a)
    ensures p.Finished? || p.Looping? || Submits(p) || Fails(p) || p.Queueing?
  {
    hide Known, SafeThroughout, SameState, HeldNow;
  }

  lemma {:induction false} RunGuarded(env: Env, t: Tables, p: Proc, a: Account)
    requires Guarded(env, t, p, a) && Truthful(env, t, p, a)
    ensures Known(a, RunToEnd(env, t, p)) && SafeThroughout(env.engine, a, RunToEnd(env, t, p))
    decreases Phase(p), Left(p), Rank(p), WaitsOf(p)
  {
    if p.Finished? {
      hide SafeThroughout, Known;
    } else {
      var next := Step(env, t, p);
      StepProgress(env, t, p);
      TruthfulNext(env, t, p, a);
      GuardedLoop(env, t, p, a);
      StepIsGrouped(env, t, p);
      hide Guarded, Truthful, Step, SafeThroughout, Known, StepLoop, StepSubmit, Reports;
      if p.Looping? {
        LoopStepGuarded(env, t, p.loop, a);
      } else if Submits(p) {
        SubmitStepGuarded(env, t, p, a);
      } else {
        OtherStepGuarded(env, t, p, a);
      }
      RunGuarded(env, next.0, next.1, a);
    }
  }

  /** Whole-run risk safety. Outside `bypass_risk`, with fixed positive marks and a broker that reports what it holds:
      if cash ratio and weights are within their limits when the proposal loop starts, they are within them after each
      order of the run, whatever the proposals and the watchlist, whichever orders the broker refuses, rejects later or
      fills in full or in part at the mark, and however the run ends. */
  lemma RunStaysWithinLimits(env: Env, t: Tables, l: Loop, a: Account)
    requires !l.mode.BypassRisk? && a.base == |t.log| && a.marks == l.marks
    requires Safe(env.engine, a.held, a.marks) && SameState(l.state, StateOf(a.held, a.marks))
    requires Truthful(env, t, Looping(l), a)
    ensures var after := RunToEnd(env, t, Looping(l));
            && |t.log| <= |after.log|
            && forall k :: |t.log| <= k <= |after.log| ==> Safe(env.engine, HeldAfter(a, after, k), a.marks)
  {
    assert HeldNow(a, t) == a.held;
    assert Guarded(env, t, Looping(l), a);
    hide RunToEnd, Guarded, Truthful, Safe, HeldAfter, StateOf, SameState;
    RunGuarded(env, t, Looping(l), a);
  }

  /** How much of each order was filled, by the mirrors of the tables. */
  ghost function FilledByMirror(t: Tables): nat -> real {
    (i: nat) =>
      if i < |t.log| && exists m :: IsFillOf(t, i, m) then
        var m :| IsFillOf(t, i, m); t.mirrors[m].qty
      else 0.0
  }

  ghost predicate IsFillOf(t: Tables, i: nat, m: int)
    requires i < |t.log|
  {
    0 <= m < |t.mirrors| && t.mirrors[m].proposal == t.log[i].proposal && t.mirrors[m].status.MirrorFilled?
  }

  /** The same with the fills that the run's own mirrors record when it is over. */
  lemma MirroredRunStaysWithinLimits(env: Env, t: Tables, l: Loop, h: Holdings)
    requires !l.mode.BypassRisk? && Safe(env.engine, h, l.marks) && SameState(l.state, StateOf(h, l.marks))
    requires var after := RunToEnd(env, t, Looping(l));
             Truthful(env, t, Looping(l), Account(|t.log|, h, l.marks, FilledByMirror(after)))
    ensures var after := RunToEnd(env, t, Looping(l));
            var a := Account(|t.log|, h, l.marks, FilledByMirror(after));
            && |t.log| <= |after.log|
            && forall k :: |t.log| <= k <= |after.log| ==> Safe(env.engine, HeldAfter(a, after, k), l.marks)
  {
    var after := RunToEnd(env, t, Looping(l));
    hide RunToEnd, Truthful, Safe, HeldAfter, StateOf, SameState;
    RunStaysWithinLimits(env, t, l, Account(|t.log|, h, l.marks, FilledByMirror(after)));
  }
}
