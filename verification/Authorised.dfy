/** Every order the broker sees was authorised, under any interleaving of calls. */
module Authorised {
  import opened Common
  import opened Risk
  import opened Gate
  import opened Workflow
  import opened Interleaving
  import opened History
  import opened Modes
  import opened Marks

  predicate BuysOnlyHoldable(d: Draft, hold: map<string, bool>) {
    d.side.Buy? ==> Holdable(hold, d.symbol)
  }

  /* ------------------------------------------------------------------ what a run read when it inserted */

  /** The mode is the one the run was started with or, after a resume, its strategy's at that moment. */
  predicate ModeOf(env: Env, t: Tables, run: nat, mode: Mode, origin: Origin, before: nat) {
    && run < |t.runs|
    && match origin
       case Started => mode == t.runs[run].mode
       case ResumedAt(c) => c < before && StrategySays(env, c, t.runs[run].strategy, mode)
  }

  /** The batch belongs to a run, and its mode is that run's. */
  predicate BatchSound(env: Env, t: Tables, b: Batch) {
    b.clock < t.clock && ModeOf(env, t, b.run, b.mode, b.origin, b.clock)
  }

  /** The proposal is one of those inserted in the batch. */
  predicate InBatch(t: Tables, b: Batch, id: nat) {
    && b.first <= id < b.first + |b.drafts|
    && id < |t.proposals|
    && t.proposals[id].draft == b.drafts[id - b.first]
    && t.proposals[id].run == b.run
  }

  /** The watchlist is what the run read when it inserted the batch. */
  predicate WatchlistOf(env: Env, b: Batch, hold: map<string, bool>) {
    env.watchlist(b.clock) == Some(hold)
  }

  /** The marks are the broker's at that moment; a symbol without one goes at what the batch itself estimates. */
  ghost predicate MarksOf(env: Env, b: Batch, marks: map<string, real>) {
    MarksAre(env.brokerMarks(b.clock), b.drafts, marks)
  }

  /** An order of the batch that the broker accepted. */
  predicate AcceptedFor(s: Submission, batch: nat) {
    s.accepted && s.authority.ByGate? && s.authority.batch == batch
  }

  /** Among the first `n` orders, those accepted for the batch were all sent before the state was read, and the state
      was read at the insertion if there are none. */
  ghost predicate ReadSince(log: seq<Submission>, n: nat, batch: nat, inserted: nat, readAt: nat)
    requires n <= |log|
  {
    && inserted <= readAt
    && (forall j :: 0 <= j < n && AcceptedFor(log[j], batch) ==> log[j].at < readAt)
    && (readAt == inserted || HasAccepted(log, n, batch))
  }

  ghost predicate HasAccepted(log: seq<Submission>, n: nat, batch: nat)
    requires n <= |log|
  {
    exists j :: 0 <= j < n && AcceptedFor(log[j], batch)
  }

  /* ------------------------------------------------------------------ authorised orders */

  /** The rule engine passes quantity times mark, or risk is bypassed and the quantity is positive. */
  ghost predicate PassedGate(env: Env, d: Draft, mode: Mode, marks: map<string, real>, state: PortfolioState) {
    && d.symbol in marks && marks[d.symbol] > 0.0
    && (if mode.BypassRisk? then d.qty > 0.0
        else Evaluate(env.engine, state, GateOrder(d.symbol, d.side, d.qty, marks[d.symbol])).autoExecute)
  }

  /** An order sent by the loop that inserted its proposal: that loop's mode, watchlist and marks, and the portfolio as
      read after the loop's last accepted order and before this one. */
  ghost predicate ByLoop(env: Env, t: Tables, i: nat)
    requires i < |t.log| && t.log[i].authority.ByGate?
  {
    var a := t.log[i].authority;
    && a.batch < |t.batches|
    && var b := t.batches[a.batch];
       && BatchSound(env, t, b) && a.mode == b.mode
       && InBatch(t, b, t.log[i].proposal)
       && WatchlistOf(env, b, a.hold) && MarksOf(env, b, a.marks)
       && env.portfolio(a.readAt) == Some(a.state) && a.readAt < t.log[i].at
       && ReadSince(t.log, i, a.batch, b.clock, a.readAt)
       && BuysOnlyHoldable(b.drafts[t.log[i].proposal - b.first], a.hold)
       && PassedGate(env, b.drafts[t.log[i].proposal - b.first], a.mode, a.marks, a.state)
  }

  /** An order a person approved, of a symbol that was holdable when the proposal's own run inserted it. */
  ghost predicate ByPerson(env: Env, t: Tables, i: nat)
    requires i < |t.log| && t.log[i].authority.ByApproval?
  {
    var a := t.log[i].authority.approval;
    && a < |t.approvals|
    && t.approvals[a].proposal == t.log[i].proposal && t.approvals[a].status.Approved?
    && ApprovalHoldable(env, t, t.approvals[a])
  }

  ghost predicate SubmissionAuthorised(env: Env, t: Tables, i: nat)
    requires i < |t.log|
  {
    match t.log[i].authority
    case ByGate(_, _, _, _, _, _) => ByLoop(env, t, i)
    case ByApproval(_) => ByPerson(env, t, i)
  }

  ghost predicate ApprovalHoldable(env: Env, t: Tables, a: Approval) {
    && a.batch < |t.batches|
    && InBatch(t, t.batches[a.batch], a.proposal)
    && WatchlistOf(env, t.batches[a.batch], a.hold)
    && BuysOnlyHoldable(t.proposals[a.proposal].draft, a.hold)
  }

  /* ------------------------------------------------------------------ the invariant */

  /** The loop holds what was read for its batch. */
  ghost predicate LoopSound(env: Env, t: Tables, l: Loop) {
    && l.batch < |t.batches|
    && var b := t.batches[l.batch];
       && BatchSound(env, t, b) && l.mode == b.mode && l.run == b.run
       && WatchlistOf(env, b, l.hold) && MarksOf(env, b, l.marks)
       && env.portfolio(l.readAt) == Some(l.state) && l.readAt < t.clock
       && (forall i :: 0 <= i < |l.todo| ==> InBatch(t, b, l.todo[i]))
  }

  ghost predicate ReadsSound(t: Tables, p: Proc, l: Loop) {
    && l.batch < |t.batches|
    && (if Fresh(p) then ReadSince(t.log, |t.log|, l.batch, t.batches[l.batch].clock, l.readAt)
        else HasAccepted(t.log, |t.log|, l.batch))
  }

  /** Run, mode and origin a call on its way to the proposals has in hand. */
  ghost predicate ModeSound(env: Env, t: Tables, p: Proc) {
    match p
    case Prelude(job) => ModeOf(env, t, job.run, job.mode, job.origin, t.clock)
    case Entering(job) => ModeOf(env, t, job.run, job.mode, job.origin, t.clock)
    case Calling(job) => ModeOf(env, t, job.run, job.mode, job.origin, t.clock)
    case Inserting(job) => ModeOf(env, t, job.run, job.mode, job.origin, t.clock)
    case Asking(run, _, mode, at) => ModeOf(env, t, run, mode, ResumedAt(at), t.clock)
    case Resumed(run, _, mode, at) => ModeOf(env, t, run, mode, ResumedAt(at), t.clock)
    case Reloading(run, _, mode, at) => ModeOf(env, t, run, mode, ResumedAt(at), t.clock)
    case _ => true
  }

  ghost predicate DispatchSound(t: Tables, p: Proc) {
    p.Dispatching? ==>
      && p.approval < |t.approvals|
      && t.approvals[p.approval].proposal == p.proposal
      && t.approvals[p.approval].status.Approved?
  }

  ghost predicate ProcSound(env: Env, t: Tables, p: Proc) {
    && (LoopOf(p).Some? ==> LoopSound(env, t, LoopOf(p).value) && ReadsSound(t, p, LoopOf(p).value))
    && ModeSound(env, t, p)
    && DispatchSound(t, p)
  }

  /** The run works in the mode it was given. */
  predicate RunSound(env: Env, r: Run) {
    ModeGiven(env, r.startedAt, r.explicit, r.strategy, r.mode)
  }

  ghost predicate TablesSound(env: Env, t: Tables) {
    && (forall r :: 0 <= r < |t.runs| ==> RunSound(env, t.runs[r]))
    && (forall i :: 0 <= i < |t.log| ==> SubmissionAuthorised(env, t, i) && t.log[i].at < t.clock)
    && (forall a :: 0 <= a < |t.approvals| ==> ApprovalHoldable(env, t, t.approvals[a]))
  }

  /** No two loops hold the same batch. */
  predicate Apart(p: Proc, q: Proc) {
    LoopOf(p).Some? && LoopOf(q).Some? ==> LoopOf(p).value.batch != LoopOf(q).value.batch
  }

  ghost predicate AllAuthorised(env: Env, s: System) {
    && TablesSound(env, s.tables)
    && (forall i :: 0 <= i < |s.procs| ==> ProcSound(env, s.tables, s.procs[i]))
    && (forall i, j :: 0 <= i < j < |s.procs| ==> Apart(s.procs[i], s.procs[j]))
  }

  /* ------------------------------------------------------------------ what is kept while others move */

  lemma BatchKept(env: Env, t: Tables, t': Tables, b: Batch, id: nat)
    requires Extends(t, t')
    ensures BatchSound(env, t, b) ==> BatchSound(env, t', b)
    ensures InBatch(t, b, id) ==> InBatch(t', b, id)
  {
    hide StrategySays;
  }

  lemma LoopKept(env: Env, t: Tables, t': Tables, l: Loop)
    requires LoopSound(env, t, l) && Extends(t, t')
    ensures LoopSound(env, t', l)
  {
    var b := t.batches[l.batch];
    BatchKept(env, t, t', b, 0);
    forall i | 0 <= i < |l.todo| ensures InBatch(t', b, l.todo[i]) {
      BatchKept(env, t, t', b, l.todo[i]);
    }
    hide BatchSound, InBatch, WatchlistOf, MarksOf;
  }

  /** Orders accepted for other batches leave a loop's reading as current as it was. */
  lemma ReadsKept(t: Tables, t': Tables, p: Proc, l: Loop)
    requires ReadsSound(t, p, l) && Extends(t, t')
    requires |t'.log| > |t.log| ==> !AcceptedFor(t'.log[|t.log|], l.batch)
    ensures ReadsSound(t', p, l)
  {
    hide AcceptedFor;
    if HasAccepted(t.log, |t.log|, l.batch) {
      var j :| 0 <= j < |t.log| && AcceptedFor(t.log[j], l.batch);
      assert AcceptedFor(t'.log[j], l.batch);
    }
  }

  lemma ModeKept(env: Env, t: Tables, t': Tables, p: Proc)
    requires ModeSound(env, t, p) && Extends(t, t')
    ensures ModeSound(env, t', p)
  {
    hide StrategySays;
  }

  lemma ProcKept(env: Env, t: Tables, t': Tables, p: Proc)
    requires ProcSound(env, t, p) && Extends(t, t')
    requires |t'.log| > |t.log| && LoopOf(p).Some? ==> !AcceptedFor(t'.log[|t.log|], LoopOf(p).value.batch)
    ensures ProcSound(env, t', p)
  {
    ModeKept(env, t, t', p);
    hide ModeSound, LoopOf, LoopSound, ReadsSound, AcceptedFor;
    if LoopOf(p).Some? {
      LoopKept(env, t, t', LoopOf(p).value);
      ReadsKept(t, t', p, LoopOf(p).value);
    }
  }

  lemma ApprovalKept(env: Env, t: Tables, t': Tables, a: Approval)
    requires ApprovalHoldable(env, t, a) && Extends(t, t')
    ensures ApprovalHoldable(env, t', a)
  {
    BatchKept(env, t, t', t.batches[a.batch], a.proposal);
    hide WatchlistOf, BuysOnlyHoldable;
  }

  lemma ReadSinceKept(log: seq<Submission>, log': seq<Submission>, n: nat, batch: nat, inserted: nat, readAt: nat)
    requires n <= |log| <= |log'| && (forall j :: 0 <= j < |log| ==> log'[j] == log[j])
    requires ReadSince(log, n, batch, inserted, readAt)
    ensures ReadSince(log', n, batch, inserted, readAt)
  {
    hide AcceptedFor;
    if HasAccepted(log, n, batch) {
      var j :| 0 <= j < n && AcceptedFor(log[j], batch);
      assert AcceptedFor(log'[j], batch);
    }
  }

  lemma SubmissionKept(env: Env, t: Tables, t': Tables, i: nat)
    requires i < |t.log| && SubmissionAuthorised(env, t, i) && Extends(t, t')
    ensures SubmissionAuthorised(env, t', i)
  {
    var s := t.log[i];
    if s.authority.ByGate? {
      var b := t.batches[s.authority.batch];
      BatchKept(env, t, t', b, s.proposal);
      ReadSinceKept(t.log, t'.log, i, s.authority.batch, b.clock, s.authority.readAt);
      hide BatchSound, WatchlistOf, MarksOf, ReadSince, PassedGate, BuysOnlyHoldable;
    } else {
      ApprovalKept(env, t, t', t.approvals[s.authority.approval]);
      hide InBatch, WatchlistOf, BuysOnlyHoldable;
    }
  }

  /* ------------------------------------------------------------------ what the moving process adds */

  /** What the mover's step adds to log and approvals is in order. */
  ghost predicate Adds(env: Env, t: Tables, t': Tables) {
    && |t.log| <= |t'.log| <= |t.log| + 1
    && (|t'.log| > |t.log| ==> SubmissionAuthorised(env, t', |t.log|) && t'.log[|t.log|].at < t'.clock)
    && (forall a :: |t.approvals| <= a < |t'.approvals| ==> ApprovalHoldable(env, t', t'.approvals[a]))
    && (forall r :: |t.runs| <= r < |t'.runs| ==> RunSound(env, t'.runs[r]))
  }

  /** The loop of the process, if any, holds the same batch as before or one that is new. */
  predicate SameBatch(t: Tables, p: Proc, p': Proc) {
    LoopOf(p').Some? ==>
      (LoopOf(p).Some? && LoopOf(p').value.batch == LoopOf(p).value.batch) || LoopOf(p').value.batch == |t.batches|
  }

  /** An order accepted for a batch comes from the process that holds it. */
  predicate SendsOwn(t: Tables, p: Proc, t': Tables) {
    |t'.log| > |t.log| && t'.log[|t.log|].authority.ByGate? ==>
      LoopOf(p).Some? && t'.log[|t.log|].authority.batch == LoopOf(p).value.batch
  }

  ghost predicate Moves(env: Env, t: Tables, p: Proc, t': Tables, p': Proc) {
    ProcSound(env, t', p') && Adds(env, t, t') && SameBatch(t, p, p') && SendsOwn(t, p, t')
  }

  lemma AtTodo(env: Env, t: Tables, l: Loop)
    requires LoopSound(env, t, l) && l.todo != []
    ensures LoopSound(env, t, l.(todo := l.todo[1..]))
    ensures InBatch(t, t.batches[l.batch], l.todo[0])
  {
    hide BatchSound, InBatch, WatchlistOf, MarksOf;
    var rest := l.todo[1..];
    assert forall i :: 0 <= i < |rest| ==> rest[i] == l.todo[i + 1];
  }

  /** Sending the first proposal of a sound loop. */
  lemma SendMoves(env: Env, t: Tables, l: Loop)
    requires ProcSound(env, t, Looping(l)) && l.todo != [] && l.todo[0] < |t.proposals|
    requires VerdictOf(env.engine, l.mode, l.hold, l.marks, l.state, t.proposals[l.todo[0]].draft).Submit?
    ensures var rest := l.(todo := l.todo[1..]);
            var next := Send(env, t, l.todo[0], GateAuthority(l), FromLoop(rest));
            Moves(env, t, Looping(l), next.0, next.1)
  {
    var id := l.todo[0];
    var rest := l.(todo := l.todo[1..]);
    var next := Send(env, t, id, GateAuthority(l), FromLoop(rest));
    var t' := next.0;
    SendShape(env, t, id, GateAuthority(l), rest);
    LoopParts(env, t, l);
    hide ProcSound, Send, LoopSound, ReadsSound, InBatch, BatchSound, WatchlistOf, MarksOf, ReadSince, PassedGate,
         BuysOnlyHoldable, VerdictOf, ByLoop, Extends, SubmissionAuthorised;
    AtTodo(env, t, l);
    LoopKept(env, t, t', rest);
    BatchKept(env, t, t', t.batches[l.batch], id);
    ReadSinceKept(t.log, t'.log, |t.log|, l.batch, t.batches[l.batch].clock, l.readAt);
    SentReads(t, t', next.1, l, rest);
    SentIsAuthorised(env, t, t', l);
    LoopProcSound(env, t', next.1, rest);
  }

  lemma LoopParts(env: Env, t: Tables, l: Loop)
    requires ProcSound(env, t, Looping(l))
    ensures LoopSound(env, t, l) && ReadsSound(t, Looping(l), l)
    ensures l.batch < |t.batches| && BatchSound(env, t, t.batches[l.batch])
    ensures ReadSince(t.log, |t.log|, l.batch, t.batches[l.batch].clock, l.readAt)
  {
    hide BatchSound, InBatch, WatchlistOf, MarksOf, ReadSince;
  }

  lemma LoopProcSound(env: Env, t: Tables, p: Proc, l: Loop)
    requires LoopOf(p) == Some(l) && LoopSound(env, t, l) && ReadsSound(t, p, l)
    ensures ProcSound(env, t, p)
  {
    hide LoopSound, ReadsSound;
  }

  /** What sending an order does to the tables, and where it leads. */
  lemma SendShape(env: Env, t: Tables, id: nat, authority: Authority, rest: Loop)
    ensures var next := Send(env, t, id, authority, FromLoop(rest));
            && next.0.log == t.log + [Submission(id, authority, env.submit(t.clock).Accepted?, t.clock)]
            && next.0.proposals == t.proposals && next.0.approvals == t.approvals && next.0.batches == t.batches
            && next.0.clock == t.clock + 1 && Extends(t, next.0)
            && LoopOf(next.1) == Some(rest) && (Fresh(next.1) <==> env.submit(t.clock).Refused?)
  {
  }

  lemma SentReads(t: Tables, t': Tables, p': Proc, l: Loop, rest: Loop)
    requires ReadsSound(t, Looping(l), l) && rest.batch == l.batch && rest.readAt == l.readAt && t'.batches == t.batches
    requires |t'.log| == |t.log| + 1 && (forall j :: 0 <= j < |t.log| ==> t'.log[j] == t.log[j])
    requires Fresh(p') <==> !t'.log[|t.log|].accepted
    requires t'.log[|t.log|].authority == GateAuthority(l)
    ensures ReadsSound(t', p', rest)
  {
    if Fresh(p') {
      if HasAccepted(t.log, |t.log|, l.batch) {
        var j :| 0 <= j < |t.log| && AcceptedFor(t.log[j], l.batch);
        assert AcceptedFor(t'.log[j], l.batch);
      }
    } else {
      assert AcceptedFor(t'.log[|t.log|], l.batch);
    }
  }

  lemma SentIsAuthorised(env: Env, t: Tables, t': Tables, l: Loop)
    requires l.todo != [] && LoopSound(env, t, l) && BatchSound(env, t', t.batches[l.batch])
    requires InBatch(t', t.batches[l.batch], l.todo[0]) && t'.batches == t.batches && t'.proposals == t.proposals
    requires |t'.log| == |t.log| + 1
    requires t'.log[|t.log|].authority == GateAuthority(l) && t'.log[|t.log|].proposal == l.todo[0]
    requires t'.log[|t.log|].at == t.clock
    requires ReadSince(t'.log, |t.log|, l.batch, t.batches[l.batch].clock, l.readAt)
    requires l.todo[0] < |t.proposals|
    requires VerdictOf(env.engine, l.mode, l.hold, l.marks, l.state, t.proposals[l.todo[0]].draft).Submit?
    ensures SubmissionAuthorised(env, t', |t.log|)
  {
    hide ReadSince, Evaluate, GateOrder, BatchSound, WatchlistOf, MarksOf;
  }

  lemma QueueMoves(env: Env, t: Tables, l: Loop, breaches: seq<string>)
    requires ProcSound(env, t, Looping(l)) && l.todo != []
    requires BuysOnlyHoldable(t.batches[l.batch].drafts[l.todo[0] - t.batches[l.batch].first], l.hold)
    ensures var t' := t.(approvals := t.approvals + [Approval(l.todo[0], Pending, breaches, l.hold, l.batch)]);
            Moves(env, t, Looping(l), t', Queueing(l.(todo := l.todo[1..]), l.todo[0]))
  {
    var t' := t.(approvals := t.approvals + [Approval(l.todo[0], Pending, breaches, l.hold, l.batch)]);
    var rest := l.(todo := l.todo[1..]);
    assert Extends(t, t');
    AtTodo(env, t, l);
    LoopKept(env, t, t', rest);
    BatchKept(env, t, t', t.batches[l.batch], l.todo[0]);
    hide BatchSound, WatchlistOf, MarksOf, ReadSince, Extends;
  }

  lemma SameReads(t: Tables, l: Loop, rest: Loop)
    requires ReadsSound(t, Looping(l), l) && rest.batch == l.batch && rest.readAt == l.readAt
    ensures ReadsSound(t, Looping(rest), rest)
  {
    hide ReadSince;
  }

  lemma LoopGoesOn(env: Env, t: Tables, l: Loop, t': Tables)
    requires ProcSound(env, t, Looping(l)) && Extends(t, t') && t'.log == t.log && l.todo != []
    ensures ProcSound(env, t', Looping(l.(todo := l.todo[1..])))
  {
    var rest := l.(todo := l.todo[1..]);
    assert rest.batch == l.batch && rest.readAt == l.readAt && LoopOf(Looping(rest)) == Some(rest);
    LoopParts(env, t, l);
    hide *;
    AtTodo(env, t, l);
    LoopKept(env, t, t', rest);
    ReadsKept(t, t', Looping(l), l);
    SameReads(t', l, rest);
    LoopProcSound(env, t', Looping(rest), rest);
  }

  /** A step of the loop that sends and queues nothing. */
  lemma QuietMoves(env: Env, t: Tables, l: Loop, t': Tables, p': Proc)
    requires ProcSound(env, t, Looping(l)) && Extends(t, t') && t'.log == t.log && |t'.approvals| == |t.approvals|
    requires |t'.runs| == |t.runs|
    requires (l.todo != [] && p' == Looping(l.(todo := l.todo[1..]))) || Fails(p') || p'.Finished?
    ensures Moves(env, t, Looping(l), t', p')
  {
    if p'.Looping? {
      LoopGoesOn(env, t, l, t');
      hide ProcSound, Extends;
    }
  }

  lemma VerdictHolds(e: Engine, l: Loop, d: Draft)
    requires !VerdictOf(e, l.mode, l.hold, l.marks, l.state, d).NotHoldable?
    ensures BuysOnlyHoldable(d, l.hold)
  {
    hide Evaluate, GateOrder;
  }

  lemma TodoInTable(env: Env, t: Tables, l: Loop)
    requires LoopSound(env, t, l) && l.todo != []
    ensures l.todo[0] < |t.proposals|
    ensures t.proposals[l.todo[0]].draft == t.batches[l.batch].drafts[l.todo[0] - t.batches[l.batch].first]
  {
    AtTodo(env, t, l);
    hide LoopSound;
  }

  lemma LoopMoves(env: Env, t: Tables, l: Loop)
    requires ProcSound(env, t, Looping(l))
    ensures Moves(env, t, Looping(l), StepLoop(env, t, l).0, StepLoop(env, t, l).1)
  {
    var next := StepLoop(env, t, l);
    LoopExtends(env, t, l);
    if l.todo == [] {
      QuietMoves(env, t, l, next.0, next.1);
    } else {
      TodoInTable(env, t, l);
      var v := VerdictOf(env.engine, l.mode, l.hold, l.marks, l.state, t.proposals[l.todo[0]].draft);
      hide ProcSound, Moves, VerdictOf, Extends, Send, LoopSound;
      if v.NeedsApproval? {
        VerdictHolds(env.engine, l, t.proposals[l.todo[0]].draft);
        QueueMoves(env, t, l, v.breaches);
      } else if v.Submit? && env.hasBroker {
        SendMoves(env, t, l);
      } else {
        QuietMoves(env, t, l, next.0, next.1);
      }
    }
  }

  /** The loop an insertion starts. */
  lemma InsertKeepsSound(env: Env, t: Tables, job: Job)
    requires ProcSound(env, t, Inserting(job)) && TablesSound(env, t) && StepInsert(env, t, job).1.Looping?
    ensures ProcSound(env, StepInsert(env, t, job).0, StepInsert(env, t, job).1)
  {
    var next := StepInsert(env, t, job);
    var drafts := ReadDrafts(env, job.prior).value;
    var l, b := next.1.loop, next.0.batches[|t.batches|];
    assert ModeOf(env, t, b.run, b.mode, b.origin, b.clock);
    hide ReadDrafts, AddEstimates, MarksAre, LoopSound, ReadsSound, ModeOf, TablesSound, ProcSound, NewProposals, Ids;
    MarksAreCompleted(env.brokerMarks(t.clock), drafts);
    NewBatchUnused(env, t);
    InsertedReads(t, next.0, next.1);
    InsertedLoop(env, t, next.0, b, l);
    LoopProcSound(env, next.0, next.1, l);
  }

  lemma InsertMoves(env: Env, t: Tables, job: Job)
    requires ProcSound(env, t, Inserting(job)) && TablesSound(env, t)
    ensures Moves(env, t, Inserting(job), StepInsert(env, t, job).0, StepInsert(env, t, job).1)
  {
    hide ReadDrafts, AddEstimates, LoopSound, ReadsSound, ModeOf, SubmissionAuthorised, TablesSound;
    if StepInsert(env, t, job).1.Looping? {
      InsertKeepsSound(env, t, job);
    }
  }

  /** No order was sent for a batch that is not there yet. */
  lemma NewBatchUnused(env: Env, t: Tables)
    requires TablesSound(env, t)
    ensures forall j :: 0 <= j < |t.log| ==> !AcceptedFor(t.log[j], |t.batches|)
  {
    forall j | 0 <= j < |t.log| ensures !AcceptedFor(t.log[j], |t.batches|) {
      assert SubmissionAuthorised(env, t, j);
    }
    hide BatchSound, WatchlistOf, MarksOf, ReadSince, InBatch, PassedGate;
  }

  lemma InsertedReads(t: Tables, t': Tables, p': Proc)
    requires p'.Looping? && p'.loop.batch == |t.batches| < |t'.batches|
    requires p'.loop.readAt == t'.batches[|t.batches|].clock
    requires t'.log == t.log && forall j :: 0 <= j < |t.log| ==> !AcceptedFor(t.log[j], |t.batches|)
    ensures ReadsSound(t', p', p'.loop)
  {
  }

  lemma NewBatchSound(env: Env, t: Tables, t': Tables, b: Batch)
    requires ModeOf(env, t, b.run, b.mode, b.origin, b.clock) && t'.runs == t.runs && b.clock < t'.clock
    ensures BatchSound(env, t', b)
  {
    hide StrategySays;
  }

  lemma IdsAt(from: nat, count: nat, i: nat)
    requires i < count
    ensures |Ids(from, count)| == count && Ids(from, count)[i] == from + i
  {
  }

  lemma InsertedLoop(env: Env, t: Tables, t': Tables, b: Batch, l: Loop)
    requires ModeOf(env, t, b.run, b.mode, b.origin, b.clock) && b.clock == t.clock && b.first == |t.proposals|
    requires t'.runs == t.runs && t'.clock == t.clock + 1
    requires t'.proposals == t.proposals + NewProposals(b.run, b.drafts)
    requires |t'.batches| == |t.batches| + 1 && t'.batches[|t.batches|] == b
    requires l.run == b.run && l.mode == b.mode && l.batch == |t.batches| && l.readAt == t.clock
    requires WatchlistOf(env, b, l.hold) && MarksOf(env, b, l.marks) && env.portfolio(t.clock) == Some(l.state)
    requires l.todo == Ids(b.first, |b.drafts|)
    ensures LoopSound(env, t', l)
  {
    hide InBatch, WatchlistOf, MarksOf, BatchSound, ModeOf, NewProposals, Ids;
    NewBatchSound(env, t, t', b);
    forall i | 0 <= i < |l.todo| ensures InBatch(t', b, l.todo[i]) {
      if |b.drafts| > 0 {
        IdsAt(b.first, |b.drafts|, 0);
      } else {
        NoIds(b.first);
      }
      IdsAt(b.first, |b.drafts|, i);
      InsertedAt(t, t', b, i);
    }
  }

  lemma NoIds(from: nat)
    ensures Ids(from, 0) == []
  {
  }

  lemma InsertedAt(t: Tables, t': Tables, b: Batch, i: nat)
    requires b.first == |t.proposals| && i < |b.drafts| && t'.proposals == t.proposals + NewProposals(b.run, b.drafts)
    ensures InBatch(t', b, b.first + i)
  {
    assert t'.proposals[b.first + i] == NewProposals(b.run, b.drafts)[i];
  }

  /** A submission in progress leaves its process sound. */
  lemma SubmitKeepsSound(env: Env, t: Tables, p: Proc)
    requires ProcSound(env, t, p) && TablesSound(env, t) && Submits(p)
    ensures ProcSound(env, StepSubmit(env, t, p).0, StepSubmit(env, t, p).1)
  {
    var next := StepSubmit(env, t, p);
    hide *;
    SubmitExtends(env, t, p);
    SubmitShape(env, t, p);
    if LoopOf(next.1).Some? {
      var l, l' := LoopOf(p).value, LoopOf(next.1).value;
      SubmittedParts(env, t, p);
      SubmitReads(env, t, next.0, p, next.1, l, l');
      SameReadingLoops(env, t, p, next.0, next.1);
      LoopRead(env, t, next.0, l, l');
      LoopProcSound(env, next.0, next.1, l');
    } else {
      NoLoopSound(env, next.0, next.1);
    }
  }

  lemma NothingAdded(env: Env, t: Tables, p: Proc, t': Tables)
    requires t'.log == t.log && t'.approvals == t.approvals && t'.runs == t.runs
    ensures Adds(env, t, t') && SendsOwn(t, p, t')
  {
    hide SubmissionAuthorised, ApprovalHoldable, RunSound;
  }

  lemma SubmitSameBatch(env: Env, t: Tables, p: Proc)
    requires Submits(p)
    ensures SameBatch(t, p, StepSubmit(env, t, p).1)
  {
    var next := StepSubmit(env, t, p);
    SubmitShape(env, t, p);
    hide StepSubmit, LoopOf, SameReading;
    if LoopOf(next.1).Some? {
      SameReadingLoops(env, t, p, next.0, next.1);
    }
  }

  lemma SubmitMoves(env: Env, t: Tables, p: Proc)
    requires ProcSound(env, t, p) && TablesSound(env, t) && Submits(p)
    ensures Moves(env, t, p, StepSubmit(env, t, p).0, StepSubmit(env, t, p).1)
  {
    hide StepSubmit, ProcSound, TablesSound, Adds, SendsOwn, SameBatch;
    SubmitKeepsSound(env, t, p);
    SubmitTables(env, t, p);
    NothingAdded(env, t, p, StepSubmit(env, t, p).0);
    SubmitSameBatch(env, t, p);
  }

  lemma SubmittedParts(env: Env, t: Tables, p: Proc)
    requires ProcSound(env, t, p) && LoopOf(p).Some?
    ensures LoopSound(env, t, LoopOf(p).value) && ReadsSound(t, p, LoopOf(p).value)
  {
    hide LoopOf, LoopSound, ReadsSound;
  }

  lemma NoLoopSound(env: Env, t: Tables, p: Proc)
    requires LoopOf(p).None? && ModeSound(env, t, p) && !p.Dispatching?
    ensures ProcSound(env, t, p)
  {
    hide ModeSound;
  }

  lemma SameReadingLoops(env: Env, t: Tables, p: Proc, t': Tables, p': Proc)
    requires SameReading(env, t, p, t', p') && LoopOf(p).Some? && LoopOf(p').Some?
    ensures var l, l' := LoopOf(p).value, LoopOf(p').value;
            && l'.batch == l.batch
            && (l' == l || (l' == l.(anyFill := l'.anyFill, state := l'.state, readAt := t.clock)
                            && env.portfolio(t.clock) == Some(l'.state) && t.clock < t'.clock))
  {
    hide LoopOf;
  }

  /** A submission in progress sends no further order; its loop changes only when the portfolio is read again. */
  lemma SubmitShape(env: Env, t: Tables, p: Proc)
    requires Submits(p)
    ensures var next := StepSubmit(env, t, p);
            && next.0.log == t.log && next.0.approvals == t.approvals && next.0.batches == t.batches
            && !next.1.Dispatching? && ModeSound(env, next.0, next.1)
            && (LoopOf(next.1).Some? ==> LoopOf(p).Some? && SameReading(env, t, p, next.0, next.1))
  {
    hide CloseMirror, IsBrokerTerminal, RejectProposal, SetProposal, SetMirror;
    SubmitTables(env, t, p);
  }

  lemma SubmitTables(env: Env, t: Tables, p: Proc)
    requires Submits(p)
    ensures var t' := StepSubmit(env, t, p).0;
            t'.log == t.log && t'.approvals == t.approvals && t'.batches == t.batches && t'.runs == t.runs
  {
    hide CloseMirror, IsBrokerTerminal;
  }

  ghost predicate SameReading(env: Env, t: Tables, p: Proc, t': Tables, p': Proc) {
    LoopOf(p).Some? && LoopOf(p').Some? &&
    var l, l' := LoopOf(p).value, LoopOf(p').value;
    || (l' == l && (Fresh(p') <==> Fresh(p)))
    || (p.Returning? && p'.Looping? && t'.clock == t.clock + 1 && env.portfolio(t.clock) == Some(l'.state)
        && l' == l.(anyFill := l'.anyFill, state := l'.state, readAt := t.clock))
  }

  lemma SubmitReads(env: Env, t: Tables, t': Tables, p: Proc, p': Proc, l: Loop, l': Loop)
    requires ReadsSound(t, p, l) && TablesSound(env, t) && t'.log == t.log && t'.batches == t.batches
    requires SameReading(env, t, p, t', p') && LoopOf(p) == Some(l) && LoopOf(p') == Some(l')
    requires LoopSound(env, t, l)
    ensures ReadsSound(t', p', l')
  {
    assert forall j :: 0 <= j < |t.log| ==> t.log[j].at < t.clock;
    assert t.batches[l.batch].clock < t.clock;
    hide AcceptedFor, TablesSound, LoopSound, LoopOf;
  }

  lemma LoopRead(env: Env, t: Tables, t': Tables, l: Loop, l': Loop)
    requires LoopSound(env, t, l) && Extends(t, t')
    requires l' == l || (l' == l.(anyFill := l'.anyFill, state := l'.state, readAt := t.clock)
                         && env.portfolio(t.clock) == Some(l'.state) && t.clock < t'.clock)
    ensures LoopSound(env, t', l')
  {
    LoopKept(env, t, t', l);
    hide BatchSound, InBatch, WatchlistOf, MarksOf, Extends;
  }

  lemma DispatchMoves(env: Env, t: Tables, p: Proc)
    requires ProcSound(env, t, p) && TablesSound(env, t) && p.Dispatching?
    ensures Moves(env, t, p, StepDecide(env, t, p).0, StepDecide(env, t, p).1)
  {
    var next := StepDecide(env, t, p);
    assert next.0.log
          == t.log + [Submission(p.proposal, ByApproval(p.approval), env.submit(t.clock).Accepted?, t.clock)];
    DecideExtends(env, t, p);
    ApprovalKept(env, t, next.0, t.approvals[p.approval]);
    hide ApprovalHoldable, Extends, TablesSound;
  }

  lemma DecideMoves(env: Env, t: Tables, p: Proc)
    requires Decides(p) && !p.Dispatching?
    ensures Moves(env, t, p, StepDecide(env, t, p).0, StepDecide(env, t, p).1)
  {
    hide HasPending, HasAwaiting;
  }

  lemma ChainMoves(env: Env, t: Tables, p: Proc)
    requires ProcSound(env, t, p) && Walks(p)
    ensures Moves(env, t, p, StepChain(env, t, p).0, StepChain(env, t, p).1)
  {
    hide ApplyEnvelope, ResolveMode, StrategySays;
  }

  lemma ResumeMoves(env: Env, t: Tables, p: Proc)
    requires ProcSound(env, t, p) && Resumes(p)
    ensures Moves(env, t, p, StepResume(env, t, p).0, StepResume(env, t, p).1)
  {
    if StepResume(env, t, p).1.Asking? {
      ResolvesIff(env, t.clock, None, t.runs[p.run].strategy, StepResume(env, t, p).1.mode);
    }
    hide LoadPrior, RestAfter, HasInterrupted, UpdateRows, ResolveMode, StrategySays;
  }

  lemma CancelMoves(env: Env, t: Tables, p: Proc)
    requires Cancels(p)
    ensures Moves(env, t, p, StepCancel(env, t, p).0, StepCancel(env, t, p).1)
  {
    hide SomePrice, AwaitingIds;
  }

  lemma FailureMoves(env: Env, t: Tables, p: Proc)
    requires Fails(p)
    ensures Moves(env, t, p, StepFailure(t, p).0, StepFailure(t, p).1)
  {
    hide HasPending, HasAwaiting;
  }

  lemma QueuedMoves(env: Env, t: Tables, p: Proc)
    requires ProcSound(env, t, p) && (p.Queueing? || p.Starting? || p.Finished?)
    ensures Moves(env, t, p, Step(env, t, p).0, Step(env, t, p).1)
  {
    var next := Step(env, t, p);
    if p.Starting? {
      var mode := ResolveMode(env, t.clock, p.explicit, p.strategy);
      ResolvesIff(env, t.clock, p.explicit, p.strategy, mode.GetOr(RequireApproval));
      hide ResolveMode, ModeGiven;
    }
    if p.Queueing? {
      OtherExtends(env, t, p);
      LoopKept(env, t, next.0, p.loop);
      assert LoopSound(env, next.0, p.loop.(queued := true));
      hide LoopSound, ReadSince, Extends;
    }
  }

  lemma MoverMoves(env: Env, t: Tables, p: Proc)
    requires ProcSound(env, t, p) && TablesSound(env, t)
    ensures Moves(env, t, p, Step(env, t, p).0, Step(env, t, p).1)
  {
    hide Step, Moves, ProcSound, TablesSound, StepLoop, StepInsert, StepChain, StepResume, StepSubmit, StepDecide,
         StepCancel, StepFailure;
    StepIsGrouped(env, t, p);
    if p.Looping? {
      LoopMoves(env, t, p.loop);
    } else if p.Inserting? {
      InsertMoves(env, t, p.job);
    } else if Walks(p) {
      ChainMoves(env, t, p);
    } else if Resumes(p) {
      ResumeMoves(env, t, p);
    } else if Submits(p) {
      SubmitMoves(env, t, p);
    } else if p.Dispatching? {
      DispatchMoves(env, t, p);
    } else if Decides(p) {
      DecideMoves(env, t, p);
    } else if Cancels(p) {
      CancelMoves(env, t, p);
    } else if Fails(p) {
      FailureMoves(env, t, p);
    } else {
      QueuedMoves(env, t, p);
    }
  }

  /* ------------------------------------------------------------------ any interleaving */

  lemma TablesStaySound(env: Env, t: Tables, t': Tables)
    requires TablesSound(env, t) && Extends(t, t') && Adds(env, t, t')
    ensures TablesSound(env, t')
  {
    hide SubmissionAuthorised, ApprovalHoldable, ApprovalEdge;
    forall i | 0 <= i < |t'.log| ensures SubmissionAuthorised(env, t', i) && t'.log[i].at < t'.clock {
      if i < |t.log| {
        SubmissionKept(env, t, t', i);
      }
    }
    forall r | 0 <= r < |t'.runs| ensures RunSound(env, t'.runs[r]) {
      if r < |t.runs| {
        assert RunSound(env, t.runs[r]);
      }
    }
    forall a | 0 <= a < |t'.approvals| ensures ApprovalHoldable(env, t', t'.approvals[a]) {
      if a < |t.approvals| {
        ApprovalKept(env, t, t', t.approvals[a]);
        SameHoldable(env, t', t.approvals[a], t'.approvals[a]);
      }
    }
  }

  lemma SameHoldable(env: Env, t: Tables, a: Approval, b: Approval)
    requires ApprovalHoldable(env, t, a) && b.proposal == a.proposal && b.hold == a.hold && b.batch == a.batch
    ensures ApprovalHoldable(env, t, b)
  {
  }

  lemma HoldsOldBatch(env: Env, t: Tables, q: Proc)
    requires ProcSound(env, t, q) && LoopOf(q).Some?
    ensures LoopOf(q).value.batch < |t.batches|
  {
    hide LoopOf, ModeSound, BatchSound, InBatch, WatchlistOf, MarksOf, ReadsSound;
  }

  lemma StaysApart(env: Env, t: Tables, p: Proc, p': Proc, q: Proc)
    requires ProcSound(env, t, q) && SameBatch(t, p, p') && Apart(p, q)
    ensures Apart(p', q) && Apart(q, p')
  {
    if LoopOf(q).Some? {
      HoldsOldBatch(env, t, q);
    }
    hide ProcSound, LoopOf;
  }

  /** An order of the moving process is not one of the other's batch. */
  lemma NotForOther(t: Tables, t': Tables, p: Proc, q: Proc)
    requires SendsOwn(t, p, t') && Apart(p, q) && |t'.log| > |t.log| && LoopOf(q).Some?
    ensures !AcceptedFor(t'.log[|t.log|], LoopOf(q).value.batch)
  {
    hide LoopOf;
  }

  lemma BystanderKept(env: Env, t: Tables, t': Tables, p: Proc, p': Proc, q: Proc)
    requires ProcSound(env, t, q) && Extends(t, t') && SendsOwn(t, p, t') && SameBatch(t, p, p') && Apart(p, q)
    ensures ProcSound(env, t', q)
    ensures Apart(p', q) && Apart(q, p')
  {
    hide *;
    StaysApart(env, t, p, p', q);
    if |t'.log| > |t.log| && LoopOf(q).Some? {
      NotForOther(t, t', p, q);
    }
    ProcKept(env, t, t', q);
  }

  lemma ActKeepsAuthorised(env: Env, s: System, a: Action)
    requires AllAuthorised(env, s)
    ensures AllAuthorised(env, Act(env, s, a))
  {
    hide Step, ProcSound, Extends, TablesSound, Apart, Adds, SameBatch, SendsOwn;
    if a.Advance? && a.proc < |s.procs| {
      var t, p := s.tables, s.procs[a.proc];
      var next := Step(env, t, p);
      StepExtends(env, t, p);
      MoverMoves(env, t, p);
      TablesStaySound(env, t, next.0);
      forall j | 0 <= j < |s.procs| && j != a.proc
        ensures ProcSound(env, next.0, s.procs[j]) && Apart(next.1, s.procs[j]) && Apart(s.procs[j], next.1)
      {
        ApartSymmetric(s.procs[j], p);
        BystanderKept(env, t, next.0, p, next.1, s.procs[j]);
      }
    } else if a.Spawn? && IsEntry(a.entry) {
      EntrySound(env, s.tables, a.entry);
      forall j | 0 <= j < |s.procs| ensures Apart(s.procs[j], a.entry) {
        EntryApart(s.procs[j], a.entry);
      }
    }
  }

  lemma ApartSymmetric(p: Proc, q: Proc)
    ensures Apart(p, q) <==> Apart(q, p)
  {
  }

  lemma EntryApart(p: Proc, entry: Proc)
    requires IsEntry(entry)
    ensures Apart(p, entry)
  {
  }

  lemma EntrySound(env: Env, t: Tables, p: Proc)
    requires IsEntry(p)
    ensures ProcSound(env, t, p)
  {
  }

  /** Whatever calls are interleaved, every order in the broker's log was authorised. An order of a proposal loop passed
      the rule engine on quantity times mark, or ran under `bypass_risk` with a positive quantity: the mode is the one
      its run was started with or its strategy's on the resume, watchlist and marks are what the loop read when it
      inserted the proposal, and the portfolio was read after the loop's last accepted order, at the insertion if there
      was none. Any other order was approved by a person. A buy is of a symbol that was holdable in the watchlist that
      the loop which inserted the proposal read. */
  lemma {:induction false} EveryOrderAuthorised(env: Env, s: System, actions: seq<Action>)
    requires AllAuthorised(env, s)
    ensures AllAuthorised(env, Execute(env, s, actions))
    decreases |actions|
  {
    if actions != [] {
      hide AllAuthorised, Act;
      ActKeepsAuthorised(env, s, actions[0]);
      EveryOrderAuthorised(env, Act(env, s, actions[0]), actions[1..]);
    }
  }

  lemma AuthorisedFromStart(env: Env, actions: seq<Action>)
    ensures var t := Execute(env, EMPTY, actions).tables;
            forall i :: 0 <= i < |t.log| ==> SubmissionAuthorised(env, t, i)
  {
    EveryOrderAuthorised(env, EMPTY, actions);
  }

  /** Risk is bypassed only on request: an order that was sent under `bypass_risk` comes from a run that was given that
      mode explicitly, or from one whose strategy said so when the run was started or, after a pause, resumed. */
  lemma BypassWasAskedFor(env: Env, actions: seq<Action>, i: nat)
    requires i < |Execute(env, EMPTY, actions).tables.log|
    requires var a := Execute(env, EMPTY, actions).tables.log[i].authority; a.ByGate? && a.mode.BypassRisk?
    ensures var t := Execute(env, EMPTY, actions).tables;
            && t.log[i].authority.batch < |t.batches|
            && var b := t.batches[t.log[i].authority.batch];
               && b.run < |t.runs|
               && var r := t.runs[b.run];
                  match b.origin
                  case Started => r.explicit == Some(BypassRisk) || AskedByStrategy(env, r.startedAt, r.strategy)
                  case ResumedAt(c) => AskedByStrategy(env, c, r.strategy)
  {
    var t := Execute(env, EMPTY, actions).tables;
    EveryOrderAuthorised(env, EMPTY, actions);
    hide Execute, InBatch, WatchlistOf, MarksOf, ReadSince, BuysOnlyHoldable, PassedGate, ApprovalHoldable;
    assert SubmissionAuthorised(env, t, i);
    var b := t.batches[t.log[i].authority.batch];
    assert RunSound(env, t.runs[b.run]);
  }

  /** The strategy is there and its own mode is `bypass_risk`. */
  predicate AskedByStrategy(env: Env, clock: nat, strategy: Option<nat>) {
    strategy.Some? && env.strategyMode(clock, strategy.value) == Some(Some(BypassRisk))
  }

  /** After a pause the mode is resolved from the strategy alone.  So an order that a resumed run sends from its loop is
      judged in the mode the run was started with exactly when that mode was not given explicitly, or is the strategy's
      anyway (the strategy being as it was). */
  lemma PauseKeepsModeIff(env: Env, actions: seq<Action>, i: nat)
    requires i < |Execute(env, EMPTY, actions).tables.log|
    requires SentAfterPause(env, Execute(env, EMPTY, actions).tables, i)
    ensures var t := Execute(env, EMPTY, actions).tables;
            var r := t.runs[t.batches[t.log[i].authority.batch].run];
            t.log[i].authority.mode == r.mode <==>
              r.explicit.None? || StrategySays(env, r.startedAt, r.strategy, r.explicit.value)
  {
    var t := Execute(env, EMPTY, actions).tables;
    EveryOrderAuthorised(env, EMPTY, actions);
    hide Execute, InBatch, WatchlistOf, MarksOf, ReadSince, BuysOnlyHoldable, PassedGate, ApprovalHoldable;
    assert SubmissionAuthorised(env, t, i);
    var b := t.batches[t.log[i].authority.batch];
    assert RunSound(env, t.runs[b.run]);
  }

  /** The order comes from a resumed run whose strategy says the same as when the run was started. */
  ghost predicate SentAfterPause(env: Env, t: Tables, i: nat)
    requires i < |t.log|
  {
    && t.log[i].authority.ByGate? && t.log[i].authority.batch < |t.batches|
    && var b := t.batches[t.log[i].authority.batch];
       && b.origin.ResumedAt? && b.run < |t.runs|
       && var r := t.runs[b.run];
          r.strategy.Some? ==>
            env.strategyMode(b.origin.clock, r.strategy.value) == env.strategyMode(r.startedAt, r.strategy.value)
  }
}
