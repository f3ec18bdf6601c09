/** The proposal loop, submissions, decisions and cancellations of a serial call keep the tables coherent. */
module SerialProposals {
  import opened Common
  import opened Risk
  import opened Gate
  import opened Workflow
  import opened Interleaving
  import opened History
  import opened Chain
  import opened Serial
  import opened SerialSteps

  /* ------------------------------------------------------------------ facts about one proposal */

  lemma RestCoherent(t: Tables, l: Loop)
    requires LoopCoherent(t, l) && l.todo != []
    ensures LoopCoherent(t, l.(todo := l.todo[1..])) && l.todo[0] !in l.todo[1..]
  {
    var rest := l.todo[1..];
    assert forall i :: 0 <= i < |rest| ==> rest[i] == l.todo[i + 1];
  }

  /** A proposal nobody judged has neither approval nor mirror, and no order of it was accepted. */
  lemma Unjudged(t: Tables, id: nat)
    requires Referenced(t) && Linked(t, {}) && Mirrored(t, {}) && id < |t.proposals|
    requires t.proposals[id].status.PendingAuto?
    ensures !HasApproval(t, id) && !HasMirror(t, id) && !WasAccepted(t.log, id)
  {
  }

  /** The local fact of the loop survives a write to a proposal it has already passed. */
  lemma RejectedMid(env: Env, t: Tables, t': Tables, l: Loop, id: nat)
    requires Referenced(t) && Linked(t, {}) && Mirrored(t, {}) && OthersAtRest(env, t, Some(l.run))
    requires LoopCoherent(t, l) && BelongsTo(t, id, l.run) && id !in l.todo && t.proposals[id].status.PendingAuto?
    requires StatusWritten(t, t', id, Rejected)
    ensures Mid(env, t', Looping(l))
  {
    Unjudged(t, id);
    WriteFrame(env, t, t', id, Rejected, l.run);
    assert Agrees(t, id, Rejected) && MirrorAgrees(t, id, Rejected);
    WriteLinks(t, t', id, Rejected);
    WriteMirrors(t, t', id, Rejected);
    WriteLoop(t, t', id, Rejected, l);
    hide Referenced, Linked, Mirrored, OthersAtRest, LoopCoherent, StatusWritten, Agrees, MirrorAgrees;
  }

  /** A new pending approval for an unjudged proposal leaves only that proposal out of step. */
  lemma QueuedMid(env: Env, t: Tables, t': Tables, l: Loop, approval: Approval)
    requires Referenced(t) && Linked(t, {}) && Mirrored(t, {}) && OthersAtRest(env, t, Some(l.run))
    requires LoopCoherent(t, l) && BelongsTo(t, approval.proposal, l.run) && approval.proposal !in l.todo
    requires t.proposals[approval.proposal].status.PendingAuto? && approval.status.Pending?
    requires t' == t.(approvals := t.approvals + [approval])
    ensures Mid(env, t', Queueing(l, approval.proposal))
  {
    var id := approval.proposal;
    Unjudged(t, id);
    assert t'.approvals[|t.approvals|] == approval;
    assert forall a :: 0 <= a < |t.approvals| ==> t'.approvals[a] == t.approvals[a];
    assert forall a :: 0 <= a < |t.approvals| ==> t.approvals[a].proposal != id;
    QueuedLinked(t, t', approval);
    assert Mirrored(t', {}) by { MirrorsSame(t, t'); }
    assert OthersAtRest(env, t', Some(l.run)) by { RestSame(env, t, t', l.run); }
    hide Linked, Mirrored, OthersAtRest;
  }

  lemma QueuedLinked(t: Tables, t': Tables, approval: Approval)
    requires Referenced(t) && Linked(t, {}) && t' == t.(approvals := t.approvals + [approval])
    requires approval.proposal < |t.proposals| && !HasApproval(t, approval.proposal)
    ensures Referenced(t') && Linked(t', {approval.proposal})
  {
    forall i: nat | HasApproval(t, i) ensures HasApproval(t', i) {
      var a :| 0 <= a < |t.approvals| && t.approvals[a].proposal == i;
      assert t'.approvals[a].proposal == i;
    }
  }

  lemma MirrorsSame(t: Tables, t': Tables)
    requires Referenced(t) && Referenced(t') && Mirrored(t, {})
    requires t'.proposals == t.proposals && t'.mirrors == t.mirrors && t'.log == t.log
    ensures Mirrored(t', {})
  {
    assert forall i: nat :: HasMirror(t', i) <==> HasMirror(t, i);
  }

  lemma RestSame(env: Env, t: Tables, t': Tables, run: nat)
    requires OthersAtRest(env, t, Some(run))
    requires t'.proposals == t.proposals && t'.runs == t.runs && t'.steps == t.steps
    ensures OthersAtRest(env, t', Some(run))
  {
    forall r: nat | r < |t.runs| && r != run ensures RunAtRest(env, t', r) {
      SameRunAtRest(env, t, t', r);
    }
  }

  /** Sending an order: accepted, its mirror is owed; refused, its rejection is. */
  lemma SentMid(env: Env, t: Tables, id: nat, authority: Authority, caller: Caller)
    requires Referenced(t) && Mirrored(t, {}) && OthersAtRest(env, t, Some(CallerRun(caller)))
    requires Linked(t, if caller.FromDecide? then {id} else {})
    requires CallerCoherent(t, caller, id) && Sendable(t, id, caller) && !HasMirror(t, id)
    ensures var next := Send(env, t, id, authority, caller); Mid(env, next.0, next.1)
  {
    var next := Send(env, t, id, authority, caller);
    var t' := next.0;
    SentMirrored(t, t', id);
    assert Referenced(t') && Linked(t', HalfLinked(next.1)) by { SentLinked(t, t', HalfLinked(next.1)); }
    assert OthersAtRest(env, t', Some(CallerRun(caller))) by { RestSame(env, t, t', CallerRun(caller)); }
    if next.1.Mirroring? {
      assert t'.log[|t.log|].proposal == id && t'.log[|t.log|].accepted;
    }
    assert CallerCoherent(t', caller, id) by { CallerSame(t, t', caller, id); }
    hide Linked, Mirrored, OthersAtRest, CallerCoherent, Referenced;
  }

  lemma CallerSame(t: Tables, t': Tables, caller: Caller, id: nat)
    requires CallerCoherent(t, caller, id) && t'.proposals == t.proposals && t'.runs == t.runs
    ensures CallerCoherent(t', caller, id)
  {
  }

  lemma SentLinked(t: Tables, t': Tables, ex: set<nat>)
    requires Referenced(t) && Linked(t, ex)
    requires t'.proposals == t.proposals && t'.runs == t.runs && t'.approvals == t.approvals && t'.mirrors == t.mirrors
    requires t'.steps == t.steps
    requires |t'.log| == |t.log| + 1 && t'.log[..|t.log|] == t.log && t'.log[|t.log|].proposal < |t.proposals|
    ensures Referenced(t') && Linked(t', ex)
  {
    forall i | 0 <= i < |t.log| ensures t'.log[i] == t.log[i] {
      assert t'.log[..|t.log|][i] == t'.log[i];
    }
  }

  lemma SentMirrored(t: Tables, t': Tables, id: nat)
    requires Referenced(t) && Referenced(t') && Mirrored(t, {}) && !HasMirror(t, id)
    requires t'.proposals == t.proposals && t'.mirrors == t.mirrors && id < |t.proposals|
    requires |t'.log| == |t.log| + 1 && t'.log[..|t.log|] == t.log && t'.log[|t.log|].proposal == id
    ensures Mirrored(t', {id})
    ensures !t'.log[|t.log|].accepted ==> Mirrored(t', {}) && !WasAccepted(t'.log, id)
  {
    forall i | 0 <= i < |t.log| ensures t'.log[i] == t.log[i] {
      assert t'.log[..|t.log|][i] == t'.log[i];
    }
    forall i: nat ensures HasMirror(t', i) <==> HasMirror(t, i) {
    }
    forall i: nat | i != id || !t'.log[|t.log|].accepted ensures WasAccepted(t'.log, i) <==> WasAccepted(t.log, i) {
      AcceptedSame(t.log, t'.log, i);
    }
  }

  lemma AcceptedSame(log: seq<Submission>, log': seq<Submission>, i: nat)
    requires |log'| == |log| + 1 && log'[..|log|] == log
    requires log'[|log|].proposal != i || !log'[|log|].accepted
    ensures WasAccepted(log', i) <==> WasAccepted(log, i)
  {
    if WasAccepted(log, i) {
      var k :| 0 <= k < |log| && log[k].proposal == i && log[k].accepted;
      assert log'[..|log|][k] == log'[k];
    }
    if WasAccepted(log', i) {
      var k :| 0 <= k < |log'| && log'[k].proposal == i && log'[k].accepted;
      assert log'[..|log|][k] == log'[k];
    }
  }

  /* ------------------------------------------------------------------ the loop */

  lemma LoopingMid(env: Env, t: Tables, p: Proc)
    requires Mid(env, t, p) && p.Looping?
    ensures Mid(env, StepLoop(env, t, p.loop).0, StepLoop(env, t, p.loop).1)
  {
    var l := p.loop;
    var next := StepLoop(env, t, p.loop);
    if l.todo == [] {
      SetRunOnly(t, l.run, if l.queued then AwaitingApproval else Executed);
      hide Linked, Mirrored, OthersAtRest, RowsOf;
      OnlyRunMid(env, t, p, next.0, next.1, l.run);
    } else {
      var id := l.todo[0];
      var rest := l.(todo := l.todo[1..]);
      RestCoherent(t, l);
      assert BelongsTo(t, id, l.run) && t.proposals[id].status.PendingAuto?;
      Unjudged(t, id);
      hide Referenced, Linked, Mirrored, OthersAtRest, LoopCoherent, VerdictOf, Mid;
      match VerdictOf(env.engine, l.mode, l.hold, l.marks, l.state, t.proposals[id].draft)
      case NotHoldable => RejectedMid(env, t, next.0, rest, id);
      case AutoRejected(_) => RejectedMid(env, t, next.0, rest, id);
      case NeedsApproval(breaches) => QueuedMid(env, t, next.0, rest, Approval(id, Pending, breaches, l.hold, l.batch));
      case MissingMark => LoopLeft(env, t, p, l.anyFill);
      case Skipped => LoopOn(env, t, p, rest);
      case Submit =>
        if env.hasBroker {
          SentMid(env, t, id, GateAuthority(l), FromLoop(rest));
        } else {
          LoopLeft(env, t, p, l.anyFill);
        }
    }
  }

  lemma LoopLeft(env: Env, t: Tables, p: Proc, anyFill: bool)
    requires Referenced(t) && Linked(t, {}) && Mirrored(t, {}) && p.Looping? && OthersAtRest(env, t, Some(p.loop.run))
    requires p.loop.run < |t.runs|
    ensures Mid(env, t, Aborting(p.loop.run, anyFill))
  {
  }

  lemma LoopOn(env: Env, t: Tables, p: Proc, rest: Loop)
    requires Referenced(t) && Linked(t, {}) && Mirrored(t, {}) && p.Looping? && OthersAtRest(env, t, Some(p.loop.run))
    requires rest.run == p.loop.run && LoopCoherent(t, rest)
    ensures Mid(env, t, Looping(rest))
  {
  }

  lemma QueueingFacts(env: Env, t: Tables, p: Proc)
    requires Mid(env, t, p) && p.Queueing?
    ensures Referenced(t) && Linked(t, {p.proposal}) && Mirrored(t, {}) && OthersAtRest(env, t, Some(p.loop.run))
    ensures LoopCoherent(t, p.loop) && BelongsTo(t, p.proposal, p.loop.run) && p.proposal !in p.loop.todo
    ensures t.proposals[p.proposal].status.PendingAuto? && Agrees(t, p.proposal, Awaiting)
  {
    MidParts(env, t, p);
    hide Mid, Linked, OthersAtRest, LoopCoherent, Mirrored;
  }

  lemma QueueingMid(env: Env, t: Tables, p: Proc)
    requires Mid(env, t, p) && p.Queueing?
    ensures Mid(env, Step(env, t, p).0, Step(env, t, p).1)
  {
    var l, id := p.loop, p.proposal;
    var t' := SetProposal(t, id, Awaiting);
    hide Mid, Referenced, Linked, Mirrored, OthersAtRest, LoopCoherent, StatusWritten, Agrees, MirrorAgrees,
         SetProposal;
    QueueingFacts(env, t, p);
    StatusSet(t, id, Awaiting);
    WriteFrame(env, t, t', id, Awaiting, l.run);
    WriteLinks(t, t', id, Awaiting);
    UnmirroredAwaiting(t, id);
    WriteMirrors(t, t', id, Awaiting);
    WriteLoop(t, t', id, Awaiting, l);
    LoopingMade(env, t', l.(queued := true));
  }

  lemma UnmirroredAwaiting(t: Tables, id: nat)
    requires Referenced(t) && Mirrored(t, {}) && id < |t.proposals|
    requires t.proposals[id].status.PendingAuto? || t.proposals[id].status.Awaiting?
    ensures !HasMirror(t, id) && !WasAccepted(t.log, id)
    ensures MirrorAgrees(t, id, Awaiting) && MirrorAgrees(t, id, Rejected)
  {
  }

  /* ------------------------------------------------------------------ submissions */

  /** Mid taken apart. */
  lemma MidParts(env: Env, t: Tables, p: Proc)
    requires Mid(env, t, p)
    ensures Referenced(t) && Linked(t, HalfLinked(p)) && Mirrored(t, HalfMirrored(p))
    ensures OthersAtRest(env, t, BusyRun(p))
    ensures Local(env, t, p)
  {
    hide Referenced, Linked, Mirrored, OthersAtRest, Local;
  }

  /** A submission that is through leaves its caller in step. */
  lemma CallerGoesOn(env: Env, t: Tables, id: nat, caller: Caller, ok: bool, filled: bool)
    requires Referenced(t) && Linked(t, {}) && Mirrored(t, {}) && OthersAtRest(env, t, Some(CallerRun(caller)))
    requires CallerCoherent(t, caller, id)
    ensures Mid(env, t, Returning(ok, filled, caller))
    ensures caller.FromLoop? ==> Mid(env, t, Looping(caller.loop))
    ensures caller.FromDecide? ==> Mid(env, t, Refreshing(caller.run))
  {
    hide Referenced, Linked, Mirrored, OthersAtRest, LoopCoherent;
  }

  /** After the proposal has left `Sendable`, the caller goes on; for a loop, the loop's own fact is unchanged. */
  lemma CallerWritten(t: Tables, t': Tables, id: nat, status: ProposalStatus, caller: Caller)
    requires CallerCoherent(t, caller, id) && StatusWritten(t, t', id, status)
    requires !status.Awaiting? && (caller.FromLoop? ==> !t.proposals[id].status.Awaiting?)
    ensures CallerCoherent(t', caller, id)
  {
    if caller.FromLoop? {
      WriteLoop(t, t', id, status, caller.loop);
    }
    hide LoopCoherent;
  }

  lemma LinkedWeaker(t: Tables, id: nat, caller: Caller)
    requires Referenced(t) && Linked(t, if caller.FromDecide? then {id} else {})
    ensures Linked(t, {id})
  {
  }

  /** Writing a status that approval and mirror agree with puts the proposal back in step. */
  lemma WriteSettles(env: Env, t: Tables, t': Tables, id: nat, status: ProposalStatus, caller: Caller)
    requires Referenced(t) && (Linked(t, {id}) || Linked(t, {})) && (Mirrored(t, {id}) || Mirrored(t, {}))
    requires OthersAtRest(env, t, Some(CallerRun(caller))) && CallerCoherent(t, caller, id)
    requires StatusWritten(t, t', id, status) && Agrees(t, id, status) && MirrorAgrees(t, id, status)
    requires !status.Awaiting? && (caller.FromLoop? ==> !t.proposals[id].status.Awaiting?)
    ensures Referenced(t') && Linked(t', {}) && Mirrored(t', {})
    ensures OthersAtRest(env, t', Some(CallerRun(caller))) && CallerCoherent(t', caller, id)
  {
    assert BelongsTo(t, id, CallerRun(caller));
    hide Referenced, Linked, Mirrored, OthersAtRest, CallerCoherent, StatusWritten, Agrees, MirrorAgrees;
    WriteFrame(env, t, t', id, status, CallerRun(caller));
    WriteLinks(t, t', id, status);
    WriteMirrors(t, t', id, status);
    CallerWritten(t, t', id, status, caller);
  }

  lemma RefusingFacts(env: Env, t: Tables, p: Proc)
    requires Mid(env, t, p) && p.Refusing?
    ensures Referenced(t) && Linked(t, if p.caller.FromDecide? then {p.proposal} else {}) && Mirrored(t, {})
    ensures OthersAtRest(env, t, Some(CallerRun(p.caller))) && CallerCoherent(t, p.caller, p.proposal)
    ensures p.caller.FromLoop? ==> !t.proposals[p.proposal].status.Awaiting?
    ensures Agrees(t, p.proposal, Rejected) && MirrorAgrees(t, p.proposal, Rejected)
  {
    MidParts(env, t, p);
    hide Mid, Linked, OthersAtRest, LoopCoherent, Mirrored, MirrorAgrees;
    UnmirroredAwaiting(t, p.proposal);
  }

  lemma RejectionWritten(t: Tables, id: nat, reasons: seq<string>)
    requires id < |t.proposals|
    ensures StatusWritten(t, RejectProposal(t, id, reasons), id, Rejected)
  {
  }

  lemma RefusingMid(env: Env, t: Tables, p: Proc)
    requires Mid(env, t, p) && p.Refusing?
    ensures Mid(env, StepSubmit(env, t, p).0, StepSubmit(env, t, p).1)
  {
    var id, caller := p.proposal, p.caller;
    var t' := RejectProposal(t, id, REFUSED);
    hide Mid, Referenced, Linked, Mirrored, OthersAtRest, CallerCoherent, StatusWritten, Agrees, MirrorAgrees,
         RejectProposal;
    RefusingFacts(env, t, p);
    LinkedWeaker(t, id, caller);
    InTable(t, caller, id);
    RejectionWritten(t, id, REFUSED);
    WriteSettles(env, t, t', id, Rejected, caller);
    CallerGoesOn(env, t', id, caller, true, false);
  }

  lemma InTable(t: Tables, caller: Caller, id: nat)
    requires CallerCoherent(t, caller, id)
    ensures BelongsTo(t, id, CallerRun(caller))
  {
    hide LoopCoherent;
  }

  lemma MirroringMid(env: Env, t: Tables, p: Proc)
    requires Mid(env, t, p) && p.Mirroring?
    ensures Mid(env, StepSubmit(env, t, p).0, StepSubmit(env, t, p).1)
  {
    var id, caller := p.proposal, p.caller;
    var t' := StepSubmit(env, t, p).0;
    var m := t'.mirrors[|t.mirrors|];
    MirrorAdded(t, t', m, HalfLinked(p));
    RestSame(env, t, t', CallerRun(caller));
    CallerSame(t, t', caller, id);
    assert Sendable(t', id, caller);
    hide Referenced, Linked, Mirrored, OthersAtRest, CallerCoherent, Sendable;
  }

  lemma MirrorAdded(t: Tables, t': Tables, m: Mirror, ex: set<nat>)
    requires Referenced(t) && Linked(t, ex) && Mirrored(t, {m.proposal}) && t' == t.(mirrors := t.mirrors + [m])
    requires m.proposal < |t.proposals| && !HasMirror(t, m.proposal)
    ensures Referenced(t') && Linked(t', ex) && Mirrored(t', {m.proposal})
  {
    forall i: nat | i != m.proposal ensures HasMirror(t', i) <==> HasMirror(t, i) {
      if HasMirror(t, i) {
        var k :| 0 <= k < |t.mirrors| && t.mirrors[k].proposal == i;
        assert t'.mirrors[k].proposal == i;
      }
    }
    assert forall i: nat :: HasApproval(t, i) ==> HasApproval(t', i);
  }

  lemma MarkingFacts(env: Env, t: Tables, p: Proc)
    requires Mid(env, t, p) && p.Marking?
    ensures Referenced(t) && Linked(t, if p.caller.FromDecide? then {p.proposal} else {}) && Mirrored(t, {p.proposal})
    ensures OthersAtRest(env, t, Some(CallerRun(p.caller))) && CallerCoherent(t, p.caller, p.proposal)
    ensures p.caller.FromLoop? ==> !t.proposals[p.proposal].status.Awaiting?
    ensures NoPendingFor(t, p.proposal)
    ensures p.mirror < |t.mirrors| && t.mirrors[p.mirror].proposal == p.proposal
    ensures t.mirrors[p.mirror].status.MirrorSubmitted?
    ensures WasAccepted(t.log, p.proposal)
  {
    MidParts(env, t, p);
    hide Mid, Referenced, Linked, OthersAtRest, LoopCoherent, Mirrored, WasAccepted;
  }

  lemma SubmittedAgrees(t: Tables, id: nat, m: nat)
    requires Referenced(t) && m < |t.mirrors| && t.mirrors[m].proposal == id && t.mirrors[m].status.MirrorSubmitted?
    requires WasAccepted(t.log, id)
    ensures MirrorAgrees(t, id, Submitted)
  {
    assert HasMirror(t, id);
  }

  lemma MarkedMid(env: Env, t: Tables, id: nat, m: nat, waits: nat, caller: Caller)
    requires Referenced(t) && Linked(t, {}) && Mirrored(t, {}) && OthersAtRest(env, t, Some(CallerRun(caller)))
    requires CallerCoherent(t, caller, id) && t.proposals[id].status.Submitted? && NoPendingFor(t, id)
    requires m < |t.mirrors| && t.mirrors[m].proposal == id && t.mirrors[m].status.MirrorSubmitted?
    ensures Mid(env, t, Polling(id, m, waits, caller))
  {
    hide Referenced, Linked, Mirrored, OthersAtRest, CallerCoherent, NoPendingFor;
  }

  lemma MarkingMid(env: Env, t: Tables, p: Proc)
    requires Mid(env, t, p) && p.Marking?
    ensures Mid(env, StepSubmit(env, t, p).0, StepSubmit(env, t, p).1)
  {
    var id, caller := p.proposal, p.caller;
    var t' := SetProposal(t, id, Submitted);
    MarkingFacts(env, t, p);
    DecidedAgrees(t, id);
    InTable(t, caller, id);
    StatusSet(t, id, Submitted);
    assert NoPendingFor(t', id);
    hide Mid, Referenced, Linked, Mirrored, OthersAtRest, CallerCoherent, Agrees, MirrorAgrees, WasAccepted,
          NoPendingFor, Local;
    SubmittedAgrees(t, id, p.mirror);
    LinkedWeaker(t, id, caller);
    WriteSettles(env, t, t', id, Submitted, caller);
    MarkedMid(env, t', id, p.mirror, MAX_WAITS, caller);
  }

  lemma ClosedMid(env: Env, t: Tables, id: nat, m: nat, order: BrokerOrder, caller: Caller)
    requires Referenced(t) && Linked(t, {}) && Mirrored(t, {}) && OthersAtRest(env, t, Some(CallerRun(caller)))
    requires CallerCoherent(t, caller, id) && t.proposals[id].status.Submitted? && NoPendingFor(t, id)
    requires m < |t.mirrors| && t.mirrors[m].proposal == id
    ensures Mid(env, SetMirror(t, m, CloseMirror(t.mirrors[m], order)), Closing(id, order.status == "filled", caller))
  {
    var closed := CloseMirror(t.mirrors[m], order);
    var t' := SetMirror(t, m, closed);
    assert HasMirror(t, id);
    assert WasAccepted(t.log, id);
    hide Referenced, Linked, Mirrored, OthersAtRest, CallerCoherent;
    MirrorReplaced(t, t', m, closed);
    RestSame(env, t, t', CallerRun(caller));
    CallerSame(t, t', caller, id);
    assert t'.mirrors[m] == closed;
  }

  lemma PollingFacts(env: Env, t: Tables, p: Proc)
    requires Mid(env, t, p) && p.Polling?
    ensures Referenced(t) && Linked(t, {}) && Mirrored(t, {}) && OthersAtRest(env, t, Some(CallerRun(p.caller)))
    ensures CallerCoherent(t, p.caller, p.proposal) && t.proposals[p.proposal].status.Submitted?
    ensures NoPendingFor(t, p.proposal)
    ensures p.mirror < |t.mirrors| && t.mirrors[p.mirror].proposal == p.proposal
    ensures t.mirrors[p.mirror].status.MirrorSubmitted?
  {
    MidParts(env, t, p);
    hide Mid, Linked, OthersAtRest, LoopCoherent, Mirrored, NoPendingFor;
  }

  /** Asking the broker changes no row. */
  lemma RowsTicked(env: Env, t: Tables, run: nat, caller: Caller, id: nat)
    requires Referenced(t) && Linked(t, {}) && Mirrored(t, {}) && OthersAtRest(env, t, Some(run))
    requires CallerCoherent(t, caller, id)
    ensures Referenced(Tick(t)) && Linked(Tick(t), {}) && Mirrored(Tick(t), {}) && OthersAtRest(env, Tick(t), Some(run))
    ensures CallerCoherent(Tick(t), caller, id)
  {
    BooksKept(t, Tick(t), {}, {});
    RestSame(env, t, Tick(t), run);
    CallerSame(t, Tick(t), caller, id);
    hide Linked, Mirrored, OthersAtRest, CallerCoherent;
  }

  /** The order stays as it was while the broker is asked. */
  lemma PolledFacts(env: Env, t: Tables, p: Proc)
    requires Mid(env, t, p) && p.Polling?
    ensures var t' := Tick(t);
            && Referenced(t') && Linked(t', {}) && Mirrored(t', {}) && OthersAtRest(env, t', Some(CallerRun(p.caller)))
            && CallerCoherent(t', p.caller, p.proposal) && t'.proposals[p.proposal].status.Submitted?
            && NoPendingFor(t', p.proposal)
            && p.mirror < |t'.mirrors| && t'.mirrors[p.mirror].proposal == p.proposal
            && t'.mirrors[p.mirror].status.MirrorSubmitted?
  {
    PollingFacts(env, t, p);
    assert NoPendingFor(Tick(t), p.proposal);
    hide Mid, Referenced, Linked, Mirrored, OthersAtRest, CallerCoherent, NoPendingFor;
    RowsTicked(env, t, CallerRun(p.caller), p.caller, p.proposal);
  }

  lemma PollEnds(env: Env, t: Tables, p: Proc, ok: bool)
    requires Mid(env, t, p) && p.Polling?
    ensures Mid(env, Tick(t), Returning(ok, false, p.caller))
  {
    PolledFacts(env, t, p);
    hide *;
    CallerGoesOn(env, Tick(t), p.proposal, p.caller, ok, false);
  }

  lemma PollWaits(env: Env, t: Tables, p: Proc)
    requires Mid(env, t, p) && p.Polling? && p.waits > 0
    ensures Mid(env, Tick(t), Polling(p.proposal, p.mirror, p.waits - 1, p.caller))
  {
    PolledFacts(env, t, p);
    hide *;
    MarkedMid(env, Tick(t), p.proposal, p.mirror, p.waits - 1, p.caller);
  }

  lemma PollCloses(env: Env, t: Tables, p: Proc, order: BrokerOrder)
    requires Mid(env, t, p) && p.Polling? && p.mirror < |t.mirrors|
    ensures Mid(env, Tick(SetMirror(t, p.mirror, CloseMirror(t.mirrors[p.mirror], order))),
                Closing(p.proposal, order.status == "filled", p.caller))
  {
    PolledFacts(env, t, p);
    hide Mid, Referenced, Linked, Mirrored, OthersAtRest, CallerCoherent, NoPendingFor, CloseMirror, SetMirror;
    ClosedMid(env, Tick(t), p.proposal, p.mirror, order, p.caller);
    MirrorTicked(t, p.mirror, CloseMirror(t.mirrors[p.mirror], order));
  }

  lemma MirrorExists(env: Env, t: Tables, p: Proc)
    requires Mid(env, t, p) && p.Polling?
    ensures p.mirror < |t.mirrors|
  {
    PollingFacts(env, t, p);
    hide Mid, Referenced, Linked, Mirrored, OthersAtRest, CallerCoherent, NoPendingFor;
  }

  lemma PollingMid(env: Env, t: Tables, p: Proc)
    requires Mid(env, t, p) && p.Polling?
    ensures Mid(env, StepSubmit(env, t, p).0, StepSubmit(env, t, p).1)
  {
    hide Mid, CloseMirror, SetMirror, IsBrokerTerminal, Tick;
    MirrorExists(env, t, p);
    PollEnds(env, t, p, true);
    PollEnds(env, t, p, false);
    if p.waits > 0 {
      PollWaits(env, t, p);
    }
    if env.getOrder(t.clock).Some? {
      PollCloses(env, t, p, env.getOrder(t.clock).value);
    }
  }

  lemma MirrorTicked(t: Tables, m: nat, row: Mirror)
    ensures Tick(SetMirror(t, m, row)) == SetMirror(Tick(t), m, row)
  {
  }

  lemma MirrorReplaced(t: Tables, t': Tables, m: nat, row: Mirror)
    requires Referenced(t) && Linked(t, {}) && Mirrored(t, {}) && m < |t.mirrors|
    requires row.proposal == t.mirrors[m].proposal && t' == t.(mirrors := t.mirrors[m := row])
    ensures Referenced(t') && Linked(t', {}) && Mirrored(t', {row.proposal})
  {
    forall i: nat ensures HasMirror(t', i) <==> HasMirror(t, i) {
      if HasMirror(t, i) {
        var k :| 0 <= k < |t.mirrors| && t.mirrors[k].proposal == i;
        assert t'.mirrors[k].proposal == i;
      }
    }
    assert forall i: nat :: HasApproval(t, i) ==> HasApproval(t', i);
  }

  lemma ClosingFacts(env: Env, t: Tables, p: Proc)
    requires Mid(env, t, p) && p.Closing?
    ensures Referenced(t) && Linked(t, {}) && Mirrored(t, {p.proposal})
    ensures OthersAtRest(env, t, Some(CallerRun(p.caller))) && CallerCoherent(t, p.caller, p.proposal)
    ensures t.proposals[p.proposal].status.Submitted?
    ensures MirrorAgrees(t, p.proposal, if p.filled then Done else Rejected)
  {
    MidParts(env, t, p);
    hide Mid, Linked, OthersAtRest, LoopCoherent, Mirrored, WasAccepted, NoPendingFor;
  }

  lemma ClosingMid(env: Env, t: Tables, p: Proc)
    requires Mid(env, t, p) && p.Closing?
    ensures Mid(env, StepSubmit(env, t, p).0, StepSubmit(env, t, p).1)
  {
    var id, caller := p.proposal, p.caller;
    var status := if p.filled then Done else Rejected;
    var t' := SetProposal(t, id, status);
    hide Mid, Referenced, Linked, Mirrored, OthersAtRest, CallerCoherent, Agrees, MirrorAgrees, StatusWritten,
         SetProposal;
    ClosingFacts(env, t, p);
    InTable(t, caller, id);
    NoApprovalFlips(t, id);
    StatusSet(t, id, status);
    WriteSettles(env, t, t', id, status, caller);
    CallerGoesOn(env, t', id, caller, true, p.filled);
  }

  lemma NoApprovalFlips(t: Tables, id: nat)
    requires Referenced(t) && Linked(t, {}) && id < |t.proposals| && t.proposals[id].status.Submitted?
    ensures Agrees(t, id, Done) && Agrees(t, id, Rejected)
  {
  }

  lemma ReturningMid(env: Env, t: Tables, p: Proc)
    requires Mid(env, t, p) && p.Returning?
    ensures Mid(env, StepSubmit(env, t, p).0, StepSubmit(env, t, p).1)
  {
    var next := StepSubmit(env, t, p);
    var run := CallerRun(p.caller);
    TickOnly(t, run);
    if p.caller.FromLoop? {
      var l := p.caller.loop;
      assert forall anyFill, state ::
               LoopCoherent(t, l) ==> LoopCoherent(Tick(t), l.(anyFill := anyFill, state := state, readAt := t.clock));
    }
    hide Linked, Mirrored, OthersAtRest, RowsOf, LoopCoherent;
    OnlyRunMid(env, t, p, next.0, next.1, run);
  }

  /* ------------------------------------------------------------------ decisions and cancellations */

  lemma DispatchingMid(env: Env, t: Tables, p: Proc)
    requires Mid(env, t, p) && p.Dispatching?
    ensures Mid(env, StepDecide(env, t, p).0, StepDecide(env, t, p).1)
  {
    UnmirroredAwaiting(t, p.proposal);
    SentMid(env, t, p.proposal, ByApproval(p.approval), FromDecide(p.run));
  }

  lemma DecidingMid(env: Env, t: Tables, p: Proc)
    requires Mid(env, t, p) && p.Deciding?
    ensures Mid(env, StepDecide(env, t, p).0, StepDecide(env, t, p).1)
  {
    var next := StepDecide(env, t, p);
    if next.1.Dispatching? {
      ApprovedMid(env, t, next.0, p.approval);
    } else if next.1.Refreshing? {
      DeclinedMid(env, t, next.0, p.approval);
    } else {
      TickedMid(env, t, next.0, next.1);
    }
  }

  lemma ApprovedMid(env: Env, t: Tables, t': Tables, a: nat)
    requires Coherent(env, t) && a < |t.approvals| && t.approvals[a].proposal < |t.proposals|
    requires t.proposals[t.approvals[a].proposal].status.Awaiting? && t' == SetApproval(Tick(t), a, Approved)
    ensures Mid(env, t', Dispatching(t.approvals[a].proposal, t.proposals[t.approvals[a].proposal].run, a))
  {
    var run := t.proposals[t.approvals[a].proposal].run;
    ApprovalFlipped(t, t', a, Approved);
    assert OthersAtRest(env, t, Some(run));
    RestSame(env, t, t', run);
    hide Linked, Mirrored, OthersAtRest;
  }

  lemma DeclinedMid(env: Env, t: Tables, t': Tables, a: nat)
    requires Coherent(env, t) && a < |t.approvals| && t.approvals[a].proposal < |t.proposals|
    requires t.proposals[t.approvals[a].proposal].status.Awaiting?
    requires t' == SetProposal(SetApproval(t, a, Declined), t.approvals[a].proposal, Rejected)
    ensures Mid(env, t', Refreshing(t.proposals[t.approvals[a].proposal].run))
  {
    var id := t.approvals[a].proposal;
    var run := t.proposals[id].run;
    var t1 := SetApproval(t, a, Declined);
    RunExists(t, id);
    OneBusy(env, t, run);
    hide Linked, Mirrored, OthersAtRest, Referenced, Agrees, MirrorAgrees, StatusWritten, NoPendingFor;
    ApprovalFlipped(t, t1, a, Declined);
    RestSame(env, t, t1, run);
    DecidedAgrees(t1, id);
    StatusSet(t1, id, Rejected);
    UnmirroredAwaiting(t1, id);
    WriteFrame(env, t1, t', id, Rejected, run);
    WriteLinks(t1, t', id, Rejected);
    WriteMirrors(t1, t', id, Rejected);
  }

  lemma RunExists(t: Tables, id: nat)
    requires Referenced(t) && id < |t.proposals|
    ensures t.proposals[id].run < |t.runs|
  {
  }

  lemma OneBusy(env: Env, t: Tables, run: nat)
    requires OthersAtRest(env, t, None)
    ensures OthersAtRest(env, t, Some(run))
  {
    hide RunAtRest;
  }

  /** With no approval pending any settled status will do. */
  lemma DecidedAgrees(t: Tables, id: nat)
    requires NoPendingFor(t, id)
    ensures Agrees(t, id, Rejected) && Agrees(t, id, Done) && Agrees(t, id, Submitted)
  {
  }

  lemma StatusSet(t: Tables, id: nat, status: ProposalStatus)
    requires id < |t.proposals|
    ensures StatusWritten(t, SetProposal(t, id, status), id, status)
  {
  }

  lemma TickedMid(env: Env, t: Tables, t': Tables, p': Proc)
    requires Coherent(env, t) && (t' == t || t' == Tick(t)) && p'.Finished?
    ensures Mid(env, t', p')
  {
    forall r: nat | r < |t'.runs| ensures RunAtRest(env, t', r) {
      SameRunAtRest(env, t, t', r);
    }
    BooksKept(t, t', {}, {});
    hide Linked, Mirrored;
  }

  lemma ApprovalFlipped(t: Tables, t': Tables, a: nat, status: ApprovalStatus)
    requires Referenced(t) && Linked(t, {}) && Mirrored(t, {}) && a < |t.approvals| && !status.Pending?
    requires t'.approvals == t.approvals[a := t.approvals[a].(status := status)]
    requires t'.proposals == t.proposals && t'.mirrors == t.mirrors && t'.log == t.log && t'.runs == t.runs
    requires t'.steps == t.steps
    ensures Referenced(t') && Linked(t', {t.approvals[a].proposal}) && Mirrored(t', {})
    ensures NoPendingFor(t', t.approvals[a].proposal)
  {
    forall i: nat | HasApproval(t, i) ensures HasApproval(t', i) {
      var k :| 0 <= k < |t.approvals| && t.approvals[k].proposal == i;
      assert t'.approvals[k].proposal == i;
    }
    assert forall i: nat :: HasMirror(t', i) <==> HasMirror(t, i);
  }

  lemma CancellingMid(env: Env, t: Tables, p: Proc)
    requires Mid(env, t, p) && p.Cancelling?
    ensures Mid(env, StepCancel(env, t, p).0, StepCancel(env, t, p).1)
  {
    var next := StepCancel(env, t, p);
    if next.1.Finished? {
      TickedMid(env, t, next.0, next.1);
    } else {
      TickOnly(t, p.run);
      CancelledLocal(env, t, p.run);
      hide Linked, Mirrored, OthersAtRest, RowsOf, OnlyRun, Local, AwaitingIds, HasAwaiting, Referenced, SomePrice;
      OnlyRunMid(env, t, p, next.0, next.1, p.run);
    }
  }

  lemma CancelledLocal(env: Env, t: Tables, run: nat)
    requires run < |t.runs|
    ensures var ids := AwaitingIds(t, run);
            && Local(env, Tick(t), Withdrawing(run, ids)) && (ids == {} ==> Local(env, Tick(t), MarkingCancelled(run)))
  {
    assert forall i: nat :: i < |t.proposals| && t.proposals[i].run == run && t.proposals[i].status.Awaiting? ==>
             i in AwaitingIds(t, run);
  }

  /** Every awaiting proposal of one run is withdrawn; its approval is dealt with next. */
  lemma WithdrawnBooks(t: Tables, run: nat, ids: set<nat>)
    requires Referenced(t) && Linked(t, {}) && Mirrored(t, {}) && ids == AwaitingIds(t, run)
    ensures Referenced(WithdrawAll(t, ids)) && Linked(WithdrawAll(t, ids), ids)
  {
    var t' := WithdrawAll(t, ids);
    assert forall i: nat :: HasApproval(t, i) ==> HasApproval(t', i);
  }

  lemma WithdrawnMirrors(t: Tables, run: nat, ids: set<nat>)
    requires Referenced(t) && Mirrored(t, {}) && ids == AwaitingIds(t, run) && Referenced(WithdrawAll(t, ids))
    ensures Mirrored(WithdrawAll(t, ids), {})
  {
    var t' := WithdrawAll(t, ids);
    forall i: nat | i in ids ensures !HasMirror(t, i) && !WasAccepted(t.log, i) {
      UnmirroredAwaiting(t, i);
    }
    forall m | 0 <= m < |t.mirrors| ensures t.mirrors[m].proposal !in ids {
      assert HasMirror(t, t.mirrors[m].proposal);
    }
    assert forall i: nat :: HasMirror(t', i) <==> HasMirror(t, i);
  }

  lemma WithdrawnRest(env: Env, t: Tables, run: nat, ids: set<nat>)
    requires OthersAtRest(env, t, Some(run)) && ids == AwaitingIds(t, run)
    ensures OthersAtRest(env, WithdrawAll(t, ids), Some(run))
    ensures !HasAwaiting(WithdrawAll(t, ids), run)
  {
    var t' := WithdrawAll(t, ids);
    forall r: nat | r < |t'.runs| && r != run ensures RunAtRest(env, t', r) {
      SameRunAtRest(env, t, t', r);
    }
    hide RunAtRest;
  }

  lemma WithdrawnLocal(t: Tables, run: nat, ids: set<nat>)
    requires run < |t.runs| && ids == AwaitingIds(t, run)
    ensures AllWithdrawn(WithdrawAll(t, ids), run, ids)
    ensures |WithdrawAll(t, ids).runs| == |t.runs|
  {
  }

  lemma WithdrawnMid(env: Env, t: Tables, run: nat, ids: set<nat>)
    requires Referenced(t) && Linked(t, ids) && Mirrored(t, {}) && OthersAtRest(env, t, Some(run))
    requires run < |t.runs| && !HasAwaiting(t, run) && AllWithdrawn(t, run, ids)
    ensures Mid(env, t, Revoking(run, ids))
  {
    hide Referenced, Linked, Mirrored, OthersAtRest, HasAwaiting, AllWithdrawn;
  }

  lemma WithdrawingMid(env: Env, t: Tables, p: Proc)
    requires Mid(env, t, p) && p.Withdrawing?
    ensures Mid(env, StepCancel(env, t, p).0, StepCancel(env, t, p).1)
  {
    var run, ids := p.run, p.ids;
    assert run < |t.runs| && ids == AwaitingIds(t, run);
    assert Referenced(t) && Linked(t, {}) && Mirrored(t, {}) && OthersAtRest(env, t, Some(run));
    hide Mid, Local, Referenced, Linked, Mirrored, OthersAtRest, WithdrawAll, AwaitingIds, HasAwaiting, AllWithdrawn;
    WithdrawnBooks(t, run, ids);
    WithdrawnMirrors(t, run, ids);
    WithdrawnRest(env, t, run, ids);
    WithdrawnLocal(t, run, ids);
    WithdrawnMid(env, WithdrawAll(t, ids), run, ids);
  }

  lemma RevokedBooks(t: Tables, run: nat, ids: set<nat>)
    requires Referenced(t) && Linked(t, ids) && Mirrored(t, {}) && AllWithdrawn(t, run, ids)
    ensures Referenced(RevokeAll(t, ids)) && Linked(RevokeAll(t, ids), {}) && Mirrored(RevokeAll(t, ids), {})
  {
    var t' := RevokeAll(t, ids);
    forall i: nat | HasApproval(t, i) ensures HasApproval(t', i) {
      var k :| 0 <= k < |t.approvals| && t.approvals[k].proposal == i;
      assert t'.approvals[k].proposal == i;
    }
    assert forall i: nat :: HasMirror(t', i) <==> HasMirror(t, i);
  }

  lemma RevokedMid(env: Env, t: Tables, run: nat)
    requires Referenced(t) && Linked(t, {}) && Mirrored(t, {}) && OthersAtRest(env, t, Some(run))
    requires run < |t.runs| && !HasAwaiting(t, run)
    ensures Mid(env, t, MarkingCancelled(run))
  {
    hide Referenced, Linked, Mirrored, OthersAtRest, HasAwaiting;
  }

  lemma RevokingMid(env: Env, t: Tables, p: Proc)
    requires Mid(env, t, p) && p.Revoking?
    ensures Mid(env, StepCancel(env, t, p).0, StepCancel(env, t, p).1)
  {
    var run, ids := p.run, p.ids;
    var t' := RevokeAll(t, ids);
    MidParts(env, t, p);
    assert run < |t.runs| && !HasAwaiting(t, run) && AllWithdrawn(t, run, ids);
    assert !HasAwaiting(t', run);
    RestSame(env, t, t', run);
    hide Mid, OthersAtRest, Referenced, Linked, Mirrored, RevokeAll, HasAwaiting, AllWithdrawn, Local;
    RevokedBooks(t, run, ids);
    RevokedRuns(t, ids);
    RevokedMid(env, t', run);
  }

  lemma RevokedRuns(t: Tables, ids: set<nat>)
    ensures RevokeAll(t, ids).runs == t.runs
  {
  }

  /* ------------------------------------------------------------------ every step */

  lemma StepMid(env: Env, t: Tables, p: Proc)
    requires Mid(env, t, p) && DistinctNames(env.chain)
    ensures Mid(env, Step(env, t, p).0, Step(env, t, p).1)
  {
    hide Mid, Step, StepChain, StepResume, StepInsert, StepLoop, StepSubmit, StepDecide, StepCancel, StepFailure;
    StepIsGrouped(env, t, p);
    match p
    case Finished => FinishedMid(env, t, p);
    case Starting(_, _) => StartingMid(env, t, p);
    case Calling(_) => CallingMid(env, t, p);
    case Resuming(_, _) => ResumingMid(env, t, p);
    case Asking(_, _, _, _) => AskingMid(env, t, p);
    case Reloading(_, _, _, _) => ReloadingMid(env, t, p);
    case Inserting(_) => InsertingMid(env, t, p);
    case Looping(_) => LoopingMid(env, t, p);
    case Queueing(_, _) => QueueingMid(env, t, p);
    case Aborting(_, _) => OrphansMid(env, t, p);
    case Refusing(_, _) => RefusingMid(env, t, p);
    case Mirroring(_, _) => MirroringMid(env, t, p);
    case Marking(_, _, _) => MarkingMid(env, t, p);
    case Polling(_, _, _, _) => PollingMid(env, t, p);
    case Closing(_, _, _) => ClosingMid(env, t, p);
    case Returning(_, _, _) => ReturningMid(env, t, p);
    case Deciding(_, _) => DecidingMid(env, t, p);
    case Dispatching(_, _, _) => DispatchingMid(env, t, p);
    case Cancelling(_) => CancellingMid(env, t, p);
    case Withdrawing(_, _) => WithdrawingMid(env, t, p);
    case Revoking(_, _) => RevokingMid(env, t, p);
    case _ =>
      if p.Prelude? || p.Entering? || p.Parking? {
        ChainMid(env, t, p);
      } else if p.Resumed? || p.ResumeFailed? {
        ResumedMid(env, t, p);
      } else {
        StatusSetMid(env, t, p);
      }
  }

  lemma FinishedMid(env: Env, t: Tables, p: Proc)
    requires Mid(env, t, p) && p.Finished?
    ensures Mid(env, Step(env, t, p).0, Step(env, t, p).1)
  {
    hide Mid;
  }
}
