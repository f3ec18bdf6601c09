/** How an accepted order ends: what the broker says last decides mirror and proposal. */
module Orders {
  import opened Common
  import opened Risk
  import opened Gate
  import opened Workflow
  import opened WorkflowSteps

  /** The broker is done with an order that it reports in one of these five words. */
  predicate IsOver(word: string) {
    word == "filled" || word == "canceled" || word == "cancelled" || word == "rejected" || word == "expired"
  }

  /** The broker answers, and not yet for good. */
  predicate IsOpen(reply: Option<BrokerOrder>) {
    reply.Some? && !IsOver(reply.value.status)
  }

  /** Proposal and mirror once the broker has said `o`: filled at its price, for what it filled or else for what was
      ordered; or closed, with the one spelling of "canceled"; or still out. */
  predicate EndedBy(o: BrokerOrder, ordered: real, status: ProposalStatus, m: Mirror) {
    match o.status
    case "filled" =>
      && status.Done? && m.status.MirrorFilled?
      && m.qty == (if o.filledQty > 0.0 then o.filledQty else ordered)
      && m.fillPrice == o.filledAvgPrice && m.notional == m.qty * o.filledAvgPrice
    case "canceled" => status.Rejected? && m.status == MirrorClosed("canceled") && m.qty == ordered
    case "cancelled" => status.Rejected? && m.status == MirrorClosed("canceled") && m.qty == ordered
    case "rejected" => status.Rejected? && m.status == MirrorClosed("rejected") && m.qty == ordered
    case "expired" => status.Rejected? && m.status == MirrorClosed("expired") && m.qty == ordered
    case _ => status.Submitted? && m.status.MirrorSubmitted? && m.qty == ordered
  }

  /** The same when the broker could not be asked: the order is still out. */
  predicate Ended(reply: Option<BrokerOrder>, ordered: real, status: ProposalStatus, m: Mirror) {
    if reply.Some? then EndedBy(reply.value, ordered, status, m)
    else status.Submitted? && m.status.MirrorSubmitted? && m.qty == ordered
  }

  /** The order of proposal `id`, mirrored in the last row, is out. */
  predicate IsOut(t: Tables, id: nat, m: nat, ordered: real) {
    && id < |t.proposals| && t.proposals[id].status.Submitted?
    && m < |t.mirrors| && t.mirrors[m].proposal == id
    && t.mirrors[m].status.MirrorSubmitted? && t.mirrors[m].qty == ordered
  }

  /** From `t` to `after` the broker was asked at every clock reading; all replies but the last were open, and the last
      one decided how the order ended, which changed its own two rows and nothing else. */
  ghost predicate Waited(env: Env, t: Tables, id: nat, m: nat, ordered: real, after: Tables, ok: bool, filled: bool)
    requires id < |t.proposals| && m < |t.mirrors|
  {
    && t.clock < after.clock
    && (forall k :: t.clock <= k < after.clock - 1 ==> IsOpen(env.getOrder(k)))
    && var last := env.getOrder(after.clock - 1);
       && |after.proposals| == |t.proposals| && |after.mirrors| == |t.mirrors|
       && Ended(last, ordered, after.proposals[id].status, after.mirrors[m])
       && after == t.(clock := after.clock,
                      proposals := t.proposals[id := t.proposals[id].(status := after.proposals[id].status)],
                      mirrors := t.mirrors[m := after.mirrors[m]])
       && after.mirrors[m].proposal == t.mirrors[m].proposal
       && (last.Some? && IsOver(last.value.status) ==> ok)
       && (last.None? ==> !ok)
       && (filled <==> last.Some? && last.value.status == "filled")
  }

  lemma OverIsTerminal(word: string)
    ensures IsBrokerTerminal(word) <==> IsOver(word)
  {
  }

  /** The broker's last word, written to mirror and proposal. */
  lemma ClosedAsSaid(t: Tables, id: nat, m: nat, ordered: real, o: BrokerOrder)
    requires IsOut(t, id, m, ordered) && IsOver(o.status)
    ensures var after := SetProposal(Tick(Reconciled(t, m, o)), id, StatusFor(o));
            && |after.proposals| == |t.proposals| && |after.mirrors| == |t.mirrors|
            && EndedBy(o, ordered, after.proposals[id].status, after.mirrors[m])
            && after.mirrors[m].proposal == id
            && after == t.(clock := t.clock + 1,
                           proposals := t.proposals[id := t.proposals[id].(status := after.proposals[id].status)],
                           mirrors := t.mirrors[m := after.mirrors[m]])
  {
  }

  lemma StillOut(t: Tables, id: nat, m: nat, ordered: real, reply: Option<BrokerOrder>)
    requires IsOut(t, id, m, ordered) && (reply.None? || IsOpen(reply))
    ensures Ended(reply, ordered, t.proposals[id].status, t.mirrors[m])
    ensures t.proposals[id := t.proposals[id].(status := t.proposals[id].status)] == t.proposals
    ensures t.mirrors[m := t.mirrors[m]] == t.mirrors
  {
  }

  lemma OneMoreWait(env: Env, t: Tables, id: nat, m: nat, ordered: real, after: Tables, ok: bool, filled: bool)
    requires id < |t.proposals| && m < |t.mirrors| && IsOpen(env.getOrder(t.clock))
    requires Waited(env, Tick(t), id, m, ordered, after, ok, filled)
    ensures Waited(env, t, id, m, ordered, after, ok, filled)
  {
    hide Ended, IsOpen;
  }

  /* ------------------------------------------------------------------ seen from the last reply */

  /** `now` is `t` some open replies later. */
  predicate Later(t: Tables, now: Tables) {
    t.clock <= now.clock && now == t.(clock := now.clock)
  }

  lemma LaterOut(t: Tables, clock: nat, id: nat, m: nat, ordered: real)
    ensures IsOut(t, id, m, ordered) ==> IsOut(t.(clock := clock), id, m, ordered)
  {
  }

  lemma LastUnanswered(env: Env, t: Tables, id: nat, m: nat, ordered: real, now: Tables, ok: bool)
    requires Later(t, now) && forall k :: t.clock <= k < now.clock ==> IsOpen(env.getOrder(k))
    ensures IsOut(t, id, m, ordered)
            && (if env.getOrder(now.clock).None? then !ok else IsOpen(env.getOrder(now.clock))) ==>
              Waited(env, t, id, m, ordered, Tick(now), ok, false)
  {
    if IsOut(t, id, m, ordered) && (env.getOrder(now.clock).None? || IsOpen(env.getOrder(now.clock))) {
      StillOut(t, id, m, ordered, env.getOrder(now.clock));
      hide EndedBy;
    }
  }

  lemma LastCloses(env: Env, t: Tables, id: nat, m: nat, ordered: real, now: Tables, o: BrokerOrder)
    requires Later(t, now) && forall k :: t.clock <= k < now.clock ==> IsOpen(env.getOrder(k))
    requires env.getOrder(now.clock) == Some(o) && IsOver(o.status)
    ensures IsOut(t, id, m, ordered) ==>
              Waited(env, t, id, m, ordered, SetProposal(Tick(Reconciled(now, m, o)), id, StatusFor(o)), true,
                     o.status == "filled")
  {
    if IsOut(t, id, m, ordered) {
      ClosedAsSaid(now, id, m, ordered, o);
      hide EndedBy, Reconciled, StatusFor, SetProposal;
    }
  }

  lemma WaitedFor(env: Env, t: Tables, id: nat, m: nat, ordered: real, after: Tables, ok: bool, filled: bool)
    requires IsOut(t, id, m, ordered) && Waited(env, t, id, m, ordered, after, ok, filled)
    ensures t.clock < after.clock && |after.mirrors| == |t.mirrors| && after.mirrors[m].proposal == id
    ensures forall k :: t.clock <= k < after.clock - 1 ==> IsOpen(env.getOrder(k))
    ensures id < |after.proposals|
    ensures Ended(env.getOrder(after.clock - 1), ordered, after.proposals[id].status, after.mirrors[m])
    ensures after.log == t.log
  {
    hide Ended, IsOpen;
  }

  /** Polling the order of `t` comes to this end. */
  ghost predicate PollsTo(env: Env, t: Tables, id: nat, m: nat, ordered: real, waits: nat, caller: Caller,
        after: Tables, ok: bool, filled: bool)
  {
    && id < |t.proposals| && m < |t.mirrors|
    && RunToEnd(env, t, Polling(id, m, waits, caller)) == RunToEnd(env, after, Returning(ok, filled, caller))
    && Waited(env, t, id, m, ordered, after, ok, filled)
  }

  lemma PollFails(env: Env, t: Tables, id: nat, m: nat, ordered: real, waits: nat, caller: Caller)
    requires IsOut(t, id, m, ordered) && env.getOrder(t.clock).None?
    ensures PollsTo(env, t, id, m, ordered, waits, caller, Tick(t), false, false)
  {
    hide RunToEnd, Waited;
    PollingSteps(env, t, id, m, waits, caller);
    LastUnanswered(env, t, id, m, ordered, t, false);
  }

  lemma PollCloses(env: Env, t: Tables, id: nat, m: nat, ordered: real, waits: nat, caller: Caller, o: BrokerOrder)
    requires IsOut(t, id, m, ordered) && env.getOrder(t.clock) == Some(o) && IsOver(o.status)
    ensures var after := SetProposal(Tick(Reconciled(t, m, o)), id, StatusFor(o));
            PollsTo(env, t, id, m, ordered, waits, caller, after, true, o.status == "filled")
  {
    OverIsTerminal(o.status);
    hide RunToEnd, Waited, IsOver, IsBrokerTerminal, Reconciled, SetProposal, StatusFor;
    ClosingSteps(env, t, id, m, waits, caller);
    LastCloses(env, t, id, m, ordered, t, o);
  }

  lemma PollStops(env: Env, t: Tables, id: nat, m: nat, ordered: real, waits: nat, caller: Caller)
    requires IsOut(t, id, m, ordered) && IsOpen(env.getOrder(t.clock))
    requires waits == 0 || env.late(t.clock) || env.stopped(t.clock)
    ensures PollsTo(env, t, id, m, ordered, waits, caller, Tick(t), waits == 0 || env.late(t.clock), false)
  {
    OverIsTerminal(env.getOrder(t.clock).value.status);
    hide RunToEnd, Waited, IsBrokerTerminal;
    PollingSteps(env, t, id, m, waits, caller);
    LastUnanswered(env, t, id, m, ordered, t, waits == 0 || env.late(t.clock));
  }

  lemma PollGoesOn(env: Env, t: Tables, id: nat, m: nat, ordered: real, waits: nat, caller: Caller,
        after: Tables, ok: bool, filled: bool)
    requires IsOpen(env.getOrder(t.clock)) && waits > 0 && !env.late(t.clock) && !env.stopped(t.clock)
    requires PollsTo(env, Tick(t), id, m, ordered, waits - 1, caller, after, ok, filled)
    ensures PollsTo(env, t, id, m, ordered, waits, caller, after, ok, filled)
  {
    OverIsTerminal(env.getOrder(t.clock).value.status);
    hide RunToEnd, IsBrokerTerminal, Waited;
    PollingSteps(env, t, id, m, waits, caller);
    OneMoreWait(env, t, id, m, ordered, after, ok, filled);
  }

  lemma OutTicked(t: Tables, id: nat, m: nat, ordered: real)
    requires IsOut(t, id, m, ordered)
    ensures IsOut(Tick(t), id, m, ordered)
  {
  }

  /** However long an order is polled, one reply decides. */
  lemma {:induction false} PollingEnds(env: Env, t: Tables, id: nat, m: nat, ordered: real, waits: nat, caller: Caller)
    returns (after: Tables, ok: bool, filled: bool)
    requires IsOut(t, id, m, ordered)
    ensures PollsTo(env, t, id, m, ordered, waits, caller, after, ok, filled)
    decreases waits
  {
    var reply := env.getOrder(t.clock);
    hide IsOver, PollsTo, IsOut, Reconciled, SetProposal, StatusFor;
    if reply.None? {
      PollFails(env, t, id, m, ordered, waits, caller);
      after, ok, filled := Tick(t), false, false;
    } else if IsOver(reply.value.status) {
      PollCloses(env, t, id, m, ordered, waits, caller, reply.value);
      after, ok := SetProposal(Tick(Reconciled(t, m, reply.value)), id, StatusFor(reply.value)), true;
      filled := reply.value.status == "filled";
    } else if waits == 0 || env.late(t.clock) || env.stopped(t.clock) {
      PollStops(env, t, id, m, ordered, waits, caller);
      after, ok, filled := Tick(t), waits == 0 || env.late(t.clock), false;
    } else {
      OutTicked(t, id, m, ordered);
      after, ok, filled := PollingEnds(env, Tick(t), id, m, ordered, waits - 1, caller);
      PollGoesOn(env, t, id, m, ordered, waits, caller, after, ok, filled);
    }
  }

  /** The tables with the order of a proposal out. */
  function Out(t: Tables, id: nat): Tables {
    SetProposal(NewMirror(t, id), id, Submitted)
  }

  lemma OutRows(t: Tables, id: nat)
    requires id < |t.proposals|
    ensures IsOut(Out(t, id), id, |t.mirrors|, t.proposals[id].draft.qty)
    ensures id < |Out(t, id).proposals| && |Out(t, id).mirrors| == |t.mirrors| + 1
  {
  }

  /** An order that the broker has taken: its mirror is the next row, its proposal is submitted, and then one reply of
      the broker decides. */
  lemma AcceptedOrderEnds(env: Env, t: Tables, id: nat, caller: Caller) returns (after: Tables, ok: bool, filled: bool)
    requires id < |t.proposals|
    ensures RunToEnd(env, t, Mirroring(id, caller)) == RunToEnd(env, after, Returning(ok, filled, caller))
    ensures id < |Out(t, id).proposals| && |t.mirrors| < |Out(t, id).mirrors|
    ensures Waited(env, Out(t, id), id, |t.mirrors|, t.proposals[id].draft.qty, after, ok, filled)
  {
    OutRows(t, id);
    MirroringSteps(env, t, id, caller);
    hide RunToEnd, Waited, IsOut, NewMirror, SetProposal;
    after, ok, filled := PollingEnds(env, Out(t, id), id, |t.mirrors|, t.proposals[id].draft.qty, MAX_WAITS, caller);
  }

  /** When a decision's order is accepted and the broker's first word on it is final, the proposal and its mirror end as
      that word says. */
  lemma FirstWordDecides(env: Env, t: Tables, id: nat, run: nat)
    requires id < |t.proposals| && env.getOrder(t.clock).Some? && IsOver(env.getOrder(t.clock).value.status)
    ensures var after := RunToEnd(env, t, Mirroring(id, FromDecide(run)));
            && id < |after.proposals| && |after.mirrors| == |t.mirrors| + 1 && after.mirrors[|t.mirrors|].proposal == id
            && EndedBy(env.getOrder(t.clock).value, t.proposals[id].draft.qty,
                       after.proposals[id].status, after.mirrors[|t.mirrors|])
  {
    var ended, ok, filled := AcceptedOrderEnds(env, t, id, FromDecide(run));
    OutRows(t, id);
    OnlyTheLast(env, Out(t, id), id, |t.mirrors|, t.proposals[id].draft.qty, ended, ok, filled);
    assert Out(t, id).clock == t.clock;
    hide RunToEnd, Waited, Out, EndedBy, IsOut, IsOver;
    Leads(env, ended, Returning(ok, filled, FromDecide(run)), ended, Refreshing(run));
    RefreshEnds(env, ended, run);
    hide HasPending, HasAwaiting;
  }

  lemma OnlyTheLast(env: Env, t: Tables, id: nat, m: nat, ordered: real, after: Tables, ok: bool, filled: bool)
    requires IsOut(t, id, m, ordered) && Waited(env, t, id, m, ordered, after, ok, filled)
    requires env.getOrder(t.clock).Some? && IsOver(env.getOrder(t.clock).value.status)
    ensures id < |after.proposals| && |after.mirrors| == |t.mirrors| && after.mirrors[m].proposal == id
    ensures EndedBy(env.getOrder(t.clock).value, ordered, after.proposals[id].status, after.mirrors[m])
  {
    assert !IsOpen(env.getOrder(t.clock));
    hide EndedBy;
  }

  /** A proposal that is left submitted was never reported over. */
  lemma LeftSubmitted(env: Env, t: Tables, id: nat, m: nat, ordered: real, after: Tables, ok: bool, filled: bool,
        k: nat)
    requires IsOut(t, id, m, ordered) && Waited(env, t, id, m, ordered, after, ok, filled)
    requires after.proposals[id].status.Submitted? && t.clock <= k < after.clock
    ensures env.getOrder(k).Some? ==> !IsOver(env.getOrder(k).value.status)
  {
  }
}
