/** What the loop does with one proposal, in the terms of the person who reads the tables afterwards. */
module Handling {
  import opened Common
  import opened Risk
  import opened Gate
  import opened Workflow
  import opened WorkflowSteps

  /** The order the gate is shown: the quantity at the mark, paid for or received in cash. */
  function Shown(l: Loop, d: Draft): Order
    requires d.symbol in l.marks
  {
    GateOrder(d.symbol, d.side, d.qty, l.marks[d.symbol])
  }

  /** Past the watchlist and mark checks. */
  predicate Judgeable(l: Loop, d: Draft) {
    (d.side.Buy? ==> d.symbol in l.hold && l.hold[d.symbol]) && d.symbol in l.marks && l.marks[d.symbol] > 0.0
  }

  /** The first proposal of the loop, when there is one. */
  predicate HasFirst(t: Tables, l: Loop) {
    l.todo != [] && l.todo[0] < |t.proposals|
  }

  function WithRejected(t: Tables, id: nat, reasons: seq<string>): Tables
    requires id < |t.proposals|
  {
    t.(proposals := t.proposals[id := t.proposals[id].(status := Rejected, reasons := reasons)])
  }

  /** A buy of a symbol that is not on the watchlist, or not to be held, is rejected in every mode. */
  lemma UnheldIsRejected(env: Env, t: Tables, l: Loop)
    requires HasFirst(t, l) && t.proposals[l.todo[0]].draft.side.Buy?
    requires t.proposals[l.todo[0]].draft.symbol in l.hold ==> !l.hold[t.proposals[l.todo[0]].draft.symbol]
    ensures var id := l.todo[0];
            RunToEnd(env, t, Looping(l))
            == RunToEnd(env, WithRejected(t, id, ["not_holdable"]), Looping(Rest(l)))
  {
    hide RunToEnd;
    LoopRejects(env, t, l, ["not_holdable"]);
  }

  /** A proposal that can be judged has no mark to miss: the run gives up only on one that has none. */
  lemma UnmarkedEndsRun(env: Env, t: Tables, l: Loop)
    requires HasFirst(t, l)
    requires var d := t.proposals[l.todo[0]].draft;
             && (d.side.Buy? ==> d.symbol in l.hold && l.hold[d.symbol])
             && (d.symbol in l.marks ==> l.marks[d.symbol] <= 0.0)
    ensures RunToEnd(env, t, Looping(l)) == RunToEnd(env, t, Aborting(l.run, l.anyFill))
  {
    hide RunToEnd;
    LoopAborts(env, t, l);
  }

  /** An order that breaks a rule is not sent: under `auto_reject` its proposal is rejected, otherwise it is put before
      a person, each time for the reasons the rule engine gives. */
  lemma BreachIsHandled(env: Env, t: Tables, l: Loop)
    requires HasFirst(t, l) && Judgeable(l, t.proposals[l.todo[0]].draft) && !l.mode.BypassRisk?
    requires Evaluate(env.engine, l.state, Shown(l, t.proposals[l.todo[0]].draft)).breaches != []
    ensures var id := l.todo[0];
            var breaches := Evaluate(env.engine, l.state, Shown(l, t.proposals[id].draft)).breaches;
            RunToEnd(env, t, Looping(l)) ==
            if l.mode == AutoReject then
              RunToEnd(env, WithRejected(t, id, breaches), Looping(Rest(l)))
            else
              RunToEnd(env, t.(proposals := t.proposals[id := t.proposals[id].(status := Awaiting)],
                               approvals := t.approvals + [Approval(id, Pending, breaches, l.hold, l.batch)]),
                       Looping(Rest(l).(queued := true)))
  {
    var id := l.todo[0];
    BreachesAreNamed(env.engine, l.state, Shown(l, t.proposals[id].draft));
    hide RunToEnd, Evaluate;
    if l.mode.AutoReject? {
      LoopRejects(env, t, l, Evaluate(env.engine, l.state, Shown(l, t.proposals[id].draft)).breaches);
    } else {
      LoopQueues(env, t, l);
    }
  }

  /** An order that breaks no rule, or is exempt from all of them with a positive quantity, is sent. */
  lemma SoundIsSent(env: Env, t: Tables, l: Loop)
    requires HasFirst(t, l) && Judgeable(l, t.proposals[l.todo[0]].draft) && env.hasBroker
    requires var d := t.proposals[l.todo[0]].draft;
             if l.mode == BypassRisk then d.qty > 0.0 else Evaluate(env.engine, l.state, Shown(l, d)).breaches == []
    ensures var sent := Send(env, t, l.todo[0], GateAuthority(l), FromLoop(Rest(l)));
            RunToEnd(env, t, Looping(l)) == RunToEnd(env, sent.0, sent.1)
  {
    BreachesAreNamed(env.engine, l.state, Shown(l, t.proposals[l.todo[0]].draft));
    hide RunToEnd, Evaluate, Send;
    LoopSends(env, t, l);
  }
}
