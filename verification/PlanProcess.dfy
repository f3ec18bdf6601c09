/** The process that runs the plan loop: it mutates its own bag, events, rounds and token totals, and hands the
    checkpoint from node to node. */
module PlanProcess {
  import opened Common
  import opened PlanTypes
  import opened PlanLoop
  import opened PlanPause
  import opened PlanMeaning

  class Process {
    const env: Env
    const given: Given
    var called: bool
    var last: Option<string>
    var force: bool
    var events: seq<Event>
    var rounds: seq<Round>
    var prompt: nat
    var completion: nat
    /** Everything asked of the outside world so far. */
    var log: Log

    function Snapshot(): Side
      reads this
    {
      Side(called, last, force, events, rounds, Usage(prompt, completion))
    }

    constructor (env: Env, given: Given, first: bool, log: Log)
      ensures this.env == env && this.given == given && this.log == log
      ensures Snapshot() == StartSide(env, given.base, first)
    {
      this.env, this.given, this.log := env, given, log;
      var base := given.base;
      called, force := false, false;
      last := if base.Sized? then Some(base.data) else None;
      events, rounds := [], [];
      prompt, completion := 0, 0;
      new;
      if first && env.ensureSize && base.Sized? {
        called := true;
        rounds := rounds + [DeterministicRound(1, true, 0, base.data, None)];
      }
    }

    method AppendEvents(new_: seq<Event>)
      modifies this`events
      ensures Snapshot() == AddEvents(old(Snapshot()), new_)
    {
      events := events + new_;
    }

    method AccumulateUsage(u: Usage)
      modifies this`prompt, this`completion
      ensures Snapshot() == AddUsage(old(Snapshot()), u)
    {
      prompt := prompt + u.prompt;
      completion := completion + u.completion;
    }

    method RehydrateSize(messages: seq<Message>)
      modifies this`called, this`last
      ensures Snapshot() == Rehydrate(env, old(Snapshot()), messages)
    {
      var i := |messages|;
      assert messages[..i] == messages;
      while i > 0
        invariant 0 <= i <= |messages|
        invariant LastSized(messages) == LastSized(messages[..i])
        invariant Snapshot() == old(Snapshot())
      {
        i := i - 1;
        var m := messages[i];
        assert messages[..i + 1][..i] == messages[..i] && messages[..i + 1][i] == m;
        if m.Tool? && m.name == SIZE_TOOL {
          called := true;
          var sized := env.sizedLoosely(m.content);
          if sized.Some? && last.None? {
            last := sized;
          }
          return;
        }
      }
      assert messages[..0] == [];
    }

    method MergeSide(v: Vals)
      modifies this
      ensures log == old(log) && Snapshot() == Merge(env, old(Snapshot()), v)
    {
      var c := v.side;
      if c.called {
        called := true;
      }
      if c.force {
        force := true;
      }
      if last.None? && c.last.Some? {
        last := c.last;
      }
      if |c.events| > |events| {
        events := c.events;
      }
      if |c.rounds| > |rounds| {
        rounds := c.rounds;
      }
      prompt := Max(prompt, c.usage.prompt);
      completion := Max(completion, c.usage.completion);
      RehydrateSize(v.messages);
    }

    method RunPlan(v: Vals) returns (m: Moved)
      modifies this
      ensures m == PlanNode(env, given.message, Merge(env, old(Snapshot()), v), v, old(log))
      ensures log == m.log && (m.Moved? ==> Snapshot() == m.v.side)
    {
      MergeSide(v);
      hide Merge, NormalPlan, StartNext, StartEvents, AddEvents, AddUsage;
      ghost var s := Snapshot();
      var replan := v.plan != [] || v.decision == Some(RevisePlan);
      log := log + [PlanCall(given.message, if replan then Some((v.plan, v.memory)) else None)];
      var reply := env.plan(log);
      if reply.None? {
        return Raised(log);
      }
      AccumulateUsage(reply.value.usage);
      var plan := NormalizePlanSteps(
        if reply.value.steps == Items([]) then reply.value.fromContent else reply.value.steps);
      if plan.None? {
        return Raised(log);
      }
      var (started, current) := StartNext(plan.value);
      AppendEvents([PlanEvent(started, current, false)]);
      AppendEvents(StartEvents(current));
      AppendEvents([LlmEvent("plan", None, reply.value.meta)]);
      JoinEvents(AddUsage(s, reply.value.usage), [PlanEvent(started, current, false)], StartEvents(current));
      JoinEvents(AddUsage(s, reply.value.usage), [PlanEvent(started, current, false)] + StartEvents(current),
            [LlmEvent("plan", None, reply.value.meta)]);
      m := Moved(v.(plan := started, current := current, decision := None, lastCalls := [], stop := Unset,
                    result := None, side := Snapshot()), Act, log);
    }

    method RunAct(v: Vals) returns (m: Moved)
      modifies this
      ensures m == ActNode(env, Merge(env, old(Snapshot()), v), v, old(log))
      ensures log == m.log && (m.Moved? ==> Snapshot() == m.v.side)
    {
      MergeSide(v);
      hide Merge, ActMessages, Clipped;
      if v.round >= env.maxRounds || force {
        force := true;
        return Moved(v.(stop := MaxRounds, lastCalls := [], decision := Some(FinalizeNow), side := Snapshot()),
                     Finalize, log);
      }
      var messages := ActMessages(env, v);
      log := log + [ActCall(messages)];
      var reply := env.act(log);
      if reply.None? {
        return Raised(log);
      }
      var r := reply.value;
      AccumulateUsage(r.usage);
      AppendEvents([LlmEvent("act", Some(v.round + 1), r.meta)]);
      rounds := rounds + [Round(v.round + 1, r.meta, r.content, r.calls, [])];
      var memory, next := v.memory, Reflecting;
      if r.calls != [] {
        messages := messages + [Assistant(r.content.GetOr(""), r.calls)];
        next := Normals;
      } else if r.content.Some? && r.content.value != "" {
        messages := messages + [Assistant(r.content.value, [])];
        memory := memory.(notes := memory.notes + [Clipped(r.content.value)]);
      }
      m := Moved(v.(messages := messages, memory := memory, round := v.round + 1, lastCalls := r.calls,
                    lastContent := r.content, stop := Unset, result := None, decision := None, side := Snapshot()),
                 next, log);
    }

    /** Files tool entries under the latest round. */
    method File(entries: seq<ToolEntry>)
      modifies this`rounds
      ensures Snapshot() == FileEntries(old(Snapshot()), entries)
    {
      if rounds == [] {
        return;
      }
      var at := |rounds| - 1;
      var prior := rounds[at].tools;
      var merged := prior;
      for i := 0 to |entries|
        invariant rounds == old(rounds)
        invariant merged + NewEntries(prior, entries[i..]) == prior + NewEntries(prior, entries)
      {
        assert entries[i..][1..] == entries[i + 1..];
        if !HasEntry(prior, entries[i].id) {
          merged := merged + [entries[i]];
        }
      }
      assert merged == prior + NewEntries(prior, entries) by {
        assert entries[|entries|..] == [] && merged + [] == merged;
      }
      rounds := rounds[at := rounds[at].(tools := merged)];
    }

    method RunToolsNormals(v: Vals) returns (m: Moved)
      modifies this
      ensures m == NormalsNode(env, Merge(env, old(Snapshot()), v), v, old(log))
      ensures log == m.log && (m.Moved? ==> Snapshot() == m.v.side)
      ensures && m.Moved? && |v.messages| <= |m.v.messages| && m.v.messages[..|v.messages|] == v.messages
              && Results(env, old(log), log, NewCalls(DoneIds(v.messages), NormalCalls(v.lastCalls)),
                         m.v.messages[|v.messages|..])
    {
      MergeSide(v);
      NormalsFollow(env, Snapshot(), v, log);
      hide Results, DoneIds, NewCalls;
      hide Merge, FileEntries;
      ghost var w0 := StartWork(Snapshot(), v, log);
      var messages, memory := v.messages, v.memory;
      var entries: seq<ToolEntry> := [];
      var normal, human := SplitCalls(v.lastCalls);
      for i := 0 to |normal|
        invariant RunNormals(env, Work(messages, memory, Snapshot(), entries, log), normal[i..])
              == RunNormals(env, w0, normal)
      {
        var c := normal[i];
        assert normal[i..][1..] == normal[i + 1..];
        ghost var w := Work(messages, memory, Snapshot(), entries, log);
        if !(c.id != "" && HasToolMessage(messages, c.id)) {
          log := log + [ToolRun(c.id, c.name, c.args)];
          var e := env.tool(log);
          if c.name == SIZE_TOOL {
            called := true;
            var sized := env.sized(e.result);
            if sized.Some? {
              last := sized;
            }
          }
          memory := AppendRef(memory, RefOf(c.name, e.ok));
          AppendEvents([ToolEvent(c.name, e.ok, e.latency, e.error)]);
          entries := entries + [ToolEntry(c.id, c.name, e.ok, e.latency, e.result, e.error)];
          messages := messages + [Tool(e.result, c.id, c.name)];
        }
        assert Work(messages, memory, Snapshot(), entries, log) == RunNormal(env, w, c);
      }
      ghost var done := RunNormals(env, w0, normal);
      assert done == Work(messages, memory, Snapshot(), entries, log);
      File(entries);
      m := Moved(v.(messages := messages, memory := memory, lastCalls := [], pending := human, side := Snapshot()),
                 if human == [] then Reflecting else Human, log);
    }

    static method SplitCalls(calls: seq<Call>) returns (normal: seq<Call>, human: seq<Call>)
      ensures normal == NormalCalls(calls) && human == HumanCalls(calls)
    {
      normal, human := [], [];
      for i := 0 to |calls|
        invariant normal + NormalCalls(calls[i..]) == NormalCalls(calls)
        invariant human + HumanCalls(calls[i..]) == HumanCalls(calls)
      {
        assert calls[i..][1..] == calls[i + 1..];
        if calls[i].name == HUMAN_TOOL {
          human := human + [calls[i]];
        } else {
          normal := normal + [calls[i]];
        }
      }
    }

    /** `reply` is what the interrupt returns; without one the first question interrupts. */
    method RunToolsHuman(v: Vals, reply: Option<string>) returns (p: Pass)
      modifies this
      ensures p == HumanPass(env, Merge(env, old(Snapshot()), v), v, old(log), reply)
      ensures p.Paused? ==> log == old(log)
      ensures p.Passed? ==> p.moved.Moved? && log == p.moved.log && Snapshot() == p.moved.v.side
      ensures reply.Some? ==>
                && p.Passed? && |v.messages| <= |p.moved.v.messages| && p.moved.v.messages[..|v.messages|] == v.messages
                && Replies(env, v.pending, false, reply.value, p.moved.v.messages[|v.messages|..])
    {
      MergeSide(v);
      if reply.Some? {
        ResumedFollows(env, Snapshot(), v, log, reply.value);
      }
      hide Replies;
      hide Merge, FileEntries;
      ghost var w0 := StartWork(Snapshot(), v, log);
      var messages, memory := v.messages, v.memory;
      var entries: seq<ToolEntry> := [];
      var calls := v.pending;
      var asked := false;
      for i := 0 to |calls|
        invariant log == old(log)
        invariant AskReplaying(env, Work(messages, memory, Snapshot(), entries, log), calls[i..], asked, reply)
               == AskReplaying(env, w0, calls, false, reply)
      {
        var c := calls[i];
        assert calls[i..][1..] == calls[i + 1..];
        ghost var w := Work(messages, memory, Snapshot(), entries, log);
        var request := env.request(c.args);
        var e: Executed;
        if request.None? {
          e := Failed(NO_QUESTION);
        } else if asked {
          e := Failed(MULTIPLE);
        } else if reply.None? {
          return Paused(request.value);
        } else {
          asked := true;
          e := Answered(reply.value);
        }
        memory := AppendRef(memory, RefOf(HUMAN_TOOL, e.ok));
        AppendEvents([ToolEvent(HUMAN_TOOL, e.ok, e.latency, e.error)]);
        entries := entries + [ToolEntry(c.id, HUMAN_TOOL, e.ok, e.latency, e.result, e.error)];
        messages := messages + [Tool(e.result, c.id, HUMAN_TOOL)];
        assert Work(messages, memory, Snapshot(), entries, log) == Record(w, c.id, HUMAN_TOOL, e);
      }
      ghost var done := Work(messages, memory, Snapshot(), entries, log);
      assert AskReplaying(env, w0, calls, false, reply) == Walked(done);
      File(entries);
      p := Passed(Moved(v.(messages := messages, memory := memory, lastCalls := [], pending := [],
                           side := Snapshot()), Reflecting, log));
    }

    /** Does what the decision says to the plan. */
    method FollowReflect(r: Reflect, v: Vals) returns (plan: seq<PlanStep>, current: Option<string>, decision: Decision)
      modifies this`events
      ensures (plan, current, decision) == (ApplyReflect(r, v).0, ApplyReflect(r, v).1, ApplyReflect(r, v).3)
      ensures Snapshot() == AddEvents(old(Snapshot()), ApplyReflect(r, v).2)
    {
      hide NormalPlan, StartNext;
      plan, current, decision := v.plan, v.current, r.decision;
      if r.decision.MarkStepDone? {
        var id := if r.stepId.Some? && r.stepId.value != "" then r.stepId.value else v.current.GetOr("");
        if id != "" {
          plan := SetStatus(plan, id, StepDone);
        }
        var (started, next) := StartNext(plan);
        plan, current := started, next;
        AppendEvents(StartEvents(next));
      } else if r.decision.RevisePlan? && r.patch.Some? {
        var patched := NormalizePlanSteps(r.patch.value);
        if patched.Some? {
          var (started, next) := StartNext(patched.value);
          plan, current := started, next;
          AppendEvents(StartEvents(next));
          AppendEvents([PlanEvent(plan, next, true)]);
          decision := Continue;
        }
      }
      assert events == old(events) + ApplyReflect(r, v).2;
    }

    static lemma JoinEvents(s: Side, a: seq<Event>, b: seq<Event>)
      ensures AddEvents(AddEvents(s, a), b) == AddEvents(s, a + b)
    {
      assert s.events + a + b == s.events + (a + b);
    }

    method RunReflect(v: Vals) returns (m: Moved)
      modifies this
      ensures m == ReflectNode(env, Merge(env, old(Snapshot()), v), v, old(log))
      ensures log == m.log && (m.Moved? ==> Snapshot() == m.v.side)
      ensures !Merge(env, old(Snapshot()), v).force && !v.stop.MaxRounds? && m.Moved? ==>
                env.reflect(log).Some? && Obeys(RawReflectOf(env.reflect(log).value), v, m.v, m.next)
    {
      MergeSide(v);
      if !force && !v.stop.MaxRounds? {
        ReflectFollows(env, Snapshot(), v, log);
      }
      hide Obeys;
      hide Merge, NormalPlan, StartNext, NormalReflect;
      ghost var s := Snapshot();
      if force || v.stop.MaxRounds? {
        AppendEvents([ReflectEvent(FinalizeNow, None, Some("max_rounds"), None)]);
        return Moved(v.(decision := Some(FinalizeNow), stop := if v.stop.Unset? then MaxRounds else v.stop,
                        side := Snapshot()), Finalize, log);
      }
      log := log + [ReflectCall(v.messages, v.plan, v.current, v.memory)];
      var reply := env.reflect(log);
      if reply.None? {
        return Raised(log);
      }
      AccumulateUsage(reply.value.usage);
      var r := NormalReflect(if reply.value.reflect.Some? then reply.value.reflect.value
                             else reply.value.fromContent.GetOr(RawReflect("continue", None, None, None)));
      AppendEvents([ReflectEvent(r.decision, r.stepId, r.reason, Some(reply.value.meta))]);
      var plan, current, decision := FollowReflect(r, v);
      var stop := if r.decision.FinalizeNow? then Final else v.stop;
      JoinEvents(AddUsage(s, reply.value.usage), [ReflectEvent(r.decision, r.stepId, r.reason, Some(reply.value.meta))],
                 ApplyReflect(r, v).2);
      hide ApplyReflect, AddEvents;
      m := Moved(v.(plan := plan, current := current, decision := Some(decision), lastCalls := [], stop := stop,
                    side := Snapshot()),
                 if decision.FinalizeNow? then Finalize else if decision.RevisePlan? then Plan else Act, log);
    }

    /** The one repair call. */
    method RunRepair(v: Vals) returns (result: Option<string>)
      modifies this
      ensures (Snapshot(), result, log) == Repair(env, old(Snapshot()), v, old(log))
    {
      log := log + [RepairCall(v.messages, v.lastContent)];
      var reply := env.repair(log);
      if reply.None? {
        return None;
      }
      AccumulateUsage(reply.value.usage);
      var repaired := Extract(env, reply.value.content);
      result := None;
      if repaired.Some? {
        result := env.align(repaired.value);
        if result.None? {
          return;
        }
      }
      AppendEvents([LlmEvent("repair", None, reply.value.meta)]);
    }

    method RunFinalize(v: Vals) returns (m: Moved)
      modifies this
      ensures m == FinalizeNode(env, given.base, Merge(env, old(Snapshot()), v), v, old(log))
      ensures log == m.log && (m.Moved? ==> Snapshot() == m.v.side)
    {
      MergeSide(v);
      hide Merge, Repair, TryAlign, Extract, Fallback;
      var stop := if v.stop.Unset? then Final else v.stop;
      var result := TryAlign(env, Extract(env, v.lastContent));
      if result.None? {
        result := RunRepair(v);
      }
      if result.None? {
        result := TryAlign(env, Fallback(env, last, given.base));
        if result.Some? {
          if HasSizing(last, given.base) {
            if !stop.Final? && !stop.MaxRounds? {
              stop := Final;
            }
          } else {
            stop := MaxRounds;
          }
        }
      }
      if result.None? {
        AppendEvents([FinalizeEvent(false, ErrorStop)]);
        return Moved(v.(result := None, stop := ErrorStop, handoff := None, side := Snapshot()), End, log);
      }
      var built := env.handoff(result.value, v.memory);
      if built.BadHandoff? {
        return Raised(log);
      }
      ghost var s := Snapshot();
      var handoff := None;
      if built.Built? {
        handoff := Some(built.handoff);
        AppendEvents([HandoffEvent(built.handoff)]);
      }
      AppendEvents([FinalizeEvent(true, stop)]);
      assert built.Built? ==> events == s.events + [HandoffEvent(built.handoff), FinalizeEvent(true, stop)];
      m := Moved(v.(result := result, stop := stop, handoff := handoff, side := Snapshot()), End, log);
    }

    /** Sizing is run once more when nothing called it. */
    method RunEnsureSize(v: Vals) returns (result: Option<string>, memory: Memory, stop: Stop)
      modifies this
      ensures (Snapshot(), result, memory, stop, log) == EnsureSize(env, old(Snapshot()), v, old(log))
    {
      stop := if v.stop.Unset? then ErrorStop else v.stop;
      result, memory := v.result, v.memory;
      if env.ensureSize && !called && env.hasSizeTool {
        log := log + [SizeRun];
        var e := env.tool(log);
        called := true;
        var sized := env.sized(e.result);
        if sized.Some? {
          last := sized;
          memory := AppendRef(memory, RefOf(SIZE_TOOL, e.ok));
        }
        rounds := rounds + [DeterministicRound(|rounds| + 1, e.ok, e.latency, e.result, e.error)];
        if result.None? && sized.Some? {
          result := env.align(sized.value);
          if result.Some? && !stop.Final? && !stop.MaxRounds? {
            stop := Final;
          }
        }
      }
    }

    method Close(v: Vals) returns (o: Outcome)
      modifies this
      ensures o == PostPhase(env, given.base, old(Snapshot()), v, old(log))
    {
      MergeSide(v);
      hide Merge, EnsureSize, TryAlign, Fallback;
      var result, memory, stop := RunEnsureSize(v);
      if result.None? {
        result := TryAlign(env, Fallback(env, last, given.base));
        if result.Some? && !stop.Final? && !stop.MaxRounds? {
          stop := MaxRounds;
        }
      }
      if result.None? {
        return Crashed(log);
      }
      var envelope := Envelope(result.value, stop, v.handoff, memory, v.plan, v.messages, events, rounds,
            Usage(prompt, completion));
      o := if env.valid(envelope) then Done(envelope, log) else Crashed(log);
    }

    /** Any node but the one that may pause. */
    method RunOther(v: Vals, node: Node) returns (m: Moved)
      requires !node.End? && !node.Human?
      modifies this
      ensures m == RunNode(env, given, old(Snapshot()), v, node, old(log))
      ensures log == m.log && (m.Moved? ==> Snapshot() == m.v.side)
    {
      hide Merge, PlanNode, ActNode, NormalsNode, ReflectNode, FinalizeNode;
      match node {
        case Plan => m := RunPlan(v);
        case Act => m := RunAct(v);
        case Normals => m := RunToolsNormals(v);
        case Reflecting => m := RunReflect(v);
        case Finalize => m := RunFinalize(v);
      }
    }
  }

  /** tools_human: a question ends the process; once it is answered, a new process without baseline, and with the user
      message `later`, resumes the checkpoint. */
  method AskAndResume(p: Process, v: Vals, later: string) returns (q: Process, m: Moved)
    modifies p
    ensures q == p || fresh(q)
    ensures q.env == p.env && q.log == m.log && (m.Moved? ==> q.Snapshot() == m.v.side)
    ensures (m, q.given) == RunPausingNode(p.env, p.given, later, old(p.Snapshot()), v, Human, old(p.log), Always)
  {
    hide Merge, AskReplaying, StartSide;
    q := p;
    var pass := p.RunToolsHuman(v, None);
    if pass.Paused? {
      var log := p.log + [Ask(pass.request)];
      var reply := p.env.human(log);
      q := new Process(p.env, Given(NoBaseline, later), false, log);
      q.MergeSide(v);
      ReplayPasses(p.env, v, log, reply, old(p.Snapshot()), old(p.log));
      pass := q.RunToolsHuman(v, Some(reply));
    }
    m := pass.moved;
  }

  /** A replay with a reply never pauses again. */
  lemma ReplayPasses(env: Env, v: Vals, log: Log, reply: string, local: Side, before: Log)
    ensures HumanPass(env, ResumedSide(env, v), v, log, Some(reply)).Passed?
  {
    RepliedWalks(env, StartWork(ResumedSide(env, v), v, log), v.pending, false, reply);
  }

  lemma {:induction false} RepliedWalks(env: Env, w: Work, calls: seq<Call>, asked: bool, reply: string)
    ensures AskReplaying(env, w, calls, asked, Some(reply)).Walked?
    decreases |calls|
  {
    if calls != [] {
      var c := calls[0];
      var refused := env.request(c.args).None? || asked;
      var e := if env.request(c.args).None? then Failed(NO_QUESTION)
               else if asked then Failed(MULTIPLE)
               else Answered(reply);
      RepliedWalks(env, Record(w, c.id, HUMAN_TOOL, e), calls[1..], asked || !refused, reply);
    }
  }

  /** A run that pauses at every question, each time ending the process and resuming in a new one. If the baseline is
      absent or sized, its outcome is that of a single process answered on the spot exactly when the resumed ones are
      given the same user message or the run does not plan again after its first question. */
  method RunAgent(env: Env, given: Given, later: string) returns (o: Outcome)
    ensures o == WholePausing(env, given, later, Always)
    ensures given.base.NoBaseline? || given.base.Sized? ==>
              (o == Whole(env, given) <==> later == given.message || !Replans(env, given, Always))
  {
    hide Replans;
    if given.base.NoBaseline? || given.base.Sized? {
      RunIsTransparentIff(env, given, later, Always);
    }
    var p := new Process(env, given, true, []);
    var v, node := Initial(env, given), Plan;
    assert v.side == StartSide(env, given.base, true);
    assert RunPausing(env, given, later, v.side, v, node, [], Always) == WholePausing(env, given, later, Always);
    hide StartSide, Initial, RunNode, PostPhase, Whole, WholePausing;
    while !node.End?
      invariant p.env == env && fresh(p)
      invariant p.Snapshot() == v.side
      invariant RunPausing(env, p.given, later, v.side, v, node, p.log, Always)
            == WholePausing(env, given, later, Always)
      decreases RoundsLeft(env, v), Rank(node)
    {
      PausingProgress(env, p.given, later, v.side, v, node, p.log, Always);
      PausingFrom(env, p.given, later, v.side, v, node, p.log, Always);
      hide RunPausing, RunPausingNode, RoundsLeft, Rank;
      var m: Moved;
      if node.Human? {
        p, m := AskAndResume(p, v, later);
      } else {
        m := p.RunOther(v, node);
      }
      if m.Raised? {
        return Crashed(m.log);
      }
      v, node := m.v, m.next;
    }
    PausingFrom(env, p.given, later, v.side, v, node, p.log, Always);
    o := p.Close(v);
  }
}
