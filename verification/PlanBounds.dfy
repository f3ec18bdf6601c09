/** What every run of the plan loop keeps, however it pauses: bounded calls to the model, no tool call run twice, and
    no reflection while a call is unanswered. */
module PlanBounds {
  import opened Common
  import opened PlanTypes
  import opened PlanLoop
  import opened PlanPause

  /* ------------------------------------------------------------------ counting calls */

  datatype Tally = Tally(plans: nat, acts: nat, reflects: nat, repairs: nat, asks: nat)

  function Count(t: Tally, e: External): Tally {
    match e
    case PlanCall(_, _) => t.(plans := t.plans + 1)
    case ActCall(_) => t.(acts := t.acts + 1)
    case ReflectCall(_, _, _, _) => t.(reflects := t.reflects + 1)
    case RepairCall(_, _) => t.(repairs := t.repairs + 1)
    case Ask(_) => t.(asks := t.asks + 1)
    case ToolRun(_, _, _) => t
    case SizeRun => t
  }

  function TallyOf(log: Log): Tally {
    if log == [] then Tally(0, 0, 0, 0, 0) else Count(TallyOf(log[..|log| - 1]), log[|log| - 1])
  }

  lemma TallyAppend(log: Log, e: External)
    ensures TallyOf(log + [e]) == Count(TallyOf(log), e)
  {
    assert (log + [e])[..|log|] == log;
  }

  function Budget(env: Env): nat {
    if env.maxRounds < 0 then 0 else env.maxRounds
  }

  /** The budget of a whole run. */
  predicate WithinBudget(env: Env, t: Tally) {
    && t.acts <= Budget(env)
    && t.reflects <= Budget(env)
    && t.plans <= Budget(env) + 1
    && t.repairs <= 1
    && t.asks <= Budget(env)
  }

  /** The same between nodes: what the node still owes is not counted yet. */
  predicate Accounted(env: Env, v: Vals, node: Node, t: Tally) {
    && t.acts == v.round <= Budget(env)
    && t.reflects + (if node.Normals? || node.Human? || node.Reflecting? then 1 else 0) <= t.acts
    && t.plans <= t.reflects + (if node.Plan? then 0 else 1)
    && t.asks + (if node.Normals? || node.Human? then 1 else 0) <= t.acts
    && t.repairs <= (if node.End? then 1 else 0)
  }

  lemma {:induction false} NormalsTally(env: Env, w: Work, calls: seq<Call>)
    ensures TallyOf(RunNormals(env, w, calls).log) == TallyOf(w.log)
    decreases |calls|
  {
    if calls != [] {
      TallyAppend(w.log, ToolRun(calls[0].id, calls[0].name, calls[0].args));
      NormalsTally(env, RunNormal(env, w, calls[0]), calls[1..]);
    }
  }

  /** A batch of human calls asks at most one question. */
  lemma {:induction false} AskingTally(env: Env, w: Work, calls: seq<Call>, asked: bool)
    ensures var before, after := TallyOf(w.log), TallyOf(AskNow(env, w, calls, asked).log);
            after == before || (!asked && after == before.(asks := before.asks + 1))
    decreases |calls|
  {
    if calls != [] {
      var c := calls[0];
      var request := env.request(c.args);
      if request.None? || asked {
        AskingTally(env, Record(w, c.id, HUMAN_TOOL, Failed(if request.None? then NO_QUESTION else MULTIPLE)),
              calls[1..], asked);
      } else {
        var log1 := w.log + [Ask(request.value)];
        TallyAppend(w.log, Ask(request.value));
        AskingTally(env, Record(w.(log := log1), c.id, HUMAN_TOOL, Answered(env.human(log1))), calls[1..], true);
      }
    }
  }

  lemma PlanAccounted(env: Env, message: string, s: Side, v: Vals, log: Log)
    requires Accounted(env, v, Plan, TallyOf(log))
    ensures var m := PlanNode(env, message, s, v, log);
            && (m.Moved? ==> Accounted(env, m.v, m.next, TallyOf(m.log)))
            && (m.Raised? ==> WithinBudget(env, TallyOf(m.log)))
  {
    hide TallyOf, AddEvents, AddUsage, NormalPlan, StartNext;
    var replan := v.plan != [] || v.decision == Some(RevisePlan);
    TallyAppend(log, PlanCall(message, if replan then Some((v.plan, v.memory)) else None));
  }

  lemma ActAccounted(env: Env, s: Side, v: Vals, log: Log)
    requires Accounted(env, v, Act, TallyOf(log))
    ensures var m := ActNode(env, s, v, log);
            && (m.Moved? ==> Accounted(env, m.v, m.next, TallyOf(m.log)))
            && (m.Raised? ==> WithinBudget(env, TallyOf(m.log)))
  {
    hide TallyOf, AddEvents, AddUsage, ActMessages, Clipped;
    TallyAppend(log, ActCall(ActMessages(env, v)));
  }

  lemma ReflectAccounted(env: Env, s: Side, v: Vals, log: Log)
    requires Accounted(env, v, Reflecting, TallyOf(log))
    ensures var m := ReflectNode(env, s, v, log);
            && (m.Moved? ==> Accounted(env, m.v, m.next, TallyOf(m.log)))
            && (m.Raised? ==> WithinBudget(env, TallyOf(m.log)))
  {
    hide TallyOf, AddEvents, AddUsage, NormalReflect, ApplyReflect;
    TallyAppend(log, ReflectCall(v.messages, v.plan, v.current, v.memory));
  }

  lemma FinalizeAccounted(env: Env, base: Baseline, s: Side, v: Vals, log: Log)
    requires Accounted(env, v, Finalize, TallyOf(log))
    ensures var m := FinalizeNode(env, base, s, v, log);
            && (m.Moved? ==> Accounted(env, m.v, m.next, TallyOf(m.log)))
            && (m.Raised? ==> WithinBudget(env, TallyOf(m.log)))
  {
    hide TallyOf, AddEvents, AddUsage, Settle, TryAlign, Extract;
    TallyAppend(log, RepairCall(v.messages, v.lastContent));
  }

  lemma NodeAccounted(env: Env, given: Given, v: Vals, node: Node, log: Log)
    requires !node.End? && Accounted(env, v, node, TallyOf(log))
    ensures var m := RunNode(env, given, v.side, v, node, log);
            && (m.Moved? ==> Accounted(env, m.v, m.next, TallyOf(m.log)))
            && (m.Raised? ==> WithinBudget(env, TallyOf(m.log)))
  {
    var s := Merge(env, v.side, v);
    hide Merge, TallyOf, PlanNode, ActNode, ReflectNode, FinalizeNode, RunNormals, AskNow, NormalCalls, HumanCalls,
         FileEntries;
    match node
    case Plan => PlanAccounted(env, given.message, s, v, log);
    case Act => ActAccounted(env, s, v, log);
    case Normals => NormalsTally(env, StartWork(s, v, log), NormalCalls(v.lastCalls));
    case Human => AskingTally(env, StartWork(s, v, log), v.pending, false);
    case Reflecting => ReflectAccounted(env, s, v, log);
    case Finalize => FinalizeAccounted(env, given.base, s, v, log);
  }

  /* ------------------------------------------------------------------ tool calls */

  predicate ExecutedOnce(log: Log) {
    forall i, j :: 0 <= i < j < |log| && log[i].ToolRun? && log[j].ToolRun? && log[i].id != "" ==>
          log[i].id != log[j].id
  }

  /** Every tool call that ran has its message. */
  predicate ExecutedIsFiled(log: Log, messages: seq<Message>) {
    forall i :: 0 <= i < |log| && log[i].ToolRun? && log[i].id != "" ==> HasToolMessage(messages, log[i].id)
  }

  predicate Ledgered(log: Log, messages: seq<Message>) {
    ExecutedOnce(log) && ExecutedIsFiled(log, messages)
  }

  /** Every call of an assistant message has a tool message with its id, those in `open` aside. */
  predicate AllAnswered(messages: seq<Message>, open: seq<Call>) {
    forall i, c :: 0 <= i < |messages| && messages[i].Assistant? && c in messages[i].calls ==>
      HasToolMessage(messages, c.id) || c in open
  }

  function OpenCalls(v: Vals, node: Node): seq<Call> {
    if node.Normals? then v.lastCalls else if node.Human? then v.pending else []
  }

  predicate IsPrefix(a: seq<Message>, b: seq<Message>) {
    |a| <= |b| && b[..|a|] == a
  }

  lemma MessagesStay(a: seq<Message>, b: seq<Message>, id: string)
    requires IsPrefix(a, b) && HasToolMessage(a, id)
    ensures HasToolMessage(b, id)
  {
    var i :| 0 <= i < |a| && a[i].Tool? && a[i].id == id;
    assert b[..|a|][i] == b[i];
  }

  /** Adding messages that hold no calls answers no fewer calls. */
  lemma AnsweredStays(a: seq<Message>, b: seq<Message>, open: seq<Call>)
    requires AllAnswered(a, open) && IsPrefix(a, b)
    requires forall i :: |a| <= i < |b| && b[i].Assistant? ==> b[i].calls == []
    ensures AllAnswered(b, open)
  {
    forall i, c | 0 <= i < |b| && b[i].Assistant? && c in b[i].calls && c !in open ensures HasToolMessage(b, c.id) {
      assert b[..|a|][i] == b[i];
      assert HasToolMessage(a, c.id);
      MessagesStay(a, b, c.id);
    }
  }

  lemma LedgeredStays(log: Log, a: seq<Message>, b: seq<Message>)
    requires Ledgered(log, a) && IsPrefix(a, b)
    ensures Ledgered(log, b)
  {
    forall i | 0 <= i < |log| && log[i].ToolRun? && log[i].id != "" ensures HasToolMessage(b, log[i].id) {
      MessagesStay(a, b, log[i].id);
    }
  }

  lemma LedgeredAppend(log: Log, e: External, messages: seq<Message>)
    requires Ledgered(log, messages) && !e.ToolRun?
    ensures Ledgered(log + [e], messages)
  {
  }

  predicate OnlyTools(a: seq<Message>, b: seq<Message>) {
    IsPrefix(a, b) && forall i :: |a| <= i < |b| ==> b[i].Tool?
  }

  lemma OnlyToolsTransitive(a: seq<Message>, b: seq<Message>, c: seq<Message>)
    requires OnlyTools(a, b) && OnlyTools(b, c)
    ensures OnlyTools(a, c)
  {
    assert c[..|a|] == c[..|b|][..|a|];
    forall i | |a| <= i < |c| ensures c[i].Tool? {
      assert i < |b| ==> c[..|b|][i] == c[i];
    }
  }

  lemma NormalRunsOnce(env: Env, w: Work, call: Call)
    requires Ledgered(w.log, w.messages)
    ensures var w1 := RunNormal(env, w, call);
            && Ledgered(w1.log, w1.messages)
            && OnlyTools(w.messages, w1.messages)
            && HasToolMessage(w1.messages, call.id)
  {
    var w1 := RunNormal(env, w, call);
    if !(call.id != "" && HasToolMessage(w.messages, call.id)) {
      assert w1.messages[|w.messages|].id == call.id;
      assert w1.messages[..|w.messages|] == w.messages;
      LedgeredStays(w.log, w.messages, w1.messages);
      assert w1.log[..|w.log|] == w.log;
      forall i | 0 <= i < |w.log| ensures w1.log[i] == w.log[i] {
        assert w1.log[..|w.log|][i] == w1.log[i];
      }
    }
  }

  /** A batch runs each id at most once, and afterwards every one of its calls has a message. */
  lemma {:induction false} NormalsRunOnce(env: Env, w: Work, calls: seq<Call>)
    requires Ledgered(w.log, w.messages)
    ensures var w1 := RunNormals(env, w, calls);
            && Ledgered(w1.log, w1.messages)
            && OnlyTools(w.messages, w1.messages)
            && forall c :: c in calls ==> HasToolMessage(w1.messages, c.id)
    decreases |calls|
  {
    if calls != [] {
      var w1 := RunNormal(env, w, calls[0]);
      NormalRunsOnce(env, w, calls[0]);
      hide RunNormal, Ledgered, HasToolMessage, OnlyTools;
      NormalsRunOnce(env, w1, calls[1..]);
      var w2 := RunNormals(env, w1, calls[1..]);
      OnlyToolsTransitive(w.messages, w1.messages, w2.messages);
      assert HasToolMessage(w2.messages, calls[0].id) by {
        OnlyToolsIsPrefix(w1.messages, w2.messages);
        MessagesStay(w1.messages, w2.messages, calls[0].id);
      }
      assert forall c :: c in calls ==> c == calls[0] || c in calls[1..];
    }
  }

  lemma OnlyToolsIsPrefix(a: seq<Message>, b: seq<Message>)
    requires OnlyTools(a, b)
    ensures IsPrefix(a, b)
  {
  }

  lemma Recorded(w: Work, log1: Log, id: string, e: Executed)
    requires Ledgered(w.log, w.messages)
    requires log1 == w.log || (|log1| == |w.log| + 1 && log1 == w.log + [log1[|w.log|]] && log1[|w.log|].Ask?)
    ensures var w1 := Record(w.(log := log1), id, HUMAN_TOOL, e);
            && Ledgered(w1.log, w1.messages)
            && OnlyTools(w.messages, w1.messages)
            && HasToolMessage(w1.messages, id)
  {
    var w1 := Record(w.(log := log1), id, HUMAN_TOOL, e);
    assert w1.messages[|w.messages|].id == id;
    LedgeredStays(w.log, w.messages, w1.messages);
    if log1 != w.log {
      LedgeredAppend(w.log, log1[|w.log|], w1.messages);
    }
  }

  lemma {:induction false} AskingAnswers(env: Env, w: Work, calls: seq<Call>, asked: bool)
    requires Ledgered(w.log, w.messages)
    ensures var w1 := AskNow(env, w, calls, asked);
            && Ledgered(w1.log, w1.messages)
            && OnlyTools(w.messages, w1.messages)
            && forall c :: c in calls ==> HasToolMessage(w1.messages, c.id)
    decreases |calls|
  {
    if calls != [] {
      var c := calls[0];
      var request := env.request(c.args);
      var refused := request.None? || asked;
      var log1 := if refused then w.log else w.log + [Ask(request.value)];
      var e := if request.None? then Failed(NO_QUESTION)
               else if asked then Failed(MULTIPLE)
               else Answered(env.human(log1));
      var w1 := Record(w.(log := log1), c.id, HUMAN_TOOL, e);
      Recorded(w, log1, c.id, e);
      assert AskNow(env, w, calls, asked) == AskNow(env, w1, calls[1..], asked || !refused);
      hide Record, Ledgered, HasToolMessage, OnlyTools;
      AskingAnswers(env, w1, calls[1..], asked || !refused);
      var w2 := AskNow(env, w1, calls[1..], asked || !refused);
      hide AskNow;
      OnlyToolsTransitive(w.messages, w1.messages, w2.messages);
      assert HasToolMessage(w2.messages, c.id) by {
        OnlyToolsIsPrefix(w1.messages, w2.messages);
        MessagesStay(w1.messages, w2.messages, c.id);
      }
      assert forall x :: x in calls ==> x == c || x in calls[1..];
    }
  }

  lemma {:induction false} EveryCallIsFiled(calls: seq<Call>, c: Call)
    requires c in calls
    ensures c in NormalCalls(calls) || c in HumanCalls(calls)
    decreases |calls|
  {
    if c != calls[0] {
      EveryCallIsFiled(calls[1..], c);
    }
  }

  /* ------------------------------------------------------------------ every node keeps all of it */

  predicate Clean(v: Vals, node: Node, log: Log) {
    Ledgered(log, v.messages) && AllAnswered(v.messages, OpenCalls(v, node))
  }

  lemma ToolNodeClean(v: Vals, messages: seq<Message>, log: Log, calls: seq<Call>, open: seq<Call>)
    requires AllAnswered(v.messages, calls) && OnlyTools(v.messages, messages)
    requires forall c :: c in calls ==> HasToolMessage(messages, c.id) || c in open
    ensures AllAnswered(messages, open)
  {
    AnsweredStays(v.messages, messages, calls);
  }

  lemma NormalsClean(env: Env, s: Side, v: Vals, log: Log)
    requires Clean(v, Normals, log)
    ensures var m := NormalsNode(env, s, v, log); Clean(m.v, m.next, m.log)
  {
    var w := RunNormals(env, StartWork(s, v, log), NormalCalls(v.lastCalls));
    NormalsRunOnce(env, StartWork(s, v, log), NormalCalls(v.lastCalls));
    forall c | c in v.lastCalls ensures HasToolMessage(w.messages, c.id) || c in HumanCalls(v.lastCalls) {
      EveryCallIsFiled(v.lastCalls, c);
    }
    hide RunNormals, AllAnswered, HasToolMessage, OnlyTools, Ledgered, FileEntries, HumanCalls, NormalCalls;
    ToolNodeClean(v, w.messages, log, v.lastCalls, HumanCalls(v.lastCalls));
  }

  lemma HumanClean(env: Env, s: Side, v: Vals, log: Log)
    requires Clean(v, Human, log)
    ensures var m := HumanNode(env, s, v, log); Clean(m.v, m.next, m.log)
  {
    var w := AskNow(env, StartWork(s, v, log), v.pending, false);
    AskingAnswers(env, StartWork(s, v, log), v.pending, false);
    hide AskNow, AllAnswered, HasToolMessage, OnlyTools, Ledgered, FileEntries;
    ToolNodeClean(v, w.messages, log, v.pending, []);
  }

  lemma ActExtends(env: Env, v: Vals)
    ensures IsPrefix(v.messages, ActMessages(env, v))
    ensures forall i :: |v.messages| <= i < |ActMessages(env, v)| ==> ActMessages(env, v)[i].User?
  {
  }

  lemma ActClean(env: Env, s: Side, v: Vals, log: Log)
    requires Clean(v, Act, log)
    ensures var m := ActNode(env, s, v, log);
            && (m.Moved? ==> Clean(m.v, m.next, m.log))
            && (m.Raised? ==> ExecutedOnce(m.log))
  {
    var m := ActNode(env, s, v, log);
    var shown := ActMessages(env, v);
    ActExtends(env, v);
    LedgeredAppend(log, ActCall(shown), v.messages);
    hide Ledgered, AllAnswered, ActMessages, Clipped, HasToolMessage;
    if m.Moved? && m.log != log {
      assert IsPrefix(v.messages, m.v.messages) by {
        assert m.v.messages[..|shown|] == shown;
        assert m.v.messages[..|v.messages|] == shown[..|v.messages|];
      }
      LedgeredStays(m.log, v.messages, m.v.messages);
      ActAnswered(v.messages, shown, m.v.messages, OpenCalls(m.v, m.next));
    }
    assert ExecutedOnce(log + [ActCall(shown)]) by { LedgeredOnce(log + [ActCall(shown)], v.messages); }
  }

  lemma LedgeredOnce(log: Log, messages: seq<Message>)
    requires Ledgered(log, messages)
    ensures ExecutedOnce(log)
  {
  }

  lemma ActAnswered(before: seq<Message>, shown: seq<Message>, after: seq<Message>, open: seq<Call>)
    requires AllAnswered(before, []) && IsPrefix(before, shown)
    requires forall i :: |before| <= i < |shown| ==> shown[i].User?
    requires || after == shown
             || (&& |after| == |shown| + 1 && after[..|shown|] == shown
                 && after[|shown|].Assistant? && after[|shown|].calls == open)
    ensures AllAnswered(after, open)
  {
    AnsweredStays(before, shown, []);
    forall i, c | 0 <= i < |after| && after[i].Assistant? && c in after[i].calls && c !in open
      ensures HasToolMessage(after, c.id)
    {
      assert i < |shown| && after[..|shown|][i] == after[i];
      MessagesStay(shown, after, c.id);
    }
  }

  lemma PlanClean(env: Env, message: string, s: Side, v: Vals, log: Log)
    requires Clean(v, Plan, log)
    ensures var m := PlanNode(env, message, s, v, log);
            && (m.Moved? ==> Clean(m.v, m.next, m.log))
            && (m.Raised? ==> ExecutedOnce(m.log))
  {
    var replan := v.plan != [] || v.decision == Some(RevisePlan);
    var e := PlanCall(message, if replan then Some((v.plan, v.memory)) else None);
    LedgeredAppend(log, e, v.messages);
    LedgeredOnce(log + [e], v.messages);
    hide Ledgered, AllAnswered, NormalPlan, StartNext, ExecutedOnce;
  }

  lemma ReflectClean(env: Env, s: Side, v: Vals, log: Log)
    requires Clean(v, Reflecting, log)
    ensures var m := ReflectNode(env, s, v, log);
            && (m.Moved? ==> Clean(m.v, m.next, m.log))
            && (m.Raised? ==> ExecutedOnce(m.log))
  {
    var e := ReflectCall(v.messages, v.plan, v.current, v.memory);
    LedgeredAppend(log, e, v.messages);
    LedgeredOnce(log + [e], v.messages);
    hide Ledgered, AllAnswered, NormalReflect, ApplyReflect, ExecutedOnce;
  }

  lemma FinalizeClean(env: Env, base: Baseline, s: Side, v: Vals, log: Log)
    requires Clean(v, Finalize, log)
    ensures var m := FinalizeNode(env, base, s, v, log);
            && (m.Moved? ==> Clean(m.v, m.next, m.log))
            && (m.Raised? ==> ExecutedOnce(m.log))
  {
    var e := RepairCall(v.messages, v.lastContent);
    LedgeredAppend(log, e, v.messages);
    LedgeredOnce(log + [e], v.messages);
    LedgeredOnce(log, v.messages);
    hide Ledgered, AllAnswered, Settle, TryAlign, Extract, ExecutedOnce;
  }

  lemma NodeClean(env: Env, given: Given, v: Vals, node: Node, log: Log)
    requires !node.End? && Clean(v, node, log)
    ensures var m := RunNode(env, given, v.side, v, node, log);
            && (m.Moved? ==> Clean(m.v, m.next, m.log))
            && (m.Raised? ==> ExecutedOnce(m.log))
  {
    var s := Merge(env, v.side, v);
    hide Merge, Clean, PlanNode, ActNode, ReflectNode, FinalizeNode, ExecutedOnce, RunNormals, AskNow;
    match node
    case Plan => PlanClean(env, given.message, s, v, log);
    case Act => ActClean(env, s, v, log);
    case Normals => NormalsClean(env, s, v, log);
    case Human => HumanClean(env, s, v, log);
    case Reflecting => ReflectClean(env, s, v, log);
    case Finalize => FinalizeClean(env, given.base, s, v, log);
  }

  /* ------------------------------------------------------------------ whole runs, with any pauses */

  predicate Sound(env: Env, v: Vals, node: Node, log: Log) {
    Accounted(env, v, node, TallyOf(log)) && Clean(v, node, log)
  }

  predicate LogSound(env: Env, log: Log) {
    WithinBudget(env, TallyOf(log)) && ExecutedOnce(log)
  }

  lemma NodeSound(env: Env, given: Given, v: Vals, node: Node, log: Log)
    requires !node.End? && Sound(env, v, node, log)
    ensures var m := RunNode(env, given, v.side, v, node, log);
            && (m.Moved? ==> Sound(env, m.v, m.next, m.log))
            && (m.Raised? ==> LogSound(env, m.log))
  {
    hide RunNode, Accounted, Clean, TallyOf, WithinBudget, ExecutedOnce;
    NodeAccounted(env, given, v, node, log);
    NodeClean(env, given, v, node, log);
  }

  /** Pausing at a node does not change what the node does. */
  lemma PausingNodeSame(env: Env, given: Given, later: string, v: Vals, node: Node, log: Log, pauses: Log -> bool)
    requires !node.End?
    ensures RunPausingNode(env, given, later, v.side, v, node, log, pauses).0
          == RunNode(env, given, v.side, v, node, log)
  {
    HumanNodeIsReplay(env, Merge(env, v.side, v), v, log);
    ResumedSideIsSame(env, v);
    hide Merge, HumanPass, ResumedSide, PlanNode, ActNode, NormalsNode, HumanNode, ReflectNode, FinalizeNode;
  }

  lemma PostSound(env: Env, base: Baseline, v: Vals, log: Log)
    requires Sound(env, v, End, log)
    ensures LogSound(env, PostPhase(env, base, v.side, v, log).log)
  {
    TallyAppend(log, SizeRun);
    LedgeredAppend(log, SizeRun, v.messages);
    LedgeredOnce(log + [SizeRun], v.messages);
    LedgeredOnce(log, v.messages);
    hide TallyOf, Ledgered, ExecutedOnce, AllAnswered, Merge, TryAlign, Fallback;
  }

  lemma {:induction false} RunSound(env: Env, given: Given, later: string, v: Vals, node: Node, log: Log,
        pauses: Log -> bool)
    requires Sound(env, v, node, log)
    ensures LogSound(env, RunPausing(env, given, later, v.side, v, node, log, pauses).log)
    decreases RoundsLeft(env, v), Rank(node)
  {
    PausingFrom(env, given, later, v.side, v, node, log, pauses);
    if node.End? {
      PostSound(env, given.base, v, log);
    } else {
      var m := RunNode(env, given, v.side, v, node, log);
      NodeSound(env, given, v, node, log);
      NodeProgress(env, given, v.side, v, node, log);
      PausingNodeSame(env, given, later, v, node, log, pauses);
      var next := RunPausingNode(env, given, later, v.side, v, node, log, pauses).1;
      hide RunNode, RunPausingNode, RunPausing, Sound, LogSound, RoundsLeft, Rank;
      if m.Moved? {
        RunSound(env, next, later, m.v, m.next, m.log, pauses);
      }
    }
  }

  lemma StartSound(env: Env, given: Given)
    ensures Sound(env, Initial(env, given), Plan, [])
  {
  }

  /** Whatever the model, the tools and the human answer, and wherever the run pauses: with a budget of R rounds (none
      when it is negative) it makes at most R act calls, R reflect calls, R + 1 plan calls and one repair call, asks
      the human at most R times, and runs no tool call with a given id twice. */
  lemma RunIsBounded(env: Env, given: Given, later: string, pauses: Log -> bool)
    ensures var log := WholePausing(env, given, later, pauses).log;
            var t := TallyOf(log);
            && t.acts <= Budget(env) && t.reflects <= Budget(env) && t.plans <= Budget(env) + 1 && t.repairs <= 1
            && t.plans + t.acts + t.reflects + t.repairs <= 3 * Budget(env) + 2
            && t.asks <= Budget(env)
            && ExecutedOnce(log)
  {
    StartSound(env, given);
    RunSound(env, given, later, Initial(env, given), Plan, [], pauses);
  }

  /** Where a pausing run is after some nodes, and what the process that runs the next one was given. */
  datatype Point = Point(given: Given, v: Vals, node: Node, log: Log)

  /** The next node, unless the run is over or the node raises. */
  function Next(env: Env, later: string, p: Point, pauses: Log -> bool): Point {
    if p.node.End? then p
    else
      var (m, given) := RunPausingNode(env, p.given, later, p.v.side, p.v, p.node, p.log, pauses);
      if m.Raised? then p else Point(given, m.v, m.next, m.log)
  }

  function After(env: Env, later: string, p: Point, pauses: Log -> bool, n: nat): Point
    decreases n
  {
    if n == 0 then p else After(env, later, Next(env, later, p, pauses), pauses, n - 1)
  }

  predicate PointSound(env: Env, p: Point) {
    Sound(env, p.v, p.node, p.log)
  }

  lemma NextSound(env: Env, later: string, p: Point, pauses: Log -> bool)
    requires PointSound(env, p)
    ensures PointSound(env, Next(env, later, p, pauses))
  {
    if !p.node.End? {
      NodeSound(env, p.given, p.v, p.node, p.log);
      PausingNodeSame(env, p.given, later, p.v, p.node, p.log, pauses);
    }
    hide RunNode, RunPausingNode, Sound, LogSound;
  }

  lemma {:induction false} AfterSound(env: Env, later: string, p: Point, pauses: Log -> bool, n: nat)
    requires PointSound(env, p)
    ensures PointSound(env, After(env, later, p, pauses, n))
    decreases n
  {
    if n > 0 {
      hide Next, PointSound;
      NextSound(env, later, p, pauses);
      AfterSound(env, later, Next(env, later, p, pauses), pauses, n - 1);
    }
  }

  /** Whenever a reflection starts, wherever the run has paused, every call of every assistant message has a tool
      message with its id. */
  lemma AnsweredBeforeReflecting(env: Env, given: Given, later: string, pauses: Log -> bool, n: nat)
    ensures var p := After(env, later, Point(given, Initial(env, given), Plan, []), pauses, n);
            p.node.Reflecting? ==>
              forall i, c :: 0 <= i < |p.v.messages| && p.v.messages[i].Assistant? && c in p.v.messages[i].calls ==>
                HasToolMessage(p.v.messages, c.id)
  {
    StartSound(env, given);
    hide After, Initial, HasToolMessage;
    AfterSound(env, later, Point(given, Initial(env, given), Plan, []), pauses, n);
  }

  /* ------------------------------------------------------------------ exact token totals */

  function Plus(a: Usage, b: Usage): Usage {
    Usage(a.prompt + b.prompt, a.completion + b.completion)
  }

  const NO_TOKENS := Usage(0, 0)

  /** What the last question of the record cost. */
  function CostOfLast(env: Env, log: Log): Usage
    requires log != []
  {
    match log[|log| - 1]
    case PlanCall(_, _) => if env.plan(log).Some? then env.plan(log).value.usage else NO_TOKENS
    case ActCall(_) => if env.act(log).Some? then env.act(log).value.usage else NO_TOKENS
    case ReflectCall(_, _, _, _) => if env.reflect(log).Some? then env.reflect(log).value.usage else NO_TOKENS
    case RepairCall(_, _) => if env.repair(log).Some? then env.repair(log).value.usage else NO_TOKENS
    case _ => NO_TOKENS
  }

  /** What all questions of the record cost together. */
  function Spent(env: Env, log: Log): Usage {
    if log == [] then NO_TOKENS else Plus(Spent(env, log[..|log| - 1]), CostOfLast(env, log))
  }

  lemma SpentMore(env: Env, log: Log, e: External)
    ensures Spent(env, log + [e]) == Plus(Spent(env, log), CostOfLast(env, log + [e]))
  {
    assert (log + [e])[..|log|] == log;
  }

  /** Tools and people cost no tokens. */
  lemma FreeOfCharge(env: Env, log: Log, e: External)
    requires e.ToolRun? || e.Ask? || e.SizeRun?
    ensures Spent(env, log + [e]) == Spent(env, log)
  {
    SpentMore(env, log, e);
    hide Spent;
  }

  /** Neither the record's cost nor the totals have changed. */
  predicate SameSpending(env: Env, w: Work, after: Work) {
    Spent(env, after.log) == Spent(env, w.log) && after.side.usage == w.side.usage
  }

  lemma NormalSpendsNothing(env: Env, w: Work, call: Call)
    ensures SameSpending(env, w, RunNormal(env, w, call))
  {
    FreeOfCharge(env, w.log, ToolRun(call.id, call.name, call.args));
    hide Spent, HasToolMessage, RefOf;
  }

  lemma {:induction false} NormalsSpendNothing(env: Env, w: Work, calls: seq<Call>)
    ensures SameSpending(env, w, RunNormals(env, w, calls))
    decreases |calls|
  {
    if calls != [] {
      NormalSpendsNothing(env, w, calls[0]);
      hide Spent, RunNormal;
      NormalsSpendNothing(env, RunNormal(env, w, calls[0]), calls[1..]);
    }
  }

  lemma {:induction false} AskingSpendsNothing(env: Env, w: Work, calls: seq<Call>, asked: bool)
    ensures SameSpending(env, w, AskNow(env, w, calls, asked))
    decreases |calls|
  {
    if calls != [] {
      var c := calls[0];
      var request := env.request(c.args);
      hide Spent, RefOf, Failed;
      if request.None? || asked {
        var reason := if request.None? then NO_QUESTION else MULTIPLE;
        AskingSpendsNothing(env, Record(w, c.id, HUMAN_TOOL, Failed(reason)), calls[1..], asked);
      } else {
        var log1 := w.log + [Ask(request.value)];
        FreeOfCharge(env, w.log, Ask(request.value));
        var next := Record(w.(log := log1), c.id, HUMAN_TOOL, Answered(env.human(log1)));
        AskingSpendsNothing(env, next, calls[1..], true);
      }
    }
  }

  /** Totals and record have grown by the same cost. */
  predicate Booked(env: Env, before: Usage, log: Log, after: Usage, more: Log) {
    Plus(after, Spent(env, log)) == Plus(before, Spent(env, more))
  }

  predicate NodeBooks(env: Env, s: Side, log: Log, m: Moved) {
    m.Moved? ==> Booked(env, s.usage, log, m.v.side.usage, m.log)
  }

  lemma PlanBooks(env: Env, message: string, s: Side, v: Vals, log: Log)
    ensures NodeBooks(env, s, log, PlanNode(env, message, s, v, log))
  {
    var replan := v.plan != [] || v.decision == Some(RevisePlan);
    SpentMore(env, log, PlanCall(message, if replan then Some((v.plan, v.memory)) else None));
    hide NormalPlan, StartNext, Spent;
  }

  lemma ActBooks(env: Env, s: Side, v: Vals, log: Log)
    ensures NodeBooks(env, s, log, ActNode(env, s, v, log))
  {
    SpentMore(env, log, ActCall(ActMessages(env, v)));
    hide ActMessages, Clipped, Spent;
  }

  lemma ReflectBooks(env: Env, s: Side, v: Vals, log: Log)
    ensures NodeBooks(env, s, log, ReflectNode(env, s, v, log))
  {
    SpentMore(env, log, ReflectCall(v.messages, v.plan, v.current, v.memory));
    hide NormalReflect, ApplyReflect, Spent;
  }

  lemma RepairBooks(env: Env, s: Side, v: Vals, log: Log)
    ensures var (s1, result, log1) := Repair(env, s, v, log); Booked(env, s.usage, log, s1.usage, log1)
  {
    SpentMore(env, log, RepairCall(v.messages, v.lastContent));
    hide TryAlign, Extract, Spent;
  }

  lemma ConcludeCostsNothing(env: Env, s: Side, v: Vals, log: Log, result: Option<string>, stop: Stop)
    ensures var m := Conclude(env, s, v, log, result, stop); m.log == log && (m.Moved? ==> m.v.side.usage == s.usage)
  {
  }

  lemma FinalizeBooks(env: Env, base: Baseline, s: Side, v: Vals, log: Log)
    ensures NodeBooks(env, s, log, FinalizeNode(env, base, s, v, log))
  {
    RepairBooks(env, s, v, log);
    hide Repair, Settle, TryAlign, Extract, Spent, Conclude;
    var stop := if v.stop.Unset? then Final else v.stop;
    var result := TryAlign(env, Extract(env, v.lastContent));
    var (s1, result1, log1) := if result.Some? then (s, result, log) else Repair(env, s, v, log);
    var (result2, stop1) := Settle(env, base, s1, stop, result1);
    ConcludeCostsNothing(env, s1, v, log1, result2, stop1);
  }

  lemma MergeCostsNothing(env: Env, v: Vals)
    ensures Merge(env, v.side, v).usage == v.side.usage
  {
    hide LastSized;
  }

  lemma RunNodeBooks(env: Env, given: Given, v: Vals, node: Node, log: Log)
    requires !node.End?
    ensures NodeBooks(env, v.side, log, RunNode(env, given, v.side, v, node, log))
  {
    var s := Merge(env, v.side, v);
    MergeCostsNothing(env, v);
    hide Merge, Spent, PlanNode, ActNode, ReflectNode, FinalizeNode, RunNormals, AskNow, NewEntries, NormalCalls,
         HumanCalls;
    match node
    case Plan => PlanBooks(env, given.message, s, v, log);
    case Act => ActBooks(env, s, v, log);
    case Normals => NormalsSpendNothing(env, StartWork(s, v, log), NormalCalls(v.lastCalls));
    case Human => AskingSpendsNothing(env, StartWork(s, v, log), v.pending, false);
    case Reflecting => ReflectBooks(env, s, v, log);
    case Finalize => FinalizeBooks(env, given.base, s, v, log);
  }

  predicate OutcomeBooks(env: Env, s: Side, log: Log, o: Outcome) {
    o.Done? ==> Booked(env, s.usage, log, o.envelope.usage, o.log)
  }

  lemma ClosingBooks(env: Env, base: Baseline, v: Vals, log: Log)
    ensures OutcomeBooks(env, v.side, log, PostPhase(env, base, v.side, v, log))
  {
    MergeCostsNothing(env, v);
    FreeOfCharge(env, log, SizeRun);
    hide Merge, Spent, TryAlign, Fallback;
  }

  lemma {:induction false} RunBooks(env: Env, given: Given, later: string, v: Vals, node: Node, log: Log,
        pauses: Log -> bool)
    ensures OutcomeBooks(env, v.side, log, RunPausing(env, given, later, v.side, v, node, log, pauses))
    decreases RoundsLeft(env, v), Rank(node)
  {
    PausingFrom(env, given, later, v.side, v, node, log, pauses);
    if node.End? {
      ClosingBooks(env, given.base, v, log);
      hide RunPausing, OutcomeBooks;
    } else {
      var m := RunNode(env, given, v.side, v, node, log);
      RunNodeBooks(env, given, v, node, log);
      NodeProgress(env, given, v.side, v, node, log);
      PausingNodeSame(env, given, later, v, node, log, pauses);
      var next := RunPausingNode(env, given, later, v.side, v, node, log, pauses).1;
      hide RunNode, RunPausingNode, RunPausing, Spent, RoundsLeft, Rank;
      if m.Moved? {
        RunBooks(env, next, later, m.v, m.next, m.log, pauses);
      }
    }
  }

  lemma StartsAtNothing(env: Env, given: Given)
    ensures Initial(env, given).side.usage == NO_TOKENS && Spent(env, []) == NO_TOKENS
  {
  }

  /** The token totals a run reports are exactly what its model calls cost, none counted twice or lost, wherever it
      paused. */
  lemma TotalsAreExact(env: Env, given: Given, later: string, pauses: Log -> bool)
    ensures var o := WholePausing(env, given, later, pauses); o.Done? ==> o.envelope.usage == Spent(env, o.log)
  {
    StartsAtNothing(env, given);
    hide Spent, RunPausing;
    RunBooks(env, given, later, Initial(env, given), Plan, [], pauses);
  }
}
