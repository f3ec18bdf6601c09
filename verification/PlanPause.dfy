/** Pausing for human input: the process ends, and another one resumes from the checkpoint.
    The outcome is that of one process whose questions are answered on the spot. */
module PlanPause {
  import opened Common
  import opened PlanTypes
  import opened PlanLoop

  /** tools_human under the checkpointer: either it interrupts, leaving the checkpoint as it was, or it returns. */
  datatype Pass = Paused(request: string) | Passed(moved: Moved)

  function HumanPass(env: Env, s: Side, v: Vals, log: Log, reply: Option<string>): Pass {
    match AskReplaying(env, StartWork(s, v, log), v.pending, false, reply)
    case Interrupted(request) => Paused(request)
    case Walked(w) => Passed(Moved(Worked(v, w, []), Reflecting, w.log))
  }

  /** The side channel of a process that resumes a checkpoint: it merges once before the graph starts, and the node
      it resumes at merges again. */
  function ResumedSide(env: Env, v: Vals): Side {
    Merge(env, Merge(env, StartSide(env, NoBaseline, false), v), v)
  }

  /** A resuming process is given no baseline, and a user message of its own. */
  function GivenOnResume(later: string): Given {
    Given(NoBaseline, later)
  }

  /** A node that may pause; `later` is the user message of every process that resumes. */
  function RunPausingNode(env: Env, given: Given, later: string, local: Side, v: Vals, node: Node, log: Log,
        pauses: Log -> bool): (Moved, Given)
    requires !node.End?
  {
    if node.Human? && pauses(log) then
      match HumanPass(env, Merge(env, local, v), v, log, None)
      case Passed(m) => (m, given)
      case Paused(request) =>
        var log1 := log + [Ask(request)];
        match HumanPass(env, ResumedSide(env, v), v, log1, Some(env.human(log1)))
        case Passed(m) => (m, GivenOnResume(later))
        case Paused(_) => (Raised(log1), GivenOnResume(later))
    else (RunNode(env, given, local, v, node, log), given)
  }

  lemma PausingProgress(env: Env, given: Given, later: string, local: Side, v: Vals, node: Node, log: Log,
        pauses: Log -> bool)
    requires !node.End?
    ensures var m := RunPausingNode(env, given, later, local, v, node, log, pauses).0;
            m.Moved? ==>
              || RoundsLeft(env, m.v) < RoundsLeft(env, v)
              || (RoundsLeft(env, m.v) == RoundsLeft(env, v) && Rank(m.next) < Rank(node))
  {
    NodeProgress(env, given, local, v, node, log);
    hide RunNode, AskReplaying, Merge, FileEntries;
  }

  /** A run that pauses at the questions `pauses` picks; the others are answered on the spot. */
  function RunPausing(env: Env, given: Given, later: string, local: Side, v: Vals, node: Node, log: Log,
        pauses: Log -> bool): Outcome
    decreases RoundsLeft(env, v), Rank(node)
  {
    if node.End? then PostPhase(env, given.base, local, v, log)
    else
      PausingProgress(env, given, later, local, v, node, log, pauses);
      var (m, next) := RunPausingNode(env, given, later, local, v, node, log, pauses);
      if m.Raised? then Crashed(m.log) else RunPausing(env, next, later, m.v.side, m.v, m.next, m.log, pauses)
  }

  /* ------------------------------------------------------------------ replaying the node */

  /** Once a question was asked, the rest of the batch asks nothing. */
  lemma {:induction false} AskedOnce(env: Env, w: Work, calls: seq<Call>, reply: Option<string>)
    ensures AskReplaying(env, w, calls, true, reply) == Walked(AskNow(env, w, calls, true))
    decreases |calls|
  {
    if calls != [] {
      var c := calls[0];
      var reason := if env.request(c.args).None? then NO_QUESTION else MULTIPLE;
      AskedOnce(env, Record(w, c.id, HUMAN_TOOL, Failed(reason)), calls[1..], reply);
    }
  }

  /** A batch either asks nothing, and then both ways agree; or it interrupts, and replaying it with the reply that was
      given to its question does the work that asking on the spot does. */
  lemma {:induction false} ReplayIsNow(env: Env, w: Work, calls: seq<Call>)
    ensures match AskReplaying(env, w, calls, false, None)
            case Walked(done) => done == AskNow(env, w, calls, false)
            case Interrupted(request) =>
              var log1 := w.log + [Ask(request)];
              AskReplaying(env, w.(log := log1), calls, false, Some(env.human(log1)))
                    == Walked(AskNow(env, w, calls, false))
    decreases |calls|
  {
    if calls != [] {
      var c := calls[0];
      var request := env.request(c.args);
      if request.None? {
        ReplayIsNow(env, Record(w, c.id, HUMAN_TOOL, Failed(NO_QUESTION)), calls[1..]);
      } else {
        var log1 := w.log + [Ask(request.value)];
        var reply := env.human(log1);
        AskedOnce(env, Record(w.(log := log1), c.id, HUMAN_TOOL, Answered(reply)), calls[1..], Some(reply));
      }
    }
  }

  /** A fresh side channel that merges a checkpoint twice is the side channel that wrote it, merged once. */
  lemma ResumedSideIsSame(env: Env, v: Vals)
    ensures ResumedSide(env, v) == Merge(env, v.side, v)
  {
    hide LastSized;
  }

  lemma HumanNodeIsReplay(env: Env, s: Side, v: Vals, log: Log)
    ensures match HumanPass(env, s, v, log, None)
            case Passed(m) => m == HumanNode(env, s, v, log)
            case Paused(request) =>
              var log1 := log + [Ask(request)];
              HumanPass(env, s, v, log1, Some(env.human(log1))) == Passed(HumanNode(env, s, v, log))
  {
    ReplayIsNow(env, StartWork(s, v, log), v.pending);
    hide AskReplaying, AskNow, FileEntries;
  }

  /* ------------------------------------------------------------------ the baseline */

  /** The baseline is either absent or already the bag's sizing, so losing it on resume changes nothing. */
  predicate BaselineKept(base: Baseline, s: Side) {
    base.NoBaseline? || (base.Sized? && s.last.Some?)
  }

  lemma MergeKeepsLast(env: Env, s: Side, v: Vals)
    requires s.last.Some? || v.side.last.Some?
    ensures Merge(env, s, v).last.Some?
  {
    hide LastSized;
  }

  lemma {:induction false} NormalsKeepLast(env: Env, w: Work, calls: seq<Call>)
    requires w.side.last.Some?
    ensures RunNormals(env, w, calls).side.last.Some?
    decreases |calls|
  {
    if calls != [] {
      NormalsKeepLast(env, RunNormal(env, w, calls[0]), calls[1..]);
    }
  }

  lemma {:induction false} AskingKeepsLast(env: Env, w: Work, calls: seq<Call>, asked: bool)
    ensures AskNow(env, w, calls, asked).side.last == w.side.last
    decreases |calls|
  {
    if calls != [] {
      var c := calls[0];
      var request := env.request(c.args);
      if request.None? || asked {
        AskingKeepsLast(env, Record(w, c.id, HUMAN_TOOL, Failed(if request.None? then NO_QUESTION else MULTIPLE)),
              calls[1..], asked);
      } else {
        var log1 := w.log + [Ask(request.value)];
        AskingKeepsLast(env, Record(w.(log := log1), c.id, HUMAN_TOOL, Answered(env.human(log1))), calls[1..], true);
      }
    }
  }

  lemma PlanKeepsLast(env: Env, message: string, s: Side, v: Vals, log: Log)
    ensures var m := PlanNode(env, message, s, v, log); m.Moved? ==> m.v.side.last == s.last
  {
    hide NormalPlan, StartNext;
  }

  lemma ActKeepsLast(env: Env, s: Side, v: Vals, log: Log)
    ensures var m := ActNode(env, s, v, log); m.Moved? ==> m.v.side.last == s.last
  {
    hide ActMessages, Clipped;
  }

  lemma ReflectKeepsLast(env: Env, s: Side, v: Vals, log: Log)
    ensures var m := ReflectNode(env, s, v, log); m.Moved? ==> m.v.side.last == s.last
  {
    hide NormalReflect, ApplyReflect;
  }

  lemma FinalizeKeepsLast(env: Env, base: Baseline, s: Side, v: Vals, log: Log)
    ensures var m := FinalizeNode(env, base, s, v, log); m.Moved? ==> m.v.side.last == s.last
  {
    hide Settle, TryAlign, Extract;
  }

  /** No node forgets a sizing. */
  lemma NodeKeepsLast(env: Env, given: Given, v: Vals, node: Node, log: Log)
    requires !node.End? && v.side.last.Some?
    ensures var m := RunNode(env, given, v.side, v, node, log); m.Moved? ==> m.v.side.last.Some?
  {
    var s := Merge(env, v.side, v);
    MergeKeepsLast(env, v.side, v);
    hide Merge, PlanNode, ActNode, ReflectNode, FinalizeNode, RunNormals, AskNow, NewEntries, NormalCalls, HumanCalls;
    match node
    case Plan => PlanKeepsLast(env, given.message, s, v, log);
    case Act => ActKeepsLast(env, s, v, log);
    case Normals => NormalsKeepLast(env, StartWork(s, v, log), NormalCalls(v.lastCalls));
    case Human => AskingKeepsLast(env, StartWork(s, v, log), v.pending, false);
    case Reflecting => ReflectKeepsLast(env, s, v, log);
    case Finalize => FinalizeKeepsLast(env, given.base, s, v, log);
  }

  /** Of what a process was given, a kept baseline is not used, and the message only where it plans. */
  lemma GivenUnused(env: Env, given: Given, later: string, v: Vals, node: Node, log: Log)
    requires !node.End? && BaselineKept(given.base, v.side) && (node.Plan? ==> later == given.message)
    ensures RunNode(env, given, v.side, v, node, log) == RunNode(env, GivenOnResume(later), v.side, v, node, log)
  {
    if v.side.last.Some? {
      MergeKeepsLast(env, v.side, v);
    }
    hide Merge, TryAlign, PlanNode, ActNode, NormalsNode, HumanNode, ReflectNode, Conclude;
  }

  lemma BaselineUnusedAfter(env: Env, base: Baseline, v: Vals, log: Log)
    requires BaselineKept(base, v.side)
    ensures PostPhase(env, base, v.side, v, log) == PostPhase(env, NoBaseline, v.side, v, log)
  {
    if v.side.last.Some? {
      MergeKeepsLast(env, v.side, v);
    }
    hide Merge, TryAlign;
  }

  /* ------------------------------------------------------------------ transparency */

  /** The run stops at this node to wait for a person. */
  predicate PausesAt(env: Env, v: Vals, node: Node, log: Log, pauses: Log -> bool) {
    node.Human? && pauses(log) && HumanPass(env, Merge(env, v.side, v), v, log, None).Paused?
  }

  /** What the process that runs the next node was given. */
  function GivenNow(given: Given, later: string, paused: bool): Given {
    if paused then GivenOnResume(later) else given
  }

  /** One node does the same whether it pauses or not, and in whichever process it runs, unless it is a plan node that
      sends another message. */
  lemma PausingNodeIsTransparent(env: Env, given: Given, later: string, paused: bool, v: Vals, node: Node, log: Log,
        pauses: Log -> bool)
    requires !node.End? && BaselineKept(given.base, v.side) && (node.Plan? && paused ==> later == given.message)
    ensures RunPausingNode(env, GivenNow(given, later, paused), later, v.side, v, node, log, pauses)
         == (RunNode(env, given, v.side, v, node, log),
             GivenNow(given, later, paused || PausesAt(env, v, node, log, pauses)))
  {
    if paused {
      GivenUnused(env, given, later, v, node, log);
    }
    HumanNodeIsReplay(env, Merge(env, v.side, v), v, log);
    ResumedSideIsSame(env, v);
    hide Merge, HumanPass, ResumedSide, PlanNode, ActNode, NormalsNode, HumanNode, ReflectNode, FinalizeNode;
  }

  /** Answered on the spot, the run plans again after the first question that `pauses` would stop it at. */
  predicate PlansAfterPause(env: Env, given: Given, v: Vals, node: Node, log: Log, pauses: Log -> bool, paused: bool)
    decreases RoundsLeft(env, v), Rank(node)
  {
    if node.End? then false
    else if node.Plan? && paused then true
    else
      NodeProgress(env, given, v.side, v, node, log);
      var m := RunNode(env, given, v.side, v, node, log);
      m.Moved? && PlansAfterPause(env, given, m.v, m.next, m.log, pauses, paused || PausesAt(env, v, node, log, pauses))
  }

  lemma PlansFrom(env: Env, given: Given, v: Vals, node: Node, log: Log, pauses: Log -> bool, paused: bool)
    ensures node.End? ==> !PlansAfterPause(env, given, v, node, log, pauses, paused)
    ensures node.Plan? && paused ==> PlansAfterPause(env, given, v, node, log, pauses, paused)
    ensures !node.End? && !(node.Plan? && paused) ==>
              var m := RunNode(env, given, v.side, v, node, log);
              var pausedNow := paused || PausesAt(env, v, node, log, pauses);
              (PlansAfterPause(env, given, v, node, log, pauses, paused) <==>
               m.Moved? && PlansAfterPause(env, given, m.v, m.next, m.log, pauses, pausedNow))
  {
    hide RunNode, PausesAt;
  }

  lemma NowFrom(env: Env, given: Given, local: Side, v: Vals, node: Node, log: Log)
    ensures node.End? ==> RunNow(env, given, local, v, node, log) == PostPhase(env, given.base, local, v, log)
    ensures !node.End? ==>
              var m := RunNode(env, given, local, v, node, log);
              RunNow(env, given, local, v, node, log)
              == if m.Raised? then Crashed(m.log) else RunNow(env, given, m.v.side, m.v, m.next, m.log)
  {
    hide RunNode, PostPhase;
  }

  lemma PausingFrom(env: Env, given: Given, later: string, local: Side, v: Vals, node: Node, log: Log,
        pauses: Log -> bool)
    ensures node.End? ==>
          RunPausing(env, given, later, local, v, node, log, pauses) == PostPhase(env, given.base, local, v, log)
    ensures !node.End? ==>
              var (m, next) := RunPausingNode(env, given, later, local, v, node, log, pauses);
              && (!node.Human? ==> m == RunNode(env, given, local, v, node, log) && next == given)
              && RunPausing(env, given, later, local, v, node, log, pauses)
                 == if m.Raised? then Crashed(m.log)
                    else RunPausing(env, next, later, m.v.side, m.v, m.next, m.log, pauses)
  {
    hide RunNode, PostPhase, HumanPass;
  }

  /* ------------------------------------------------------------------ the record only grows */

  predicate Continues(log: Log, more: Log) {
    |log| <= |more| && more[..|log|] == log
  }

  lemma ContinuesTransitive(a: Log, b: Log, c: Log)
    requires Continues(a, b) && Continues(b, c)
    ensures Continues(a, c)
  {
    assert c[..|a|] == c[..|b|][..|a|];
  }

  lemma {:induction false} NormalsExtend(env: Env, w: Work, calls: seq<Call>)
    ensures Continues(w.log, RunNormals(env, w, calls).log)
    decreases |calls|
  {
    if calls != [] {
      var next := RunNormal(env, w, calls[0]);
      assert Continues(w.log, next.log);
      NormalsExtend(env, next, calls[1..]);
      ContinuesTransitive(w.log, next.log, RunNormals(env, next, calls[1..]).log);
    }
  }

  lemma {:induction false} AskingExtends(env: Env, w: Work, calls: seq<Call>, asked: bool)
    ensures Continues(w.log, AskNow(env, w, calls, asked).log)
    decreases |calls|
  {
    if calls != [] {
      var c := calls[0];
      var request := env.request(c.args);
      if request.None? || asked {
        var reason := if request.None? then NO_QUESTION else MULTIPLE;
        AskingExtends(env, Record(w, c.id, HUMAN_TOOL, Failed(reason)), calls[1..], asked);
      } else {
        var log1 := w.log + [Ask(request.value)];
        var next := Record(w.(log := log1), c.id, HUMAN_TOOL, Answered(env.human(log1)));
        AskingExtends(env, next, calls[1..], true);
        ContinuesTransitive(w.log, log1, AskNow(env, next, calls[1..], true).log);
      }
    }
  }

  lemma NodeExtends(env: Env, given: Given, local: Side, v: Vals, node: Node, log: Log)
    requires !node.End?
    ensures Continues(log, RunNode(env, given, local, v, node, log).log)
  {
    var s := Merge(env, local, v);
    NormalsExtend(env, StartWork(s, v, log), NormalCalls(v.lastCalls));
    AskingExtends(env, StartWork(s, v, log), v.pending, false);
    hide Merge, NormalPlan, StartNext, RunNormals, AskNow, FileEntries, NormalCalls, HumanCalls, NormalReflect,
         ApplyReflect,
         Settle, TryAlign, Extract, ActMessages, Clipped;
  }

  /** Everything a run asks is in its outcome, in order. */
  lemma {:induction false} RunExtends(env: Env, given: Given, local: Side, v: Vals, node: Node, log: Log)
    ensures Continues(log, RunNow(env, given, local, v, node, log).log)
    decreases RoundsLeft(env, v), Rank(node)
  {
    NowFrom(env, given, local, v, node, log);
    if node.End? {
      hide RunNow, Merge, TryAlign, Fallback;
    } else {
      var m := RunNode(env, given, local, v, node, log);
      NodeProgress(env, given, local, v, node, log);
      NodeExtends(env, given, local, v, node, log);
      hide RunNode, RunNow, RoundsLeft, Rank, Continues;
      if m.Moved? {
        RunExtends(env, given, m.v.side, m.v, m.next, m.log);
        ContinuesTransitive(log, m.log, RunNow(env, given, m.v.side, m.v, m.next, m.log).log);
      }
    }
  }

  lemma PausingNodeExtends(env: Env, given: Given, later: string, v: Vals, node: Node, log: Log, pauses: Log -> bool)
    requires !node.End?
    ensures Continues(log, RunPausingNode(env, given, later, v.side, v, node, log, pauses).0.log)
  {
    NodeExtends(env, given, v.side, v, node, log);
    HumanNodeIsReplay(env, Merge(env, v.side, v), v, log);
    ResumedSideIsSame(env, v);
    hide Merge, HumanPass, ResumedSide, PlanNode, ActNode, NormalsNode, HumanNode, ReflectNode, FinalizeNode, Continues;
  }

  lemma {:induction false} PausingExtends(env: Env, given: Given, later: string, v: Vals, node: Node, log: Log,
        pauses: Log -> bool)
    ensures Continues(log, RunPausing(env, given, later, v.side, v, node, log, pauses).log)
    decreases RoundsLeft(env, v), Rank(node)
  {
    PausingFrom(env, given, later, v.side, v, node, log, pauses);
    if node.End? {
      hide RunPausing, Merge, TryAlign, Fallback;
    } else {
      var (m, next) := RunPausingNode(env, given, later, v.side, v, node, log, pauses);
      PausingProgress(env, given, later, v.side, v, node, log, pauses);
      PausingNodeExtends(env, given, later, v, node, log, pauses);
      hide RunPausingNode, RunPausing, RoundsLeft, Rank, Continues;
      if m.Moved? {
        PausingExtends(env, next, later, m.v, m.next, m.log, pauses);
        ContinuesTransitive(log, m.log, RunPausing(env, next, later, m.v.side, m.v, m.next, m.log, pauses).log);
      }
    }
  }

  /* ------------------------------------------------------------------ one run, exactly */

  /** A plan node starts by asking for a plan with the message its process was given. */
  lemma PlanSends(env: Env, given: Given, v: Vals, log: Log)
    ensures var m := RunNode(env, given, v.side, v, Plan, log);
            && |log| < |m.log| && m.log[|log|].PlanCall? && m.log[|log|].message == given.message
  {
    hide Merge, NormalPlan, StartNext;
  }

  /** Two processes that plan with different messages leave different records. */
  lemma RecordsDiffer(env: Env, given: Given, later: string, v: Vals, log: Log, pauses: Log -> bool)
    requires later != given.message
    ensures RunPausing(env, GivenOnResume(later), later, v.side, v, Plan, log, pauses)
         != RunNow(env, given, v.side, v, Plan, log)
  {
    var now := RunNode(env, given, v.side, v, Plan, log);
    var after := RunNode(env, GivenOnResume(later), v.side, v, Plan, log);
    PlanSends(env, given, v, log);
    PlanSends(env, GivenOnResume(later), v, log);
    NowFrom(env, given, v.side, v, Plan, log);
    PausingFrom(env, GivenOnResume(later), later, v.side, v, Plan, log, pauses);
    hide RunNode, RunNow, RunPausing, RunPausingNode;
    if now.Moved? {
      RunExtends(env, given, now.v.side, now.v, now.next, now.log);
    }
    if after.Moved? {
      PausingExtends(env, GivenOnResume(later), later, after.v, after.next, after.log, pauses);
    }
    var a := RunNow(env, given, v.side, v, Plan, log).log;
    var b := RunPausing(env, GivenOnResume(later), later, v.side, v, Plan, log, pauses).log;
    assert a[|log|] == a[..|now.log|][|log|] == now.log[|log|];
    assert b[|log|] == b[..|after.log|][|log|] == after.log[|log|];
  }

  /** From any point of a run: with a baseline that is kept, the pausing run has the outcome of the run answered on the
      spot exactly when later processes send the same message, or the run plans no more once it has paused. */
  lemma {:induction false} PausingIsTransparent(env: Env, given: Given, later: string, paused: bool, v: Vals,
        node: Node,
        log: Log, pauses: Log -> bool)
    requires BaselineKept(given.base, v.side)
    ensures RunPausing(env, GivenNow(given, later, paused), later, v.side, v, node, log, pauses)
         == RunNow(env, given, v.side, v, node, log)
       <==> later == given.message || !PlansAfterPause(env, given, v, node, log, pauses, paused)
    decreases RoundsLeft(env, v), Rank(node)
  {
    var now := GivenNow(given, later, paused);
    NowFrom(env, given, v.side, v, node, log);
    PausingFrom(env, now, later, v.side, v, node, log, pauses);
    PlansFrom(env, given, v, node, log, pauses, paused);
    if node.End? {
      BaselineUnusedAfter(env, given.base, v, log);
      hide RunNow, RunPausing, PostPhase, PlansAfterPause;
    } else if node.Plan? && paused && later != given.message {
      RecordsDiffer(env, given, later, v, log, pauses);
      hide RunNow, RunPausing, PlansAfterPause, RunNode, RunPausingNode;
    } else {
      PausingNodeIsTransparent(env, given, later, paused, v, node, log, pauses);
      NodeProgress(env, given, v.side, v, node, log);
      if given.base.Sized? {
        NodeKeepsLast(env, given, v, node, log);
      }
      var m := RunNode(env, given, v.side, v, node, log);
      hide RunNode, RunPausingNode, PostPhase, RoundsLeft, Rank, RunNow, RunPausing, PlansAfterPause, PausesAt;
      if m.Moved? {
        var pausedNow := paused || PausesAt(env, v, node, log, pauses);
        PausingIsTransparent(env, given, later, pausedNow, m.v, m.next, m.log, pauses);
      }
    }
  }

  function Whole(env: Env, given: Given): Outcome {
    RunNow(env, given, StartSide(env, given.base, true), Initial(env, given), Plan, [])
  }

  function WholePausing(env: Env, given: Given, later: string, pauses: Log -> bool): Outcome {
    RunPausing(env, given, later, StartSide(env, given.base, true), Initial(env, given), Plan, [], pauses)
  }

  /** The run plans again after its first pause. */
  predicate Replans(env: Env, given: Given, pauses: Log -> bool) {
    PlansAfterPause(env, given, Initial(env, given), Plan, [], pauses, false)
  }

  /** Pausing is transparent for one run, of an agent whose baseline is absent or sized, exactly when its resumed
      processes are given the same user message or it does not plan again after its first pause. Transparent means the
      same envelope (result, messages, plan, memory, events,
      rounds and exact token totals) and the same external calls. */
  lemma RunIsTransparentIff(env: Env, given: Given, later: string, pauses: Log -> bool)
    requires given.base.NoBaseline? || given.base.Sized?
    ensures WholePausing(env, given, later, pauses) == Whole(env, given)
       <==> later == given.message || !Replans(env, given, pauses)
  {
    hide RunNow, RunPausing, PlansAfterPause;
    PausingIsTransparent(env, given, later, false, Initial(env, given), Plan, [], pauses);
  }

  /* ------------------------------------------------------------------ all worlds, exactly */

  const QUESTION := Call("h", HUMAN_TOOL, "{}")

  /** An agent that plans nothing, asks one question and stops; its content never parses and repair fails. */
  const ASKS_ONCE := Env(
    1, false, true, false, false,
    _ => Some(PlanReply(Items([]), Items([]), Usage(0, 0), "")),
    _ => Some(ActReply(None, [QUESTION], Usage(0, 0), "")),
    _ => Some(ReflectReply(Some(RawReflect("finalize", None, None, None)), None, Usage(0, 0), "")),
    _ => None,
    _ => Executed(false, 0, "", None),
    _ => "yes",
    _ => Some("ok?"),
    _ => None,
    _ => None,
    _ => None,
    data => Some(data),
    (_, _) => NoHandoff,
    _ => "",
    _ => true)

  predicate Always(log: Log) {
    true
  }

  /** Nothing in the checkpoint can replace the baseline. */
  predicate Bare(v: Vals) {
    && v.side.last.None? && !v.side.force && LastSized(v.messages).None?
    && v.stop.Unset? && v.lastContent.None? && v.result.None?
  }

  lemma BareMerge(v: Vals)
    requires Bare(v)
    ensures Merge(ASKS_ONCE, v.side, v) == v.side
  {
    hide LastSized;
  }

  lemma StartsBare(given: Given)
    requires given.base.Unsized? || given.base.EmptyObject?
    ensures Bare(Initial(ASKS_ONCE, given)) && Initial(ASKS_ONCE, given).side == StartSide(ASKS_ONCE, given.base, true)
  {
    assert Initial(ASKS_ONCE, given).messages[..0] == [];
  }

  lemma PlansNothing(given: Given, v: Vals, log: Log)
    requires Bare(v) && v.plan == []
    ensures var m := RunNode(ASKS_ONCE, given, v.side, v, Plan, log);
            m.Moved? && m.next.Act? && Bare(m.v) && m.v.round == v.round && m.v.current.None?
  {
    BareMerge(v);
    assert StartNext([]) == ([], None);
    hide Merge;
  }

  lemma ActsOnce(log: Log)
    ensures ASKS_ONCE.maxRounds == 1 && ASKS_ONCE.act(log) == Some(ActReply(None, [QUESTION], Usage(0, 0), ""))
  {
  }

  lemma NotSized(messages: seq<Message>, m: Message)
    requires !(m.Tool? && m.name == SIZE_TOOL)
    ensures LastSized(messages + [m]) == LastSized(messages)
  {
    assert (messages + [m])[..|messages|] == messages;
  }

  lemma CallsHuman(given: Given, v: Vals, log: Log)
    requires Bare(v) && v.round == 0 && v.current.None?
    ensures var m := RunNode(ASKS_ONCE, given, v.side, v, Act, log);
            m.Moved? && m.next.Normals? && Bare(m.v) && m.v.lastCalls == [QUESTION]
  {
    BareMerge(v);
    hide Merge, ASKS_ONCE, LastSized;
    ActsOnce(log + [ActCall(v.messages)]);
    assert ActMessages(ASKS_ONCE, v) == v.messages;
    hide ActMessages;
    NotSized(v.messages, Assistant("", [QUESTION]));
  }

  lemma FilesQuestion(given: Given, v: Vals, log: Log)
    requires Bare(v) && v.lastCalls == [QUESTION]
    ensures var m := RunNode(ASKS_ONCE, given, v.side, v, Normals, log);
            m.Moved? && m.next.Human? && Bare(m.v) && m.v.pending == [QUESTION]
  {
    BareMerge(v);
    assert [QUESTION][1..] == [];
    assert NormalCalls([]) == [] && HumanCalls([]) == [];
    assert NormalCalls([QUESTION]) == [] && HumanCalls([QUESTION]) == [QUESTION];
    hide Merge, LastSized, NormalCalls, HumanCalls;
  }

  lemma AsksAtHuman(given: Given, later: string) returns (v: Vals, log: Log)
    requires given.base.Unsized? || given.base.EmptyObject?
    ensures Bare(v) && v.pending == [QUESTION]
    ensures Whole(ASKS_ONCE, given) == RunNow(ASKS_ONCE, given, v.side, v, Human, log)
    ensures WholePausing(ASKS_ONCE, given, later, Always)
          == RunPausing(ASKS_ONCE, given, later, v.side, v, Human, log, Always)
  {
    var env := ASKS_ONCE;
    var v0 := Initial(env, given);
    StartsBare(given);
    assert v0.plan == [] && v0.round == 0;
    PlansNothing(given, v0, []);
    var m1 := RunNode(env, given, v0.side, v0, Plan, []);
    CallsHuman(given, m1.v, m1.log);
    var m2 := RunNode(env, given, m1.v.side, m1.v, Act, m1.log);
    FilesQuestion(given, m2.v, m2.log);
    var m3 := RunNode(env, given, m2.v.side, m2.v, Normals, m2.log);
    hide RunNode, Bare, Initial, StartSide, ASKS_ONCE, RunNow, RunPausing, RunPausingNode;
    v, log := m3.v, m3.log;
    NowFrom(env, given, v0.side, v0, Plan, []);
    NowFrom(env, given, m1.v.side, m1.v, Act, m1.log);
    NowFrom(env, given, m2.v.side, m2.v, Normals, m2.log);
    PausingFrom(env, given, later, v0.side, v0, Plan, [], Always);
    PausingFrom(env, given, later, m1.v.side, m1.v, Act, m1.log, Always);
    PausingFrom(env, given, later, m2.v.side, m2.v, Normals, m2.log, Always);
  }

  lemma ReplyRecorded(given: Given, later: string, v: Vals, log: Log)
    requires Bare(v) && v.pending == [QUESTION]
    ensures var m := RunNode(ASKS_ONCE, given, v.side, v, Human, log);
            && m.Moved? && m.next.Reflecting? && Bare(m.v)
            && RunPausingNode(ASKS_ONCE, given, later, v.side, v, Human, log, Always) == (m, GivenOnResume(later))
  {
    BareMerge(v);
    HumanNodeIsReplay(ASKS_ONCE, v.side, v, log);
    ResumedSideIsSame(ASKS_ONCE, v);
    assert [QUESTION][1..] == [];
    var log1 := log + [Ask("ok?")];
    var w := StartWork(v.side, v, log);
    var done := Record(w.(log := log1), "h", HUMAN_TOOL, Answered("yes"));
    assert AskNow(ASKS_ONCE, done, [], true) == done;
    assert AskNow(ASKS_ONCE, w, [QUESTION], false) == done;
    assert done.messages[..|v.messages|] == v.messages;
    assert AskReplaying(ASKS_ONCE, w, [QUESTION], false, None) == Interrupted("ok?");
    hide Merge, AskNow, AskReplaying;
  }

  lemma Stops(given: Given, v: Vals, log: Log)
    requires Bare(v)
    ensures var m := RunNode(ASKS_ONCE, given, v.side, v, Reflecting, log);
            && m.Moved? && m.next.Finalize? && m.v.side.last.None? && LastSized(m.v.messages).None?
            && m.v.lastContent.None? && m.v.stop.Final?
            && forall other :: m == RunNode(ASKS_ONCE, other, v.side, v, Reflecting, log)
  {
    BareMerge(v);
    hide Merge;
  }

  /** With the baseline the result is the baseline's; without it there is none. */
  lemma EndsWith(given: Given, v: Vals, log: Log)
    requires v.side.last.None? && LastSized(v.messages).None? && v.lastContent.None? && v.stop.Final?
    requires !given.base.Sized?
    ensures var m := RunNode(ASKS_ONCE, given, v.side, v, Finalize, log);
            && m.Moved? && m.next.End? && m.v.side.last.None? && LastSized(m.v.messages).None?
            && (given.base.NoBaseline? <==> m.v.result.None?)
  {
    hide LastSized;
  }

  lemma PostEnds(base: Baseline, v: Vals, log: Log)
    requires v.side.last.None? && LastSized(v.messages).None? && !base.Sized?
    requires base.NoBaseline? <==> v.result.None?
    ensures PostPhase(ASKS_ONCE, base, v.side, v, log).Done? <==> !base.NoBaseline?
  {
    hide LastSized;
  }

  lemma AnsweredFromHuman(given: Given, v: Vals, log: Log)
    requires Bare(v) && v.pending == [QUESTION] && (given.base.Unsized? || given.base.EmptyObject?)
    ensures RunNow(ASKS_ONCE, given, v.side, v, Human, log).Done?
  {
    var env := ASKS_ONCE;
    hide RunNode, RunNow, RunPausingNode, PostPhase, Bare, ASKS_ONCE;
    ReplyRecorded(given, "", v, log);
    var m1 := RunNode(env, given, v.side, v, Human, log);
    NowFrom(env, given, v.side, v, Human, log);
    Stops(given, m1.v, m1.log);
    var m2 := RunNode(env, given, m1.v.side, m1.v, Reflecting, m1.log);
    NowFrom(env, given, m1.v.side, m1.v, Reflecting, m1.log);
    EndsWith(given, m2.v, m2.log);
    var m3 := RunNode(env, given, m2.v.side, m2.v, Finalize, m2.log);
    NowFrom(env, given, m2.v.side, m2.v, Finalize, m2.log);
    NowFrom(env, given, m3.v.side, m3.v, End, m3.log);
    PostEnds(given.base, m3.v, m3.log);
  }

  lemma PausedFromHuman(given: Given, later: string, v: Vals, log: Log)
    requires Bare(v) && v.pending == [QUESTION]
    ensures RunPausing(ASKS_ONCE, given, later, v.side, v, Human, log, Always).Crashed?
  {
    var env, next := ASKS_ONCE, GivenOnResume(later);
    hide RunNode, RunPausing, RunPausingNode, PostPhase, Bare, ASKS_ONCE;
    ReplyRecorded(given, later, v, log);
    var m1 := RunNode(env, given, v.side, v, Human, log);
    PausingFrom(env, given, later, v.side, v, Human, log, Always);
    Stops(next, m1.v, m1.log);
    var m2 := RunNode(env, next, m1.v.side, m1.v, Reflecting, m1.log);
    PausingFrom(env, next, later, m1.v.side, m1.v, Reflecting, m1.log, Always);
    EndsWith(next, m2.v, m2.log);
    var m3 := RunNode(env, next, m2.v.side, m2.v, Finalize, m2.log);
    PausingFrom(env, next, later, m2.v.side, m2.v, Finalize, m2.log, Always);
    PausingFrom(env, next, later, m3.v.side, m3.v, End, m3.log, Always);
    PostEnds(NoBaseline, m3.v, m3.log);
  }

  /** Started with a baseline that has no "proposals", this agent returns a result when it is answered on the spot
      and none when it is paused, whatever message it resumes with. */
  lemma PausingLosesBaseline(given: Given, later: string)
    requires given.base.Unsized? || given.base.EmptyObject?
    ensures Whole(ASKS_ONCE, given).Done?
    ensures WholePausing(ASKS_ONCE, given, later, Always).Crashed?
  {
    hide RunNow, RunPausing, Bare, ASKS_ONCE, Whole, WholePausing;
    var v, log := AsksAtHuman(given, later);
    AnsweredFromHuman(given, v, log);
    PausedFromHuman(given, later, v, log);
  }

  /* ------------------------------------------------------------------ a world that plans again */

  /** The same agent, told to revise its plan once it has the answer. */
  const REPLANS := ASKS_ONCE.(
    reflect := _ => Some(ReflectReply(Some(RawReflect("revise_plan", None, None, None)), None, Usage(0, 0), "")))

  /** Nothing makes the run stop early. */
  predicate Running(v: Vals) {
    !v.side.force && !v.stop.MaxRounds?
  }

  lemma MergeKeepsForce(env: Env, v: Vals)
    ensures Merge(env, v.side, v).force == v.side.force
  {
    hide LastSized;
  }

  lemma FirstPlan(given: Given, v: Vals, log: Log)
    requires Running(v)
    ensures var m := RunNode(REPLANS, given, v.side, v, Plan, log);
            m.Moved? && m.next.Act? && Running(m.v) && m.v.round == v.round
  {
    MergeKeepsForce(REPLANS, v);
    assert StartNext([]) == ([], None);
    hide Merge;
  }

  lemma OneAct(given: Given, v: Vals, log: Log)
    requires Running(v) && v.round == 0
    ensures var m := RunNode(REPLANS, given, v.side, v, Act, log);
            m.Moved? && m.next.Normals? && Running(m.v) && m.v.lastCalls == [QUESTION]
  {
    MergeKeepsForce(REPLANS, v);
    hide Merge, ActMessages;
  }

  lemma OneQuestion(given: Given, v: Vals, log: Log)
    requires Running(v) && v.lastCalls == [QUESTION]
    ensures var m := RunNode(REPLANS, given, v.side, v, Normals, log);
            m.Moved? && m.next.Human? && Running(m.v) && m.v.pending == [QUESTION]
  {
    MergeKeepsForce(REPLANS, v);
    assert [QUESTION][1..] == [];
    assert NormalCalls([]) == [] && HumanCalls([]) == [];
    assert NormalCalls([QUESTION]) == [] && HumanCalls([QUESTION]) == [QUESTION];
    hide Merge, NormalCalls, HumanCalls;
  }

  lemma OnePause(given: Given, v: Vals, log: Log)
    requires Running(v) && v.pending == [QUESTION]
    ensures PausesAt(REPLANS, v, Human, log, Always)
    ensures var m := RunNode(REPLANS, given, v.side, v, Human, log);
            m.Moved? && m.next.Reflecting? && Running(m.v)
  {
    MergeKeepsForce(REPLANS, v);
    var w := StartWork(Merge(REPLANS, v.side, v), v, log);
    assert [QUESTION][1..] == [];
    assert AskReplaying(REPLANS, w, [QUESTION], false, None) == Interrupted("ok?");
    var log1 := log + [Ask("ok?")];
    var done := Record(w.(log := log1), "h", HUMAN_TOOL, Answered("yes"));
    assert AskNow(REPLANS, done, [], true) == done;
    assert AskNow(REPLANS, w, [QUESTION], false) == done;
    hide Merge, AskNow, AskReplaying;
  }

  lemma PlansAgain(given: Given, v: Vals, log: Log)
    requires Running(v)
    ensures var m := RunNode(REPLANS, given, v.side, v, Reflecting, log); m.Moved? && m.next.Plan?
  {
    MergeKeepsForce(REPLANS, v);
    hide Merge;
  }

  lemma AlwaysReplans(given: Given)
    ensures Replans(REPLANS, given, Always)
  {
    var env := REPLANS;
    var v0 := Initial(env, given);
    assert Running(v0) && v0.round == 0;
    FirstPlan(given, v0, []);
    var m1 := RunNode(env, given, v0.side, v0, Plan, []);
    OneAct(given, m1.v, m1.log);
    var m2 := RunNode(env, given, m1.v.side, m1.v, Act, m1.log);
    OneQuestion(given, m2.v, m2.log);
    var m3 := RunNode(env, given, m2.v.side, m2.v, Normals, m2.log);
    OnePause(given, m3.v, m3.log);
    var m4 := RunNode(env, given, m3.v.side, m3.v, Human, m3.log);
    PlansAgain(given, m4.v, m4.log);
    var m5 := RunNode(env, given, m4.v.side, m4.v, Reflecting, m4.log);
    assert forall v, node: Node, log :: !node.Human? ==> !PausesAt(env, v, node, log, Always);
    hide RunNode, PlansAfterPause, PausesAt, Running, Initial, REPLANS, Always;
    PlansFrom(env, given, v0, Plan, [], Always, false);
    PlansFrom(env, given, m1.v, Act, m1.log, Always, false);
    PlansFrom(env, given, m2.v, Normals, m2.log, Always, false);
    PlansFrom(env, given, m3.v, Human, m3.log, Always, false);
    PlansFrom(env, given, m4.v, Reflecting, m4.log, Always, true);
    PlansFrom(env, given, m5.v, Plan, m5.log, Always, true);
  }

  /** Pausing is transparent for every outside world and every choice of pauses exactly when the baseline the run was
      started with is absent or has "proposals", and resumed processes are given the same user message. */
  lemma TransparentIff(given: Given, later: string)
    ensures (forall env, pauses :: WholePausing(env, given, later, pauses) == Whole(env, given))
       <==> (given.base.NoBaseline? || given.base.Sized?) && later == given.message
  {
    hide Whole, WholePausing, Replans, ASKS_ONCE, REPLANS;
    if given.base.NoBaseline? || given.base.Sized? {
      forall env, pauses | later == given.message ensures WholePausing(env, given, later, pauses) == Whole(env, given) {
        RunIsTransparentIff(env, given, later, pauses);
      }
      AlwaysReplans(given);
      RunIsTransparentIff(REPLANS, given, later, Always);
    } else {
      PausingLosesBaseline(given, later);
      assert WholePausing(ASKS_ONCE, given, later, Always) != Whole(ASKS_ONCE, given);
    }
  }
}
