/** The plan -> act -> reflect loop of an agent (services/agents/runtime/app/graphs/plan_loop.py).

    A thread is a checkpoint: the values at the last node return and the node to run next.  A process adds its own
    side channel, which every node first merges with the checkpoint's and last writes back.  The model, the tools
    and the human answer as they like, each reply depending on everything that was asked before. */
module PlanLoop {
  import opened Common
  import opened PlanTypes

  const HUMAN_TOOL := "request_human_input"
  const SIZE_TOOL := "size_proposals"

  /* ------------------------------------------------------------------ values */

  datatype Call = Call(id: string, name: string, args: string)

  datatype Message =
    | User(content: string)
    | Assistant(content: string, calls: seq<Call>)
    | Tool(content: string, id: string, name: string)

  datatype Usage = Usage(prompt: nat, completion: nat)

  datatype ToolEntry = ToolEntry(id: string, name: string, ok: bool, latency: nat, result: string,
        error: Option<string>)

  datatype Round = Round(i: nat, meta: string, content: Option<string>, calls: seq<Call>, tools: seq<ToolEntry>)

  /** Trace events, timestamps left out. */
  datatype Event =
    | PlanEvent(plan: seq<PlanStep>, current: Option<string>, patched: bool)
    | StepStart(step: string)
    | LlmEvent(phase: string, round: Option<nat>, meta: string)
    | ToolEvent(name: string, ok: bool, latency: nat, error: Option<string>)
    | ReflectEvent(decision: Decision, about: Option<string>, reason: Option<string>, model: Option<string>)
    | HandoffEvent(handoff: string)
    | FinalizeEvent(ok: bool, stop: Stop)

  datatype Stop = Unset | Final | MaxRounds | ErrorStop

  /** The side channel: what a process keeps outside the graph state. */
  datatype Side = Side(called: bool, last: Option<string>, force: bool, events: seq<Event>, rounds: seq<Round>,
        usage: Usage)

  const FRESH := Side(false, None, false, [], [], Usage(0, 0))

  datatype Vals = Vals(
    messages: seq<Message>,
    plan: seq<PlanStep>,
    current: Option<string>,
    memory: Memory,
    round: nat,
    stop: Stop,
    result: Option<string>,
    handoff: Option<string>,
    lastCalls: seq<Call>,
    lastContent: Option<string>,
    decision: Option<Decision>,
    pending: seq<Call>,
    side: Side)

  datatype Node = Plan | Act | Normals | Human | Reflecting | Finalize | End

  /* ------------------------------------------------------------------ the outside world */

  /** One question to the outside world, with all that was sent. */
  datatype External =
    | PlanCall(message: string, prior: Option<(seq<PlanStep>, Memory)>)
    | ActCall(messages: seq<Message>)
    | ReflectCall(messages: seq<Message>, plan: seq<PlanStep>, current: Option<string>, memory: Memory)
    | RepairCall(messages: seq<Message>, content: Option<string>)
    | ToolRun(id: string, name: string, args: string)
    | SizeRun
    | Ask(request: string)

  type Log = seq<External>

  datatype PlanReply = PlanReply(steps: RawPlan, fromContent: RawPlan, usage: Usage, meta: string)
  datatype ActReply = ActReply(content: Option<string>, calls: seq<Call>, usage: Usage, meta: string)
  datatype ReflectReply = ReflectReply(reflect: Option<RawReflect>, fromContent: Option<RawReflect>, usage: Usage,
        meta: string)
  datatype RepairReply = RepairReply(content: Option<string>, usage: Usage, meta: string)
  datatype Executed = Executed(ok: bool, latency: nat, result: string, error: Option<string>)
  datatype Handoff = NoHandoff | Built(handoff: string) | BadHandoff

  /** What the loop returns. */
  datatype Envelope = Envelope(result: string, stop: Stop, handoff: Option<string>, memory: Memory, plan: seq<PlanStep>,
                               messages: seq<Message>, events: seq<Event>, rounds: seq<Round>, usage: Usage)

  /** A reply of None is an exception.  `align` returns None where aligning or validating raises. */
  datatype Env = Env(
    maxRounds: int,
    analyst: bool,
    hasAlign: bool,
    ensureSize: bool,
    hasSizeTool: bool,
    plan: Log -> Option<PlanReply>,
    act: Log -> Option<ActReply>,
    reflect: Log -> Option<ReflectReply>,
    repair: Log -> Option<RepairReply>,
    tool: Log -> Executed,
    human: Log -> string,
    request: string -> Option<string>,
    sized: string -> Option<string>,
    sizedLoosely: string -> Option<string>,
    extract: string -> Option<string>,
    align: string -> Option<string>,
    handoff: (string, Memory) -> Handoff,
    hint: PlanStep -> string,
    valid: Envelope -> bool)

  /** The baseline a process was started with.  Only `Sized` has a "proposals" key. */
  datatype Baseline = NoBaseline | EmptyObject | Unsized(data: string) | Sized(data: string)

  /** What a process is given: its baseline and the user message it sends whenever it plans. */
  datatype Given = Given(base: Baseline, message: string)

  /* ------------------------------------------------------------------ the side channel */

  function Max(a: nat, b: nat): nat {
    if a >= b then a else b
  }

  /** The content of the last size_proposals message. */
  function LastSized(messages: seq<Message>): Option<string> {
    if messages == [] then None
    else
      var m := messages[|messages| - 1];
      if m.Tool? && m.name == SIZE_TOOL then Some(m.content) else LastSized(messages[..|messages| - 1])
  }

  function Rehydrate(env: Env, s: Side, messages: seq<Message>): Side {
    var content := LastSized(messages);
    if content.None? then s
    else
      s.(called := true, last := if s.last.None? then env.sizedLoosely(content.value) else s.last)
  }

  /** A process's side channel after it has merged a checkpoint. */
  function Merge(env: Env, s: Side, v: Vals): Side {
    var c := v.side;
    Rehydrate(env,
      Side(s.called || c.called,
           if s.last.None? then c.last else s.last,
           s.force || c.force,
           if |c.events| > |s.events| then c.events else s.events,
           if |c.rounds| > |s.rounds| then c.rounds else s.rounds,
           Usage(Max(s.usage.prompt, c.usage.prompt), Max(s.usage.completion, c.usage.completion))),
      v.messages)
  }

  function AddEvents(s: Side, events: seq<Event>): Side {
    s.(events := s.events + events)
  }

  function AddUsage(s: Side, u: Usage): Side {
    s.(usage := Usage(s.usage.prompt + u.prompt, s.usage.completion + u.completion))
  }

  const BASELINE_CALL := Call("baseline-size", SIZE_TOOL, "{}")

  function DeterministicRound(i: nat, ok: bool, latency: nat, result: string, error: Option<string>): Round {
    Round(i, "deterministic", None, [BASELINE_CALL],
          [ToolEntry("baseline-size", SIZE_TOOL, ok, latency, result, error)])
  }

  /** The side channel a process starts with. */
  function StartSide(env: Env, base: Baseline, first: bool): Side {
    var s := FRESH.(last := if base.Sized? then Some(base.data) else None);
    if first && env.ensureSize && base.Sized? then
      s.(called := true, rounds := [DeterministicRound(1, true, 0, base.data, None)])
    else s
  }

  function Initial(env: Env, given: Given): Vals {
    Vals([User(given.message)], [], None, EMPTY_MEMORY, 0, Unset, None, None, [], None, None, [],
         StartSide(env, given.base, true))
  }

  /* ------------------------------------------------------------------ nodes */

  /** A node either returns new values and the node after it, or raises. */
  datatype Moved = Moved(v: Vals, next: Node, log: Log) | Raised(log: Log)

  function StartEvents(current: Option<string>): seq<Event> {
    if current.Some? then [StepStart(current.value)] else []
  }

  function PlanNode(env: Env, message: string, s: Side, v: Vals, log: Log): Moved {
    var replan := v.plan != [] || v.decision == Some(RevisePlan);
    var log1 := log + [PlanCall(message, if replan then Some((v.plan, v.memory)) else None)];
    var reply := env.plan(log1);
    if reply.None? then Raised(log1)
    else
      var r := reply.value;
      var plan := NormalPlan(if r.steps == Items([]) then r.fromContent else r.steps);
      if plan.None? then Raised(log1)
      else
        var (started, current) := StartNext(plan.value);
        var s1 := AddEvents(AddUsage(s, r.usage),
                            [PlanEvent(started, current, false)] + StartEvents(current)
                            + [LlmEvent("plan", None, r.meta)]);
        Moved(v.(plan := started, current := current, decision := None, lastCalls := [], stop := Unset,
                result := None, side := s1),
              Act, log1)
  }

  function StepWithId(plan: seq<PlanStep>, id: string): Option<PlanStep> {
    if plan == [] then None else if plan[0].id == id then Some(plan[0]) else StepWithId(plan[1..], id)
  }

  /** The messages shown to the model: a hint about the current step is added unless it is already the last message. */
  function ActMessages(env: Env, v: Vals): seq<Message> {
    if v.current.None? || v.current.value == "" then v.messages
    else
      var step := StepWithId(v.plan, v.current.value);
      if step.None? then v.messages
      else
        var hint := env.hint(step.value);
        if v.messages == [] || v.messages[|v.messages| - 1].content != hint then v.messages + [User(hint)]
        else v.messages
  }

  function Clipped(text: string): string {
    if |text| <= 500 then text else text[..500]
  }

  function ActNode(env: Env, s: Side, v: Vals, log: Log): Moved {
    if v.round >= env.maxRounds || s.force then
      Moved(v.(stop := MaxRounds, lastCalls := [], decision := Some(FinalizeNow), side := s.(force := true)),
            Finalize, log)
    else
      var messages := ActMessages(env, v);
      var log1 := log + [ActCall(messages)];
      var reply := env.act(log1);
      if reply.None? then Raised(log1)
      else
        var r := reply.value;
        var s1 := AddEvents(AddUsage(s, r.usage), [LlmEvent("act", Some(v.round + 1), r.meta)]);
        var s2 := s1.(rounds := s1.rounds + [Round(v.round + 1, r.meta, r.content, r.calls, [])]);
        var v1 := v.(round := v.round + 1, lastCalls := r.calls, lastContent := r.content, stop := Unset,
                     result := None, decision := None, side := s2);
        if r.calls != [] then
          Moved(v1.(messages := messages + [Assistant(r.content.GetOr(""), r.calls)]), Normals, log1)
        else if r.content.Some? && r.content.value != "" then
          Moved(v1.(messages := messages + [Assistant(r.content.value, [])],
                    memory := v.memory.(notes := v.memory.notes + [Clipped(r.content.value)])), Reflecting, log1)
        else
          Moved(v1.(messages := messages), Reflecting, log1)
  }

  /** What a tool node has built up so far. */
  datatype Work = Work(messages: seq<Message>, memory: Memory, side: Side, entries: seq<ToolEntry>, log: Log)

  function RefOf(name: string, ok: bool): string {
    name + (if ok then ":True" else ":False")
  }

  function Record(w: Work, id: string, name: string, e: Executed): Work {
    Work(w.messages + [Tool(e.result, id, name)],
         AppendRef(w.memory, RefOf(name, e.ok)),
         AddEvents(w.side, [ToolEvent(name, e.ok, e.latency, e.error)]),
         w.entries + [ToolEntry(id, name, e.ok, e.latency, e.result, e.error)],
         w.log)
  }

  predicate HasToolMessage(messages: seq<Message>, id: string) {
    exists i :: 0 <= i < |messages| && messages[i].Tool? && messages[i].id == id
  }

  /** A size_proposals run is remembered in the bag. */
  function NoteSize(env: Env, s: Side, name: string, e: Executed): Side {
    if name != SIZE_TOOL then s
    else s.(called := true, last := if env.sized(e.result).Some? then env.sized(e.result) else s.last)
  }

  /** One non-human call: skipped when its id already has a tool message. */
  function RunNormal(env: Env, w: Work, call: Call): Work {
    if call.id != "" && HasToolMessage(w.messages, call.id) then w
    else
      var log1 := w.log + [ToolRun(call.id, call.name, call.args)];
      var e := env.tool(log1);
      Record(w.(side := NoteSize(env, w.side, call.name, e), log := log1), call.id, call.name, e)
  }

  function RunNormals(env: Env, w: Work, calls: seq<Call>): Work
    decreases |calls|
  {
    if calls == [] then w else RunNormals(env, RunNormal(env, w, calls[0]), calls[1..])
  }

  function NormalCalls(calls: seq<Call>): seq<Call> {
    if calls == [] then []
    else (if calls[0].name == HUMAN_TOOL then [] else [calls[0]]) + NormalCalls(calls[1..])
  }

  function HumanCalls(calls: seq<Call>): seq<Call> {
    if calls == [] then []
    else (if calls[0].name == HUMAN_TOOL then [calls[0]] else []) + HumanCalls(calls[1..])
  }

  predicate HasEntry(entries: seq<ToolEntry>, id: string) {
    exists i :: 0 <= i < |entries| && entries[i].id == id
  }

  /** The entries whose id is not among `prior`. */
  function NewEntries(prior: seq<ToolEntry>, entries: seq<ToolEntry>): seq<ToolEntry> {
    if entries == [] then []
    else (if HasEntry(prior, entries[0].id) then [] else [entries[0]]) + NewEntries(prior, entries[1..])
  }

  /** Tool entries are filed under the latest round. */
  function FileEntries(s: Side, entries: seq<ToolEntry>): Side {
    if s.rounds == [] then s
    else
      var last := |s.rounds| - 1;
      var prior := s.rounds[last].tools;
      s.(rounds := s.rounds[last := s.rounds[last].(tools := prior + NewEntries(prior, entries))])
  }

  function StartWork(s: Side, v: Vals, log: Log): Work {
    Work(v.messages, v.memory, s, [], log)
  }

  /** The values a tool node returns. */
  function Worked(v: Vals, w: Work, pending: seq<Call>): Vals {
    v.(messages := w.messages, memory := w.memory, lastCalls := [], pending := pending,
       side := FileEntries(w.side, w.entries))
  }

  function NormalsNode(env: Env, s: Side, v: Vals, log: Log): Moved {
    var w := RunNormals(env, StartWork(s, v, log), NormalCalls(v.lastCalls));
    var pending := HumanCalls(v.lastCalls);
    Moved(Worked(v, w, pending), if pending == [] then Reflecting else Human, w.log)
  }

  function Failed(reason: string): Executed {
    Executed(false, 0, "{\"ok\": false, \"error\": \"" + reason + "\"}", Some(reason))
  }

  function Answered(reply: string): Executed {
    Executed(true, 0, reply, None)
  }

  const MULTIPLE := "multiple_human_input_unsupported"
  const NO_QUESTION := "question_required"

  /** The human calls of one batch, when each question is answered on the spot. */
  function AskNow(env: Env, w: Work, calls: seq<Call>, asked: bool): Work
    decreases |calls|
  {
    if calls == [] then w
    else
      var c := calls[0];
      var request := env.request(c.args);
      if request.None? then AskNow(env, Record(w, c.id, HUMAN_TOOL, Failed(NO_QUESTION)), calls[1..], asked)
      else if asked then AskNow(env, Record(w, c.id, HUMAN_TOOL, Failed(MULTIPLE)), calls[1..], asked)
      else
        var log1 := w.log + [Ask(request.value)];
        AskNow(env, Record(w.(log := log1), c.id, HUMAN_TOOL, Answered(env.human(log1))), calls[1..], true)
  }

  datatype Replay = Walked(work: Work) | Interrupted(request: string)

  /** The same batch under the checkpointer: without a reply the first question interrupts the node and all its work
      is dropped; on resume the node starts over and the question returns the reply. */
  function AskReplaying(env: Env, w: Work, calls: seq<Call>, asked: bool, reply: Option<string>): Replay
    decreases |calls|
  {
    if calls == [] then Walked(w)
    else
      var c := calls[0];
      var request := env.request(c.args);
      if request.None? then
        AskReplaying(env, Record(w, c.id, HUMAN_TOOL, Failed(NO_QUESTION)), calls[1..], asked, reply)
      else if asked then AskReplaying(env, Record(w, c.id, HUMAN_TOOL, Failed(MULTIPLE)), calls[1..], asked, reply)
      else if reply.None? then Interrupted(request.value)
      else AskReplaying(env, Record(w, c.id, HUMAN_TOOL, Answered(reply.value)), calls[1..], true, reply)
  }

  function HumanNode(env: Env, s: Side, v: Vals, log: Log): Moved {
    var w := AskNow(env, StartWork(s, v, log), v.pending, false);
    Moved(Worked(v, w, []), Reflecting, w.log)
  }

  /** What a reflect reply does to the plan: the new plan, the current step, the events and the decision kept. */
  function ApplyReflect(r: Reflect, v: Vals): (seq<PlanStep>, Option<string>, seq<Event>, Decision) {
    if r.decision.MarkStepDone? then
      var id := if r.stepId.Some? && r.stepId.value != "" then r.stepId.value else v.current.GetOr("");
      var (plan, next) := StartNext(if id == "" then v.plan else SetStatus(v.plan, id, StepDone));
      (plan, next, StartEvents(next), MarkStepDone)
    else if r.decision.RevisePlan? && r.patch.Some? && NormalPlan(r.patch.value).Some? then
      var (plan, next) := StartNext(NormalPlan(r.patch.value).value);
      (plan, next, StartEvents(next) + [PlanEvent(plan, next, true)], Continue)
    else (v.plan, v.current, [], r.decision)
  }

  function ReflectNode(env: Env, s: Side, v: Vals, log: Log): Moved {
    if s.force || v.stop.MaxRounds? then
      Moved(v.(decision := Some(FinalizeNow), stop := if v.stop.Unset? then MaxRounds else v.stop,
               side := AddEvents(s, [ReflectEvent(FinalizeNow, None, Some("max_rounds"), None)])), Finalize, log)
    else
      var log1 := log + [ReflectCall(v.messages, v.plan, v.current, v.memory)];
      var reply := env.reflect(log1);
      if reply.None? then Raised(log1)
      else
        var raw := if reply.value.reflect.Some? then reply.value.reflect.value
                   else reply.value.fromContent.GetOr(RawReflect("continue", None, None, None));
        var r := NormalReflect(raw);
        var (plan, current, events, decision) := ApplyReflect(r, v);
        var s1 := AddEvents(AddUsage(s, reply.value.usage),
                            [ReflectEvent(r.decision, r.stepId, r.reason, Some(reply.value.meta))] + events);
        Moved(v.(plan := plan, current := current, decision := Some(decision), lastCalls := [],
                 stop := if r.decision.FinalizeNow? then Final else v.stop, side := s1),
              if decision.FinalizeNow? then Finalize else if decision.RevisePlan? then Plan else Act, log1)
  }

  function Extract(env: Env, content: Option<string>): Option<string> {
    if content.None? then None else env.extract(content.value)
  }

  function TryAlign(env: Env, candidate: Option<string>): Option<string> {
    if candidate.None? then None else env.align(candidate.value)
  }

  /** `last or baseline`, then the analyst's empty object. */
  function Fallback(env: Env, last: Option<string>, base: Baseline): Option<string> {
    if last.Some? then last
    else match base
      case Sized(data) => Some(data)
      case Unsized(data) => Some(data)
      case EmptyObject => Some("{}")
      case NoBaseline => if env.analyst && env.hasAlign then Some("{}") else None
  }

  /** `last or baseline` is truthy. */
  predicate HasSizing(last: Option<string>, base: Baseline) {
    last.Some? || base.Sized? || base.Unsized?
  }

  /** The one repair call: usage counts as soon as the reply is in, the event only when aligning does not raise. */
  function Repair(env: Env, s: Side, v: Vals, log: Log): (Side, Option<string>, Log) {
    var log1 := log + [RepairCall(v.messages, v.lastContent)];
    var reply := env.repair(log1);
    if reply.None? then (s, None, log1)
    else
      var s1 := AddUsage(s, reply.value.usage);
      var repaired := Extract(env, reply.value.content);
      var result := TryAlign(env, repaired);
      (if repaired.Some? && result.None? then s1 else AddEvents(s1, [LlmEvent("repair", None, reply.value.meta)]),
       result, log1)
  }

  /** The last resort, once neither the content nor its repair gave a result. */
  function Settle(env: Env, base: Baseline, s: Side, stop: Stop, result: Option<string>): (Option<string>, Stop) {
    if result.Some? then (result, stop)
    else
      var aligned := TryAlign(env, Fallback(env, s.last, base));
      if aligned.None? then (None, stop)
      else
        (aligned,
         if !HasSizing(s.last, base) then MaxRounds else if stop.Final? || stop.MaxRounds? then stop else Final)
  }

  function Conclude(env: Env, s: Side, v: Vals, log: Log, result: Option<string>, stop: Stop): Moved {
    if result.None? then
      Moved(v.(result := None, stop := ErrorStop, handoff := None,
                side := AddEvents(s, [FinalizeEvent(false, ErrorStop)])), End, log)
    else
      match env.handoff(result.value, v.memory)
      case BadHandoff => Raised(log)
      case NoHandoff =>
        Moved(v.(result := result, stop := stop, handoff := None, side := AddEvents(s, [FinalizeEvent(true, stop)])),
              End, log)
      case Built(h) =>
        Moved(v.(result := result, stop := stop, handoff := Some(h),
                 side := AddEvents(s, [HandoffEvent(h), FinalizeEvent(true, stop)])), End, log)
  }

  function FinalizeNode(env: Env, base: Baseline, s: Side, v: Vals, log: Log): Moved {
    var stop := if v.stop.Unset? then Final else v.stop;
    var result := TryAlign(env, Extract(env, v.lastContent));
    var (s1, result1, log1) := if result.Some? then (s, result, log) else Repair(env, s, v, log);
    var (result2, stop1) := Settle(env, base, s1, stop, result1);
    Conclude(env, s1, v, log1, result2, stop1)
  }

  /** One node, run by a process whose side channel is `local`. */
  function RunNode(env: Env, given: Given, local: Side, v: Vals, node: Node, log: Log): Moved
    requires !node.End?
  {
    var s := Merge(env, local, v);
    match node
    case Plan => PlanNode(env, given.message, s, v, log)
    case Act => ActNode(env, s, v, log)
    case Normals => NormalsNode(env, s, v, log)
    case Human => HumanNode(env, s, v, log)
    case Reflecting => ReflectNode(env, s, v, log)
    case Finalize => FinalizeNode(env, given.base, s, v, log)
  }

  /* ------------------------------------------------------------------ after the graph */

  datatype Outcome = Done(envelope: Envelope, log: Log) | Crashed(log: Log)

  /** Sizing is run once more when nothing called it. */
  function EnsureSize(env: Env, s: Side, v: Vals, log: Log): (Side, Option<string>, Memory, Stop, Log) {
    var stop := if v.stop.Unset? then ErrorStop else v.stop;
    if env.ensureSize && !s.called && env.hasSizeTool then
      var log1 := log + [SizeRun];
      var e := env.tool(log1);
      var sized := env.sized(e.result);
      var s1 := s.(called := true, last := if sized.Some? then sized else s.last,
                   rounds := s.rounds + [DeterministicRound(|s.rounds| + 1, e.ok, e.latency, e.result, e.error)]);
      var memory := if sized.Some? then AppendRef(v.memory, RefOf(SIZE_TOOL, e.ok)) else v.memory;
      var aligned := if v.result.None? then TryAlign(env, sized) else None;
      if aligned.Some? then (s1, aligned, memory, if stop.Final? || stop.MaxRounds? then stop else Final, log1)
      else (s1, v.result, memory, stop, log1)
    else (s, v.result, v.memory, stop, log)
  }

  function PostPhase(env: Env, base: Baseline, local: Side, v: Vals, log: Log): Outcome {
    var (s, result, memory, stop, log1) := EnsureSize(env, Merge(env, local, v), v, log);
    var result1 := if result.Some? then result else TryAlign(env, Fallback(env, s.last, base));
    var stop1 := if result.None? && result1.Some? && !stop.Final? && !stop.MaxRounds? then MaxRounds else stop;
    if result1.None? then Crashed(log1)
    else
      var envelope :=
        Envelope(result1.value, stop1, v.handoff, memory, v.plan, v.messages, s.events, s.rounds, s.usage);
      if env.valid(envelope) then Done(envelope, log1) else Crashed(log1)
  }

  /* ------------------------------------------------------------------ runs */

  function RoundsLeft(env: Env, v: Vals): nat {
    if v.round >= env.maxRounds then 0 else env.maxRounds - v.round
  }

  /** Position of a node inside one round. */
  function Rank(node: Node): nat {
    match node
    case Normals => 6
    case Human => 5
    case Reflecting => 4
    case Plan => 3
    case Act => 2
    case Finalize => 1
    case End => 0
  }

  /** Every node uses up a round or moves on within one. */
  lemma NodeProgress(env: Env, given: Given, local: Side, v: Vals, node: Node, log: Log)
    requires !node.End?
    ensures var m := RunNode(env, given, local, v, node, log);
            m.Moved? ==>
              || RoundsLeft(env, m.v) < RoundsLeft(env, v)
              || (RoundsLeft(env, m.v) == RoundsLeft(env, v) && Rank(m.next) < Rank(node))
  {
    hide Merge, ActMessages, NormalPlan, StartNext, RunNormals, AskNow, FileEntries, Repair, Settle, TryAlign;
  }

  /** A run whose questions are answered on the spot. */
  function RunNow(env: Env, given: Given, local: Side, v: Vals, node: Node, log: Log): Outcome
    decreases RoundsLeft(env, v), Rank(node)
  {
    if node.End? then PostPhase(env, given.base, local, v, log)
    else
      NodeProgress(env, given, local, v, node, log);
      var m := RunNode(env, given, local, v, node, log);
      if m.Raised? then Crashed(m.log) else RunNow(env, given, m.v.side, m.v, m.next, m.log)
  }
}
