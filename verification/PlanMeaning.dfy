/** What the nodes of the loop do with the replies they get, told from the raw replies. */
module PlanMeaning {
  import opened Common
  import opened PlanTypes
  import opened PlanLoop
  import opened PlanPause

  /* ------------------------------------------------------------------ reading and starting a plan */

  predicate StatusReads(text: Option<string>, status: StepStatus) {
    match status
    case Pending => text == None || text == Some("pending")
    case InProgress => text == Some("in_progress")
    case StepDone => text == Some("done")
    case Skipped => text == Some("skipped")
  }

  predicate Readable(item: RawStep) {
    && item.RawStep? && item.title != ""
    && (item.status.None? || item.status.value in {"pending", "in_progress", "done", "skipped"})
  }

  /** The step says what the item says; without an id of its own it goes by its position. */
  predicate StepReads(item: RawStep, index: nat, step: PlanStep) {
    && item.RawStep?
    && step.title == item.title && step.hint == item.hint
    && StatusReads(item.status, step.status)
    && step.id == if item.id != "" then item.id else "s" + Decimal(index + 1)
  }

  predicate PlanReads(raw: RawPlan, plan: seq<PlanStep>) {
    && raw.Items? && |plan| == |raw.items|
    && forall i :: 0 <= i < |plan| ==> StepReads(raw.items[i], i, plan[i])
  }

  predicate ReadablePlan(raw: RawPlan) {
    raw.Items? && forall i :: 0 <= i < |raw.items| ==> Readable(raw.items[i])
  }

  /** A plan is accepted exactly when it is a list of objects, each with a title and a known status, and then it is read
      item by item. */
  lemma PlanIsRead(raw: RawPlan)
    ensures NormalPlan(raw).Some? <==> ReadablePlan(raw)
    ensures NormalPlan(raw).Some? ==> PlanReads(raw, NormalPlan(raw).value)
  {
    if raw.Items? {
      forall i | 0 <= i < |raw.items| ensures ValidItem(raw.items[i]) <==> Readable(raw.items[i]) {
      }
    }
    hide Decimal;
  }

  predicate IsFirstPending(plan: seq<PlanStep>, k: int) {
    0 <= k < |plan| && plan[k].status.Pending? && forall i :: 0 <= i < k ==> !plan[i].status.Pending?
  }

  /** The steps with this id, and no others, take the status. */
  predicate SetTo(before: seq<PlanStep>, after: seq<PlanStep>, id: string, status: StepStatus) {
    && |after| == |before|
    && forall i :: 0 <= i < |before| ==>
          after[i] == if before[i].id == id then before[i].(status := status) else before[i]
  }

  ghost predicate HasPending(plan: seq<PlanStep>) {
    exists k :: IsFirstPending(plan, k) && plan[k].id != ""
  }

  /** The first pending step is in progress and current; with none, no step is current and the plan is as it was. */
  ghost predicate Starts(before: seq<PlanStep>, after: seq<PlanStep>, current: Option<string>) {
    if HasPending(before) then
      forall k :: IsFirstPending(before, k) ==>
            current == Some(before[k].id) && SetTo(before, after, before[k].id, InProgress)
    else after == before && current.None?
  }

  lemma {:induction false} PendingIsFound(plan: seq<PlanStep>, k: int)
    ensures IsFirstPending(plan, k) ==> FirstPending(plan) == Some(plan[k].id)
    ensures FirstPending(plan).None? ==> forall i :: 0 <= i < |plan| ==> !plan[i].status.Pending?
  {
    if plan != [] {
      PendingIsFound(plan[1..], k - 1);
      if FirstPending(plan).None? {
        assert forall i :: 0 < i < |plan| ==> plan[i] == plan[1..][i - 1];
      }
      if IsFirstPending(plan, k) && k > 0 {
        assert forall i :: 0 <= i < k - 1 ==> plan[1..][i] == plan[i + 1];
        assert IsFirstPending(plan[1..], k - 1);
      }
    }
  }

  lemma NextIsStarted(plan: seq<PlanStep>)
    ensures Starts(plan, StartNext(plan).0, StartNext(plan).1)
  {
    forall k | IsFirstPending(plan, k) ensures FirstPending(plan) == Some(plan[k].id) {
      PendingIsFound(plan, k);
    }
    if FirstPending(plan).Some? {
      var k := FirstPendingAt(plan);
      assert IsFirstPending(plan, k);
    }
    hide FirstPending;
  }

  /* ------------------------------------------------------------------ planning */

  /** What the planner answered: its steps, or those in its content when it gave none. */
  function RawPlanOf(reply: PlanReply): RawPlan {
    if reply.steps == Items([]) then reply.fromContent else reply.steps
  }

  /** The planner is told the old plan exactly when there is one or it is to be revised; its answer, read item by item,
      is the new plan, started, and acting comes next; an answer that cannot be read ends the run. */
  lemma PlanFollows(env: Env, message: string, s: Side, v: Vals, log: Log)
    ensures var m := PlanNode(env, message, s, v, log);
            && |m.log| == |log| + 1 && m.log[..|log|] == log
            && m.log[|log|] == PlanCall(message, if v.plan == [] && v.decision != Some(RevisePlan) then None
                                                 else Some((v.plan, v.memory)))
            && (m.Moved? <==> env.plan(m.log).Some? && ReadablePlan(RawPlanOf(env.plan(m.log).value)))
            && (m.Moved? ==>
                  && m.next.Act?
                  && m.v.messages == v.messages && m.v.memory == v.memory && m.v.round == v.round
                  && exists plan :: PlanReads(RawPlanOf(env.plan(m.log).value), plan)
                                 && Starts(plan, m.v.plan, m.v.current))
  {
    var m := PlanNode(env, message, s, v, log);
    if env.plan(m.log).Some? {
      var raw := RawPlanOf(env.plan(m.log).value);
      PlanIsRead(raw);
      if NormalPlan(raw).Some? {
        NextIsStarted(NormalPlan(raw).value);
      }
    }
    hide NormalPlan, StartNext, PlanReads, ReadablePlan, Starts;
  }

  /* ------------------------------------------------------------------ acting */

  /** The model is shown the messages, and last a hint about the current step. */
  predicate Shows(env: Env, v: Vals, shown: seq<Message>) {
    if v.current.None? || v.current.value == "" || StepWithId(v.plan, v.current.value).None? then shown == v.messages
    else
      var hint := env.hint(StepWithId(v.plan, v.current.value).value);
      if v.messages != [] && v.messages[|v.messages| - 1].content == hint then shown == v.messages
      else shown == v.messages + [User(hint)]
  }

  /** The current step is the first with its id. */
  lemma {:induction false} StepIsFound(plan: seq<PlanStep>, id: string)
    ensures var step := StepWithId(plan, id);
            && (step.None? <==> forall i :: 0 <= i < |plan| ==> plan[i].id != id)
            && (step.Some? ==> exists k :: 0 <= k < |plan| && plan[k] == step.value && plan[k].id == id
                                        && forall i :: 0 <= i < k ==> plan[i].id != id)
  {
    if plan != [] && plan[0].id != id {
      StepIsFound(plan[1..], id);
      assert forall i :: 0 < i < |plan| ==> plan[i] == plan[1..][i - 1];
      if StepWithId(plan, id).Some? {
        var k :| 0 <= k < |plan[1..]| && plan[1..][k] == StepWithId(plan, id).value && plan[1..][k].id == id
              && forall i :: 0 <= i < k ==> plan[1..][i].id != id;
        assert plan[k + 1] == StepWithId(plan, id).value;
      }
    }
  }

  /** Out of rounds the model is not asked. Otherwise it is asked once, in a new round: its tool calls go to the tools,
      its text is kept and noted, up to 500 characters, and goes to reflection, and so does silence. */
  lemma ActFollows(env: Env, s: Side, v: Vals, log: Log)
    ensures var m := ActNode(env, s, v, log);
            if s.force || v.round >= env.maxRounds then
              m.Moved? && m.log == log && m.next.Finalize? && m.v.stop.MaxRounds? && m.v.messages == v.messages
            else
              && |m.log| == |log| + 1 && m.log[..|log|] == log
              && m.log[|log|].ActCall? && Shows(env, v, m.log[|log|].messages)
              && (m.Moved? <==> env.act(m.log).Some?)
              && (m.Moved? ==>
                    var r, shown := env.act(m.log).value, m.log[|log|].messages;
                    var text := if r.content.Some? then r.content.value else "";
                    && m.v.round == v.round + 1 && m.v.lastCalls == r.calls && m.v.lastContent == r.content
                    && m.v.plan == v.plan && m.v.current == v.current
                    && m.v.side.rounds == s.rounds + [Round(m.v.round, r.meta, r.content, r.calls, [])]
                    && m.next == (if r.calls != [] then Normals else Reflecting)
                    && m.v.messages == shown + (if r.calls == [] && text == "" then [] else [Assistant(text, r.calls)])
                    && m.v.memory.refs == v.memory.refs
                    && m.v.memory.notes == v.memory.notes + (if r.calls != [] || text == "" then []
                                                             else [if |text| <= 500 then text else text[..500]]))
  {
    hide StepWithId;
  }

  /* ------------------------------------------------------------------ answering tool calls */

  /** The first of the calls that asks a valid question. */
  ghost predicate FirstValid(env: Env, calls: seq<Call>, k: int) {
    0 <= k < |calls| && env.request(calls[k].args).Some? && forall i :: 0 <= i < k ==> env.request(calls[i].args).None?
  }

  /** What a human call is told: the answer if it asked the first valid question, and else why it was refused. */
  ghost function Told(env: Env, calls: seq<Call>, asked: bool, answer: string, i: nat): string
    requires i < |calls|
  {
    if env.request(calls[i].args).None? then "{\"ok\": false, \"error\": \"" + "question_required" + "\"}"
    else if !asked && FirstValid(env, calls, i) then answer
    else "{\"ok\": false, \"error\": \"" + "multiple_human_input_unsupported" + "\"}"
  }

  /** One tool message for each call, in order and under its id. */
  ghost predicate Replies(env: Env, calls: seq<Call>, asked: bool, answer: string, added: seq<Message>) {
    && |added| == |calls|
    && forall i :: 0 <= i < |calls| ==>
          added[i] == Tool(Told(env, calls, asked, answer, i), calls[i].id, "request_human_input")
  }

  ghost predicate AsksNothing(env: Env, calls: seq<Call>) {
    forall i :: 0 <= i < |calls| ==> env.request(calls[i].args).None?
  }

  lemma RepliesMore(env: Env, calls: seq<Call>, asked: bool, now: bool, answer: string, added: seq<Message>)
    requires calls != [] && now == (asked || env.request(calls[0].args).Some?)
    requires Replies(env, calls[1..], now, answer, added)
    ensures Replies(env, calls, asked, answer,
                    [Tool(Told(env, calls, asked, answer, 0), calls[0].id, "request_human_input")] + added)
  {
    var all := [Tool(Told(env, calls, asked, answer, 0), calls[0].id, "request_human_input")] + added;
    forall i | 0 <= i < |calls|
      ensures all[i] == Tool(Told(env, calls, asked, answer, i), calls[i].id, "request_human_input")
    {
      if i > 0 {
        assert calls[1..][i - 1] == calls[i];
        FirstOfRest(env, calls, i);
      }
    }
  }

  lemma FirstOfRest(env: Env, calls: seq<Call>, i: nat)
    requires 0 < i < |calls|
    ensures FirstValid(env, calls, i) <==> env.request(calls[0].args).None? && FirstValid(env, calls[1..], i - 1)
  {
    var rest := calls[1..];
    assert forall j :: 0 <= j < |rest| ==> rest[j] == calls[j + 1];
    if FirstValid(env, rest, i - 1) && env.request(calls[0].args).None? {
      forall j | 0 <= j < i ensures env.request(calls[j].args).None? {
        if j > 0 {
          assert env.request(rest[j - 1].args).None?;
        }
      }
    }
  }

  /** Messages that go on after one more. */
  lemma OneMore(before: seq<Message>, m: Message, all: seq<Message>)
    requires |before| + 1 <= |all| && all[..|before| + 1] == before + [m]
    ensures all[..|before|] == before && all[|before|..] == [m] + all[|before| + 1..]
  {
    assert all[..|before|] == all[..|before| + 1][..|before|];
    assert all[|before|] == all[..|before| + 1][|before|];
  }

  /** What comes of one human call. */
  function OutcomeOf(env: Env, c: Call, asked: bool, answer: string): Executed {
    if env.request(c.args).None? then Failed(NO_QUESTION) else if asked then Failed(MULTIPLE) else Answered(answer)
  }

  lemma OutcomeIsTold(env: Env, calls: seq<Call>, asked: bool, answer: string)
    requires calls != []
    ensures OutcomeOf(env, calls[0], asked, answer).result == Told(env, calls, asked, answer, 0)
  {
  }

  lemma OneCall(env: Env, w: Work, calls: seq<Call>, asked: bool, answer: string)
    requires calls != []
    ensures var next := Record(w, calls[0].id, HUMAN_TOOL, OutcomeOf(env, calls[0], asked, answer));
            AskReplaying(env, w, calls, asked, Some(answer))
            == AskReplaying(env, next, calls[1..], asked || env.request(calls[0].args).Some?, Some(answer))
  {
    hide Record, Failed, Answered;
  }

  /** A batch of human calls walked through with an answer in hand. */
  lemma {:induction false} ReplayReplies(env: Env, w: Work, calls: seq<Call>, asked: bool, answer: string)
    ensures var r := AskReplaying(env, w, calls, asked, Some(answer));
            && r.Walked? && r.work.log == w.log && |w.messages| <= |r.work.messages|
            && r.work.messages[..|w.messages|] == w.messages
            && Replies(env, calls, asked, answer, r.work.messages[|w.messages|..])
    decreases |calls|
  {
    if calls != [] {
      var c, now := calls[0], asked || env.request(calls[0].args).Some?;
      var next := Record(w, c.id, HUMAN_TOOL, OutcomeOf(env, c, asked, answer));
      var m := Tool(Told(env, calls, asked, answer, 0), c.id, HUMAN_TOOL);
      hide AskReplaying, Replies, Told, OutcomeOf, RefOf;
      OneCall(env, w, calls, asked, answer);
      OutcomeIsTold(env, calls, asked, answer);
      assert next.messages == w.messages + [m] && next.log == w.log;
      ReplayReplies(env, next, calls[1..], now, answer);
      var done := AskReplaying(env, next, calls[1..], now, Some(answer)).work;
      RepliesMore(env, calls, asked, now, answer, done.messages[|next.messages|..]);
      OneMore(w.messages, m, done.messages);
    }
  }

  /** A batch of human calls asks its first valid question, if it has one, and nothing else. */
  lemma {:induction false} AskedOrNot(env: Env, w: Work, calls: seq<Call>)
    ensures match AskReplaying(env, w, calls, false, None)
            case Interrupted(request) =>
              exists k :: FirstValid(env, calls, k) && env.request(calls[k].args) == Some(request)
            case Walked(done) => AsksNothing(env, calls) && done.log == w.log
    decreases |calls|
  {
    if calls != [] {
      var c := calls[0];
      if env.request(c.args).None? {
        var next := Record(w, c.id, HUMAN_TOOL, Failed(NO_QUESTION));
        AskedOrNot(env, next, calls[1..]);
        hide AskReplaying;
        assert forall j :: 0 < j < |calls| ==> calls[j] == calls[1..][j - 1];
        forall k | 0 <= k < |calls[1..]| ensures FirstValid(env, calls[1..], k) ==> FirstValid(env, calls, k + 1) {
          FirstOfRest(env, calls, k + 1);
        }
      } else {
        assert FirstValid(env, calls, 0);
      }
    }
  }

  /** With nothing asked, no answer is needed. */
  lemma {:induction false} NoAnswerNeeded(env: Env, w: Work, calls: seq<Call>, answer: string)
    requires AsksNothing(env, calls)
    ensures AskReplaying(env, w, calls, false, None) == AskReplaying(env, w, calls, false, Some(answer))
    decreases |calls|
  {
    if calls != [] {
      assert forall j :: 0 < j < |calls| ==> calls[j] == calls[1..][j - 1];
      NoAnswerNeeded(env, Record(w, calls[0].id, HUMAN_TOOL, Failed(NO_QUESTION)), calls[1..], answer);
    }
  }

  /** The human node asks the first valid question and nothing else, and answers every pending call: the messages grow
      by one tool message for each, in order and under its id. The first valid question gets the human's answer, an
      invalid one is told that a question is required, and a further one that several are not supported. */
  lemma HumanFollows(env: Env, s: Side, v: Vals, log: Log)
    ensures var m := HumanNode(env, s, v, log);
            && m.Moved? && m.next.Reflecting? && |v.messages| <= |m.v.messages|
            && m.v.messages[..|v.messages|] == v.messages
            && (if AsksNothing(env, v.pending) then
                  m.log == log && Replies(env, v.pending, false, "", m.v.messages[|v.messages|..])
                else
                  && |m.log| == |log| + 1 && m.log[..|log|] == log
                  && (forall k :: FirstValid(env, v.pending, k) ==>
                        m.log[|log|] == Ask(env.request(v.pending[k].args).value))
                  && Replies(env, v.pending, false, env.human(m.log), m.v.messages[|v.messages|..]))
  {
    var w := StartWork(s, v, log);
    AskedOrNot(env, w, v.pending);
    ReplayIsNow(env, w, v.pending);
    hide AskNow, Replies, FileEntries;
    match AskReplaying(env, w, v.pending, false, None)
    case Walked(done) =>
      NoAnswerNeeded(env, w, v.pending, "");
      ReplayReplies(env, w, v.pending, false, "");
    case Interrupted(request) =>
      var log1 := log + [Ask(request)];
      ReplayReplies(env, w.(log := log1), v.pending, false, env.human(log1));
  }

  /** The same for a process that resumes with the answer. */
  lemma ResumedFollows(env: Env, s: Side, v: Vals, log: Log, answer: string)
    ensures var p := HumanPass(env, s, v, log, Some(answer));
            && p.Passed? && p.moved.Moved? && p.moved.log == log && |v.messages| <= |p.moved.v.messages|
            && p.moved.v.messages[..|v.messages|] == v.messages
            && Replies(env, v.pending, false, answer, p.moved.v.messages[|v.messages|..])
  {
    ReplayReplies(env, StartWork(s, v, log), v.pending, false, answer);
    hide AskReplaying, Replies, FileEntries;
  }

  /** The calls that are executed: those without an id, and of each id not done yet the first. */
  function NewCalls(done: set<string>, calls: seq<Call>): seq<Call>
    decreases |calls|
  {
    if calls == [] then []
    else if calls[0].id != "" && calls[0].id in done then NewCalls(done, calls[1..])
    else [calls[0]] + NewCalls(done + {calls[0].id}, calls[1..])
  }

  /** The ids that messages have answered. */
  function DoneIds(messages: seq<Message>): set<string> {
    set i | 0 <= i < |messages| && messages[i].Tool? :: messages[i].id
  }

  /** Each call was executed in turn, and its own result is the content of its own message. */
  ghost predicate Results(env: Env, log: Log, done: Log, calls: seq<Call>, added: seq<Message>) {
    && |done| == |log| + |calls| && done[..|log|] == log && |added| == |calls|
    && forall i :: 0 <= i < |calls| ==>
         && done[|log| + i] == ToolRun(calls[i].id, calls[i].name, calls[i].args)
         && added[i] == Tool(env.tool(done[..|log| + i + 1]).result, calls[i].id, calls[i].name)
  }

  lemma ResultsMore(env: Env, log: Log, done: Log, call: Call, calls: seq<Call>, added: seq<Message>)
    requires var log1 := log + [ToolRun(call.id, call.name, call.args)]; Results(env, log1, done, calls, added)
    ensures var log1 := log + [ToolRun(call.id, call.name, call.args)];
            Results(env, log, done, [call] + calls, [Tool(env.tool(log1).result, call.id, call.name)] + added)
  {
    var log1 := log + [ToolRun(call.id, call.name, call.args)];
    var all, messages := [call] + calls, [Tool(env.tool(log1).result, call.id, call.name)] + added;
    assert done[..|log1|] == log1;
    assert done[..|log|] == done[..|log1|][..|log|] == log;
    assert done[|log|] == done[..|log1|][|log|];
    forall i | 0 <= i < |all|
      ensures done[|log| + i] == ToolRun(all[i].id, all[i].name, all[i].args)
      ensures messages[i] == Tool(env.tool(done[..|log| + i + 1]).result, all[i].id, all[i].name)
    {
      if i > 0 {
        assert all[i] == calls[i - 1] && messages[i] == added[i - 1];
        assert |log1| + (i - 1) == |log| + i;
      }
    }
  }

  lemma DoneMore(messages: seq<Message>, m: Message)
    requires m.Tool?
    ensures DoneIds(messages + [m]) == DoneIds(messages) + {m.id}
  {
    var more := messages + [m];
    assert more[|messages|] == m;
    forall id | id in DoneIds(messages) ensures id in DoneIds(more) {
      var i :| 0 <= i < |messages| && messages[i].Tool? && messages[i].id == id;
      assert more[i] == messages[i];
    }
  }

  lemma {:induction false} NormalsResults(env: Env, w: Work, calls: seq<Call>)
    ensures var r := RunNormals(env, w, calls);
            && |w.messages| <= |r.messages| && r.messages[..|w.messages|] == w.messages
            && Results(env, w.log, r.log, NewCalls(DoneIds(w.messages), calls), r.messages[|w.messages|..])
    decreases |calls|
  {
    if calls != [] {
      var c, next := calls[0], RunNormal(env, w, calls[0]);
      assert HasToolMessage(w.messages, c.id) <==> c.id in DoneIds(w.messages);
      NormalsResults(env, next, calls[1..]);
      var done := RunNormals(env, next, calls[1..]);
      hide RunNormals, Results;
      if !(c.id != "" && HasToolMessage(w.messages, c.id)) {
        var log1 := w.log + [ToolRun(c.id, c.name, c.args)];
        var m := Tool(env.tool(log1).result, c.id, c.name);
        assert next.log == log1 && next.messages == w.messages + [m];
        DoneMore(w.messages, m);
        ResultsMore(env, w.log, done.log, c, NewCalls(DoneIds(next.messages), calls[1..]),
              done.messages[|next.messages|..]);
        OneMore(w.messages, m, done.messages);
      }
    }
  }

  /** A reply's calls are split by name, in order: the human ones wait, the others are executed. */
  lemma {:induction false} CallsAreSplit(calls: seq<Call>)
    ensures |NormalCalls(calls)| + |HumanCalls(calls)| == |calls|
    ensures forall c :: c in NormalCalls(calls) <==> c in calls && c.name != "request_human_input"
    ensures forall c :: c in HumanCalls(calls) <==> c in calls && c.name == "request_human_input"
  {
    if calls != [] {
      CallsAreSplit(calls[1..]);
      assert calls == [calls[0]] + calls[1..];
    }
  }

  /** The tool node executes each new call once, in order, and appends its result under its id; human calls wait for the
      human node. */
  lemma NormalsFollow(env: Env, s: Side, v: Vals, log: Log)
    ensures var m := NormalsNode(env, s, v, log);
            && m.Moved? && |v.messages| <= |m.v.messages| && m.v.messages[..|v.messages|] == v.messages
            && Results(env, log, m.log, NewCalls(DoneIds(v.messages), NormalCalls(v.lastCalls)),
                  m.v.messages[|v.messages|..])
            && m.v.pending == HumanCalls(v.lastCalls)
            && m.next == (if HumanCalls(v.lastCalls) == [] then Reflecting else Human)
  {
    NormalsResults(env, StartWork(s, v, log), NormalCalls(v.lastCalls));
    hide RunNormals, Results, FileEntries, NormalCalls, HumanCalls;
  }

  lemma {:induction false} NewEntriesAre(prior: seq<ToolEntry>, entries: seq<ToolEntry>)
    ensures forall e :: e in NewEntries(prior, entries) <==> e in entries && !HasEntry(prior, e.id)
  {
    if entries != [] {
      NewEntriesAre(prior, entries[1..]);
      assert entries == [entries[0]] + entries[1..];
    }
  }

  /** Tool results are filed under the latest round, behind those already there, each id once; other rounds stay. */
  lemma EntriesAreFiled(s: Side, entries: seq<ToolEntry>)
    requires s.rounds != []
    ensures var rounds, last := FileEntries(s, entries).rounds, |s.rounds| - 1;
            && |rounds| == |s.rounds| && rounds[..last] == s.rounds[..last]
            && s.rounds[last].tools <= rounds[last].tools
            && rounds[last].(tools := []) == s.rounds[last].(tools := [])
            && (forall e :: e in rounds[last].tools <==>
                  e in s.rounds[last].tools || (e in entries && !HasEntry(s.rounds[last].tools, e.id)))
  {
    NewEntriesAre(s.rounds[|s.rounds| - 1].tools, entries);
    hide NewEntries, HasEntry;
  }

  /* ------------------------------------------------------------------ reflecting */

  /** The reflection as it came: an object, one in the content, or else a plain word to go on. */
  function RawReflectOf(reply: ReflectReply): RawReflect {
    match reply.reflect
    case Some(raw) => raw
    case None => if reply.fromContent.Some? then reply.fromContent.value else RawReflect("continue", None, None, None)
  }

  /** The named step is done, or the current one if none is named. */
  predicate MarksDone(v: Vals, named: Option<string>, plan: seq<PlanStep>) {
    var id := if named.Some? && named.value != "" then named.value else if v.current.Some? then v.current.value else "";
    if id == "" then plan == v.plan else SetTo(v.plan, plan, id, StepDone)
  }

  predicate GoesOn(v: Vals, after: Vals, next: Node) {
    after.plan == v.plan && after.current == v.current && after.stop == v.stop && next.Act?
  }

  /** What the words of a reflection do to the plan, and where they lead. */
  ghost predicate Obeys(raw: RawReflect, v: Vals, after: Vals, next: Node) {
    match raw.decision
    case "continue" => GoesOn(v, after, next)
    case "mark_step_done" =>
      && next.Act? && after.stop == v.stop
      && exists plan :: MarksDone(v, raw.stepId, plan) && Starts(plan, after.plan, after.current)
    case "revise_plan" =>
      && after.stop == v.stop
      && if raw.patch.Some? && ReadablePlan(raw.patch.value)
         then next.Act? && exists plan :: PlanReads(raw.patch.value, plan) && Starts(plan, after.plan, after.current)
         else next.Plan? && after.plan == v.plan && after.current == v.current
    case "finalize" => next.Finalize? && after.stop == Final && after.plan == v.plan && after.current == v.current
    case _ => GoesOn(v, after, next)
  }

  /** The reflection on record: its own decision, step and reason, or that it was invalid. */
  predicate Recorded(raw: RawReflect, meta: string, e: Event) {
    match raw.decision
    case "continue" => e == ReflectEvent(Continue, raw.stepId, raw.reason, Some(meta))
    case "mark_step_done" => e == ReflectEvent(MarkStepDone, raw.stepId, raw.reason, Some(meta))
    case "revise_plan" => e == ReflectEvent(RevisePlan, raw.stepId, raw.reason, Some(meta))
    case "finalize" => e == ReflectEvent(FinalizeNow, raw.stepId, raw.reason, Some(meta))
    case _ => e == ReflectEvent(Continue, None, Some("invalid_reflect"), Some(meta))
  }

  lemma ReflectionApplied(raw: RawReflect, v: Vals)
    ensures var r := NormalReflect(raw);
            var (plan, current, events, decision) := ApplyReflect(r, v);
            var stop := if r.decision.FinalizeNow? then Final else v.stop;
            var after := v.(plan := plan, current := current, stop := stop);
            Obeys(raw, v, after, if decision.FinalizeNow? then Finalize else if decision.RevisePlan? then Plan else Act)
  {
    var marked := NormalReflect(raw).stepId.GetOr("");
    var id := if marked != "" then marked else v.current.GetOr("");
    var done := if id == "" then v.plan else SetStatus(v.plan, id, StepDone);
    NextIsStarted(done);
    if raw.patch.Some? {
      PlanIsRead(raw.patch.value);
      if NormalPlan(raw.patch.value).Some? {
        NextIsStarted(NormalPlan(raw.patch.value).value);
      }
    }
    assert raw.decision == "mark_step_done" ==> MarksDone(v, raw.stepId, done);
    hide NormalPlan, StartNext, PlanReads, ReadablePlan, Starts, SetStatus, SetTo;
  }

  /** A reflection is obeyed to the letter. "mark_step_done" sets the named step, or the current one, to done and starts
      the first step then pending; "continue" and any word that is not known change nothing; "revise_plan" with a
      readable patch puts the patch in place and starts it, and without one asks for a new plan; "finalize" ends the
      loop. Nothing else changes. */
  lemma ReflectFollows(env: Env, s: Side, v: Vals, log: Log)
    requires !s.force && !v.stop.MaxRounds?
    ensures var m := ReflectNode(env, s, v, log);
            && m.log == log + [ReflectCall(v.messages, v.plan, v.current, v.memory)]
            && (m.Moved? <==> env.reflect(m.log).Some?)
            && (m.Moved? ==>
                  var reply := env.reflect(m.log).value;
                  && Obeys(RawReflectOf(reply), v, m.v, m.next)
                  && |s.events| < |m.v.side.events|
                  && Recorded(RawReflectOf(reply), reply.meta, m.v.side.events[|s.events|])
                  && m.v.messages == v.messages && m.v.memory == v.memory && m.v.round == v.round
                  && m.v.lastContent == v.lastContent)
  {
    var m := ReflectNode(env, s, v, log);
    if env.reflect(m.log).Some? {
      ReflectionApplied(RawReflectOf(env.reflect(m.log).value), v);
      ObeysPlan(RawReflectOf(env.reflect(m.log).value), v);
    }
    hide Obeys, ApplyReflect;
  }

  /** Only plan, current step and stop reason count. */
  lemma ObeysPlan(raw: RawReflect, v: Vals)
    ensures forall a, b: Vals, next ::
              Obeys(raw, v, a, next) && a.plan == b.plan && a.current == b.current && a.stop == b.stop ==>
                Obeys(raw, v, b, next)
  {
    hide Starts, MarksDone, PlanReads, ReadablePlan;
  }

  /** Out of rounds the model is not asked: the loop ends. */
  lemma ReflectStops(env: Env, s: Side, v: Vals, log: Log)
    requires s.force || v.stop.MaxRounds?
    ensures var m := ReflectNode(env, s, v, log);
            && m.Moved? && m.log == log && m.next.Finalize? && m.v.plan == v.plan
            && m.v.stop == (if v.stop.Unset? then MaxRounds else v.stop)
  {
  }

  /* ------------------------------------------------------------------ finishing */

  /** The text holds an object that can be aligned to a result. */
  predicate Yields(env: Env, content: Option<string>, result: string) {
    && content.Some? && env.extract(content.value).Some?
    && env.align(env.extract(content.value).value) == Some(result)
  }

  predicate Fruitless(env: Env, content: Option<string>) {
    content.None? || env.extract(content.value).None? || env.align(env.extract(content.value).value).None?
  }

  /** What is left to fall back on: the last sizing, then the baseline, then, for the analyst, an empty object. */
  predicate LastResort(env: Env, last: Option<string>, base: Baseline, candidate: Option<string>) {
    if last.Some? then candidate == last
    else match base
      case Sized(data) => candidate == Some(data)
      case Unsized(data) => candidate == Some(data)
      case EmptyObject => candidate == Some("{}")
      case NoBaseline => candidate == if env.analyst && env.hasAlign then Some("{}") else None
  }

  /** How finalizing ends: result and stop reason. */
  ghost predicate Finalizes(env: Env, base: Baseline, last: Option<string>, v: Vals, repaired: Option<string>,
        result: Option<string>, stop: Stop)
  {
    var kept := if v.stop.Unset? then Final else v.stop;
    if !Fruitless(env, v.lastContent) then result.Some? && Yields(env, v.lastContent, result.value) && stop == kept
    else if !Fruitless(env, repaired) then result.Some? && Yields(env, repaired, result.value) && stop == kept
    else
      forall candidate :: LastResort(env, last, base, candidate) ==>
        if candidate.Some? && env.align(candidate.value).Some? then
          && result == env.align(candidate.value)
          && stop == if last.Some? || base.Sized? || base.Unsized?
                     then (if kept.MaxRounds? then MaxRounds else Final) else MaxRounds
        else result.None? && stop.ErrorStop?
  }

  /** A result is handed over as built from it and the memory, if anything is. */
  predicate HandsOver(env: Env, memory: Memory, result: Option<string>, handoff: Option<string>) {
    if result.None? then handoff.None?
    else match env.handoff(result.value, memory)
      case Built(h) => handoff == Some(h)
      case _ => handoff.None?
  }

  /** The content of the one repair, if it was asked for and given. */
  function Repaired(env: Env, v: Vals, log: Log): Option<string> {
    var reply := env.repair(log + [RepairCall(v.messages, v.lastContent)]);
    if reply.Some? then reply.value.content else None
  }

  lemma FallbackIsLast(env: Env, last: Option<string>, base: Baseline)
    ensures forall candidate :: LastResort(env, last, base, candidate) <==> candidate == Fallback(env, last, base)
  {
  }

  lemma SettlesAs(env: Env, base: Baseline, s: Side, v: Vals, repaired: Option<string>)
    ensures var kept := if v.stop.Unset? then Final else v.stop;
            var first := TryAlign(env, Extract(env, v.lastContent));
            var second := if first.Some? then first else TryAlign(env, Extract(env, repaired));
            var (result, stop) := Settle(env, base, s, kept, second);
            Finalizes(env, base, s.last, v, repaired, result, if result.None? then ErrorStop else stop)
  {
    FallbackIsLast(env, s.last, base);
    hide Fallback, LastResort;
  }

  /** The result is what the last content yields, else what one repair of it yields, else what there is to fall back on;
      a result that rests on a sizing or a baseline counts as final, an empty one as out of rounds, and without any the
      run has failed. The repair is asked for exactly when the content is fruitless. */
  lemma FinalizeFollows(env: Env, base: Baseline, s: Side, v: Vals, log: Log)
    ensures var m := FinalizeNode(env, base, s, v, log);
            var repaired := if Fruitless(env, v.lastContent) then Repaired(env, v, log) else None;
            && m.log == (if Fruitless(env, v.lastContent) then log + [RepairCall(v.messages, v.lastContent)] else log)
            && (m.Moved? ==> m.next.End? && Finalizes(env, base, s.last, v, repaired, m.v.result, m.v.stop)
                             && m.v.messages == v.messages && m.v.plan == v.plan)
            && (m.Raised? ==> exists result, stop :: Finalizes(env, base, s.last, v, repaired, Some(result), stop)
                                                     && env.handoff(result, v.memory).BadHandoff?)
            && (m.Moved? ==> HandsOver(env, v.memory, m.v.result, m.v.handoff))
  {
    var repaired := if Fruitless(env, v.lastContent) then Repaired(env, v, log) else None;
    SettlesAs(env, base, s, v, repaired);
    var kept := if v.stop.Unset? then Final else v.stop;
    var first := TryAlign(env, Extract(env, v.lastContent));
    assert first.None? <==> Fruitless(env, v.lastContent);
    var (s1, second, log1) := if first.Some? then (s, first, log) else Repair(env, s, v, log);
    assert s1.last == s.last;
    assert second == if first.Some? then first else TryAlign(env, Extract(env, repaired));
    assert Settle(env, base, s1, kept, second) == Settle(env, base, s, kept, second);
    hide Settle, Finalizes, TryAlign, Extract, Fruitless;
  }

  /* ------------------------------------------------------------------ closing */

  /** How a run closes: with its result; else with a last sizing; else with what there is to fall back on. */
  ghost predicate ClosesWith(env: Env, base: Baseline, last: Option<string>, sized: Option<string>, v: Vals,
        result: Option<string>, stop: Stop)
  {
    var kept := if v.stop.Unset? then ErrorStop else v.stop;
    if v.result.Some? then result == v.result && stop == kept
    else if sized.Some? && env.align(sized.value).Some? then
      result == env.align(sized.value) && stop == if kept.MaxRounds? then MaxRounds else Final
    else
      forall candidate :: LastResort(env, if sized.Some? then sized else last, base, candidate) ==>
        if candidate.Some? && env.align(candidate.value).Some? then
          result == env.align(candidate.value) && stop == if kept.Final? then Final else MaxRounds
        else result.None?
  }

  /** Sizing is run once more exactly when it is required, nothing called it, and it is there. */
  predicate SizesOnceMore(env: Env, s: Side) {
    env.ensureSize && env.hasSizeTool && !s.called
  }

  function SizedOnceMore(env: Env, s: Side, log: Log): Option<string> {
    if SizesOnceMore(env, s) then env.sized(env.tool(log + [SizeRun]).result) else None
  }

  lemma ClosesAs(env: Env, base: Baseline, s: Side, v: Vals, log: Log)
    ensures var (s1, result, memory, stop, log1) := EnsureSize(env, s, v, log);
            var result1 := if result.Some? then result else TryAlign(env, Fallback(env, s1.last, base));
            var stop1 := if result.None? && result1.Some? && !stop.Final? && !stop.MaxRounds? then MaxRounds else stop;
            && ClosesWith(env, base, s.last, SizedOnceMore(env, s, log), v, result1, stop1)
            && s1.events == s.events && s1.usage == s.usage
            && log1 == if SizesOnceMore(env, s) then log + [SizeRun] else log
  {
    var s1 := EnsureSize(env, s, v, log).0;
    FallbackIsLast(env, s1.last, base);
    hide Fallback, LastResort;
  }

  /** The run ends in the envelope of that result, if there is one and it is valid, and in an error otherwise. */
  lemma CloseFollows(env: Env, base: Baseline, local: Side, v: Vals, log: Log)
    ensures var s := Merge(env, local, v);
            var o := PostPhase(env, base, local, v, log);
            var sized := SizedOnceMore(env, s, log);
            && o.log == (if SizesOnceMore(env, s) then log + [SizeRun] else log)
            && (o.Done? ==>
                  var e := o.envelope;
                  && ClosesWith(env, base, s.last, sized, v, Some(e.result), e.stop) && env.valid(e)
                  && e.messages == v.messages && e.plan == v.plan && e.handoff == v.handoff
                  && e.events == s.events && e.usage == s.usage)
            && (o.Crashed? ==>
                  || (exists stop :: ClosesWith(env, base, s.last, sized, v, None, stop))
                  || (exists e: Envelope ::
                        ClosesWith(env, base, s.last, sized, v, Some(e.result), e.stop) && !env.valid(e)))
  {
    var s := Merge(env, local, v);
    ClosesAs(env, base, s, v, log);
    var (s1, result, memory, stop, log1) := EnsureSize(env, s, v, log);
    hide Merge, ClosesWith, EnsureSize, Fallback, TryAlign, SizesOnceMore, SizedOnceMore;
    var result1 := if result.Some? then result else TryAlign(env, Fallback(env, s1.last, base));
    if result1.Some? {
      var stop1 := if result.None? && !stop.Final? && !stop.MaxRounds? then MaxRounds else stop;
      var e := Envelope(result1.value, stop1, v.handoff, memory, v.plan, v.messages, s1.events, s1.rounds, s1.usage);
      assert ClosesWith(env, base, s.last, SizedOnceMore(env, s, log), v, Some(e.result), e.stop);
    }
  }
}
