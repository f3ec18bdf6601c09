/** Plan steps, reflect decisions and working memory (services/agents/runtime/app/graphs/plan_types.py). */
module PlanTypes {
  import opened Common

  datatype StepStatus = Pending | InProgress | StepDone | Skipped

  datatype PlanStep = PlanStep(id: string, title: string, status: StepStatus, hint: Option<string>)

  /** One item of a raw plan; an absent title or id reads as "". */
  datatype RawStep = NotObject | RawStep(title: string, id: string, status: Option<string>, hint: Option<string>)

  datatype RawPlan = NotList | Items(items: seq<RawStep>)

  datatype Decision = Continue | MarkStepDone | RevisePlan | FinalizeNow

  /** A raw reflect object; a missing decision reads as "". */
  datatype RawReflect = RawReflect(decision: string, stepId: Option<string>, reason: Option<string>,
        patch: Option<RawPlan>)

  datatype Reflect = Reflect(decision: Decision, stepId: Option<string>, reason: Option<string>, patch: Option<RawPlan>)

  datatype Memory = Memory(notes: seq<string>, refs: seq<string>, questions: seq<string>)

  const EMPTY_MEMORY := Memory([], [], [])

  function AppendRef(m: Memory, ref: string): Memory {
    m.(refs := m.refs + [ref])
  }

  /* ------------------------------------------------------------------ normalising a plan */

  function Digit(d: nat): char
    requires d < 10
  {
    "0123456789"[d]
  }

  function Decimal(n: nat): string {
    if n < 10 then [Digit(n)] else Decimal(n / 10) + [Digit(n % 10)]
  }

  function ReadStatus(status: Option<string>): Option<StepStatus> {
    if status.None? then Some(Pending)
    else if status.value == "pending" then Some(Pending)
    else if status.value == "in_progress" then Some(InProgress)
    else if status.value == "done" then Some(StepDone)
    else if status.value == "skipped" then Some(Skipped)
    else None
  }

  predicate ValidItem(item: RawStep) {
    item.RawStep? && item.title != "" && ReadStatus(item.status).Some?
  }

  predicate ValidPlan(raw: RawPlan) {
    raw.Items? && forall i :: 0 <= i < |raw.items| ==> ValidItem(raw.items[i])
  }

  function StepOf(item: RawStep, index: nat): PlanStep
    requires ValidItem(item)
  {
    PlanStep(if item.id == "" then "s" + Decimal(index + 1) else item.id,
             item.title, ReadStatus(item.status).value, item.hint)
  }

  /** The normalised plan; None stands for the ValueError. */
  function NormalPlan(raw: RawPlan): Option<seq<PlanStep>> {
    if ValidPlan(raw) then Some(seq(|raw.items|, i requires 0 <= i < |raw.items| => StepOf(raw.items[i], i))) else None
  }

  method NormalizePlanSteps(raw: RawPlan) returns (plan: Option<seq<PlanStep>>)
    ensures plan == NormalPlan(raw)
  {
    if raw.NotList? {
      return None;
    }
    var steps: seq<PlanStep> := [];
    for i := 0 to |raw.items|
      invariant |steps| == i
      invariant forall k :: 0 <= k < i ==> ValidItem(raw.items[k]) && steps[k] == StepOf(raw.items[k], k)
    {
      var item := raw.items[i];
      if item.NotObject? || item.title == "" || ReadStatus(item.status).None? {
        return None;
      }
      var id := if item.id == "" then "s" + Decimal(i + 1) else item.id;
      steps := steps + [PlanStep(id, item.title, ReadStatus(item.status).value, item.hint)];
    }
    assert steps == NormalPlan(raw).value;
    plan := Some(steps);
  }

  lemma {:induction false} DecimalInjective(m: nat, n: nat)
    requires Decimal(m) == Decimal(n)
    ensures m == n
  {
    DecimalLength(m);
    DecimalLength(n);
    if m >= 10 && n >= 10 {
      var a, b := Decimal(m / 10), Decimal(n / 10);
      assert (a + [Digit(m % 10)])[..|a|] == a && (b + [Digit(n % 10)])[..|b|] == b;
      assert (a + [Digit(m % 10)])[|a|] == (b + [Digit(n % 10)])[|b|];
      DecimalInjective(m / 10, n / 10);
    }
  }

  lemma {:induction false} DecimalLength(n: nat)
    ensures |Decimal(n)| >= 1 && (|Decimal(n)| == 1 <==> n < 10)
  {
    if n >= 10 {
      DecimalLength(n / 10);
    }
  }

  /** Steps without an id get distinct ones, so no two steps of such a plan are ever marked together. */
  lemma DefaultIdsDistinct(raw: RawPlan, i: nat, j: nat)
    requires ValidPlan(raw) && i < j < |raw.items| && raw.items[i].id == "" && raw.items[j].id == ""
    ensures NormalPlan(raw).value[i].id != NormalPlan(raw).value[j].id
  {
    if "s" + Decimal(i + 1) == "s" + Decimal(j + 1) {
      assert ("s" + Decimal(i + 1))[1..] == Decimal(i + 1) && ("s" + Decimal(j + 1))[1..] == Decimal(j + 1);
      DecimalInjective(i + 1, j + 1);
    }
  }

  /* ------------------------------------------------------------------ normalising a reflect reply */

  function ReadDecision(text: string): Option<Decision> {
    if text == "continue" then Some(Continue)
    else if text == "mark_step_done" then Some(MarkStepDone)
    else if text == "revise_plan" then Some(RevisePlan)
    else if text == "finalize" then Some(FinalizeNow)
    else None
  }

  /** An unreadable decision means to go on. */
  function NormalReflect(raw: RawReflect): Reflect {
    var d := ReadDecision(raw.decision);
    if d.None? then Reflect(Continue, None, Some("invalid_reflect"), None)
    else Reflect(d.value, raw.stepId, raw.reason, raw.patch)
  }

  /* ------------------------------------------------------------------ step status */

  function FirstPending(plan: seq<PlanStep>): Option<string> {
    if plan == [] then None
    else if plan[0].status.Pending? then Some(plan[0].id)
    else FirstPending(plan[1..])
  }

  /** Every step with the id takes the status. */
  function SetStatus(plan: seq<PlanStep>, id: string, status: StepStatus): seq<PlanStep> {
    seq(|plan|, i requires 0 <= i < |plan| => if plan[i].id == id then plan[i].(status := status) else plan[i])
  }

  /** The plan with its first pending step started, and that step's id. */
  function StartNext(plan: seq<PlanStep>): (seq<PlanStep>, Option<string>) {
    var id := FirstPending(plan);
    if id.None? || id.value == "" then (plan, None) else (SetStatus(plan, id.value, InProgress), id)
  }

  predicate DistinctIds(plan: seq<PlanStep>) {
    forall i, j :: 0 <= i < j < |plan| ==> plan[i].id != plan[j].id
  }

  lemma {:induction false} FirstPendingAt(plan: seq<PlanStep>) returns (k: nat)
    requires FirstPending(plan).Some?
    ensures k < |plan| && plan[k].status.Pending? && FirstPending(plan) == Some(plan[k].id)
    ensures forall i :: 0 <= i < k ==> !plan[i].status.Pending?
  {
    if plan[0].status.Pending? {
      k := 0;
    } else {
      var j := FirstPendingAt(plan[1..]);
      k := j + 1;
      forall i | 0 <= i < k ensures !plan[i].status.Pending? {
        if i > 0 {
          assert plan[i] == plan[1..][i - 1];
        }
      }
    }
  }

  /** With distinct ids, starting the next step changes exactly one step: the first pending one. */
  lemma StartNextMovesOne(plan: seq<PlanStep>)
    requires DistinctIds(plan) && StartNext(plan).1.Some?
    ensures exists k :: 0 <= k < |plan| && plan[k].status.Pending? && StartNext(plan).1 == Some(plan[k].id)
                     && StartNext(plan).0 == plan[k := plan[k].(status := InProgress)]
                     && forall i :: 0 <= i < k ==> !plan[i].status.Pending?
  {
    var k := FirstPendingAt(plan);
    assert StartNext(plan).0 == plan[k := plan[k].(status := InProgress)];
  }
}
