# Verified models of a trading workflow

A Dafny 4.11 project that models the parts of the stock-agents repository whose correctness is hardest to see, and
proves what they keep. `dafny verify dfyconfig.toml` checks all of it.

| files | component |
|---|---|
| `Workflow`, `Marks`, `Modes`, `Interleaving`, `History`, `Authorised`, `Lifecycles`, `Collisions` | runs, proposals, approvals and order mirrors: the steps of every call, and what holds however calls are interleaved |
| `Chain`, `Serial*`, `WorkflowSteps`, `Orders`, `Handling`, `Decisions`, `WorkflowService`, `WorkflowLimits` | the same for calls one after the other: the runner, order submission and the approvals service as code, and what they do not promise |
| `PlanTypes`, `PlanLoop`, `PlanMeaning`, `PlanPause`, `PlanBounds`, `PlanProcess` | the plan, act, reflect loop of an agent, with its pauses for human input |
| `Sums`, `Risk`, `Gate`, `RiskRun` | the rule engine, what the proposal loop does with it, and the limits over a whole run |
| `Ledger` | the local ledger |
| `Lock` | the run lock |
| `Sse`, `Hub`, `Cache`, `Sizing` | the event stream's writer and parser, the quote throttle and fan-out, the broker cache, position sizing |
| `Common` | `Option` and `Result` |

## How the models are built

**Workflow.** The tables are sequences of rows. A call in progress is a `Proc`, and `Step` performs its next database
write or its next question to an agent or the broker. Concurrency is any schedule of such steps by any number of calls
(`Interleaving`), so `Decide` is split where its transaction ends and `ResumeAgent` before its agent is asked; a serial
call is all its steps in a row (`RunToEnd`). The tables also keep what the database forgets: the broker's log, and for
each insertion of proposals its run, its clock and the mode it worked in (`Batch`). Agents, broker, clock-dependent reads
and the strategy table are functions of a clock that advances at every question, so they answer as they like.
`WorkflowService.Service` is the imperative form: its methods write the tables in place, with the loops of the source,
and leave exactly the tables that `RunToEnd` defines; that equality is what carries the invariants over to them
(`Orderly`).

**Plan loop.** A thread is a checkpoint: the values at the last node return and the next node. The model client, the
tools and the human are functions of everything that was asked so far, so two runs that agree on the record of external
calls were given the same prompts. Every process is given a baseline and a user message (`Given`); a resuming one has no
baseline and a message of its own. `PlanProcess.Process` is the imperative form, one method for each node; `RunAgent`
ends the process at every question and resumes in a new one.

**Methods, functions, meanings.** A method is proved equal to a function, and what the function means is then proved apart
from it: what an order was judged at (`Marks`), which mode applies (`Modes`), how an order ends (`Orders`), what becomes of
one proposal (`Handling`), what a decision does (`Decisions`), what a node does with a reply (`PlanMeaning`).

**The rest.** Each stateful component is a class whose methods equal a function on the component's value; the laws are
lemmas about any sequence of calls.

## Results worth knowing before reading the table

- Pausing the plan loop is transparent, for every outside world and every choice of pauses, exactly when the run was
  started with no baseline or with one that has a "proposals" key, and its resumed processes are given the same user
  message (`TransparentIff`). One run with such a baseline is transparent exactly when the messages are equal or it does
  not plan again after its first pause (`RunIsTransparentIff`). The analyst has no baseline, and its message depends on
  the request alone, which a resume takes from the checkpoint; it meets the condition. The portfolio agent's baseline has
  the key, but its message names the baseline's proposals on the first call and none on a resume
  (services/agents/runtime/app/graphs/portfolio.py:191, 223): it meets the condition only if its baseline proposes nothing
  or it does not plan again after a pause.
- Order lifecycles are one-way in every interleaving in which no cancellation of a run overlaps a decision on it and no two
  calls work on the proposals of one run at once (`OneWayWithoutOverlap`); it is enough that no two calls collide on a
  proposal (`OneWayUnlessCollision`). Three schedules show what happens otherwise: a cancelled proposal is submitted
  (`CancelledProposalIsSubmitted`), a filled one is cancelled (`FilledProposalIsCancelled`), and, once the run lock has
  lapsed, a proposal withdrawn by one resume is submitted by another (`BothResumesGoOn`, `OrphanIsSubmitted`). Approvals
  leave `pending` at most once, at most one order is sent for each proposal, and every order is authorised, in every
  interleaving.
- The gate is exact for orders a broker can fill: it lets them through exactly when their notional is small enough and
  filling them at the mark keeps the limits (`SubmitIff`). But it never looks at the sign of a quantity and applies the
  single-name rule to buys only; `SafeToSubmitIff` says for which orders passing the gate means being safe, and
  `NegativeSaleEscapesWeightRule` gives one that it does not. The whole-run risk theorem therefore takes a broker that
  fills no order for a non-positive quantity and sells no more than is held.
- A run that fails before any fill keeps its pending approvals, and deciding one takes it out of `failed` exactly when the
  decision goes through (`DecidingRevivesIff`). A run that ends well leaves a proposal `pending_auto` exactly when
  `bypass_risk` passed over its quantity (`PendingAutoIff`). Table coherence is stated accordingly.
- `ResumeAgent` resolves the execution mode from the strategy alone, so after a pause orders are judged in the mode the run
  was started with exactly when that mode was not given explicitly or is the strategy's anyway (`PauseKeepsModeIff`).
- The lock excludes as long as everybody inside is within its time to live; one overrun is enough to let two others in
  together although both are on time (`LateReleaseFreesAnother`).
- An event comes back as it was sent exactly when its payload has no newline, no leading white space and no trailing
  carriage return (`MessageReadsBackIff`).

## Model

| member | source | states |
|---|---|---|
| Interleaving.SubmittedAtMostOnce | services/api/internal/approvals/service.go:53-126 | From any sound state and for any schedule of runs, resumes, decisions and cancellations, write by write, the broker sees at most one order for each proposal. |
| Interleaving.AtMostOnceFromStart | services/api/internal/workflow/submit.go:24-46 | The same from an empty database. |
| Interleaving.StepEffect | services/api/internal/workflow/runner.go:588-704 | One write hands the right to submit a proposal on at most once: to the loop that inserted it, to its approval, to the decision that flips the approval; sending an order uses it up. |
| Authorised.EveryOrderAuthorised | services/api/internal/workflow/runner.go:588-671 | In any interleaving every order in the broker's log was approved by a person, or was sent by the loop that inserted its proposal: it passed the rule engine on quantity times mark, or ran under `bypass_risk` with a positive quantity. The mode is the run's; the watchlist is the one read at that insertion; each mark is the broker's at that moment or, without one, the price at which the first priced proposal of the symbol comes to its own estimate; and the portfolio was read after the loop's last accepted order, at the insertion if there was none. Every buy, approved ones too, was holdable in the watchlist read when its proposal was inserted. |
| Authorised.AuthorisedFromStart | services/api/internal/approvals/service.go:83-110 | The same for every schedule from an empty database. |
| Authorised.BypassWasAskedFor | services/api/internal/workflow/runner.go:124-138 | An order sent under `bypass_risk` comes from a run that was given that mode explicitly, or whose strategy had it as its own when the run was started or, after a pause, resumed. |
| Authorised.PauseKeepsModeIff | services/api/internal/workflow/runner.go:124-138 | An explicit mode is forgotten on a resume: an order of a resumed run is judged in the mode the run was started with exactly when no explicit mode was given or it is what the strategy says. |
| Modes.ResolvesIff | services/api/internal/workflow/runner.go:124-138 | The mode is the explicit one; without one the strategy's own; with no strategy or none of its own `require_approval`; and an error exactly when the strategy is needed and cannot be loaded. |
| Modes.StartedRunMode | services/api/internal/workflow/runner.go:99-122 | A run that is started has the mode it is given and inserts every proposal in it; one whose strategy cannot be loaded is not started. |
| Modes.ResumedRunMode | services/api/internal/workflow/runner.go:299-303 | A resumed run inserts every proposal in the mode its strategy says at that moment; one whose strategy cannot be loaded writes nothing. |
| Marks.MarksAreCompleted | services/api/internal/workflow/runner.go:565-575 | A symbol with a broker price has that mark; without one, mark times quantity is the estimate of the first proposal of the symbol whose quantity and estimate are positive; other symbols have none. |
| Marks.MarksAreUnique | services/api/internal/workflow/runner.go:565-575 | That leaves only one way to mark a symbol. |
| History.StepExtends | services/api/internal/workflow/runner.go:526-710 | No step of any call rewrites what a proposal asks for, whose it is, what an approval is about or an entry of the broker's log, or reopens an approval. |
| Lifecycles.ApprovalsLeavePendingOnce | services/api/internal/approvals/service.go:61-107 | In every interleaving, with no condition, an approval leaves `pending` at most once and stays about its proposal. |
| Lifecycles.OneWayUnlessCollision | services/api/internal/approvals/service.go:53-181 | In every interleaving in which no call withdraws a proposal that another is deciding on, or gives up on a run whose proposals another is going through, statuses of proposals and approvals only move forward. |
| Lifecycles.OneWayWithoutOverlap | services/api/internal/approvals/service.go:137-181 | From an empty database statuses only move forward, between any two moments, if no cancellation of a run overlaps a decision on it and no two calls work on the proposals of one run at once. |
| Collisions.CancelledProposalIsSubmitted | services/api/internal/approvals/service.go:109-126 | A cancellation between the two halves of `Decide` withdraws the proposal, which is submitted all the same. |
| Collisions.FilledProposalIsCancelled | services/api/internal/approvals/service.go:137-181 | A decision that runs between a cancellation's read and its write has its order filled, and the cancellation turns the proposal from filled to cancelled. |
| Collisions.BothResumesGoOn | services/api/internal/workflow/runner.go:281-310 | Two resumes of one paused run both get past the checks, since neither writes before its agent has answered. |
| Collisions.OrphanIsSubmitted | services/api/internal/workflow/runner.go:203-208 | A run that gives up after a fill withdraws proposals of another call on the same run; one whose order is out goes from cancelled to submitted. |
| SerialCalls.CallKeepsCoherence | services/api/internal/workflow/runner.go:140-160 | Each of the four calls, on every branch and whatever agents and broker answer, leaves coherent tables coherent. |
| SerialCalls.CallsKeepCoherence | services/api/internal/approvals/service.go:41-181 | Any serial calls take coherent tables to coherent tables; the next four rows spell out what that means from an empty database. |
| SerialCalls.PendingIffAwaiting | services/api/internal/approvals/service.go:53-107 | After any serial calls on an empty database an approval is pending exactly when its proposal awaits approval, and every such proposal has one. |
| SerialCalls.RunStatusesHold | services/api/internal/approvals/service.go:227-248 | After any serial calls on an empty database no run is in `created` or at an agent, one that awaits approval has a proposal that does, and one that is executed or cancelled has none. |
| SerialCalls.OneMirrorPerAcceptedOrder | services/api/internal/workflow/submit.go:48-140 | After any serial calls on an empty database a proposal has exactly one mirror if the broker accepted its order and none otherwise, and mirror and proposal status agree. |
| SerialCalls.PausedRunHasOneInterruption | services/api/internal/workflow/runner.go:436-444 | After any serial calls on an empty database a run awaiting agent input has the rows of the first agents in order, all ok but the last, which is interrupted, no later row and no proposals. |
| SerialCalls.LifecyclesAreOneWay | services/api/internal/workflow/submit.go:66-140 | Over serial calls proposals move only pending, awaiting, submitted, then filled or rejected (rejected or cancelled also before submission), and an approval leaves pending at most once. |
| SerialCalls.ResumeRebuildsRun | services/api/internal/workflow/runner.go:332-349 | When a run reaches its proposals after any history of pauses, its outputs are those an uninterrupted chain collects from the same replies. |
| Chain.RowsRebuildChain | services/api/internal/workflow/runner.go:486-505 | For a chain of any length, folding the persisted ok rows gives the outputs the uninterrupted chain builds in memory. |
| Chain.OnlyInterrupted | services/api/internal/workflow/runner.go:289-298 | In a paused run the only agent with an interrupted row is the one the run waits for. |
| Chain.UpdatePausedRow | services/api/internal/workflow/runner.go:893-907 | Updating by run and step name changes the paused agent's row and no other. |
| Chain.RestAfterAt | services/api/internal/workflow/runner.go:516-524 | With distinct names the chain after an agent is exactly what follows it. |
| SerialProposals.StepMid | services/api/internal/workflow/runner.go:526-710 | Every single write of every call keeps the tables coherent up to what that call has half done. |
| Workflow.StepProgress | services/api/internal/workflow/submit.go:70-88 | Every step brings a call closer to its end, so each call terminates whatever the outside world answers; the deadline of an order is counted in waits, of which 15 seconds hold sixty. |
| WorkflowLimits.DecidingRevivesIff | services/api/internal/approvals/service.go:53-134 | Deciding an approval of a failed run, either way, takes the run out of `failed` exactly when the approval is pending, its proposal awaits it and, to approve, there is a broker whose account can be read. |
| WorkflowLimits.PendingAutoIff | services/api/internal/workflow/runner.go:590-710 | For any loop: when its run ends executed or awaiting approval, a proposal of the loop is `pending_auto` exactly when the mode is `bypass_risk`, its quantity is not positive, and it got past the watchlist and mark checks. |
| WorkflowService.CallIsOrderly | services/api/internal/workflow/runner.go:99-160 | What the four entry points inherit: coherence is kept and statuses only move forward. |
| WorkflowService.Service.RunWorkflow | services/api/internal/workflow/runner.go:99-160 | With the lock taken nothing changes. Otherwise the tables after a run are those its steps lead to: a new run in the mode it was given, whose proposals are all inserted in that mode; or nothing, if the strategy cannot be loaded. The lock is released, coherence and one-way statuses are kept. |
| WorkflowService.Service.ResumeAgent | services/api/internal/workflow/runner.go:270-396 | The same for resuming, under the lock and in the mode the strategy says: refused for a run that is not paused at that agent, failed on a failed call, paused again on another interrupt, otherwise continued. |
| WorkflowService.Service.GoOn | services/api/internal/workflow/runner.go:332-396 | Outputs are rebuilt from the ok rows and the rest of the chain is walked. |
| WorkflowService.Service.Decide | services/api/internal/approvals/service.go:41-135 | The same for a decision, both branches, with every refusal leaving the tables as they were. |
| WorkflowService.Service.CancelRun | services/api/internal/approvals/service.go:137-181 | The same for a cancellation, refused unless the run awaits approval. |
| WorkflowService.Service.RefreshRunStatus | services/api/internal/approvals/service.go:227-248 | The run awaits approval while some approval is pending or some proposal awaits one, else it is executed. |
| WorkflowService.Service.SubmitProposal | services/api/internal/workflow/submit.go:24-89 | One order is sent; a refused one leaves no mirror. For one that is taken every reply of the broker but the last is still open, and the last decides: "filled" fills proposal and mirror at the broker's price and quantity, "canceled", "cancelled", "rejected" and "expired" reject and close them, anything else leaves them submitted. |
| WorkflowService.Service.PollOrder | services/api/internal/workflow/submit.go:70-88 | Polling ends with the first reply that is one of the five final words, at the deadline, or with an error, and that reply decides proposal and mirror. |
| Orders.AcceptedOrderEnds | services/api/internal/workflow/submit.go:48-102 | The same for the steps of a submission, whoever sends it and whatever the broker answers. |
| Orders.FirstWordDecides | services/api/internal/workflow/submit.go:91-140 | When the first reply on an approved order is final, proposal and mirror end as it says: filled with price, quantity and notional, or closed under the normalised reason. |
| Orders.LeftSubmitted | services/api/internal/workflow/submit.go:77-83 | A proposal left submitted was never reported with one of the five final words. |
| WorkflowService.Service.ApplyBrokerTerminal | services/api/internal/workflow/submit.go:104-140 | The mirror takes the broker's state, fill price, quantity and notional; the proposal becomes filled or rejected. |
| WorkflowService.Service.HandleProposal | services/api/internal/workflow/runner.go:590-704 | One iteration: rejected, queued for approval, skipped, submitted, or the loop gives up. |
| Handling.UnheldIsRejected | services/api/internal/workflow/runner.go:592-600 | A buy of a symbol that is not to be held is rejected as not holdable in every mode. |
| Handling.UnmarkedEndsRun | services/api/internal/workflow/runner.go:601-612 | A proposal without a positive mark makes the run give up. |
| Handling.BreachIsHandled | services/api/internal/workflow/runner.go:616-662 | An order that breaks a rule is not sent: under `auto_reject` its proposal is rejected, else it is put before a person, for the reasons the engine gives. |
| Handling.SoundIsSent | services/api/internal/workflow/runner.go:663-675 | An order that breaks no rule, or is exempt with a positive quantity, is sent. |
| WorkflowService.Service.FinishProposals | services/api/internal/workflow/runner.go:526-710 | Proposals are inserted, marks completed by estimates, every proposal handled in order, and the run's status set. |
| WorkflowService.Service.ReadPortfolioResult | services/api/internal/workflow/runner.go:712-738 | The portfolio result is accepted exactly when it parses and every proposal has a symbol and a side of buy or sell. |
| WorkflowService.Service.EstimateMarks | services/api/internal/workflow/runner.go:565-575 | The loop leaves those marks. |
| WorkflowService.Service.GiveUp | services/api/internal/workflow/runner.go:203-239 | The loops leave what giving up leads to. |
| Decisions.GivingUp | services/api/internal/workflow/runner.go:203-239 | Without a fill the run has failed and its proposals stay; after one, every proposal nobody judged is cancelled and the run awaits approval if anything is still open, else it has failed. |
| Decisions.DeclinedIsClosed | services/api/internal/approvals/service.go:98-107 | Declining rejects the proposal, closes its approval, sends nothing and touches no other row of theirs. |
| Decisions.ApprovedEnds | services/api/internal/approvals/service.go:83-134 | Approving sends exactly one order, for this proposal, and the broker's last reply decides how it ends; no other proposal, approval or mirror is touched. |
| Decisions.RefusedEnds | services/api/internal/approvals/service.go:109-126 | When the broker refuses that order the proposal is rejected for that reason and there is no mirror. |
| Decisions.CancelledIff | services/api/internal/approvals/service.go:137-153 | A run is cancelled exactly when it awaits approval and the broker has prices or some proposal of it carries its own. |
| Decisions.CancelWithdraws | services/api/internal/approvals/service.go:154-181 | A cancellation withdraws the run's proposals that await approval, revokes their open approvals, changes nothing else of theirs and sends nothing. |
| WorkflowService.Service.RunAgentChain | services/api/internal/workflow/runner.go:398-452 | The agents are called in order until one interrupts or fails; rows and outputs follow. |
| WorkflowService.Service.ApplyEnvelopeToPrior | services/api/internal/workflow/runner.go:458-484 | Succeeds exactly when the result is readable and, for the analyst, neither handoff nor memory is garbled; then the agent's key holds its result, a given handoff and memory are under their keys, and every other output is as it was. |
| WorkflowService.Service.LoadPriorFromOkSteps | services/api/internal/workflow/runner.go:486-505 | The outputs are the fold of the run's ok rows, oldest first; one unreadable row is an error. |
| RiskRun.RunStaysWithinLimits | services/api/internal/workflow/runner.go:588-709 | Outside `bypass_risk`, if cash ratio, single-name weights and (when that rule is on) concentration are within limits when the proposal loop starts, they are after each order the run sends, whatever the proposals, whichever orders are refused, end unfilled or are filled in full or in part, and however the run ends. |
| RiskRun.MirroredRunStaysWithinLimits | services/api/internal/workflow/submit.go:104-140 | The same with the fills that the run's own mirrors record. |
| RiskRun.SentOrderIsSafe | services/api/internal/workflow/runner.go:616-675 | An order the gate lets through keeps the limits, however much of it the broker fills. |
| Gate.SubmitIff | services/api/internal/workflow/runner.go:590-671 | The verdict is exact: outside `bypass_risk` and from holdings within limits, a holdable order that a broker can fill is submitted exactly when its notional is within the order limit and filling it at the mark leaves cash ratio, weights and concentration within theirs. |
| Gate.PassesIff | services/api/internal/risk/evaluate.go:3-95 | For any quantity: the four rules pass exactly when the notional fits and, in the holdings after the fill, cash has not fallen below its ratio, a bought symbol not outgrown its limit and no position outgrown the concentration limit. |
| Gate.SafeToSubmitIff | services/api/internal/risk/evaluate.go:20-36 | For given holdings, every engine that passes an order stays within its limits when it is filled exactly when the order sells no more than is held and, for a sale of a negative quantity, some held position weighs at least what the symbol would. |
| Gate.SameVerdict | services/api/internal/risk/evaluate.go:39-85 | Rows of flat positions, listed or dropped, make no difference to the verdict. |
| Gate.BuyKeepsLimits | services/api/internal/risk/evaluate.go:3-37 | A buy that passes the gate keeps every limit when it is filled at the mark, in full or in part. |
| Gate.SaleKeepsLimits | services/api/internal/risk/evaluate.go:39-51 | A sale of at most what is held, filled at the mark, keeps every limit. |
| Gate.NegativeSaleEscapesWeightRule | services/api/internal/risk/evaluate.go:20-28 | A sale of a negative quantity passes the gate and, filled, breaks the single-name limit. |
| Risk.GateDownwardClosed | services/api/internal/risk/evaluate.go:3-95 | If a buy executes by itself, so does every smaller positive buy of that symbol in the same state, with the concentration rule on or off. |
| Risk.PostEquityIgnoresQuantity | services/api/internal/risk/evaluate.go:65-74 | Equity after a trade at the fill price does not depend on its quantity. |
| Risk.TradeIsValueNeutral | services/api/internal/risk/evaluate.go:39-74 | Paying for a change of position at the fill price leaves equity where it was. |
| Risk.SmallerBuyWeighsLess | services/api/internal/risk/evaluate.go:76-85 | A smaller buy leaves no symbol with a larger weight. |
| Risk.BreachesAreNamed | services/api/internal/risk/evaluate.go:3-37 | Each of the four names is reported exactly when its own inequality is broken, once, and no other name is; an order executes by itself exactly when none is. |
| Risk.EvaluateOrder | services/api/internal/risk/evaluate.go:3-37 | The loops of the source compute that decision, with the names in rule order. |
| Risk.SimulatePostTrade | services/api/internal/risk/evaluate.go:39-51 | Positions and cash after the trade; an unknown side moves no position. |
| Risk.PostTradeEquity | services/api/internal/risk/evaluate.go:65-74 | The accumulator loop yields cash plus the sum of marked positions in whatever order they are visited. |
| Risk.PositionWeights | services/api/internal/risk/evaluate.go:76-85 | Every non-flat position's share of equity, and no other entry. |
| Risk.TopWeight | services/api/internal/risk/evaluate.go:87-95 | The largest weight, or zero when none is positive. |
| PlanPause.PausingIsTransparent | services/agents/runtime/app/graphs/plan_loop.py:684-778 | From any checkpoint, with a baseline that is absent or already sized: a run that pauses anywhere ends with the result, messages, plan, memory, events, rounds, token totals and external calls of the run answered on the spot exactly when later processes send the same user message or the run does not plan again once it has paused. |
| PlanPause.RunIsTransparentIff | services/agents/runtime/app/graphs/plan_loop.py:457-492 | The same for a whole run. |
| PlanPause.TransparentIff | services/agents/runtime/app/graphs/plan_loop.py:330-448 | For whole runs it holds for every outside world and every choice of pauses exactly when the baseline is absent or has "proposals" and the resumed message is the first one. |
| PlanPause.AlwaysReplans | services/agents/runtime/app/graphs/plan_loop.py:780-867 | An agent that asks one question and then revises its plan plans again after its pause, whatever it was given. |
| PlanPause.PausingLosesBaseline | services/agents/runtime/app/graphs/plan_loop.py:442-448 | With any other baseline one agent returns a result when answered on the spot and none when paused. |
| PlanPause.ReplayIsNow | services/agents/runtime/app/graphs/plan_loop.py:723-763 | A batch of human calls that interrupts and is replayed with the reply does the work that asking on the spot does. |
| PlanPause.ResumedSideIsSame | services/agents/runtime/app/graphs/plan_loop.py:383-415 | A fresh side channel that merges a checkpoint twice is the one that wrote it, merged once. |
| PlanBounds.RunIsBounded | services/agents/runtime/app/graphs/plan_loop.py:494-505 | With a budget of R rounds a run makes at most R act, R reflect and R + 1 plan calls and one repair call, 3R + 2 in all, asks the human at most R times, and runs no tool call id twice, pauses included. |
| PlanBounds.TotalsAreExact | services/agents/runtime/app/graphs/plan_loop.py:233-237 | The token totals of the envelope are the sum of what the model calls on record cost, none lost or counted twice, wherever the run paused. |
| PlanBounds.AnsweredBeforeReflecting | services/agents/runtime/app/graphs/plan_loop.py:591-778 | Whenever a reflection starts, wherever the run has paused before, every call of every assistant message has a tool message with its id. |
| PlanBounds.NormalsRunOnce | services/agents/runtime/app/graphs/plan_loop.py:648-664 | A batch runs no id that already has a tool message, and afterwards all its calls have one. |
| PlanBounds.AskingTally | services/agents/runtime/app/graphs/plan_loop.py:745-756 | A batch of human calls asks at most one question. |
| PlanBounds.PausingNodeSame | services/agents/runtime/app/graphs/plan_loop.py:1046-1063 | Pausing at a node does not change what the node does. |
| PlanLoop.NodeProgress | services/agents/runtime/app/graphs/plan_loop.py:961-1007 | Every node uses up a round or moves on within one; the measure is read from the checkpoint, so it survives a resume. |
| PlanProcess.RunAgent | services/agents/runtime/app/graphs/plan_loop.py:330-1136 | A run that ends its process at every question and resumes in a new one; for a baseline that is absent or sized it has the outcome of a single process exactly when resumed ones send the same message or it does not plan again after its first question. |
| PlanProcess.AskAndResume | services/agents/runtime/app/graphs/plan_loop.py:1046-1063 | Interrupting, then resuming without a baseline, yields what the node returns. |
| PlanProcess.Process.constructor | services/agents/runtime/app/graphs/plan_loop.py:349-440 | A first process records the baseline round and sizing; a resumed one starts empty. |
| PlanProcess.Process.MergeSide | services/agents/runtime/app/graphs/plan_loop.py:383-415 | Flags are joined, the sizing kept if present, events and rounds replaced by longer ones, token totals by larger ones, then the last sizing message is read back. |
| PlanProcess.Process.RehydrateSize | services/agents/runtime/app/graphs/plan_loop.py:139-147 | Scanning from the end, the last sizing message counts. |
| PlanProcess.Process.RunPlan | services/agents/runtime/app/graphs/plan_loop.py:457-492 | The plan node: a new or revised plan with its first pending step started. |
| PlanProcess.Process.RunAct | services/agents/runtime/app/graphs/plan_loop.py:494-589 | The act node: out of rounds it stops without a call, otherwise one call whose tools or text it records. |
| PlanProcess.Process.RunToolsNormals | services/agents/runtime/app/graphs/plan_loop.py:591-682 | The tool node: each new call is executed once and in order, and the messages grow by one for each, under its id and with its own result; entries are filed under the latest round. |
| PlanProcess.Process.RunToolsHuman | services/agents/runtime/app/graphs/plan_loop.py:684-778 | The human node: without an answer the first valid question interrupts and leaves the log as it was; with one the messages grow by one for each pending call, the first valid question carrying the answer and every other call its refusal. |
| PlanProcess.Process.RunReflect | services/agents/runtime/app/graphs/plan_loop.py:780-867 | The reflect node does to plan, current step and stop reason what the words of the reply say, and leads where they say. |
| PlanProcess.Process.RunFinalize | services/agents/runtime/app/graphs/plan_loop.py:869-959 | The finalize node: content, one repair, fallback, handoff, stop reason and events. |
| PlanProcess.Process.RunEnsureSize | services/agents/runtime/app/graphs/plan_loop.py:1073-1112 | Sizing runs once more when nothing called it. |
| PlanProcess.Process.Close | services/agents/runtime/app/graphs/plan_loop.py:1065-1136 | The envelope, or the error when no result was reached. |
| PlanMeaning.PlanFollows | services/agents/runtime/app/graphs/plan_loop.py:457-492 | The planner is told the old plan exactly when there is one or it is to be revised; its answer, item by item, is the new plan with its first pending step started; an unreadable one ends the run. |
| PlanMeaning.ActFollows | services/agents/runtime/app/graphs/plan_loop.py:494-589 | Out of rounds the model is not asked; otherwise once, with a hint about the current step: its calls go to the tools, its text is kept and noted up to 500 characters, and the round is recorded. |
| PlanMeaning.NormalsFollow | services/agents/runtime/app/graphs/plan_loop.py:591-682 | Every new call is executed once and in order, its message has its id and its own result, and human calls are set aside. |
| PlanMeaning.EntriesAreFiled | services/agents/runtime/app/graphs/plan_loop.py:665-674 | Tool results join those of the latest round unless that round has their id already; other rounds stay. |
| PlanMeaning.HumanFollows | services/agents/runtime/app/graphs/plan_loop.py:718-778 | One question is asked if any is valid, and each pending call gets one message, in order and under its id: the human's answer for the first valid question, `question_required` for an invalid one, `multiple_human_input_unsupported` for a further one. |
| PlanMeaning.ResumedFollows | services/agents/runtime/app/graphs/plan_loop.py:745-763 | The same for a process that resumes with the answer. |
| PlanMeaning.ReflectFollows | services/agents/runtime/app/graphs/plan_loop.py:804-867 | From the raw words: "mark_step_done" sets the named or current step to done and starts the first then pending; "revise_plan" puts a readable patch in place or asks for a new plan; "finalize" ends the loop; "continue", and any other word as an invalid reflection, change nothing. |
| PlanMeaning.ReflectStops | services/agents/runtime/app/graphs/plan_loop.py:780-790 | Out of rounds reflection asks nothing and ends the loop. |
| PlanMeaning.FinalizeFollows | services/agents/runtime/app/graphs/plan_loop.py:869-959 | The result is what the content yields, else what one repair yields, else the last sizing, the baseline or, for the analyst, an empty object; the stop reason is kept, final, out of rounds or error accordingly, and a handoff is built from the result. |
| PlanMeaning.CloseFollows | services/agents/runtime/app/graphs/plan_loop.py:1065-1136 | Sizing runs once more exactly when required and not done; the envelope holds the run's result, else that sizing, else the fallback, with events and totals as they are; without any, or if it is invalid, the run is an error. |
| PlanMeaning.PlanIsRead | services/agents/runtime/app/graphs/plan_types.py:13-38 | A plan is accepted exactly when it is a list of objects with titles and known statuses, and every step says what its item says; ids default to the position. |
| PlanMeaning.NextIsStarted | services/agents/runtime/app/graphs/plan_loop.py:187-208 | The first pending step becomes current and in progress, with every step of its id; with none pending the plan stays and no step is current. |
| PlanTypes.NormalizePlanSteps | services/agents/runtime/app/graphs/plan_types.py:13-38 | The loop of the source reads the plan so. |
| PlanTypes.DefaultIdsDistinct | services/agents/runtime/app/graphs/plan_types.py:23-25 | Ids given by position are distinct. |
| PlanTypes.StartNextMovesOne | services/agents/runtime/app/graphs/plan_loop.py:187-208 | With distinct ids starting the next step changes exactly the first pending one. |
| Ledger.LedgerAccounts | services/api/internal/ledger/ledger.go:36-140 | For any fills with positive quantity and price: the book is the replay of its recorded orders, cash and quantities are opening values plus signed sums, cash stays non-negative, stored quantities positive, value at cost moves by realised gains alone, and each average cost lies between prices paid since the position was opened. |
| Ledger.RunReplays | services/api/internal/ledger/ledger.go:50-66 | Cash, quantities and average costs are the unchecked fold of the recorded orders over the opening state. |
| Ledger.ReplayIsSum | services/api/internal/ledger/ledger.go:36-48 | A replay moves cash by the signed notionals and each symbol by its signed quantities. |
| Ledger.ValueIsRealised | services/api/internal/ledger/ledger.go:97-109 | Cash plus positions at cost changes by realised gains and nothing else. |
| Ledger.RunFollowsLots | services/api/internal/ledger/ledger.go:97-109 | Each average cost lies between prices paid since its position was opened; selling out forgets them. |
| Ledger.RunKeepsSolvent | services/api/internal/ledger/ledger.go:74-77 | Cash never goes negative and no stored quantity is zero or less. |
| Ledger.BuyFollows | services/api/internal/ledger/ledger.go:69-110 | Refused exactly when cash is short. The position grows by the quantity and its cost by what was paid; levels change only where given; other positions stay. |
| Ledger.SaleFollows | services/api/internal/ledger/ledger.go:112-140 | Refused exactly when less is held. The position shrinks by the quantity and is gone when nothing is left; average cost and levels stay. |
| Ledger.Service.ApplyFill | services/api/internal/ledger/ledger.go:36-67 | An accepted fill changes cash and position and records one order; a refused one changes nothing. |
| Ledger.Service.ApplyBuy | services/api/internal/ledger/ledger.go:69-110 | Refused exactly when cash is short; stop and take levels are overwritten only when given, and an average divided by a zero quantity is marked as no number. |
| Ledger.Service.ApplySell | services/api/internal/ledger/ledger.go:112-140 | Refused exactly when less is held; a position sold out is deleted. |
| Ledger.Service.UpsertNav | services/api/internal/ledger/ledger.go:142-186 | Fails exactly when a position has no mark; otherwise the date has one row, cash plus marked positions, under its old id if it had one. |
| Lock.LockExcludes | services/api/internal/workflow/lock.go:15-26 | For any number of processes in any order: if everybody inside is always within its time to live, at most one is inside. |
| Lock.SecondEntersIffOverrun | services/api/internal/workflow/lock.go:16-22 | While one process is inside on its own key, another gets in exactly when the first has overrun. |
| Lock.LateReleaseFreesAnother | services/api/internal/workflow/lock.go:23-25 | After one overrun the unconditional delete lets a third process in beside a second that is on time. |
| Lock.Store.Acquire | services/api/internal/workflow/lock.go:15-22 | The key is taken exactly when none is live. |
| Sse.ChunkingIsIrrelevant | apps/web/src/lib/useMarketStream.ts:200-213 | For every partition of a stream the frames and the leftover are those of parsing it in one piece. |
| Sse.StreamReadsBack | services/api/internal/httpserver/handlers_stream.go:59-76 | Any mix of heartbeats and messages with plain payloads parses back to exactly the messages, with nothing left over. |
| Sse.StreamReadsBackInChunks | apps/web/src/lib/useMarketStream.ts:97-120 | The same in whatever chunks the stream arrives. |
| Sse.MessageReadsBackIff | apps/web/src/lib/useMarketStream.ts:97-120 | A message comes back as sent exactly when its payload has no newline, no leading white space and no trailing carriage return. |
| Sse.EventNamesOk | services/api/internal/httpserver/handlers_stream.go:23-30 | The two event names in use meet the condition on names. |
| Sse.ParseSseChunk | apps/web/src/lib/useMarketStream.ts:97-120 | Splitting, stripping and collecting lines gives the frames and the rest. |
| Sse.MarketStream.ReadAll | apps/web/src/lib/useMarketStream.ts:197-213 | Reading a stream chunk by chunk delivers the frames of the whole. |
| Sse.Connection.Serve | services/api/internal/httpserver/handlers_stream.go:56-76 | Ticks and messages are written in the order they become ready. |
| Hub.QuotesAreApart | services/api/internal/stream/hub.go:104-125 | For any clock readings, accepted quotes of one symbol are at least the throttle apart. |
| Hub.QuoteAcceptedIff | services/api/internal/stream/hub.go:104-125 | A quote is accepted exactly when the hub is enabled, symbol and payload are not empty, and every accepted quote of the symbol before it is at least the throttle ago. |
| Hub.TrimmedAround | services/api/internal/stream/hub.go:107-110 | A symbol is what is left when the white space around it, and no more, is cut off. |
| Hub.SubscriberGets | services/api/internal/stream/hub.go:69-149 | A subscriber gets, in order and once each, exactly the accepted messages of the kinds it was subscribed to, save those that found its buffer full. |
| Hub.StreamHub.PublishQuote | services/api/internal/stream/hub.go:104-125 | Disabled hubs, blank symbols, empty payloads and early quotes change nothing; an accepted quote goes to market subscribers only. |
| Hub.StreamHub.PublishAccount | services/api/internal/stream/hub.go:128-138 | Account messages go to account subscribers only and are not throttled. |
| Hub.StreamHub.Send | services/api/internal/stream/hub.go:140-149 | Every subscriber with room gets the message; a full one drops it. |
| Cache.AccountIsCurrent | services/api/internal/broker/cache.go:27-46 | An account returned was fetched in this call, or less than the time to live ago and after the last successful order. |
| Cache.PositionsAreCurrent | services/api/internal/broker/cache.go:48-68 | The same for positions. |
| Cache.FreshAccountIsReturned | services/api/internal/broker/cache.go:27-33 | An account fetched less than the time to live ago, with no successful order since, is returned without asking the inner client. |
| Cache.FreshPositionsAreReturned | services/api/internal/broker/cache.go:48-55 | The same for positions. |
| Cache.StaleIsFetched | services/api/internal/broker/cache.go:34-46 | Otherwise the inner client's reply is what is returned. |
| Cache.CachedClient.ReadAccount | services/api/internal/broker/cache.go:27-46 | A hit returns the cached account; a failed fetch changes nothing. |
| Cache.CachedClient.ReadPositions | services/api/internal/broker/cache.go:48-68 | The same for positions. |
| Cache.CachedClient.Submit | services/api/internal/broker/cache.go:70-95 | A successful order drops both caches, a failed one neither. |
| Sizing.SizingIsBounded | services/agents/common/stock_agents_common/tools/sizing.py:57-116 | Each buy is the largest positive whole quantity that costs no more than the cap and a twentieth of the cash, each sale the largest whole quarter of the position or, where that is less than one lot, one lot or all of it; levels are a tenth around the price; all buys together cost at most the budget for each, and every item that asks for something gives one proposal or one warning. |
| Sizing.JudgedIsBounded | services/agents/common/stock_agents_common/tools/sizing.py:90-109 | The bounds for one item, with the signs of notional and cash impact. |
| Sizing.JudgedIff | services/agents/common/stock_agents_common/tools/sizing.py:72-116 | A buy is proposed exactly when one lot can be afforded, a sale exactly when something is held; an item without a price or with an unknown side gives a warning, a hold nothing. |
| Sizing.WholeLotsFit | services/agents/common/stock_agents_common/tools/sizing.py:91-92 | The whole part of budget over close fits the budget and one more lot does not. |
| Sizing.LastRowCounts | services/agents/common/stock_agents_common/tools/sizing.py:26-28 | Of several rows of a symbol the last one counts. |
| Sizing.RaisesIff | services/agents/common/stock_agents_common/tools/sizing.py:99-116 | Sizing fails exactly when it sells a priced symbol whose last row has no quantity. |
| Sizing.SizeProposals | services/agents/common/stock_agents_common/tools/sizing.py:57-116 | The loop yields proposals and warnings in item order, for the items given, else the analyst's, else the older intents. |

## Left out

- Workflow: database errors, crashes in the middle of a call and Redis errors; writes succeed, and reads that no other write depends on are taken together with the write that follows them.
- Workflow: NAV rows written after a run or a decision, error messages, notes, users, and the strategy fields `target_weight`, `stop_loss` and `take_profit`; no modelled decision reads them.
- Workflow: row ids count from 0 here and from 1 in the database.
- Workflow: `prior_step_outputs`, account snapshots and risk context sent to agents; a reply may depend on anything.
- WorkflowService.Service.RunWorkflow: the lock is held from the first check to the end, and its key does not lapse meanwhile; lapsing is the subject of `Lock`, and calls that overlap once it has lapsed that of `Interleaving`.
- Interleaving.AtMostOnceFromStart: counts calls of `SubmitOrder`; whether the broker itself acts on one twice is not modelled.
- RiskRun.RunStaysWithinLimits: assumes fixed positive marks, fills at the mark of no more than was ordered, state reads that report what is held (up to rows of flat positions), and a broker that fills no order for a non-positive quantity and sells no more than is held; drawdown is never read by the engine and has no part in the limits.
- SerialCalls.CallsKeepCoherence: coherence says nothing about proposals of failed runs, which may keep pending approvals and `pending_auto` rows.
- Risk: floating-point rounding; amounts are reals. The portfolio state read from the local ledger when there is no broker.
- PlanPause.PausingIsTransparent: assumes a checkpoint is exactly the state at node return, system prompts, tool schemas and request that are the same in every process, tools without memory of their own across processes, and token counts that are not negative.
- PlanLoop: timestamps, the router snapshot, the truncation of previews, the trace in the envelope of an interrupted run, the request copy kept in the bag, and a plan status or decision that is not hashable (a TypeError in the source).
- PlanLoop: what is inside prompts, JSON extraction, schema validation and alignment; they are functions of the text, free to fail.
- PlanLoop: reusing or forcing a thread id, and resuming a thread that is not paused.
- Ledger: several accounts, missing accounts and row locks.
- Sse: decoding bytes into text before chunks are joined, reconnecting, and what the page does with a quote.
- Sse.MessageReadsBackIff: stated for event names without newlines or surrounding white space, which covers the two names in use.
- Hub: a nil hub or channel; unsubscribing twice through one closure, which does nothing the second time; receivers waiting on a channel without buffer.
- Cache: calls that overlap, where a fetch may finish after another call's order.
- Cache.AccountIsCurrent: age counts from the clock reading taken once the inner client has replied.
- Sizing: conversions of malformed numbers, which fail the whole call, and the environment's default cap, which is a parameter.
