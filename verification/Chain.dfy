/** Pausing an agent chain for human input and resuming it: what the step rows hold and what they rebuild. */
module Chain {
  import opened Common
  import opened Workflow

  predicate DistinctNames(chain: seq<string>) {
    forall i, j :: 0 <= i < j < |chain| ==> chain[i] != chain[j]
  }

  /** The rows follow the chain from its first agent. */
  predicate FollowsChain(chain: seq<string>, rows: seq<StepRow>) {
    && |rows| <= |chain|
    && forall i :: 0 <= i < |rows| ==> rows[i].step == chain[i]
  }

  predicate AllOk(rows: seq<StepRow>) {
    forall i :: 0 <= i < |rows| ==> rows[i].status.StepOk?
  }

  /** Every row follows the chain and is ok. */
  predicate WalkedTo(chain: seq<string>, rows: seq<StepRow>) {
    FollowsChain(chain, rows) && AllOk(rows)
  }

  /** One interrupted row, at the end; all rows before it are ok. */
  predicate PausedAt(chain: seq<string>, rows: seq<StepRow>) {
    && rows != []
    && FollowsChain(chain, rows)
    && AllOk(rows[..|rows| - 1])
    && rows[|rows| - 1].status.StepInterrupted?
  }

  /** The agent a paused run waits for. */
  function PausedAgent(rows: seq<StepRow>): string
    requires rows != []
  {
    rows[|rows| - 1].step
  }

  /* ------------------------------------------------------------------ rows of a run */

  lemma {:induction false} RowsOfMember(steps: seq<StepRow>, run: nat, i: nat)
    requires i < |steps| && steps[i].run == run
    ensures exists k :: 0 <= k < |RowsOf(steps, run)| && RowsOf(steps, run)[k] == steps[i]
  {
    var front := steps[..|steps| - 1];
    if i == |steps| - 1 {
      assert RowsOf(steps, run)[|RowsOf(front, run)|] == steps[i];
    } else {
      RowsOfMember(front, run, i);
      var k :| 0 <= k < |RowsOf(front, run)| && RowsOf(front, run)[k] == steps[i];
      assert RowsOf(steps, run)[k] == steps[i];
    }
  }

  lemma {:induction false} RowsOfAll(steps: seq<StepRow>, run: nat)
    ensures forall k :: 0 <= k < |RowsOf(steps, run)| ==> RowsOf(steps, run)[k].run == run
  {
    if steps != [] {
      RowsOfAll(steps[..|steps| - 1], run);
    }
  }

  lemma RowsOfAppend(steps: seq<StepRow>, row: StepRow, run: nat)
    ensures RowsOf(steps + [row], run) == RowsOf(steps, run) + (if row.run == run then [row] else [])
  {
    assert (steps + [row])[..|steps|] == steps;
  }

  /** An update by run and step name commutes with selecting a run, and does not touch other runs. */
  lemma {:induction false} RowsOfUpdate(steps: seq<StepRow>, run: nat, step: string, status: StepStatus,
        payload: Envelope, r: nat)
    ensures RowsOf(UpdateRows(steps, run, step, status, payload), r)
         == if r == run then UpdateRows(RowsOf(steps, r), run, step, status, payload) else RowsOf(steps, r)
  {
    if steps != [] {
      var front := steps[..|steps| - 1];
      RowsOfUpdate(front, run, step, status, payload, r);
      assert UpdateRows(steps, run, step, status, payload)[..|steps| - 1]
            == UpdateRows(front, run, step, status, payload);
    }
  }

  lemma {:induction false} RestAfterAt(chain: seq<string>, k: nat)
    requires DistinctNames(chain) && k < |chain|
    ensures RestAfter(chain, chain[k]) == Some(chain[k + 1..])
  {
    if k > 0 {
      RestAfterAt(chain[1..], k - 1);
      assert chain[1..][k - 1] == chain[k];
      assert chain[1..][k..] == chain[k + 1..];
    }
  }

  /** A paused run has exactly one interrupted row, that of the agent it waits for. */
  lemma OnlyInterrupted(chain: seq<string>, steps: seq<StepRow>, run: nat, agent: string)
    requires PausedAt(chain, RowsOf(steps, run))
    requires HasInterrupted(steps, run, agent)
    ensures agent == PausedAgent(RowsOf(steps, run))
  {
    var rows := RowsOf(steps, run);
    forall k | 0 <= k < |rows| - 1 ensures rows[k].status.StepOk? {
      assert rows[..|rows| - 1][k] == rows[k];
    }
    var i :| 0 <= i < |steps| && steps[i].run == run && steps[i].step == agent && steps[i].status.StepInterrupted?;
    RowsOfMember(steps, run, i);
    var k :| 0 <= k < |rows| && rows[k] == steps[i];
  }

  /** Updating the paused agent's row changes that row only. */
  lemma UpdatePausedRow(chain: seq<string>, rows: seq<StepRow>, run: nat, status: StepStatus, payload: Envelope)
    requires DistinctNames(chain) && PausedAt(chain, rows)
    requires forall k :: 0 <= k < |rows| ==> rows[k].run == run
    ensures UpdateRows(rows, run, PausedAgent(rows), status, payload)
         == rows[..|rows| - 1] + [rows[|rows| - 1].(status := status, payload := payload)]
  {
    var last := |rows| - 1;
    assert forall k :: 0 <= k < last ==> rows[k].step == chain[k] != chain[last];
  }

  /* ------------------------------------------------------------------ what the rows rebuild */

  function Payloads(rows: seq<StepRow>): seq<Envelope> {
    seq(|rows|, i requires 0 <= i < |rows| => rows[i].payload)
  }

  /** The chain without any pause: each reply is applied to the outputs collected so far. */
  function Uninterrupted(chain: seq<string>, replies: seq<Envelope>, prior: map<string, string>): Option<map<string,
        string>>
    requires |replies| == |chain|
    decreases |chain|
  {
    if chain == [] then Some(prior)
    else
      var next := ApplyEnvelope(chain[0], replies[0], prior);
      if next.None? then None else Uninterrupted(chain[1..], replies[1..], next.value)
  }

  lemma {:induction false} UninterruptedAppend(chain: seq<string>, replies: seq<Envelope>,
        prior: map<string, string>, name: string, reply: Envelope)
    requires |replies| == |chain|
    ensures Uninterrupted(chain + [name], replies + [reply], prior)
         == var before := Uninterrupted(chain, replies, prior);
            if before.None? then None else ApplyEnvelope(name, reply, before.value)
    decreases |chain|
  {
    if chain == [] {
    } else {
      assert (chain + [name])[1..] == chain[1..] + [name];
      assert (replies + [reply])[1..] == replies[1..] + [reply];
      var next := ApplyEnvelope(chain[0], replies[0], prior);
      if next.Some? {
        UninterruptedAppend(chain[1..], replies[1..], next.value, name, reply);
      }
    }
  }

  /** Outputs folded from persisted ok rows are the outputs an uninterrupted chain collects from the same replies. */
  lemma {:induction false} RowsRebuildChain(chain: seq<string>, rows: seq<StepRow>)
    requires WalkedTo(chain, rows)
    ensures FoldRows(rows) == Uninterrupted(chain[..|rows|], Payloads(rows), map[])
  {
    if rows != [] {
      var n := |rows| - 1;
      var front := rows[..n];
      RowsRebuildChain(chain, front);
      UninterruptedAppend(chain[..n], Payloads(front), map[], chain[n], rows[n].payload);
      assert chain[..n] + [chain[n]] == chain[..n + 1];
      assert Payloads(front) + [rows[n].payload] == Payloads(rows);
    }
  }
}
