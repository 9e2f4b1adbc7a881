/** Retries over whole traces: however often a question is retried, what is submitted is what was first frozen, and what
    was unfit to be sent never is. */
module Retries {
  import opened Wrappers
  import opened Rows
  import opened Protocol
  import opened Traces
  import opened LaunchFields
  import Launches
  import SessionOpenings
  import Theorems

  /** Step `k` retries row `i`, and row `n` is the one it adds. */
  ghost predicate RetriedAt(states: seq<System>, steps: seq<Step>, k: nat, i: nat, n: nat) {
    && k < |steps| && |states| == |steps| + 1
    && steps[k] == Launch(Launches.Retry(i)) && n == |states[k].db.executions|
  }

  ghost predicate IsRetryOf(states: seq<System>, steps: seq<Step>, n: nat, i: nat) {
    exists k: nat :: RetriedAt(states, steps, k, i, n)
  }

  /** Each row of the chain is a retry of the one before it. */
  ghost predicate Chain(states: seq<System>, steps: seq<Step>, rows: seq<nat>) {
    rows != [] && forall j :: 0 < j < |rows| ==> IsRetryOf(states, steps, rows[j], rows[j - 1])
  }

  lemma ChainPrefix(states: seq<System>, steps: seq<Step>, rows: seq<nat>, n: nat)
    requires Chain(states, steps, rows) && 0 < n < |rows|
    ensures Chain(states, steps, rows[..n]) && IsRetryOf(states, steps, rows[n], rows[n - 1])
  {
    forall j | 0 < j < n ensures IsRetryOf(states, steps, rows[..n][j], rows[..n][j - 1]) {
      assert IsRetryOf(states, steps, rows[j], rows[j - 1]);
    }
  }

  predicate SameQuestion(e: Execution, f: Execution) {
    && f.manifest.input == e.manifest.input && f.manifest.revision == e.manifest.revision
    && f.manifest.preflightError == e.manifest.preflightError
  }

  lemma RetryIsSameQuestion(states: seq<System>, steps: seq<Step>, k: nat, i: nat, n: nat, m: nat)
    requires Behavior(states, steps) && RetriedAt(states, steps, k, i, n)
    requires m < |states| && i < |states[m].db.executions| && n < |states[m].db.executions|
    ensures SameQuestion(states[m].db.executions[i], states[m].db.executions[n])
  {
    assert StepAt(states, steps, k);
    RetryCarries(states[k].db, i);
    RowsGrow(states, steps, k, m, n);
    SessionOpenings.ManifestIsFinal(states, steps, k + 1, m, i);
    SessionOpenings.ManifestIsFinal(states, steps, k + 1, m, n);
    SessionOpenings.ManifestIsFinal(states, steps, k, k + 1, i);
  }

  /** A row that step `k` adds is there in later states alone. */
  lemma {:induction false} RowsGrow(states: seq<System>, steps: seq<Step>, k: nat, m: nat, n: nat)
    requires Behavior(states, steps) && k < |steps| && m < |states| && n == |states[k].db.executions|
    requires n < |states[m].db.executions|
    ensures k < m
  {
    if m <= k { NoFewerRows(states, steps, m, k); }
  }

  lemma {:induction false} NoFewerRows(states: seq<System>, steps: seq<Step>, m: nat, k: nat)
    requires Behavior(states, steps) && m <= k < |states|
    ensures |states[m].db.executions| <= |states[k].db.executions|
    decreases k
  {
    if m < k {
      NoFewerRows(states, steps, m, k - 1);
      Theorems.RowsEvolveAt(states, steps, k - 1);
    }
  }

  /** A retry is a later row than what it retries. */
  lemma RetryIsLater(states: seq<System>, steps: seq<Step>, k: nat, i: nat, n: nat)
    requires Behavior(states, steps) && RetriedAt(states, steps, k, i, n)
    ensures i < n
  {
    assert StepAt(states, steps, k);
    RetryCarries(states[k].db, i);
  }

  lemma {:induction false} ChainIsSameQuestion(states: seq<System>, steps: seq<Step>, rows: seq<nat>, m: nat)
    requires Behavior(states, steps) && Chain(states, steps, rows) && m < |states|
    requires rows[|rows| - 1] < |states[m].db.executions|
    ensures rows[0] < |states[m].db.executions|
    ensures SameQuestion(states[m].db.executions[rows[0]], states[m].db.executions[rows[|rows| - 1]])
    decreases |rows|
  {
    var n := |rows| - 1;
    if n > 0 {
      ChainPrefix(states, steps, rows, n);
      var k: nat :| RetriedAt(states, steps, k, rows[n - 1], rows[n]);
      RetryIsLater(states, steps, k, rows[n - 1], rows[n]);
      RetryIsSameQuestion(states, steps, k, rows[n - 1], rows[n], m);
      ChainIsSameQuestion(states, steps, rows[..n], m);
    }
  }

  /** In every trace: no retry of a question whose frozen input was unusable, nor a retry of such a retry, is ever sent;
      and a retry of any other submits the very input of the first one to the same revision. */
  lemma RetriesStayUnsent(states: seq<System>, steps: seq<Step>, rows: seq<nat>, m: nat)
    requires Behavior(states, steps) && Chain(states, steps, rows) && m < |states|
    requires rows[|rows| - 1] < |states[m].db.executions|
    ensures rows[0] < |states[m].db.executions|
    ensures var first, last := states[m].db.executions[rows[0]], states[m].db.executions[rows[|rows| - 1]];
      && last.manifest.input == first.manifest.input && last.manifest.revision == first.manifest.revision
      && (first.manifest.preflightError != "" ==>
            forall c :: 0 <= c < |states[m].calls| ==> states[m].calls[c].execution != rows[|rows| - 1])
  {
    ChainIsSameQuestion(states, steps, rows, m);
    Theorems.AtMostOnceSubmission(states, steps, m);
  }
}
