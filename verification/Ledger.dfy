/** Accounting over runs of the system: where every claim went, who wrote every terminal
    observation, and which replays got a comparison item. */
module Ledger {
  import opened Wrappers
  import opened Rows
  import opened Transactions
  import opened Protocol
  import opened TableInvariants
  import opened Submissions
  import Comparison
  import Launches
  import LaunchProofs

  // ---------- claims ----------

  /** A claim was either safely reclaimed, or is the one its row still carries. */
  predicate Accounted(s: System, t: Token)
    requires HasTask(s, t)
  {
    t in s.reclaimed <==> RowOf(s, t).token != Some(t)
  }

  predicate ClaimsAccounted(s: System) {
    && s.reclaimed <= s.tasks.Keys
    && forall t :: t in s.tasks ==> HasTask(s, t) && Accounted(s, t)
  }

  predicate TokensKept(s: System, after: System) {
    && after.reclaimed == s.reclaimed && after.tasks.Keys == s.tasks.Keys
    && (forall t :: t in s.tasks ==> after.tasks[t].execution == s.tasks[t].execution)
    && |s.db.executions| <= |after.db.executions|
    && (forall i :: 0 <= i < |s.db.executions| ==> after.db.executions[i].token == s.db.executions[i].token)
  }

  lemma TokensKeepAccounts(s: System, after: System)
    requires ClaimsAccounted(s) && TokensKept(s, after)
    ensures ClaimsAccounted(after)
  {
    forall t | t in after.tasks ensures HasTask(after, t) && Accounted(after, t) {
      assert HasTask(s, t) && Accounted(s, t);
    }
  }

  lemma ClaimKeepsAccounts(s: System, i: nat, worker: string, t: Token, now: Time, lease: nat)
    requires RowsSound(s.db.executions) && ClaimsAccounted(s) && ClaimEnabled(s, i, worker, t, now)
    ensures ClaimsAccounted(ClaimStep(s, i, worker, t, now, lease))
  {
    var after := ClaimStep(s, i, worker, t, now, lease);
    assert RowSound(s.db.executions[i]);
    forall u | u in after.tasks ensures HasTask(after, u) && Accounted(after, u) {
      if u != t { assert HasTask(s, u) && Accounted(s, u); }
    }
  }

  lemma ReconciliationKeepsAccounts(s: System, now: Time, skipped: set<nat>)
    requires ClaimsAccounted(s) && TasksLinked(s)
    requires forall i :: 0 <= i < |s.db.executions| ==> TokenHeld(s, i)
    ensures ClaimsAccounted(ReconciliationStep(s, now, skipped))
  {
    var after := ReconciliationStep(s, now, skipped);
    forall t | t in after.tasks ensures HasTask(after, t) && Accounted(after, t) {
      assert HasTask(s, t) && Accounted(s, t);
    }
  }

  // ---------- terminal observations ----------

  /** What the writer of a terminal observation left in the row. */
  predicate FinishedBy(e: Execution, who: Finisher) {
    && e.outcome.Terminal() && e.phase == TerminalObserved
    && match who
       case ByWorker(t) => e.token == Some(t)
       case ByRecovery => e.outcome == Error && e.observation == AMBIGUOUS
       case ByBlocking => e.outcome == Error && e.observation == BLOCKED && e.token.None?
  }

  predicate FinishesSound(s: System) {
    && (forall i :: i in s.finished ==> i < |s.db.executions| && FinishedBy(s.db.executions[i], s.finished[i]))
    && (forall i :: 0 <= i < |s.db.executions| && s.db.executions[i].phase == TerminalObserved ==> i in s.finished)
  }

  lemma RowsKeepFinishes(s: System, after: System)
    requires FinishesSound(s) && after.finished == s.finished && |s.db.executions| <= |after.db.executions|
    requires forall i :: 0 <= i < |s.db.executions| && s.db.executions[i].outcome.Terminal() ==>
               after.db.executions[i] == s.db.executions[i].(validity := after.db.executions[i].validity)
    requires forall i :: 0 <= i < |s.db.executions| && !s.db.executions[i].outcome.Terminal() ==>
               after.db.executions[i].phase != TerminalObserved
    requires forall i :: |s.db.executions| <= i < |after.db.executions| ==>
      after.db.executions[i].phase != TerminalObserved
    requires forall i :: 0 <= i < |s.db.executions| && s.db.executions[i].phase == TerminalObserved ==>
               s.db.executions[i].outcome.Terminal()
    ensures FinishesSound(after)
  {
    forall i | i in after.finished
      ensures i < |after.db.executions| && FinishedBy(after.db.executions[i], after.finished[i])
    {
      assert FinishedBy(s.db.executions[i], s.finished[i]);
    }
  }

  /** A transaction that finishes rows credits exactly those, each to the one who wrote it. */
  lemma CreditKeepsFinishes(s: System, after: System, running: Finisher)
    requires FinishesSound(s) && |after.db.executions| == |s.db.executions|
    requires after.finished == Credited(s.db.executions, after.db.executions, s.finished, running)
    requires forall i :: 0 <= i < |s.db.executions| && s.db.executions[i].outcome.Terminal() ==>
               after.db.executions[i] == s.db.executions[i]
    requires forall i :: 0 <= i < |s.db.executions| && !s.db.executions[i].outcome.Terminal() ==>
               if after.db.executions[i].outcome.Terminal()
               then FinishedBy(after.db.executions[i],
                               if s.db.executions[i].outcome == Pending then ByBlocking else running)
               else after.db.executions[i].phase != TerminalObserved
    ensures FinishesSound(after)
  {
    forall i | i in after.finished
      ensures i < |after.db.executions| && FinishedBy(after.db.executions[i], after.finished[i])
    {
      if i in s.finished { assert FinishedBy(s.db.executions[i], s.finished[i]); }
    }
  }

  lemma SoundPhases(es: seq<Execution>)
    requires RowsSound(es)
    ensures forall i :: 0 <= i < |es| && es[i].phase == TerminalObserved ==> es[i].outcome.Terminal()
  {
    forall i | 0 <= i < |es| && es[i].phase == TerminalObserved ensures es[i].outcome.Terminal() {
      assert RowSound(es[i]);
    }
  }

  lemma ReconciliationKeepsFinishes(s: System, now: Time, skipped: set<nat>)
    requires RowsSound(s.db.executions) && FinishesSound(s)
    ensures FinishesSound(ReconciliationStep(s, now, skipped))
  {
    var after := ReconciliationStep(s, now, skipped);
    forall i | 0 <= i < |s.db.executions|
      ensures s.db.executions[i].outcome.Terminal() ==> after.db.executions[i] == s.db.executions[i]
      ensures !s.db.executions[i].outcome.Terminal() ==>
        if after.db.executions[i].outcome.Terminal()
        then FinishedBy(after.db.executions[i],
                        if s.db.executions[i].outcome == Pending then ByBlocking else ByRecovery)
        else after.db.executions[i].phase != TerminalObserved
    {
      assert RowSound(s.db.executions[i]);
    }
    CreditKeepsFinishes(s, after, ByRecovery);
  }

  lemma BlockKeepsFinishes(s: System, t: Token, now: Time)
    requires RowsSound(s.db.executions) && FinishesSound(s) && BlockEnabled(s, t, now)
    ensures FinishesSound(BlockStep(s, t, now))
  {
    var after := BlockStep(s, t, now);
    if MarkUnusable(s.db, s.tasks[t].execution, now).Some? {
      forall i | 0 <= i < |s.db.executions|
        ensures s.db.executions[i].outcome.Terminal() ==> after.db.executions[i] == s.db.executions[i]
        ensures !s.db.executions[i].outcome.Terminal() ==>
          if after.db.executions[i].outcome.Terminal()
          then FinishedBy(after.db.executions[i],
                          if s.db.executions[i].outcome == Pending then ByBlocking else ByWorker(t))
          else after.db.executions[i].phase != TerminalObserved
      {
        assert RowSound(s.db.executions[i]);
      }
      CreditKeepsFinishes(s, after, ByWorker(t));
    }
  }

  lemma FinishedRowKeepsFinishes(s: System, mid: System, after: System, t: Token, outcome: FinalOutcome,
      seen: Observation, now: Time)
    requires RowsSound(s.db.executions) && FinishesSound(s) && HasTask(s, t) && Owns(s, t)
    requires FinishedRow(s, mid, s.tasks[t].execution, outcome, seen, now)
    requires after.db.executions == mid.db.executions
    requires after.finished == Credited(s.db.executions, mid.db.executions, s.finished, ByWorker(t))
    ensures FinishesSound(after)
    ensures after.finished == s.finished[s.tasks[t].execution := ByWorker(t)]
  {
    SoundPhases(s.db.executions);
    assert s.tasks[t].execution !in s.finished;
    CreditKeepsFinishes(s, after, ByWorker(t));
  }

  // ---------- comparison items ----------

  /** A controlled replay in a run that has a comparison. */
  predicate Replay(db: Tables, i: nat) {
    && i < |db.executions| && db.executions[i].manifest.baseline.Some?
    && db.executions[i].manifest.run < |db.runs| && db.runs[db.executions[i].manifest.run].comparison.Some?
  }

  predicate HasItem(db: Tables, i: nat) {
    exists k :: 0 <= k < |db.items| && db.items[k].current == i
  }

  predicate ItemSound(s: System, item: ComparisonItem) {
    && item.current in s.finished && s.finished[item.current].ByWorker?
    && Replay(s.db, item.current) && s.db.executions[item.current].manifest.baseline == Some(item.baseline)
  }

  /** Exactly the replays that a worker completed have an item, one each. */
  predicate ItemsSound(s: System) {
    && (forall k :: 0 <= k < |s.db.items| ==> ItemSound(s, s.db.items[k]))
    && (forall j, k :: 0 <= j < k < |s.db.items| ==> s.db.items[j].current != s.db.items[k].current)
    && (forall i :: i in s.finished && s.finished[i].ByWorker? && Replay(s.db, i) ==> HasItem(s.db, i))
  }

  /** Nothing but credits to recovery or blocking was added, and no item. */
  lemma RowsKeepItems(s: System, after: System)
    requires ItemsSound(s) && after.db.items == s.db.items
    requires |s.db.executions| <= |after.db.executions| && |s.db.runs| <= |after.db.runs|
    requires forall i :: 0 <= i < |s.db.executions| ==> after.db.executions[i].manifest == s.db.executions[i].manifest
    requires forall r :: 0 <= r < |s.db.runs| ==> after.db.runs[r].comparison == s.db.runs[r].comparison
    requires forall i :: 0 <= i < |s.db.executions| ==> s.db.executions[i].manifest.run < |s.db.runs|
    requires forall i :: i in s.finished ==>
               i in after.finished && after.finished[i] == s.finished[i] && i < |s.db.executions|
    requires forall i :: i in after.finished && after.finished[i].ByWorker? ==> i in s.finished
    ensures ItemsSound(after)
  {
    forall k | 0 <= k < |after.db.items| ensures ItemSound(after, after.db.items[k]) {
      assert ItemSound(s, s.db.items[k]);
    }
    forall i | i in after.finished && after.finished[i].ByWorker? && Replay(after.db, i) ensures HasItem(after.db, i) {
      assert Replay(s.db, i);
      assert HasItem(s.db, i);
    }
  }

  /** Completion records the item of a replay in the same transaction. */
  lemma RecordedItems(db: Tables, es: seq<Execution>, i: nat)
    requires Linked(db) && i < |db.executions| && |es| == |db.executions|
    requires es[i].manifest == db.executions[i].manifest && es[i].outcome.Terminal()
    requires !HasItem(db, i)
    ensures es[i].manifest.run < |db.runs|
    ensures Comparison.Record(db.(executions := es), i) ==
      if Replay(db, i)
      then db.items + [ComparisonItem(i, es[i].manifest.baseline.value,
                                      Comparison.Classify(db.(executions := es), i, es[i].manifest.baseline.value))]
      else db.items
  {
    assert RowLinked(db, db.executions[i]);
  }

  lemma CompletionItems(db: Tables, i: nat, outcome: FinalOutcome, seen: Observation, now: Time)
    requires i < |db.executions| && db.executions[i].manifest.run < |db.runs|
    requires Complete(db, i, outcome, seen, now).Some?
    ensures var after := Complete(db, i, outcome, seen, now).value;
      var es := db.executions[i := FinalizeExecution(db.executions[i], outcome, seen, now)];
      && after.executions == es && after.items == Comparison.Record(db.(executions := es), i)
      && |after.runs| == |db.runs|
      && (forall r :: 0 <= r < |db.runs| ==> after.runs[r].comparison == db.runs[r].comparison)
  {
  }

  lemma AppendedItemKeeps(s: System, after: System, i: nat, t: Token)
    requires ItemsSound(s) && i < |s.db.executions| && i !in s.finished
    requires after.finished == s.finished[i := ByWorker(t)]
    requires |after.db.executions| == |s.db.executions| && |after.db.runs| == |s.db.runs|
    requires forall k :: 0 <= k < |s.db.executions| ==> after.db.executions[k].manifest == s.db.executions[k].manifest
    requires forall r :: 0 <= r < |s.db.runs| ==> after.db.runs[r].comparison == s.db.runs[r].comparison
    requires if Replay(s.db, i)
             then |after.db.items| == |s.db.items| + 1 && after.db.items[..|s.db.items|] == s.db.items
                  && after.db.items[|s.db.items|].current == i
                  && Some(after.db.items[|s.db.items|].baseline) == s.db.executions[i].manifest.baseline
             else after.db.items == s.db.items
    ensures ItemsSound(after)
  {
    forall k | 0 <= k < |s.db.items| ensures after.db.items[k] == s.db.items[k] && s.db.items[k].current != i {
      assert ItemSound(s, s.db.items[k]);
      if Replay(s.db, i) { assert after.db.items[..|s.db.items|][k] == after.db.items[k]; }
    }
    forall k | 0 <= k < |after.db.items| ensures ItemSound(after, after.db.items[k]) {
      if k < |s.db.items| { assert ItemSound(s, s.db.items[k]); }
    }
    forall j | j in after.finished && after.finished[j].ByWorker? && Replay(after.db, j) ensures HasItem(after.db, j) {
      if j != i {
        assert Replay(s.db, j) && HasItem(s.db, j);
        var k :| 0 <= k < |s.db.items| && s.db.items[k].current == j;
        assert after.db.items[k].current == j;
      } else {
        assert after.db.items[|s.db.items|].current == i;
      }
    }
  }

  lemma NoItemYet(s: System, i: nat)
    requires ItemsSound(s) && i !in s.finished
    ensures !HasItem(s.db, i)
  {
  }

  // ---------- the steps ----------

  predicate Ledgered(s: System) {
    ClaimsAccounted(s) && FinishesSound(s) && ItemsSound(s)
  }

  /** Steps that finish nothing: rows may be claimed, renewed, marked or decided on, and fresh rows appended. */
  predicate NothingFinished(s: System, after: System) {
    && after.finished == s.finished && after.reclaimed == s.reclaimed && after.db.items == s.db.items
    && |s.db.executions| <= |after.db.executions| && |s.db.runs| <= |after.db.runs|
    && (forall i :: 0 <= i < |s.db.executions| ==>
          && after.db.executions[i].manifest == s.db.executions[i].manifest
          && (s.db.executions[i].outcome.Terminal() ==>
                after.db.executions[i] == s.db.executions[i].(validity := after.db.executions[i].validity))
          && (!s.db.executions[i].outcome.Terminal() ==> after.db.executions[i].phase != TerminalObserved))
    && (forall i :: |s.db.executions| <= i < |after.db.executions| ==> after.db.executions[i].phase != TerminalObserved)
    && (forall r :: 0 <= r < |s.db.runs| ==> after.db.runs[r].comparison == s.db.runs[r].comparison)
  }

  lemma UnfinishedKeepsLedger(s: System, after: System)
    requires Sound(s.db) && FinishesSound(s) && ItemsSound(s) && NothingFinished(s, after)
    ensures FinishesSound(after) && ItemsSound(after)
  {
    SoundPhases(s.db.executions);
    RowsKeepFinishes(s, after);
    forall i | 0 <= i < |s.db.executions| ensures s.db.executions[i].manifest.run < |s.db.runs| {
      assert RowLinked(s.db, s.db.executions[i]);
    }
    RowsKeepItems(s, after);
  }

  lemma ClaimFinishesNothing(s: System, i: nat, worker: string, t: Token, now: Time, lease: nat)
    requires ClaimEnabled(s, i, worker, t, now)
    requires RowsSound(s.db.executions)
    ensures NothingFinished(s, ClaimStep(s, i, worker, t, now, lease))
  {
    SoundPhases(s.db.executions);
  }

  lemma HeldFinishesNothing(s: System, t: Token, now: Time, lease: nat)
    requires RowsSound(s.db.executions)
    ensures HeartbeatEnabled(s, t, now) ==> NothingFinished(s, HeartbeatStep(s, t, now, lease))
    ensures MarkEnabled(s, t, now) ==> NothingFinished(s, MarkStep(s, t, now, lease))
  {
    SoundPhases(s.db.executions);
  }

  lemma HeldKeepsAccounts(s: System, t: Token, now: Time, lease: nat)
    requires ClaimsAccounted(s)
    ensures HeartbeatEnabled(s, t, now) ==> ClaimsAccounted(HeartbeatStep(s, t, now, lease))
    ensures MarkEnabled(s, t, now) ==> ClaimsAccounted(MarkStep(s, t, now, lease))
  {
    if HeartbeatEnabled(s, t, now) { TokensKeepAccounts(s, HeartbeatStep(s, t, now, lease)); }
    if MarkEnabled(s, t, now) { TokensKeepAccounts(s, MarkStep(s, t, now, lease)); }
  }

  lemma HeldKeepsLedger(s: System, t: Token, now: Time, lease: nat)
    requires Sound(s.db) && Ledgered(s)
    ensures HeartbeatEnabled(s, t, now) ==> Ledgered(HeartbeatStep(s, t, now, lease))
    ensures MarkEnabled(s, t, now) ==> Ledgered(MarkStep(s, t, now, lease))
  {
    HeldFinishesNothing(s, t, now, lease);
    HeldKeepsAccounts(s, t, now, lease);
    if HeartbeatEnabled(s, t, now) { UnfinishedKeepsLedger(s, HeartbeatStep(s, t, now, lease)); }
    if MarkEnabled(s, t, now) { UnfinishedKeepsLedger(s, MarkStep(s, t, now, lease)); }
  }

  lemma QuietKeepsLedger(s: System, t: Token, action: Action)
    requires Sound(s.db) && Ledgered(s) && ActionEnabled(s, t, action) && Quiet(action)
    ensures Ledgered(Act(s, t, action))
  {
    QuietMovesOnlyPc(s, t, action);
    QuietTables(s, t, action);
    MovedTaskKeepsLedger(s, Act(s, t, action), t);
  }

  /** One task moved on and no row, item, run or credit changed. */
  lemma MovedTaskKeepsLedger(s: System, after: System, t: Token)
    requires Sound(s.db) && Ledgered(s) && OnlyPc(s, after, t)
    requires after.db == s.db.(attempts := after.db.attempts)
    requires after.reclaimed == s.reclaimed && after.finished == s.finished
    ensures Ledgered(after)
  {
    SoundPhases(s.db.executions);
    TokensKeepAccounts(s, after);
    UnfinishedKeepsLedger(s, after);
  }

  lemma QuietTables(s: System, t: Token, action: Action)
    requires ActionEnabled(s, t, action) && Quiet(action)
    ensures Act(s, t, action).db == s.db.(attempts := Act(s, t, action).db.attempts)
  {
  }

  lemma FinishKeepsLedger(s: System, t: Token, now: Time)
    requires Sound(s.db) && Ledgered(s) && FinishEnabled(s, t)
    ensures Ledgered(FinishStep(s, t, now))
  {
    var i, pc := s.tasks[t].execution, s.tasks[t].pc;
    var after := FinishStep(s, t, now);
    if Owns(s, t) && Complete(s.db, i, pc.outcome, pc.seen, now).Some? {
      FinishSplits(s, t, now);
      CompletionItems(s.db, i, pc.outcome, pc.seen, now);
      FinishedKeepsLedger(s, s.(db := Complete(s.db, i, pc.outcome, pc.seen, now).value), after, t,
                          pc.outcome, pc.seen, now);
    } else {
      UnownedFinishKeepsLedger(s, after, t);
    }
  }

  lemma UnownedFinishKeepsLedger(s: System, after: System, t: Token)
    requires Sound(s.db) && Ledgered(s) && t in s.tasks
    requires after == s.(tasks := after.tasks) && OnlyPc(s, after, t)
    ensures Ledgered(after)
  {
    SoundPhases(s.db.executions);
    TokensKeepAccounts(s, after);
    UnfinishedKeepsLedger(s, after);
  }

  /** A completion by the holder: the rows, the credit and the item all move together. */
  predicate FinishedTogether(s: System, mid: System, after: System, t: Token, outcome: FinalOutcome, seen: Observation,
      now: Time) {
    && HasTask(s, t) && Owns(s, t) && FinishedRow(s, mid, s.tasks[t].execution, outcome, seen, now)
    && OnlyPc(mid, after, t) && after == mid.(tasks := after.tasks, finished := after.finished)
    && after.finished == Credited(s.db.executions, mid.db.executions, s.finished, ByWorker(t))
    && RowOf(s, t).manifest.run < |s.db.runs|
    && mid.db.items == Comparison.Record(s.db.(executions := mid.db.executions), s.tasks[t].execution)
    && |mid.db.runs| == |s.db.runs|
    && (forall r :: 0 <= r < |s.db.runs| ==> mid.db.runs[r].comparison == s.db.runs[r].comparison)
  }

  lemma FinishedKeepsItems(s: System, mid: System, after: System, t: Token, outcome: FinalOutcome, seen: Observation,
      now: Time)
    requires Linked(s.db) && ItemsSound(s) && FinishedTogether(s, mid, after, t, outcome, seen, now)
    requires s.tasks[t].execution !in s.finished
    requires after.finished == s.finished[s.tasks[t].execution := ByWorker(t)]
    ensures ItemsSound(after)
  {
    var i := s.tasks[t].execution;
    NoItemYet(s, i);
    RecordedItems(s.db, mid.db.executions, i);
    AppendedItemKeeps(s, after, i, t);
  }

  lemma FinishedKeepsLedger(s: System, mid: System, after: System, t: Token, outcome: FinalOutcome, seen: Observation,
      now: Time)
    requires Linked(s.db) && RowsSound(s.db.executions) && Ledgered(s)
    requires FinishedTogether(s, mid, after, t, outcome, seen, now)
    ensures Ledgered(after)
  {
    SoundPhases(s.db.executions);
    FinishedRowKeepsFinishes(s, mid, after, t, outcome, seen, now);
    FinishedKeepsItems(s, mid, after, t, outcome, seen, now);
    FinishedKeepsAccounts(s, mid, after, t, outcome, seen, now);
  }

  lemma FinishedKeepsAccounts(s: System, mid: System, after: System, t: Token, outcome: FinalOutcome, seen: Observation,
      now: Time)
    requires ClaimsAccounted(s) && FinishedTogether(s, mid, after, t, outcome, seen, now)
    ensures ClaimsAccounted(after)
  {
    TokensKeepAccounts(s, after);
  }

  lemma RunsInRange(db: Tables)
    requires Linked(db)
    ensures forall i :: 0 <= i < |db.executions| ==> db.executions[i].manifest.run < |db.runs|
  {
    forall i | 0 <= i < |db.executions| ensures db.executions[i].manifest.run < |db.runs| {
      assert RowLinked(db, db.executions[i]);
    }
  }

  /** What a transaction that credits no worker leaves alone. */
  predicate NoWorkerCredited(s: System, after: System) {
    && after.db.items == s.db.items
    && |after.db.executions| == |s.db.executions| && |after.db.runs| == |s.db.runs|
    && (forall i :: 0 <= i < |s.db.executions| ==> after.db.executions[i].manifest == s.db.executions[i].manifest)
    && (forall r :: 0 <= r < |s.db.runs| ==> after.db.runs[r].comparison == s.db.runs[r].comparison)
    && (forall i :: i in s.finished ==> i in after.finished && after.finished[i] == s.finished[i])
    && (forall i :: i in after.finished && after.finished[i].ByWorker? ==> i in s.finished)
  }

  lemma BlockCreditsNoWorker(s: System, t: Token, now: Time)
    requires BlockEnabled(s, t, now)
    ensures NoWorkerCredited(s, BlockStep(s, t, now))
  {
  }

  lemma BlockKeepsTokens(s: System, t: Token, now: Time)
    requires BlockEnabled(s, t, now)
    ensures TokensKept(s, BlockStep(s, t, now))
  {
  }

  lemma BlockKeepsAccounts(s: System, t: Token, now: Time)
    requires ClaimsAccounted(s) && BlockEnabled(s, t, now)
    ensures ClaimsAccounted(BlockStep(s, t, now))
  {
    BlockKeepsTokens(s, t, now);
    TokensKeepAccounts(s, BlockStep(s, t, now));
  }

  lemma BlockKeepsLedger(s: System, t: Token, now: Time)
    requires Sound(s.db) && Ledgered(s) && BlockEnabled(s, t, now)
    ensures Ledgered(BlockStep(s, t, now))
  {
    BlockKeepsFinishes(s, t, now);
    BlockKeepsAccounts(s, t, now);
    RunsInRange(s.db);
    BlockCreditsNoWorker(s, t, now);
    RowsKeepItems(s, BlockStep(s, t, now));
  }

  lemma ReconciliationCreditsNoWorker(s: System, now: Time, skipped: set<nat>)
    ensures NoWorkerCredited(s, ReconciliationStep(s, now, skipped))
  {
  }

  lemma ReconciliationKeepsLedger(s: System, now: Time, skipped: set<nat>)
    requires Sound(s.db) && Submitting(s) && Ledgered(s)
    ensures Ledgered(ReconciliationStep(s, now, skipped))
  {
    ReconciliationKeepsAccounts(s, now, skipped);
    ReconciliationKeepsFinishes(s, now, skipped);
    RunsInRange(s.db);
    ReconciliationCreditsNoWorker(s, now, skipped);
    RowsKeepItems(s, ReconciliationStep(s, now, skipped));
  }

  lemma LaunchKeepsLedger(s: System, plan: Launches.Plan)
    requires Sound(s.db) && Ledgered(s) && Launches.Launched(s.db, plan).Some?
    ensures Ledgered(s.(db := Launches.Launched(s.db, plan).value))
  {
    var n := Launches.Planned(s.db, plan).value;
    var after := s.(db := Launches.Launched(s.db, plan).value);
    forall i | 0 <= i < |after.db.executions|
      ensures i < |s.db.executions| ==> after.db.executions[i] == s.db.executions[i]
      ensures i >= |s.db.executions| ==> after.db.executions[i].phase != TerminalObserved
    {
      LaunchProofs.AppendedRow(s.db, n, i);
    }
    SoundPhases(s.db.executions);
    TokensKeepAccounts(s, after);
    UnfinishedKeepsLedger(s, after);
  }

  lemma ActionKeepsLedger(s: System, t: Token, action: Action)
    requires Sound(s.db) && Submitting(s) && Ledgered(s) && ActionEnabled(s, t, action)
    ensures Ledgered(Act(s, t, action))
  {
    match action
    case Heartbeat(now, lease) => HeldKeepsLedger(s, t, now, lease);
    case Mark(now, lease) => HeldKeepsLedger(s, t, now, lease);
    case Submit(outcome, seen, usable) => SubmitKeepsLedger(s, t, outcome, seen, usable);
    case Finish(now) => FinishKeepsLedger(s, t, now);
    case Block(now) => BlockKeepsLedger(s, t, now);
    case _ => QuietKeepsLedger(s, t, action);
  }

  lemma SubmitKeepsLedger(s: System, t: Token, outcome: FinalOutcome, seen: Observation, usable: bool)
    requires Sound(s.db) && Ledgered(s) && SubmitEnabled(s, t)
    ensures Ledgered(SubmitStep(s, t, outcome, seen, usable))
  {
    var after := SubmitStep(s, t, outcome, seen, usable);
    SoundPhases(s.db.executions);
    SubmitMovesOneTask(s, t, outcome, seen, usable);
    TokensKeepAccounts(s, after);
    UnfinishedKeepsLedger(s, after);
  }

  lemma SubmitMovesOneTask(s: System, t: Token, outcome: FinalOutcome, seen: Observation, usable: bool)
    requires SubmitEnabled(s, t)
    ensures var after := SubmitStep(s, t, outcome, seen, usable);
      && after.db == s.db && after.finished == s.finished && TokensKept(s, after)
      && after.reclaimed == s.reclaimed
  {
  }

  lemma OtherStepFinishesNothing(s: System, step: Step)
    requires RowsSound(s.db.executions) && Enabled(s, step)
    requires step.Tick? || step.AddRevision? || step.AddScenario? || step.Promote? || step.Validate?
    ensures NothingFinished(s, Apply(s, step)) && Apply(s, step).tasks == s.tasks
    ensures |Apply(s, step).db.executions| == |s.db.executions|
    ensures forall i :: 0 <= i < |s.db.executions| ==> Apply(s, step).db.executions[i].token == s.db.executions[i].token
  {
    SoundPhases(s.db.executions);
    if !step.Validate? { CatalogStepsAreQuiet(s, step); }
  }

  lemma OtherStepKeepsLedger(s: System, step: Step)
    requires Sound(s.db) && Ledgered(s) && Enabled(s, step)
    requires step.Tick? || step.AddRevision? || step.AddScenario? || step.Promote? || step.Validate?
    ensures Ledgered(Apply(s, step))
  {
    OtherStepFinishesNothing(s, step);
    TokensKeepAccounts(s, Apply(s, step));
    UnfinishedKeepsLedger(s, Apply(s, step));
  }

  lemma StepKeepsLedger(s: System, step: Step)
    requires Sound(s.db) && Submitting(s) && Ledgered(s) && Enabled(s, step)
    ensures Ledgered(Apply(s, step))
  {
    match step
    case Launch(plan) => LaunchKeepsLedger(s, plan);
    case Claim(i, worker, t, now, lease) =>
      ClaimFinishesNothing(s, i, worker, t, now, lease);
      ClaimKeepsAccounts(s, i, worker, t, now, lease);
      UnfinishedKeepsLedger(s, ClaimStep(s, i, worker, t, now, lease));
    case Work(t, action) => ActionKeepsLedger(s, t, action);
    case Reconciliation(now, skipped) => ReconciliationKeepsLedger(s, now, skipped);
    case _ => OtherStepKeepsLedger(s, step);
  }
}
