/** The worker process: it reconciles, claims, and finishes what it claimed. Once no lease is live and time passes
    every dispatch delay, one reconciliation and one cycle for each waiting single question empty the queue of
    everything except turns whose session is unusable. */
module Drain {
  import opened Sets
  import opened Wrappers
  import opened Rows
  import opened Transactions
  import opened TableInvariants
  import opened TransactionProofs
  import opened WorkQueue
  import opened Columns
  import opened ClaimSteps
  import opened ClaimProcessing
  import opened ProtocolRuns
  import P = Protocol
  import ReconcileLoop
  import Traces

  predicate NothingRunning(es: seq<Execution>) {
    forall i :: 0 <= i < |es| ==> es[i].outcome != Running
  }

  function Waiting(es: seq<Execution>): set<nat> {
    set i: nat | i < |es| && es[i].outcome == Pending
  }

  function WaitingSingles(es: seq<Execution>): set<nat> {
    set i: nat | i < |es| && es[i].outcome == Pending && es[i].manifest.conversation.None?
  }

  function WaitingTurns(es: seq<Execution>): set<nat> {
    set i: nat | i < |es| && es[i].outcome == Pending && es[i].manifest.conversation.Some?
  }

  /** The rows that were claimed between two versions of the table. */
  function Served(es: seq<Execution>, fs: seq<Execution>): set<nat>
    requires |fs| == |es|
  {
    set i: nat | i < |es| && fs[i].claimAttempt != es[i].claimAttempt
  }

  /** Every waiting row was claimed once and finished, or was blocked unclaimed, or waits; nothing else changed. */
  predicate Drained(es: seq<Execution>, fs: seq<Execution>) {
    && |fs| == |es|
    && forall k: nat :: k < |es| ==>
         || fs[k] == es[k] || BlockedFrom(es[k], fs[k])
         || (&& es[k].outcome == Pending && fs[k].outcome.Terminal() && fs[k].manifest == es[k].manifest
             && fs[k].claimAttempt == es[k].claimAttempt + 1)
  }

  /** Waiting turns whose session is already unusable: nothing offers them and nothing ends them. */
  function StuckTurns(db: Tables): set<nat> {
    set i: nat | i < |db.executions| && db.executions[i].outcome == Pending && Stuck(db, db.executions[i])
  }

  // ---------- what may always be claimed ----------

  predicate Dispatchable(db: Tables, now: Time) {
    forall r :: 0 <= r < |db.runs| ==> db.runs[r].DispatchableAt(now)
  }

  /** A waiting row of a quiet queue can be claimed, unless it waits for an earlier turn or its session is unusable. */
  lemma WaitingRowIsClaimable(db: Tables, i: nat, now: Time)
    requires Sound(db) && NothingRunning(db.executions) && Dispatchable(db, now)
    requires i < |db.executions| && db.executions[i].outcome == Pending
    ensures Claimable(db, i, now) <==> TurnReady(db, db.executions[i])
  {
    var e := db.executions[i];
    assert RowLinked(db, e) && RunLinked(db, db.runs[e.manifest.run]) && RunAgrees(db, e.manifest.run);
    assert RunActive(db.executions, e.manifest.run, now) == {};
    assert RevisionActive(db.executions, e.manifest.revision, now) == {};
  }

  /** The first waiting turn of a usable attempt is ready, so an idle queue holds stuck turns only. */
  lemma {:induction false} IdleMeansStuck(db: Tables, i: nat, now: Time)
    requires Sound(db) && NothingRunning(db.executions) && Dispatchable(db, now)
    requires NoneOffered(db, |db.executions|, now, {})
    requires i < |db.executions| && db.executions[i].outcome == Pending
    ensures Stuck(db, db.executions[i])
    decreases if db.executions[i].manifest.conversation.Some? then db.executions[i].manifest.conversation.value.ordinal
      else 0
  {
    WaitingRowIsClaimable(db, i, now);
    assert RowLinked(db, db.executions[i]);
    if !Stuck(db, db.executions[i]) {
      var j :| 0 <= j < |db.executions| && EarlierTurn(db.executions[j], db.executions[i])
               && !db.executions[j].outcome.Terminal();
      IdleMeansStuck(db, j, now);
    }
  }

  /** A queue of stuck turns only is idle at every time: the stuck turns are never offered. */
  lemma StuckIsIdle(db: Tables, now: Time)
    requires forall i :: 0 <= i < |db.executions| && db.executions[i].outcome == Pending ==> Stuck(db, db.executions[i])
    ensures NoneOffered(db, |db.executions|, now, {})
  {
  }

  // ---------- the reconciliation before the cycles ----------

  predicate LeasesPassed(es: seq<Execution>, now: Time) {
    forall i :: 0 <= i < |es| && es[i].Held() ==> es[i].expiresAt.Some? && es[i].expiresAt.value <= now
  }

  /** Once the clock has passed every lease, a reconciliation that finds no row locked leaves nothing running. */
  lemma ReconciliationClearsRunning(es: seq<Execution>, now: Time)
    requires RowsSound(es) && LeasesPassed(es, now)
    ensures NothingRunning(ReconcileRows(es, now, {}))
  {
    forall i | 0 <= i < |es| ensures ReconcileRows(es, now, {})[i].outcome != Running {
      assert RowSound(es[i]);
      if es[i].outcome == Running { assert Handled(es, i, now, {}); }
    }
  }

  /** The single questions that wait afterwards: those that waited before, and those safely reclaimed. */
  lemma SinglesAfterReconciliation(es: seq<Execution>, now: Time, skipped: set<nat>)
    ensures var back := set i: nat | i < |es| && Reclaimed(es, i, now, skipped) && es[i].manifest.conversation.None?;
      && WaitingSingles(ReconcileRows(es, now, skipped)) == WaitingSingles(es) + back
      && |WaitingSingles(ReconcileRows(es, now, skipped))| == |WaitingSingles(es)| + |back|
  {
    var fs := ReconcileRows(es, now, skipped);
    var back := set i: nat | i < |es| && Reclaimed(es, i, now, skipped) && es[i].manifest.conversation.None?;
    forall i: nat | i < |es| ensures i in WaitingSingles(fs) <==> i in WaitingSingles(es) || i in back {
      assert fs[i] == ReconcileRow(es, i, now, skipped);
    }
    assert WaitingSingles(fs) == WaitingSingles(es) + back;
    assert WaitingSingles(es) !! back;
  }

  // ---------- the cycles ----------

  /** The next time at which no run's dispatch delay is in the way. */
  function PastDelays(runs: seq<Run>, now: Time): (later: Time)
    ensures now <= later
    ensures forall r :: 0 <= r < |runs| ==> runs[r].DispatchableAt(later)
  {
    if runs == [] then now
    else
      var rest := PastDelays(runs[..|runs| - 1], now);
      var last := runs[|runs| - 1].nextDispatchAt;
      if last.Some? && rest < last.value then last.value else rest
  }

  lemma CycleShrinks(before: seq<Execution>, claimed: seq<Execution>, after: seq<Execution>, i: nat)
    requires i < |before| && before[i].outcome == Pending && NothingRunning(before)
    requires |claimed| == |before| && claimed == before[i := claimed[i]] && claimed[i].manifest == before[i].manifest
    requires claimed[i].outcome == Running && Finished(claimed, after, i)
    ensures NothingRunning(after)
    ensures before[i].manifest.conversation.None? ==>
      WaitingSingles(after) == WaitingSingles(before) - {i} && WaitingTurns(after) == WaitingTurns(before)
    ensures before[i].manifest.conversation.Some? ==>
      WaitingSingles(after) == WaitingSingles(before) && WaitingTurns(after) <= WaitingTurns(before) - {i}
    ensures i in (if before[i].manifest.conversation.None? then WaitingSingles(before) else WaitingTurns(before))
  {
    forall k | 0 <= k < |before| && k != i
      ensures after[k] == before[k]
              || (before[k].outcome == Pending && SameAttempt(before[i], before[k]) && after[k].outcome == Error)
    {
      assert claimed[k] == before[k];
    }
  }

  lemma CycleServes(start: seq<Execution>, before: seq<Execution>, held: seq<Execution>, after: seq<Execution>, i: nat)
    requires Drained(start, before) && i < |before| && before[i].outcome == Pending
    requires |held| == |before| && held == before[i := held[i]] && held[i].manifest == before[i].manifest
    requires held[i].claimAttempt == before[i].claimAttempt + 1 && Finished(held, after, i)
    ensures Drained(start, after) && |Served(start, after)| == |Served(start, before)| + 1
  {
    assert before[i] == start[i];
    forall k: nat | k < |start| && k != i
      ensures after[k] == before[k] || (before[k] == start[k] && BlockedFrom(start[k], after[k]))
    {
      assert held[k] == before[k];
    }
    assert Served(start, after) == Served(start, before) + {i};
  }

  /** A claim that was not stuck leaves exactly the stuck turns stuck. */
  lemma CycleKeepsStuck(before: Tables, held: Tables, after: Tables, i: nat)
    requires i < |before.executions| && before.executions[i].outcome == Pending
      && TurnReady(before, before.executions[i])
    requires |held.executions| == |before.executions| && held.executions == before.executions[i := held.executions[i]]
    requires held.executions[i].manifest == before.executions[i].manifest && held.attempts == before.attempts
    requires Finished(held.executions, after.executions, i)
    requires before.executions[i].manifest.conversation.None? ==> after.attempts == before.attempts
    requires before.executions[i].manifest.conversation.Some? ==>
      SessionHandled(before.attempts, after, before.executions[i].manifest.conversation.value.attempt)
    ensures StuckTurns(after) == StuckTurns(before)
  {
    forall k: nat | k < |before.executions| ensures k in StuckTurns(after) <==> k in StuckTurns(before) {
      if k != i {
        assert held.executions[k] == before.executions[k];
        assert after.executions[k].manifest == before.executions[k].manifest;
      }
    }
  }

  // ---------- the cycles as a run of the protocol ----------

  /** Every token given out so far is below `first`. */
  predicate TokensBelow(s: P.System, first: Token) {
    forall t :: t in s.tasks ==> t < first
  }

  lemma TickAndClaim(s: P.System, past: seq<P.Step>, mid: P.System, i: nat, worker: string, t: Token, now: Time,
      lease: nat)
    returns (steps: seq<P.Step>, after: P.System)
    requires Reaches(s, past, mid) && mid.clock <= now && worker != "" && TokensBelow(mid, t)
      && Claimable(mid.db, i, now)
    ensures Reaches(s, steps, after) && after.clock == now && after.db == RecordClaim(mid.db, i, worker, t, now, lease)
    ensures TokensBelow(after, t + 1) && At(after, after.db, i, worker, t, P.Holding)
  {
    var tick, claim := P.Tick(now), P.Claim(i, worker, t, now, lease);
    var ticked := P.Apply(mid, tick);
    assert t !in mid.tasks;
    after := P.Apply(ticked, claim);
    OneStep(mid, tick);
    OneStep(ticked, claim);
    ReachesOn(mid, [tick], ticked, [claim], after);
    ReachesOn(s, past, mid, [tick] + [claim], after);
    steps := past + ([tick] + [claim]);
  }

  lemma ThenProcess(s: P.System, past: seq<P.Step>, mid: P.System, more: seq<P.Step>, after: P.System, t: Token)
    requires Reaches(s, past, mid) && Ran(mid, more, after, t) && TokensBelow(mid, t + 1)
    ensures Reaches(s, past + more, after) && TokensBelow(after, t + 1) && after.clock == mid.clock
  {
    ReachesOn(s, past, mid, more, after);
  }

  /** The claimed row ends as the target's reply to it says. */
  predicate AnsweredIn(held: Tables, after: Tables, i: nat, reply: TargetReply, now: Time) {
    HasPlace(held, i) && EndedAs(held, after, i, EndingFor(held, i, reply), reply.closes, now)
  }

  /** A single question that waited has ended, unsent if it was unfit and otherwise as the target's reply says. */
  predicate SingleAnswered(e: Execution, f: Execution, reply: TargetReply) {
    if e.manifest.preflightError != "" then
      f.outcome == Error && f.observation.errorClass == e.manifest.preflightError && f.observation.rawAnswer == ""
    else
      var ending := if reply.before.Some? then reply.before.value else reply.answer;
      f.outcome == ending.outcome && f.observation == ending.seen
  }

  ghost predicate SinglesAnswered(start: seq<Execution>, es: seq<Execution>, replies: nat -> TargetReply) {
    && |es| == |start|
    && forall i: nat :: i < |start| && i in WaitingSingles(start) ==>
         || (es[i] == start[i] && i in WaitingSingles(es))
         || (es[i].outcome.Terminal() && SingleAnswered(start[i], es[i], replies(i)))
  }

  ghost predicate AllAnswered(start: seq<Execution>, es: seq<Execution>, replies: nat -> TargetReply) {
    && |es| == |start|
    && forall i: nat :: i < |start| && i in WaitingSingles(start) ==> SingleAnswered(start[i], es[i], replies(i))
  }

  lemma CycleAnswers(start: seq<Execution>, before: Tables, after: Tables, i: nat, worker: string, t: Token, now: Time,
      lease: nat, replies: nat -> TargetReply)
    requires SinglesAnswered(start, before.executions, replies) && Claimable(before, i, now)
    requires var held := RecordClaim(before, i, worker, t, now, lease);
      ClaimEnded(held, after, i) && AnsweredIn(held, after, i, replies(i), now)
    ensures SinglesAnswered(start, after.executions, replies)
  {
  }

  /** One cycle of the worker with one thread: claim the first row offered and process it. */
  method Cycle(q: Queue, worker: string, token: Token, now: Time, lease: nat, replies: nat -> TargetReply,
      ghost s: P.System, ghost past: seq<P.Step>, ghost mid: P.System)
    returns (claimed: Option<nat>, ghost steps: seq<P.Step>, ghost after: P.System)
    requires Sound(q.Db()) && NothingRunning(q.executions) && forall i :: replies(i).Possible()
    requires Reaches(s, past, mid) && mid.db == q.Db() && mid.clock <= now && TokensBelow(mid, token)
    modifies q
    ensures Sound(q.Db()) && Reaches(s, steps, after) && after.db == q.Db()
    ensures after.clock <= now && TokensBelow(after, token + 1)
    ensures claimed.None? ==> q.Db() == old(q.Db()) && NoneOffered(q.Db(), |q.executions|, now, {})
    ensures claimed.None? ==> TokensBelow(after, token)
    ensures claimed.Some? ==> Claimable(old(q.Db()), claimed.value, now)
    ensures claimed.Some? ==>
      var i, held := claimed.value, RecordClaim(old(q.Db()), claimed.value, WorkerIdentity(worker), token, now, lease);
      ClaimEnded(held, q.Db(), i) && AnsweredIn(held, q.Db(), i, replies(i), now)
  {
    claimed := q.ClaimNextExecution(worker, token, now, lease, {});
    if claimed.None? { return claimed, past, mid; }
    steps, after := Serve(q, claimed.value, WorkerIdentity(worker), token, now, lease, replies(claimed.value),
                          s, past, mid);
  }

  /** Process the row that was just claimed; `mid` is the state before the claim. */
  method Serve(q: Queue, i: nat, worker: string, token: Token, now: Time, lease: nat, reply: TargetReply,
      ghost s: P.System, ghost past: seq<P.Step>, ghost mid: P.System)
    returns (ghost steps: seq<P.Step>, ghost after: P.System)
    requires Sound(q.Db()) && reply.Possible() && worker != ""
    requires Reaches(s, past, mid) && mid.clock <= now && TokensBelow(mid, token) && Claimable(mid.db, i, now)
    requires q.Db() == RecordClaim(mid.db, i, worker, token, now, lease)
    modifies q
    ensures Sound(q.Db()) && ClaimEnded(old(q.Db()), q.Db(), i) && AnsweredIn(old(q.Db()), q.Db(), i, reply, now)
    ensures Reaches(s, steps, after) && after.db == q.Db() && after.clock <= now && TokensBelow(after, token + 1)
  {
    ghost var held, more := mid, [];
    steps, held := TickAndClaim(s, past, mid, i, worker, token, now, lease);
    NothingRan(held, token);
    more, after := ProcessClaim(q, i, worker, token, now, lease, reply, held, [], held);
    ThenProcess(s, steps, held, more, after, token);
    steps := steps + more;
  }

  /** What a cycle does to the counts and to the stuck turns. */
  lemma CycleCounts(start: seq<Execution>, before: Tables, after: Tables, i: nat, worker: string, t: Token, now: Time,
      lease: nat)
    requires NothingRunning(before.executions) && Drained(start, before.executions) && Claimable(before, i, now)
    requires ClaimEnded(RecordClaim(before, i, worker, t, now, lease), after, i)
    ensures |after.executions| == |before.executions|
    ensures NothingRunning(after.executions) && Drained(start, after.executions)
    ensures |Served(start, after.executions)| == |Served(start, before.executions)| + 1
    ensures StuckTurns(after) == StuckTurns(before)
    ensures before.executions[i].manifest.conversation.None? ==>
      && |WaitingSingles(after.executions)| == |WaitingSingles(before.executions)| - 1
      && WaitingTurns(after.executions) == WaitingTurns(before.executions)
    ensures before.executions[i].manifest.conversation.Some? ==>
      && WaitingSingles(after.executions) == WaitingSingles(before.executions)
      && |WaitingTurns(after.executions)| < |WaitingTurns(before.executions)|
    ensures after.executions[i].manifest == before.executions[i].manifest
  {
    var held := RecordClaim(before, i, worker, t, now, lease);
    CycleShrinks(before.executions, held.executions, after.executions, i);
    CycleKeepsStuck(before, held, after, i);
    CycleServes(start, before.executions, held.executions, after.executions, i);
    if before.executions[i].manifest.conversation.Some? {
      SubsetSize(WaitingTurns(after.executions), WaitingTurns(before.executions) - {i});
    }
  }

  /** The worker with one thread, until the queue offers nothing: how many cycles it took for each kind of row. The
      cycles are as many as the rows that were claimed, and every row that waited was claimed, blocked, or stuck from
      the start. */
  method Cycles(q: Queue, worker: string, first: Token, start: Time, lease: nat, replies: nat -> TargetReply,
      ghost s: P.System, ghost past: seq<P.Step>, ghost mid: P.System)
    returns (singles: nat, turns: nat, ghost steps: seq<P.Step>, ghost after: P.System)
    requires Sound(q.Db()) && NothingRunning(q.executions) && forall i :: replies(i).Possible()
    requires Reaches(s, past, mid) && mid.db == q.Db() && mid.clock <= start && TokensBelow(mid, first)
    modifies q
    ensures Sound(q.Db()) && NothingRunning(q.executions)
    ensures Waiting(q.executions) == StuckTurns(old(q.Db()))
    ensures singles == |WaitingSingles(old(q.executions))| && WaitingSingles(q.executions) == {}
    ensures Drained(old(q.executions), q.executions) && singles + turns == |Served(old(q.executions), q.executions)|
    ensures AllAnswered(old(q.executions), q.executions, replies)
    ensures forall r :: 0 <= r < |q.runs| ==> (q.runs[r].Terminal() <==> !HasStuckTurn(q.Db(), r))
    ensures Reaches(s, steps, after) && after.db == q.Db()
  {
    singles, turns, steps, after := 0, 0, past, mid;
    var now, busy := start, true;
    while busy
      invariant Sound(q.Db()) && NothingRunning(q.executions)
      invariant singles + |WaitingSingles(q.executions)| == |WaitingSingles(old(q.executions))|
      invariant Drained(old(q.executions), q.executions) && SinglesAnswered(old(q.executions), q.executions, replies)
      invariant singles + turns == |Served(old(q.executions), q.executions)|
      invariant StuckTurns(q.Db()) == StuckTurns(old(q.Db()))
      invariant Reaches(s, steps, after) && after.db == q.Db()
      invariant after.clock <= now && TokensBelow(after, first + singles + turns)
      invariant !busy ==> Dispatchable(q.Db(), now) && NoneOffered(q.Db(), |q.executions|, now, {})
      decreases busy, |WaitingSingles(q.executions)| + |WaitingTurns(q.executions)|
    {
      now := PastDelays(q.runs, now);
      ghost var before := q.Db();
      var token := first + singles + turns;
      var claimed;
      claimed, steps, after := Cycle(q, worker, token, now, lease, replies, s, steps, after);
      if claimed.None? {
        busy := false;
      } else {
        CycleCounts(old(q.executions), before, q.Db(), claimed.value, WorkerIdentity(worker), token, now, lease);
        CycleAnswers(old(q.executions), before, q.Db(), claimed.value, WorkerIdentity(worker), token, now, lease,
                     replies);
        if q.executions[claimed.value].manifest.conversation.None? {
          singles := singles + 1;
        } else {
          turns := turns + 1;
        }
      }
    }
    OnlyStuckLeft(q.Db(), now);
  }

  predicate HasStuckTurn(db: Tables, r: nat) {
    exists i :: i in StuckTurns(db) && i < |db.executions| && db.executions[i].manifest.run == r
  }

  lemma OnlyStuckLeft(db: Tables, now: Time)
    requires Sound(db) && NothingRunning(db.executions) && Dispatchable(db, now)
    requires NoneOffered(db, |db.executions|, now, {})
    ensures Waiting(db.executions) == StuckTurns(db) == WaitingTurns(db.executions)
    ensures WaitingSingles(db.executions) == {}
    ensures forall r :: 0 <= r < |db.runs| ==> (db.runs[r].Terminal() <==> !HasStuckTurn(db, r))
  {
    forall i: nat | i < |db.executions| && db.executions[i].outcome == Pending ensures Stuck(db, db.executions[i]) {
      IdleMeansStuck(db, i, now);
    }
    forall r | 0 <= r < |db.runs| ensures db.runs[r].Terminal() <==> !HasStuckTurn(db, r) {
      assert RunAgrees(db, r);
      if !RunDone(db.executions, r) {
        var i :| 0 <= i < |db.executions| && db.executions[i].manifest.run == r && !db.executions[i].outcome.Terminal();
        assert i in StuckTurns(db);
      }
    }
  }

  /** The turns that a drain can never finish, told from the tables before it: waiting, or about to be reclaimed,
      under a session that is unusable and that this reconciliation does not itself give up. */
  lemma StuckAfterReconciliation(db: Tables, now: Time, skipped: set<nat>, i: nat)
    requires Sound(db) && i < |db.executions|
    ensures i in StuckTurns(Reconcile(db, now, skipped)) <==>
      && Stuck(db, db.executions[i])
      && !BrokenAttempt(db.executions, db.executions[i].manifest.conversation.value.attempt, now, skipped)
      && (db.executions[i].outcome == Pending || Reclaimed(db.executions, i, now, skipped))
  {
    var e := db.executions[i];
    var f := Reconcile(db, now, skipped).executions[i];
    assert f == ReconcileRow(db.executions, i, now, skipped) && f.manifest == e.manifest;
    if e.manifest.conversation.Some? {
      var a := e.manifest.conversation.value.attempt;
      assert e.InAttempt(a) && RowLinked(db, e);
      if BrokenAttempt(db.executions, a, now, skipped) {
        ReconcileLoop.BrokenAttemptDone(db, a, now, skipped);
        assert f.InAttempt(a) && f.outcome.Terminal();
      }
    }
  }

  lemma TickAndReconcile(s: P.System, now: Time) returns (steps: seq<P.Step>, after: P.System)
    requires s.clock <= now
    ensures Reaches(s, steps, after) && after.db == Reconcile(s.db, now, {}) && after.clock == now
      && after.tasks == s.tasks
  {
    var tick, reconcile := P.Tick(now), P.Reconciliation(now, {});
    var ticked := P.Apply(s, tick);
    after := P.Apply(ticked, reconcile);
    OneStep(s, tick);
    OneStep(ticked, reconcile);
    ReachesOn(s, [tick], ticked, [reconcile], after);
    steps := [tick] + [reconcile];
  }

  /** The whole drain, from any sound state whose leases have all passed: every run ends, in one cycle for each waiting
      single question, except the runs with a turn that was stuck from the start. It is a run of the protocol. Nothing
      happens at all if the recovery at its beginning raises. */
  method DrainQueue(q: Queue, worker: string, first: Token, start: Time, lease: nat, replies: nat -> TargetReply,
      ghost s: P.System)
    returns (ok: bool, singles: nat, turns: nat, ghost steps: seq<P.Step>, ghost after: P.System)
    requires Sound(q.Db()) && LeasesPassed(q.executions, start) && forall i :: replies(i).Possible()
    requires s.db == q.Db() && s.clock <= start && TokensBelow(s, first)
    modifies q
    ensures Sound(q.Db()) && Reaches(s, steps, after) && after.db == q.Db()
    ensures ok <==> RecoveryFits(old(q.executions), start, {})
    ensures !ok ==> q.Db() == old(q.Db())
    ensures ok ==> NothingRunning(q.executions)
    ensures ok ==> Waiting(q.executions) == StuckTurns(Reconcile(old(q.Db()), start, {}))
    ensures ok ==> singles == |WaitingSingles(ReconcileRows(old(q.executions), start, {}))|
    ensures ok ==>
      var recovered := ReconcileRows(old(q.executions), start, {});
      && Drained(recovered, q.executions) && singles + turns == |Served(recovered, q.executions)|
      && AllAnswered(recovered, q.executions, replies)
    ensures ok ==> forall r :: 0 <= r < |q.runs| ==> (q.runs[r].Terminal() <==> !HasStuckTurn(q.Db(), r))
  {
    ghost var past, mid := TickAndReconcile(s, start);
    var safeReclaimed, ambiguous;
    ok, safeReclaimed, ambiguous := q.ReconcileStaleClaims(start, {});
    if !ok { return false, 0, 0, [], s; }
    ReconciliationClearsRunning(old(q.executions), start);
    singles, turns, steps, after := Cycles(q, worker, first, start, lease, replies, s, past, mid);
  }

  /** So a drain from the end of any trace continues that trace, and all that holds of every trace holds of it. */
  lemma DrainContinuesTrace(states: seq<P.System>, steps: seq<P.Step>, more: seq<P.Step>, after: P.System)
    returns (all: seq<P.System>)
    requires Traces.Behavior(states, steps) && Reaches(states[|steps|], more, after)
    ensures Traces.Behavior(all, steps + more) && all[|steps + more|] == after
    ensures Traces.Inv(after)
  {
    var rest := ReachesIsTrace(states[|steps|], more, after);
    P.StepsAppend(states, steps, rest, more);
    all := states + rest[1..];
    Traces.TraceHoldsInv(all, steps + more, |steps + more|);
  }

  // ---------- the batch of a threaded worker ----------

  /** The rows of a batch: distinct, not locked by others, each held under its own token and a full lease. */
  predicate Batch(es: seq<Execution>, claims: seq<nat>, worker: string, first: Token, expiry: Time, skipped: set<nat>) {
    && (forall c, d :: 0 <= c < d < |claims| ==> claims[c] != claims[d])
    && (forall c :: 0 <= c < |claims| ==>
          && claims[c] < |es| && claims[c] !in skipped
          && es[claims[c]].OwnedBy(worker, first + c) && es[claims[c]].expiresAt == Some(expiry))
  }

  predicate OthersKept(before: seq<Execution>, after: seq<Execution>, claims: seq<nat>) {
    |after| == |before| && forall k :: 0 <= k < |before| && k !in claims ==> after[k] == before[k]
  }

  lemma BatchGrows(start: seq<Execution>, db: Tables, after: Tables, claims: seq<nat>, i: nat, worker: string,
      first: Token, now: Time, lease: nat, skipped: set<nat>) returns (more: seq<nat>)
    requires Batch(db.executions, claims, worker, first, now + lease, skipped)
    requires OthersKept(start, db.executions, claims) && Claimable(db, i, now) && i !in skipped
    requires after == RecordClaim(db, i, worker, first + |claims|, now, lease)
    ensures more == claims + [i] && Batch(after.executions, more, worker, first, now + lease, skipped)
    ensures OthersKept(start, after.executions, more)
  {
    more := claims + [i];
  }

  /** The inner loop of the worker: claims until it has `room` of them or none is offered. */
  method ClaimBatch(q: Queue, worker: string, first: Token, room: nat, now: Time, lease: nat, skipped: set<nat>)
    returns (claims: seq<nat>)
    requires Sound(q.Db())
    modifies q
    ensures Sound(q.Db()) && |claims| <= room
    ensures |claims| < room ==> NoneOffered(q.Db(), |q.executions|, now, skipped)
    ensures Batch(q.executions, claims, WorkerIdentity(worker), first, now + lease, skipped)
    ensures OthersKept(old(q.executions), q.executions, claims)
  {
    claims := [];
    var offered := true;
    while offered && |claims| < room
      invariant Sound(q.Db()) && |claims| <= room
      invariant Batch(q.executions, claims, WorkerIdentity(worker), first, now + lease, skipped)
      invariant OthersKept(old(q.executions), q.executions, claims)
      invariant !offered ==> NoneOffered(q.Db(), |q.executions|, now, skipped)
      decreases offered, room - |claims|
    {
      claims, offered := ClaimOneMore(q, old(q.executions), claims, worker, first, now, lease, skipped);
    }
  }

  method ClaimOneMore(q: Queue, ghost start: seq<Execution>, claims: seq<nat>, worker: string, first: Token, now: Time,
      lease: nat, skipped: set<nat>) returns (more: seq<nat>, offered: bool)
    requires Sound(q.Db())
    requires Batch(q.executions, claims, WorkerIdentity(worker), first, now + lease, skipped)
    requires OthersKept(start, q.executions, claims)
    modifies q
    ensures Sound(q.Db()) && |more| == |claims| + if offered then 1 else 0
    ensures Batch(q.executions, more, WorkerIdentity(worker), first, now + lease, skipped)
    ensures OthersKept(start, q.executions, more)
    ensures !offered ==> NoneOffered(q.Db(), |q.executions|, now, skipped)
  {
    ghost var db := q.Db();
    var claimed := q.ClaimNextExecution(worker, first + |claims|, now, lease, skipped);
    if claimed.None? { return claims, false; }
    more, offered := claims + [claimed.value], true;
    ghost var grown := BatchGrows(start, db, q.Db(), claims, claimed.value, WorkerIdentity(worker), first, now, lease,
                                  skipped);
  }
}
