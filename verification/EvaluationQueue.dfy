/** The queue of analyses of stored answers, and the results they append. Unlike target calls an expired analysis is
    always queued again; what must happen once is the evidence, not the analysis. */
module EvaluationQueue {
  import opened Wrappers
  import opened Rows

  datatype Kind = Evaluator | Judge

  datatype InvocationState = Waiting | Analysing | Done | Broken

  datatype Invocation = Invocation(
    execution: nat,
    kind: Kind,
    state: InvocationState,
    worker: string,
    token: Option<Token>,
    claimAttempt: nat,
    heartbeatAt: Option<Time>,
    expiresAt: Option<Time>)
  {
    /** The claim-state check constraint of the invocation table. */
    predicate ClaimState() {
      || (state == Waiting && worker == "" && token.None? && heartbeatAt.None? && expiresAt.None?)
      || (state == Analysing && worker != "" && token.Some? && heartbeatAt.Some? && expiresAt.Some?)
      || state in {Done, Broken}
    }

    predicate HeldBy(w: string, t: Token) { state == Analysing && worker == w && token == Some(t) }
  }

  /** What is current is decided per execution, kind and evaluator; a judge has no evaluator key. */
  datatype Slot = Slot(execution: nat, kind: Kind, key: string)

  /** A result row; one from before the queue existed has no invocation and supersedes nothing. */
  datatype Result = Result(slot: Slot, invocation: Option<nat>, createdAt: Time, supersedes: Option<nat>) {
    /** `_result_invocation_id`: invocation ids start at one. */
    function Rank(): nat { if invocation.Some? then invocation.value + 1 else 0 }
  }

  datatype Analyses = Analyses(invocations: seq<Invocation>, results: seq<Result>, issued: set<Token>)

  // ---------- the current result ----------

  /** The key the maximum is taken by: request sequence, then time, then primary key. */
  predicate Above(rs: seq<Result>, x: nat, y: nat)
    requires x < |rs| && y < |rs|
  {
    || rs[x].Rank() > rs[y].Rank()
    || (rs[x].Rank() == rs[y].Rank()
        && (rs[x].createdAt > rs[y].createdAt || (rs[x].createdAt == rs[y].createdAt && x > y)))
  }

  /** `current_judge_result` and, per key, `current_automated_results`: the maximum of a slot's history. */
  function Current(rs: seq<Result>, slot: Slot): (c: Option<nat>)
    ensures c.Some? ==> c.value < |rs| && rs[c.value].slot == slot
    ensures c.Some? ==> forall y :: 0 <= y < |rs| && rs[y].slot == slot && y != c.value ==> Above(rs, c.value, y)
    ensures c.None? ==> forall y :: 0 <= y < |rs| ==> rs[y].slot != slot
  {
    if rs == [] then None
    else
      var n := |rs| - 1;
      var c := Current(rs[..n], slot);
      if rs[n].slot == slot && (c.None? || Above(rs, n, c.value)) then Some(n) else c
  }

  // ---------- the transactions ----------

  const KEY_LIMIT := 100

  /** How a key is stored: cut to the width of its column. */
  function StoredKey(key: string): string { if |key| > KEY_LIMIT then key[..KEY_LIMIT] else key }

  function Enqueue(s: Analyses, execution: nat, kind: Kind): Analyses {
    s.(invocations := s.invocations + [Invocation(execution, kind, Waiting, "", None, 0, None, None)])
  }

  /** The oldest waiting invocation that is not locked by another worker. */
  predicate Oldest(s: Analyses, i: nat, skipped: set<nat>) {
    && i < |s.invocations| && i !in skipped && s.invocations[i].state == Waiting
    && forall j :: 0 <= j < i && j !in skipped ==> s.invocations[j].state != Waiting
  }

  function ClaimInvocation(s: Analyses, i: nat, worker: string, t: Token, now: Time, lease: nat): Analyses
    requires i < |s.invocations|
  {
    var v := s.invocations[i];
    s.(invocations := s.invocations[i := v.(state := Analysing, worker := worker, token := Some(t),
                        claimAttempt := v.claimAttempt + 1, heartbeatAt := Some(now), expiresAt := Some(now + lease))],
       issued := s.issued + {t})
  }

  function RefreshInvocation(s: Analyses, i: nat, now: Time, lease: nat): Analyses
    requires i < |s.invocations|
  {
    s.(invocations := s.invocations[i := s.invocations[i].(heartbeatAt := Some(now), expiresAt := Some(now + lease))])
  }

  function Released(v: Invocation): Invocation {
    v.(state := Waiting, worker := "", token := None, heartbeatAt := None, expiresAt := None)
  }

  predicate Expired(v: Invocation, now: Time) {
    v.state == Analysing && v.expiresAt.Some? && v.expiresAt.value <= now
  }

  function Requeue(s: Analyses, now: Time, skipped: set<nat>): Analyses {
    s.(invocations := seq(|s.invocations|, i requires 0 <= i < |s.invocations| =>
         if i !in skipped && Expired(s.invocations[i], now) then Released(s.invocations[i]) else s.invocations[i]))
  }

  /** The prior result that a new one of invocation `i` replaces, looked up under the key as the evaluator gives it. */
  function Replaces(rs: seq<Result>, slot: Slot, i: nat): Option<nat> {
    var prior := Current(rs, slot);
    if prior.Some? && i + 1 > rs[prior.value].Rank() then prior else None
  }

  function KeyOf(kind: Kind, key: string): string { if kind == Judge then "" else key }

  /** The appending transaction, for the holder of the claim. */
  function Append(s: Analyses, i: nat, key: string, createdAt: Time): Analyses
    requires i < |s.invocations|
  {
    var v := s.invocations[i];
    var k := KeyOf(v.kind, key);
    s.(results := s.results + [Result(Slot(v.execution, v.kind, StoredKey(k)), Some(i), createdAt,
                                      Replaces(s.results, Slot(v.execution, v.kind, k), i))],
       invocations := s.invocations[i := v.(state := Done, heartbeatAt := None, expiresAt := None)])
  }

  datatype Step =
    | Ask(execution: nat, kind: Kind)
    | Claim(invocation: nat, worker: string, token: Token, now: Time, lease: nat, skipped: set<nat>)
    | Heartbeat(invocation: nat, worker: string, token: Token, now: Time, lease: nat)
    | Recover(now: Time, skipped: set<nat>)
    | Report(invocation: nat, worker: string, token: Token, key: string, createdAt: Time)

  predicate Enabled(s: Analyses, step: Step) {
    match step
    case Ask(_, _) => true
    case Claim(i, worker, t, _, _, skipped) => Oldest(s, i, skipped) && worker != "" && t !in s.issued
    case Heartbeat(i, _, _, _, _) => i < |s.invocations|
    case Recover(_, _) => true
    case Report(i, _, _, _, _) => i < |s.invocations|
  }

  /** Any worker may report or renew at any time; only the holder of the latest claim has an effect. */
  function Apply(s: Analyses, step: Step): Analyses
    requires Enabled(s, step)
  {
    match step
    case Ask(execution, kind) => Enqueue(s, execution, kind)
    case Claim(i, worker, t, now, lease, _) => ClaimInvocation(s, i, worker, t, now, lease)
    case Heartbeat(i, worker, t, now, lease) =>
      if s.invocations[i].HeldBy(worker, t) then RefreshInvocation(s, i, now, lease) else s
    case Recover(now, skipped) => Requeue(s, now, skipped)
    case Report(i, worker, t, key, createdAt) =>
      if s.invocations[i].HeldBy(worker, t) then Append(s, i, key, createdAt) else s
  }

  // ---------- invariants ----------

  predicate Reported(s: Analyses, i: nat) {
    exists x :: 0 <= x < |s.results| && s.results[x].invocation == Some(i)
  }

  /** Exactly the completed invocations have evidence, each once, in the slot they were asked for. */
  predicate EvidenceOnce(s: Analyses) {
    && (forall i :: 0 <= i < |s.invocations| ==> (s.invocations[i].state == Done <==> Reported(s, i)))
    && (forall i :: 0 <= i < |s.invocations| ==> s.invocations[i].state != Broken)
    && (forall x, y :: 0 <= x < y < |s.results| && s.results[x].invocation.Some?
                       ==> s.results[x].invocation != s.results[y].invocation)
    && (forall x :: 0 <= x < |s.results| && s.results[x].invocation.Some? ==> RightSlot(s, s.results[x]))
  }

  predicate RightSlot(s: Analyses, r: Result)
    requires r.invocation.Some?
  {
    && r.invocation.value < |s.invocations|
    && s.invocations[r.invocation.value].execution == r.slot.execution
    && s.invocations[r.invocation.value].kind == r.slot.kind
    && (r.slot.kind == Judge ==> r.slot.key == "") && |r.slot.key| <= KEY_LIMIT
  }

  /** Claims keep the table's constraint, and no two invocations ever carry the same token. */
  predicate Fenced(s: Analyses) {
    && (forall i :: 0 <= i < |s.invocations| ==> s.invocations[i].ClaimState())
    && (forall i :: 0 <= i < |s.invocations| && s.invocations[i].token.Some? ==>
          s.invocations[i].token.value in s.issued)
    && (forall i, j :: 0 <= i < j < |s.invocations| && s.invocations[i].token.Some?
                       ==> s.invocations[i].token != s.invocations[j].token)
  }

  /** A result of an invocation points at what was current in its slot when it came, if that was asked for earlier. */
  predicate ChainedAt(rs: seq<Result>, x: nat)
    requires x < |rs|
  {
    var r := rs[x];
    if r.invocation.None? then r.supersedes.None?
    else
      && (r.supersedes.Some? ==> r.supersedes == Replaces(rs[..x], r.slot, r.invocation.value))
      && (|r.slot.key| < KEY_LIMIT ==> r.supersedes == Replaces(rs[..x], r.slot, r.invocation.value))
  }

  predicate Chained(rs: seq<Result>) {
    forall x :: 0 <= x < |rs| ==> ChainedAt(rs, x)
  }

  predicate Inv(s: Analyses) { EvidenceOnce(s) && Fenced(s) && Chained(s.results) }

  /** Before the queue existed there were only results without invocations; no key is wider than its column. */
  predicate Init(s: Analyses) {
    && s.invocations == [] && s.issued == {} && ShortKeys(s.results)
    && forall x :: 0 <= x < |s.results| ==> s.results[x].invocation.None? && s.results[x].supersedes.None?
  }

  lemma LongKeysFindNothing(rs: seq<Result>, slot: Slot)
    requires |slot.key| > KEY_LIMIT
    requires forall x :: 0 <= x < |rs| ==> |rs[x].slot.key| <= KEY_LIMIT
    ensures Current(rs, slot) == None
  {
  }

  lemma AppendKeepsChain(s: Analyses, i: nat, key: string, createdAt: Time)
    requires i < |s.invocations| && Chained(s.results)
    requires forall x :: 0 <= x < |s.results| ==> |s.results[x].slot.key| <= KEY_LIMIT
    ensures Chained(Append(s, i, key, createdAt).results)
  {
    var v := s.invocations[i];
    var k := KeyOf(v.kind, key);
    var rs := Append(s, i, key, createdAt).results;
    forall x | 0 <= x < |rs| ensures ChainedAt(rs, x) {
      if x < |s.results| {
        assert ChainedAt(s.results, x);
        assert rs[..x] == s.results[..x];
      } else {
        assert rs[..x] == s.results;
        if |k| > KEY_LIMIT { LongKeysFindNothing(s.results, Slot(v.execution, v.kind, k)); }
      }
    }
  }

  lemma AppendKeepsEvidence(s: Analyses, i: nat, key: string, createdAt: Time)
    requires i < |s.invocations| && EvidenceOnce(s) && s.invocations[i].state == Analysing
    ensures EvidenceOnce(Append(s, i, key, createdAt))
  {
    var after := Append(s, i, key, createdAt);
    var n := |s.results|;
    assert after.results[n].invocation == Some(i);
    forall j | 0 <= j < |after.invocations| ensures after.invocations[j].state == Done <==> Reported(after, j) {
      if Reported(s, j) {
        var x :| 0 <= x < |s.results| && s.results[x].invocation == Some(j);
        assert after.results[x].invocation == Some(j);
      }
      if Reported(after, j) && j != i {
        var x :| 0 <= x < |after.results| && after.results[x].invocation == Some(j);
        assert s.results[x].invocation == Some(j);
      }
    }
    assert !Reported(s, i);
  }

  predicate ShortKeys(rs: seq<Result>) {
    forall x :: 0 <= x < |rs| ==> |rs[x].slot.key| <= KEY_LIMIT
  }

  /** The queue fields change, the results do not, and no invocation becomes or stops being done. */
  lemma QueueChangeKeepsEvidence(s: Analyses, after: Analyses)
    requires EvidenceOnce(s) && after.results == s.results && |after.invocations| == |s.invocations|
    requires forall i :: 0 <= i < |s.invocations| ==>
      && after.invocations[i].execution == s.invocations[i].execution
      && after.invocations[i].kind == s.invocations[i].kind
      && (after.invocations[i].state == Done <==> s.invocations[i].state == Done)
      && after.invocations[i].state != Broken
    ensures EvidenceOnce(after)
  {
    forall i | 0 <= i < |after.invocations| ensures Reported(after, i) <==> Reported(s, i) {}
    forall x | 0 <= x < |after.results| && after.results[x].invocation.Some?
      ensures RightSlot(after, after.results[x])
    {
      assert RightSlot(s, s.results[x]);
    }
  }

  lemma AskKeepsEvidence(s: Analyses, execution: nat, kind: Kind)
    requires EvidenceOnce(s)
    ensures EvidenceOnce(Enqueue(s, execution, kind))
  {
    var after := Enqueue(s, execution, kind);
    var n := |s.invocations|;
    forall x | 0 <= x < |after.results| && after.results[x].invocation.Some?
      ensures RightSlot(after, after.results[x])
    {
      assert RightSlot(s, s.results[x]);
    }
    forall i | 0 <= i < |after.invocations| ensures after.invocations[i].state == Done <==> Reported(after, i) {
      if i < n { assert Reported(after, i) <==> Reported(s, i); }
    }
  }

  lemma StepKeepsInv(s: Analyses, step: Step)
    requires Inv(s) && ShortKeys(s.results) && Enabled(s, step)
    ensures Inv(Apply(s, step)) && ShortKeys(Apply(s, step).results)
  {
    match step
    case Ask(execution, kind) => AskKeepsEvidence(s, execution, kind);
    case Claim(i, worker, t, now, lease, _) => QueueChangeKeepsEvidence(s, Apply(s, step));
    case Heartbeat(i, worker, t, now, lease) => QueueChangeKeepsEvidence(s, Apply(s, step));
    case Recover(now, skipped) => QueueChangeKeepsEvidence(s, Apply(s, step));
    case Report(i, worker, t, key, createdAt) => ReportKeepsInv(s, step);
  }

  lemma ReportKeepsInv(s: Analyses, step: Step)
    requires Inv(s) && ShortKeys(s.results) && step.Report? && Enabled(s, step)
    ensures Inv(Apply(s, step)) && ShortKeys(Apply(s, step).results)
  {
    if s.invocations[step.invocation].HeldBy(step.worker, step.token) {
      AppendKeepsEvidence(s, step.invocation, step.key, step.createdAt);
      AppendKeepsChain(s, step.invocation, step.key, step.createdAt);
    }
  }

  // ---------- traces ----------

  ghost predicate StepAt(states: seq<Analyses>, steps: seq<Step>, k: nat)
    requires k < |steps| && |states| == |steps| + 1
  {
    Enabled(states[k], steps[k]) && states[k + 1] == Apply(states[k], steps[k])
  }

  ghost predicate Behavior(states: seq<Analyses>, steps: seq<Step>) {
    && |states| == |steps| + 1 && Init(states[0])
    && forall k: nat :: k < |steps| ==> StepAt(states, steps, k)
  }

  lemma {:induction false} BehaviorHoldsInv(states: seq<Analyses>, steps: seq<Step>, k: nat)
    requires Behavior(states, steps) && k < |states|
    ensures Inv(states[k]) && ShortKeys(states[k].results)
  {
    if k > 0 {
      BehaviorHoldsInv(states, steps, k - 1);
      assert StepAt(states, steps, k - 1);
      StepKeepsInv(states[k - 1], steps[k - 1]);
    }
  }

  /** However often an analysis ran: completed means exactly one result, anything else means none. */
  lemma EvidenceOncePerInvocation(states: seq<Analyses>, steps: seq<Step>, k: nat, i: nat)
    requires Behavior(states, steps) && k < |states| && i < |states[k].invocations|
    ensures var evidence := set x: nat | x < |states[k].results| && states[k].results[x].invocation == Some(i);
      |evidence| == if states[k].invocations[i].state == Done then 1 else 0
    ensures states[k].invocations[i].ClaimState()
  {
    BehaviorHoldsInv(states, steps, k);
    var s := states[k];
    var evidence := set x: nat | x < |s.results| && s.results[x].invocation == Some(i);
    if s.invocations[i].state == Done {
      assert Reported(s, i);
      var x :| 0 <= x < |s.results| && s.results[x].invocation == Some(i);
      assert evidence == {x};
    } else {
      assert !Reported(s, i);
      assert evidence == {};
    }
  }

  predicate Holds(s: Analyses, t: Token) {
    exists i :: 0 <= i < |s.invocations| && s.invocations[i].state == Analysing && s.invocations[i].token == Some(t)
  }

  lemma LostClaimStep(s: Analyses, step: Step, t: Token)
    requires Enabled(s, step) && t in s.issued && !Holds(s, t)
    ensures t in Apply(s, step).issued && !Holds(Apply(s, step), t)
  {
    var after := Apply(s, step);
    forall i | 0 <= i < |after.invocations| && after.invocations[i].token == Some(t)
      ensures after.invocations[i].state != Analysing
    {
      assert i < |s.invocations| && s.invocations[i].token == Some(t);
    }
  }

  lemma {:induction false} LostClaimUpTo(states: seq<Analyses>, steps: seq<Step>, k: nat, m: nat, t: Token)
    requires Behavior(states, steps) && k <= m < |states| && t in states[k].issued && !Holds(states[k], t)
    ensures t in states[m].issued && !Holds(states[m], t)
    decreases m
  {
    if m > k {
      LostClaimUpTo(states, steps, k, m - 1, t);
      assert StepAt(states, steps, m - 1);
      LostClaimStep(states[m - 1], steps[m - 1], t);
    }
  }

  /** A claim that was lost, by expiry or by having reported, never counts again, so whoever still acts under it
      changes nothing at any later point. */
  lemma LostClaimStaysLost(states: seq<Analyses>, steps: seq<Step>, k: nat, m: nat, i: nat, worker: string,
      t: Token, key: string, createdAt: Time)
    requires Behavior(states, steps) && k <= m < |states| && t in states[k].issued && !Holds(states[k], t)
    requires i < |states[m].invocations|
    ensures t in states[m].issued && !Holds(states[m], t)
    ensures Apply(states[m], Report(i, worker, t, key, createdAt)) == states[m]
  {
    LostClaimUpTo(states, steps, k, m, t);
    if states[m].invocations[i].HeldBy(worker, t) {
      assert Holds(states[m], t);
    }
  }

  // ---------- what is current does not depend on completion order ----------

  /** The requests that have reported into a slot; zero stands for evidence older than the queue. */
  function Ranks(rs: seq<Result>, slot: Slot): set<nat> {
    set x | 0 <= x < |rs| && rs[x].slot == slot :: rs[x].Rank()
  }

  lemma CurrentHasHighestRank(rs: seq<Result>, slot: Slot)
    ensures Current(rs, slot).Some? <==> Ranks(rs, slot) != {}
    ensures Current(rs, slot).Some? ==>
      rs[Current(rs, slot).value].Rank() in Ranks(rs, slot)
      && forall n :: n in Ranks(rs, slot) ==> n <= rs[Current(rs, slot).value].Rank()
  {
    var c := Current(rs, slot);
    if c.None? {
      assert Ranks(rs, slot) == {};
    } else {
      assert rs[c.value].Rank() in Ranks(rs, slot);
      forall n | n in Ranks(rs, slot) ensures n <= rs[c.value].Rank() {
        var x :| 0 <= x < |rs| && rs[x].slot == slot && rs[x].Rank() == n;
        if x != c.value { assert Above(rs, c.value, x); }
      }
    }
  }

  /** Two histories of the same requests, completed in any two orders at any two sets of times, agree on which request
      is current in every slot; rows older than the queue never outrank one of its results. */
  lemma CurrentIsOrderIndependent(rs: seq<Result>, qs: seq<Result>, slot: Slot)
    requires Ranks(rs, slot) == Ranks(qs, slot)
    ensures Current(rs, slot).Some? <==> Current(qs, slot).Some?
    ensures Current(rs, slot).Some? ==>
      rs[Current(rs, slot).value].invocation == qs[Current(qs, slot).value].invocation
    ensures Current(rs, slot).Some? && (exists n :: n in Ranks(rs, slot) && n > 0) ==>
      rs[Current(rs, slot).value].invocation.Some?
  {
    CurrentHasHighestRank(rs, slot);
    CurrentHasHighestRank(qs, slot);
  }

  /** Results are only ever added, each by a request. */
  lemma {:induction false} ResultsOnlyGrow(states: seq<Analyses>, steps: seq<Step>, k: nat)
    requires Behavior(states, steps) && k < |states|
    ensures states[0].results <= states[k].results
    ensures forall x :: |states[0].results| <= x < |states[k].results| ==> states[k].results[x].invocation.Some?
  {
    if k > 0 {
      ResultsOnlyGrow(states, steps, k - 1);
      assert StepAt(states, steps, k - 1);
    }
  }

  /** The requests of one kind for one execution that are done. */
  function DoneRequests(s: Analyses, execution: nat, kind: Kind): set<nat> {
    set i: nat | i < |s.invocations| && s.invocations[i].state == Done
                 && s.invocations[i].kind == kind && s.invocations[i].execution == execution
  }

  /** The slot a request reports into when its analysis gives `key`. */
  function SlotFor(execution: nat, kind: Kind, key: string): Slot {
    Slot(execution, kind, StoredKey(KeyOf(kind, key)))
  }

  /** Every report on a request of this kind came from the evaluator that `keyOf` names for it. */
  ghost predicate ReportsUnder(states: seq<Analyses>, steps: seq<Step>, kind: Kind, keyOf: nat -> string)
    requires |states| == |steps| + 1
  {
    forall k: nat :: k < |steps| ==> ReportUnder(states[k], steps[k], kind, keyOf)
  }

  predicate ReportUnder(s: Analyses, step: Step, kind: Kind, keyOf: nat -> string) {
    step.Report? && step.invocation < |s.invocations| && s.invocations[step.invocation].kind == kind
    ==> KeyOf(kind, step.key) == KeyOf(kind, keyOf(step.invocation))
  }

  predicate KeyedFrom(rs: seq<Result>, first: nat, kind: Kind, keyOf: nat -> string) {
    forall x :: first <= x < |rs| && rs[x].invocation.Some? && rs[x].slot.kind == kind ==>
      rs[x].slot.key == StoredKey(KeyOf(kind, keyOf(rs[x].invocation.value)))
  }

  lemma {:induction false} ResultsAreKeyed(states: seq<Analyses>, steps: seq<Step>, k: nat, kind: Kind,
      keyOf: nat -> string)
    requires Behavior(states, steps) && k < |states| && ReportsUnder(states, steps, kind, keyOf)
    ensures KeyedFrom(states[k].results, |states[0].results|, kind, keyOf)
  {
    if k > 0 {
      ResultsAreKeyed(states, steps, k - 1, kind, keyOf);
      assert StepAt(states, steps, k - 1) && ReportUnder(states[k - 1], steps[k - 1], kind, keyOf);
    }
  }

  /** The ranks of a slot are its legacy rows and the done requests whose evaluator's key it is. */
  predicate SlotHolds(s: Analyses, first: seq<Result>, slot: Slot, keyOf: nat -> string, n: nat) {
    || n in Ranks(first, slot)
    || (n > 0 && n - 1 in DoneRequests(s, slot.execution, slot.kind)
        && SlotFor(slot.execution, slot.kind, keyOf(n - 1)) == slot)
  }

  lemma RankIsKnown(s: Analyses, first: seq<Result>, slot: Slot, keyOf: nat -> string, n: nat)
    requires EvidenceOnce(s) && first <= s.results && KeyedFrom(s.results, |first|, slot.kind, keyOf)
    requires forall x :: |first| <= x < |s.results| ==> s.results[x].invocation.Some?
    requires n in Ranks(s.results, slot)
    ensures SlotHolds(s, first, slot, keyOf, n)
  {
    var x :| 0 <= x < |s.results| && s.results[x].slot == slot && s.results[x].Rank() == n;
    if x < |first| {
      assert first[x] == s.results[x];
    } else {
      assert RightSlot(s, s.results[x]) && Reported(s, n - 1);
    }
  }

  lemma KnownRankIsThere(s: Analyses, first: seq<Result>, slot: Slot, keyOf: nat -> string, n: nat)
    requires EvidenceOnce(s) && first <= s.results && KeyedFrom(s.results, |first|, slot.kind, keyOf)
    requires forall x :: 0 <= x < |first| ==> s.results[x].invocation.None?
    requires SlotHolds(s, first, slot, keyOf, n)
    ensures n in Ranks(s.results, slot)
  {
    if n in Ranks(first, slot) {
      var x :| 0 <= x < |first| && first[x].slot == slot && first[x].Rank() == n;
      assert s.results[x] == first[x];
    } else {
      assert Reported(s, n - 1);
      var x :| 0 <= x < |s.results| && s.results[x].invocation == Some(n - 1);
      assert RightSlot(s, s.results[x]);
      assert s.results[x].slot == slot;
    }
  }

  lemma TraceRanks(states: seq<Analyses>, steps: seq<Step>, k: nat, slot: Slot, keyOf: nat -> string, n: nat)
    requires Behavior(states, steps) && k < |states| && ReportsUnder(states, steps, slot.kind, keyOf)
    ensures n in Ranks(states[k].results, slot) <==> SlotHolds(states[k], states[0].results, slot, keyOf, n)
  {
    BehaviorHoldsInv(states, steps, k);
    ResultsOnlyGrow(states, steps, k);
    ResultsAreKeyed(states, steps, k, slot.kind, keyOf);
    if n in Ranks(states[k].results, slot) { RankIsKnown(states[k], states[0].results, slot, keyOf, n); }
    forall x | 0 <= x < |states[0].results| ensures states[k].results[x].invocation.None? {
      assert states[k].results[x] == states[0].results[x];
    }
    if SlotHolds(states[k], states[0].results, slot, keyOf, n) {
      KnownRankIsThere(states[k], states[0].results, slot, keyOf, n);
    }
  }

  /** Two whole histories from the same start in which the same requests got done, each by the same evaluator, in
      whatever order and with whatever expiries and lost workers in between: in every slot, so for every evaluator key,
      the same request is current, and it is the highest. */
  lemma CurrentIsOrderIndependentInTraces(states: seq<Analyses>, steps: seq<Step>, k: nat,
      others: seq<Analyses>, otherSteps: seq<Step>, m: nat, slot: Slot, keyOf: nat -> string)
    requires Behavior(states, steps) && k < |states| && Behavior(others, otherSteps) && m < |others|
    requires states[0].results == others[0].results
    requires ReportsUnder(states, steps, slot.kind, keyOf) && ReportsUnder(others, otherSteps, slot.kind, keyOf)
    requires DoneRequests(states[k], slot.execution, slot.kind) == DoneRequests(others[m], slot.execution, slot.kind)
    ensures var c, d := Current(states[k].results, slot), Current(others[m].results, slot);
      && (c.Some? <==> d.Some?)
      && (c.Some? ==> states[k].results[c.value].invocation == others[m].results[d.value].invocation)
      && (forall i :: i in DoneRequests(states[k], slot.execution, slot.kind)
                      && SlotFor(slot.execution, slot.kind, keyOf(i)) == slot ==>
            c.Some? && i < states[k].results[c.value].Rank())
  {
    forall n: nat ensures n in Ranks(states[k].results, slot) <==> n in Ranks(others[m].results, slot) {
      TraceRanks(states, steps, k, slot, keyOf, n);
      TraceRanks(others, otherSteps, m, slot, keyOf, n);
    }
    assert Ranks(states[k].results, slot) == Ranks(others[m].results, slot);
    CurrentIsOrderIndependent(states[k].results, others[m].results, slot);
    CurrentHasHighestRank(states[k].results, slot);
    forall i | i in DoneRequests(states[k], slot.execution, slot.kind)
               && SlotFor(slot.execution, slot.kind, keyOf(i)) == slot
      ensures i + 1 in Ranks(states[k].results, slot)
    {
      TraceRanks(states, steps, k, slot, keyOf, i + 1);
    }
  }

  /** For the judge nothing need be said of keys: the same done judge requests make the same one current. */
  lemma CurrentJudgeIsOrderIndependent(states: seq<Analyses>, steps: seq<Step>, k: nat,
      others: seq<Analyses>, otherSteps: seq<Step>, m: nat, execution: nat)
    requires Behavior(states, steps) && k < |states| && Behavior(others, otherSteps) && m < |others|
    requires states[0].results == others[0].results
    requires DoneRequests(states[k], execution, Judge) == DoneRequests(others[m], execution, Judge)
    ensures var c, d := Current(states[k].results, SlotFor(execution, Judge, "")),
                        Current(others[m].results, SlotFor(execution, Judge, ""));
      && (c.Some? <==> d.Some?)
      && (c.Some? ==> states[k].results[c.value].invocation == others[m].results[d.value].invocation)
      && (forall i :: i in DoneRequests(states[k], execution, Judge) ==>
            c.Some? && i < states[k].results[c.value].Rank())
  {
    var keyOf: nat -> string := (i: nat) => "";
    var slot := SlotFor(execution, Judge, "");
    CurrentIsOrderIndependentInTraces(states, steps, k, others, otherSteps, m, slot, keyOf);
    forall i | i in DoneRequests(states[k], execution, Judge)
      ensures i in DoneRequests(states[k], slot.execution, slot.kind) && SlotFor(execution, Judge, keyOf(i)) == slot {}
  }

  // ---------- supersession ----------

  lemma SupersededPair(rs: seq<Result>, x: nat)
    requires x < |rs| && ChainedAt(rs, x) && rs[x].supersedes.Some?
    ensures var y := rs[x].supersedes.value;
      && y < x && rs[y].slot == rs[x].slot && rs[y].Rank() < rs[x].Rank()
      && forall z :: 0 <= z < x && rs[z].slot == rs[x].slot ==> rs[z].Rank() <= rs[y].Rank()
  {
    var y := rs[x].supersedes.value;
    var before := rs[..x];
    assert Current(before, rs[x].slot) == Some(y);
    forall z | 0 <= z < x && rs[z].slot == rs[x].slot ensures rs[z].Rank() <= rs[y].Rank() {
      assert before[z] == rs[z] && before[y] == rs[y];
      if z != y { assert Above(before, y, z); }
    }
  }

  /** Supersession goes from a later request to an earlier one of the same slot, no result is superseded twice, and the
      current one is not superseded, in every trace. */
  lemma SupersessionIsAChain(states: seq<Analyses>, steps: seq<Step>, k: nat)
    requires Behavior(states, steps) && k < |states|
    ensures forall x :: 0 <= x < |states[k].results| && states[k].results[x].supersedes.Some? ==>
      Supersedes(states[k].results, x, states[k].results[x].supersedes.value)
    ensures forall x, y :: 0 <= x < y < |states[k].results| && states[k].results[x].supersedes.Some? ==>
      states[k].results[x].supersedes != states[k].results[y].supersedes
    ensures forall x, slot :: 0 <= x < |states[k].results| && Current(states[k].results, slot).Some? ==>
      states[k].results[x].supersedes != Current(states[k].results, slot)
  {
    BehaviorHoldsInv(states, steps, k);
    var rs := states[k].results;
    forall x | 0 <= x < |rs| && rs[x].supersedes.Some? ensures Supersedes(rs, x, rs[x].supersedes.value) {
      assert ChainedAt(rs, x);
      SupersededPair(rs, x);
    }
    forall x, y | 0 <= x < y < |rs| && rs[x].supersedes.Some? ensures rs[x].supersedes != rs[y].supersedes {
      assert ChainedAt(rs, x) && ChainedAt(rs, y);
      SupersededPair(rs, x);
      if rs[x].supersedes == rs[y].supersedes { SupersededPair(rs, y); }
    }
  }

  predicate Supersedes(rs: seq<Result>, x: nat, y: nat)
    requires x < |rs|
  {
    y < x && rs[y].slot == rs[x].slot && rs[y].Rank() < rs[x].Rank()
  }

  /** A report that counts supersedes nothing exactly when its key is wider than its column, since it is looked up
      uncut, or its slot is empty, or a later request has reported into it before. */
  lemma SupersedesNothingWhen(states: seq<Analyses>, steps: seq<Step>, k: nat)
    requires Behavior(states, steps) && k < |steps| && steps[k].Report?
    requires steps[k].invocation < |states[k].invocations|
    requires states[k].invocations[steps[k].invocation].HeldBy(steps[k].worker, steps[k].token)
    ensures var s, i, rs := states[k], steps[k].invocation, states[k].results;
      var v := s.invocations[i];
      var key := KeyOf(v.kind, steps[k].key);
      && |states[k + 1].results| == |rs| + 1
      && (states[k + 1].results[|rs|].supersedes.None? <==>
            || |key| > KEY_LIMIT
            || Ranks(rs, Slot(v.execution, v.kind, key)) == {}
            || exists n :: n in Ranks(rs, Slot(v.execution, v.kind, key)) && n > i + 1)
  {
    var s, i, rs := states[k], steps[k].invocation, states[k].results;
    var v := s.invocations[i];
    var slot := Slot(v.execution, v.kind, KeyOf(v.kind, steps[k].key));
    assert StepAt(states, steps, k);
    BehaviorHoldsInv(states, steps, k);
    CurrentHasHighestRank(rs, slot);
    if |slot.key| > KEY_LIMIT { LongKeysFindNothing(rs, slot); }
    NotReportedYet(s, i, slot);
  }

  /** A request that is still being analysed is not among the ranks of any slot. */
  lemma NotReportedYet(s: Analyses, i: nat, slot: Slot)
    requires EvidenceOnce(s) && i < |s.invocations| && s.invocations[i].state == Analysing
    ensures i + 1 !in Ranks(s.results, slot)
  {
    assert !Reported(s, i);
  }

  // ---------- the same transactions in place ----------

  function ExpiredBelow(vs: seq<Invocation>, n: nat, now: Time, skipped: set<nat>): set<nat> {
    set j: nat | j < |vs| && j < n && j !in skipped && Expired(vs[j], now)
  }

  lemma OneMoreExpired(vs: seq<Invocation>, n: nat, now: Time, skipped: set<nat>)
    requires n < |vs|
    ensures |ExpiredBelow(vs, n + 1, now, skipped)| ==
      |ExpiredBelow(vs, n, now, skipped)| + if n !in skipped && Expired(vs[n], now) then 1 else 0
  {
    var before, more := ExpiredBelow(vs, n, now, skipped), ExpiredBelow(vs, n + 1, now, skipped);
    assert more == if n !in skipped && Expired(vs[n], now) then before + {n} else before;
  }

  class Queue {
    var invocations: seq<Invocation>
    var results: seq<Result>
    ghost var issued: set<Token>

    ghost function State(): Analyses
      reads this
    {
      Analyses(invocations, results, issued)
    }

    constructor (rows: seq<Result>)
      ensures State() == Analyses([], rows, {})
    {
      invocations, results, issued := [], rows, {};
    }

    /** `claim_next_evaluation_invocation` */
    method ClaimNext(worker: string, token: Token, now: Time, lease: nat, skipped: set<nat>)
      returns (claimed: Option<nat>)
      modifies this
      ensures claimed.Some? ==>
        Oldest(old(State()), claimed.value, skipped)
        && State() == ClaimInvocation(old(State()), claimed.value, worker, token, now, lease)
      ensures claimed.None? ==>
        State() == old(State())
        && forall j :: 0 <= j < |invocations| && j !in skipped ==> invocations[j].state != Waiting
    {
      for i := 0 to |invocations|
        invariant State() == old(State())
        invariant forall j :: 0 <= j < i && j !in skipped ==> invocations[j].state != Waiting
      {
        if i !in skipped && invocations[i].state == Waiting {
          var v := invocations[i];
          invocations := invocations[i := v.(state := Analysing, worker := worker, token := Some(token),
            claimAttempt := v.claimAttempt + 1, heartbeatAt := Some(now), expiresAt := Some(now + lease))];
          issued := issued + {token};
          return Some(i);
        }
      }
      return None;
    }

    /** `refresh_evaluation_invocation_lease` */
    method RefreshLease(i: nat, worker: string, token: Token, now: Time, lease: nat) returns (renewed: bool)
      requires i < |invocations|
      modifies `invocations
      ensures renewed <==> old(invocations)[i].HeldBy(worker, token)
      ensures State() == Apply(old(State()), Heartbeat(i, worker, token, now, lease))
    {
      renewed := invocations[i].HeldBy(worker, token);
      if renewed {
        invocations := invocations[i := invocations[i].(heartbeatAt := Some(now), expiresAt := Some(now + lease))];
      }
    }

    /** `reconcile_stale_evaluation_invocations` */
    method RequeueExpired(now: Time, skipped: set<nat>) returns (requeued: nat)
      modifies `invocations
      ensures State() == Requeue(old(State()), now, skipped)
      ensures requeued == |set i: nat | i < |old(invocations)| && i !in skipped && Expired(old(invocations)[i], now)|
    {
      requeued := 0;
      var stale := invocations;
      ghost var requeuedAll := Requeue(State(), now, skipped).invocations;
      for i := 0 to |stale|
        invariant |invocations| == |stale|
        invariant forall j :: 0 <= j < i ==> invocations[j] == requeuedAll[j]
        invariant forall j :: i <= j < |stale| ==> invocations[j] == stale[j]
        invariant requeued == |ExpiredBelow(stale, i, now, skipped)|
      {
        OneMoreExpired(stale, i, now, skipped);
        if i !in skipped && Expired(stale[i], now) {
          invocations := invocations[i := Released(invocations[i])];
          requeued := requeued + 1;
        }
      }
      assert invocations == requeuedAll;
      assert ExpiredBelow(stale, |stale|, now, skipped)
        == set i: nat | i < |stale| && i !in skipped && Expired(stale[i], now);
    }

    /** The last transaction of `_append_evaluator_result` and `_append_judge_result`: whether it appended. */
    method ReportResult(i: nat, worker: string, token: Token, key: string, createdAt: Time) returns (appended: bool)
      requires i < |invocations|
      modifies `invocations, `results
      ensures appended <==> old(invocations)[i].HeldBy(worker, token)
      ensures State() == if appended then Append(old(State()), i, key, createdAt) else old(State())
    {
      var v := invocations[i];
      if v.state != Analysing || v.worker != worker || v.token != Some(token) { return false; }
      var k := KeyOf(v.kind, key);
      var prior := FindCurrent(Slot(v.execution, v.kind, k));
      var supersedes := if prior.Some? && i + 1 > results[prior.value].Rank() then prior else None;
      results := results + [Result(Slot(v.execution, v.kind, StoredKey(k)), Some(i), createdAt, supersedes)];
      invocations := invocations[i := v.(state := Done, heartbeatAt := None, expiresAt := None)];
      return true;
    }

    /** One pass over the history, keeping the best seen. */
    method FindCurrent(slot: Slot) returns (current: Option<nat>)
      ensures current == Current(results, slot)
    {
      current := None;
      for n := 0 to |results|
        invariant current == Current(results[..n], slot)
      {
        assert results[..n + 1][..n] == results[..n];
        assert current.Some? ==>
          (Above(results, n, current.value) <==> Above(results[..n + 1], n, current.value));
        if results[n].slot == slot && (current.None? || Above(results, n, current.value)) { current := Some(n); }
      }
      assert results[..|results|] == results;
    }
  }
}
