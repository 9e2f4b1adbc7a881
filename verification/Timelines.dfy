/** Temporal catalog rows: target revisions, question versions, and conversation scenarios, whose versions move in step
    with the versions of a companion question. */
module Timelines {
  import opened Wrappers
  import opened Rows
  import JsonPrinter

  /** An immutable version; its end is written once, when the next one begins. */
  datatype Version = Version(number: nat, validFrom: Time, validTo: Option<Time>, body: string)
  {
    predicate Open() { validTo.None? }
    predicate InForce(t: Time) { validFrom <= t && (validTo.Some? ==> t < validTo.value) }
  }

  // ---------- adding a version ----------

  /** `versions.filter(valid_to__isnull=True).first()` */
  function Current(vs: seq<Version>): (c: Option<nat>)
    ensures c.Some? ==> c.value < |vs| && vs[c.value].Open() && forall k :: 0 <= k < c.value ==> !vs[k].Open()
    ensures c.None? ==> forall k :: 0 <= k < |vs| ==> !vs[k].Open()
  {
    if vs == [] then None
    else if vs[0].Open() then Some(0)
    else var rest := Current(vs[1..]); if rest.Some? then Some(rest.value + 1) else None
  }

  /** `aggregate(Max(...)) or 0` */
  function MaxNumber(vs: seq<Version>): (m: nat)
    ensures forall k :: 0 <= k < |vs| ==> vs[k].number <= m
    ensures m == 0 || exists k :: 0 <= k < |vs| && vs[k].number == m
  {
    if vs == [] then 0
    else
      var rest := MaxNumber(vs[..|vs| - 1]);
      var last := vs[|vs| - 1].number;
      if rest < last then last else rest
  }

  /** Close the current version, if there is one, and append its successor. */
  function Append(vs: seq<Version>, at: Time, body: string): seq<Version> {
    var c := Current(vs);
    (if c.Some? then vs[c.value := vs[c.value].(validTo := Some(at))] else vs)
      + [Version(MaxNumber(vs) + 1, at, None, body)]
  }

  /** The services test this, and the valid-range constraint of the tables would refuse it as well. */
  predicate MayBegin(vs: seq<Version>, at: Time) {
    Current(vs).Some? ==> at > vs[Current(vs).value].validFrom
  }

  /** `create_target_revision` and `create_question_version`: `None` when the validation raises. */
  function AddVersion(vs: seq<Version>, at: Time, body: string): Option<seq<Version>> {
    if MayBegin(vs, at) then Some(Append(vs, at, body)) else None
  }

  /** The same, on the rows of one target or question; a refused change leaves them as they were. */
  class Timeline {
    var versions: seq<Version>

    constructor (start: Time, body: string)
      ensures versions == [Version(1, start, None, body)] && Partition(versions)
    {
      versions := [Version(1, start, None, body)];
    }

    method CreateVersion(at: Time, body: string) returns (ok: bool)
      modifies this
      ensures ok <==> AddVersion(old(versions), at, body).Some?
      ensures versions == if ok then AddVersion(old(versions), at, body).value else old(versions)
      ensures old(Partition(versions)) ==> Partition(versions)
      ensures old(Partition(versions)) && old(versions) != [] ==>
        (ok <==> at > old(versions)[|old(versions)| - 1].validFrom)
    {
      if Partition(versions) { AddKeepsPartition(versions, at, body); }
      var current := Current(versions);
      if current.Some? && at <= versions[current.value].validFrom { return false; }
      var next := MaxNumber(versions) + 1;
      if current.Some? {
        versions := versions[current.value := versions[current.value].(validTo := Some(at))];
      }
      versions := versions + [Version(next, at, None, body)];
      return true;
    }
  }

  // ---------- the timeline is a partition ----------

  predicate LinkAt(vs: seq<Version>, k: nat)
    requires k < |vs|
  {
    && vs[k].number == k + 1
    && (k == |vs| - 1 ==> vs[k].Open())
    && (k < |vs| - 1 ==> vs[k].validTo == Some(vs[k + 1].validFrom) && vs[k].validFrom < vs[k + 1].validFrom)
  }

  /** Numbers are 1..n; every version ends exactly where the next begins; only the last is open. */
  predicate Partition(vs: seq<Version>) {
    forall k :: 0 <= k < |vs| ==> LinkAt(vs, k)
  }

  lemma CurrentIsLast(vs: seq<Version>)
    requires Partition(vs)
    ensures Current(vs) == (if vs == [] then None else Some(|vs| - 1)) && MaxNumber(vs) == |vs|
  {
    forall k | 0 <= k < |vs| ensures vs[k].Open() <==> k == |vs| - 1 { assert LinkAt(vs, k); }
    if vs != [] {
      assert LinkAt(vs, |vs| - 1);
      var m :| 0 <= m < |vs| && vs[m].number == MaxNumber(vs);
      assert LinkAt(vs, m);
    }
  }

  lemma AddKeepsPartition(vs: seq<Version>, at: Time, body: string)
    requires Partition(vs)
    ensures AddVersion(vs, at, body).Some? <==> vs == [] || at > vs[|vs| - 1].validFrom
    ensures AddVersion(vs, at, body).Some? ==> Partition(AddVersion(vs, at, body).value)
    ensures AddVersion(vs, at, body).Some? ==> Extends(vs, AddVersion(vs, at, body).value)
  {
    CurrentIsLast(vs);
    if AddVersion(vs, at, body).Some? {
      var after := AddVersion(vs, at, body).value;
      forall k | 0 <= k < |after| ensures LinkAt(after, k) {
        if k < |vs| { assert LinkAt(vs, k); }
      }
    }
  }

  /** What an accepted version is: the next number, open, from the requested instant on, with the requested body; the
      one before it ends there. */
  lemma AddedVersion(vs: seq<Version>, at: Time, body: string)
    requires Partition(vs) && AddVersion(vs, at, body).Some?
    ensures var after, n := AddVersion(vs, at, body).value, |vs|;
      && |after| == n + 1 && after[n] == Version(n + 1, at, None, body)
      && (n > 0 ==> after[n - 1] == vs[n - 1].(validTo := Some(at)))
      && forall k :: 0 <= k < n - 1 ==> after[k] == vs[k]
  {
    CurrentIsLast(vs);
  }

  /** The requests that were accepted, in order. */
  function Accepted(vs: seq<Version>, requests: seq<Request>): seq<Request> {
    if requests == [] then []
    else
      var n := |requests| - 1;
      var before := Accepted(vs, requests[..n]);
      if AddVersion(AddAll(vs, requests[..n]), requests[n].at, requests[n].body).Some? then before + [requests[n]]
      else before
  }

  predicate VersionsAre(vs: seq<Version>, first: Version, accepted: seq<Request>) {
    && |vs| == |accepted| + 1 && vs[0].body == first.body && vs[0].validFrom == first.validFrom
    && forall k :: 0 <= k < |accepted| ==> vs[k + 1].body == accepted[k].body && vs[k + 1].validFrom == accepted[k].at
  }

  /** After any sequence of requests the versions are the first one and then the accepted requests in their order, each
      from the instant and with the body that was asked for. */
  lemma {:induction false} VersionsAreAccepted(start: Time, body: string, requests: seq<Request>)
    ensures var first := [Version(1, start, None, body)];
      VersionsAre(AddAll(first, requests), first[0], Accepted(first, requests))
    decreases |requests|
  {
    if requests != [] {
      var first, n := [Version(1, start, None, body)], |requests| - 1;
      VersionsAreAccepted(start, body, requests[..n]);
      RequestsKeepPartition(start, body, requests[..n]);
      var before := AddAll(first, requests[..n]);
      if AddVersion(before, requests[n].at, requests[n].body).Some? {
        AddedVersion(before, requests[n].at, requests[n].body);
      }
    }
  }

  /** History: versions are kept, and of an existing one at most an open end is written. */
  predicate Extends(vs: seq<Version>, after: seq<Version>) {
    && |vs| <= |after|
    && forall k :: 0 <= k < |vs| ==>
         after[k] == vs[k].(validTo := after[k].validTo) && (!vs[k].Open() ==> after[k] == vs[k])
  }

  datatype Request = Request(at: Time, body: string)

  /** Any requests, in any order of effective times; the refused ones change nothing. */
  function AddAll(vs: seq<Version>, requests: seq<Request>): seq<Version> {
    if requests == [] then vs
    else
      var last := requests[|requests| - 1];
      var before := AddAll(vs, requests[..|requests| - 1]);
      match AddVersion(before, last.at, last.body)
      case None => before
      case Some(after) => after
  }

  lemma {:induction false} StartsBefore(vs: seq<Version>, j: nat, k: nat)
    requires Partition(vs) && j <= k < |vs|
    ensures vs[j].validFrom <= vs[k].validFrom
      && (j < k ==> vs[j].validTo.Some? && vs[j].validTo.value <= vs[k].validFrom)
    decreases k - j
  {
    assert LinkAt(vs, j);
    if j < k { StartsBefore(vs, j + 1, k); }
  }

  lemma {:induction false} FindInForce(vs: seq<Version>, t: Time, k: nat) returns (found: nat)
    requires Partition(vs) && k < |vs| && vs[k].validFrom <= t
    ensures k <= found < |vs| && vs[found].InForce(t)
    decreases |vs| - k
  {
    assert LinkAt(vs, k);
    if vs[k].InForce(t) {
      found := k;
    } else {
      found := FindInForce(vs, t, k + 1);
    }
  }

  predicate ExactlyOneInForce(vs: seq<Version>, t: Time) {
    exists k :: 0 <= k < |vs| && vs[k].InForce(t) && forall j :: 0 <= j < |vs| && vs[j].InForce(t) ==> j == k
  }

  lemma OneInForce(vs: seq<Version>, t: Time)
    requires Partition(vs) && vs != []
    ensures t >= vs[0].validFrom ==> ExactlyOneInForce(vs, t)
    ensures t < vs[0].validFrom ==> forall k :: 0 <= k < |vs| ==> !vs[k].InForce(t)
  {
    forall j, k | 0 <= j < k < |vs| ensures !(vs[j].InForce(t) && vs[k].InForce(t)) { StartsBefore(vs, j, k); }
    forall k | 0 <= k < |vs| ensures vs[0].validFrom <= vs[k].validFrom { StartsBefore(vs, 0, k); }
    if t >= vs[0].validFrom {
      var k := FindInForce(vs, t, 0);
      assert vs[k].InForce(t);
    }
  }

  lemma {:induction false} RequestsKeepPartition(start: Time, body: string, requests: seq<Request>)
    ensures var first := [Version(1, start, None, body)];
      var vs := AddAll(first, requests);
      Partition(vs) && Extends(first, vs)
    decreases |requests|
  {
    var first := [Version(1, start, None, body)];
    if requests == [] {
      assert LinkAt(first, 0);
    } else {
      var n := |requests| - 1;
      RequestsKeepPartition(start, body, requests[..n]);
      AddKeepsPartition(AddAll(first, requests[..n]), requests[n].at, requests[n].body);
    }
  }

  /** After any sequence of requests, refused ones among them, the versions are numbered 1..n without a gap, and every
      instant from the first start on lies in exactly one of them. */
  lemma TimelinePartitionsTime(start: Time, body: string, requests: seq<Request>, t: Time)
    ensures var vs := AddAll([Version(1, start, None, body)], requests);
      && (forall k :: 0 <= k < |vs| ==> vs[k].number == k + 1)
      && (t >= start ==> ExactlyOneInForce(vs, t))
      && (t < start ==> forall k :: 0 <= k < |vs| ==> !vs[k].InForce(t))
  {
    var vs := AddAll([Version(1, start, None, body)], requests);
    RequestsKeepPartition(start, body, requests);
    forall k | 0 <= k < |vs| ensures vs[k].number == k + 1 { assert LinkAt(vs, k); }
    OneInForce(vs, t);
  }

  // ---------- the turns of a scenario version ----------

  /** A turn as supplied, its prompt without surrounding blanks; `linked` is the text and question of a version. */
  datatype Supplied = Supplied(prompt: string, question: Option<nat>, linked: Option<Linked>, stableId: string)

  datatype Linked = Linked(question: nat, text: string)

  datatype TurnRow = TurnRow(ordinal: nat, stableId: string, prompt: string, question: Option<nat>)

  datatype TurnError = OtherQuestion(ordinal: nat) | OtherPrompt(ordinal: nat) | NoPrompt(ordinal: nat) | NoTurns

  function TurnProblem(t: Supplied, ordinal: nat): Option<TurnError> {
    if t.linked.Some? && t.question.Some? && t.question.value != t.linked.value.question then
      Some(OtherQuestion(ordinal))
    else if t.linked.Some? && t.prompt != "" && t.prompt != t.linked.value.text then Some(OtherPrompt(ordinal))
    else if (if t.linked.Some? then t.linked.value.text else t.prompt) == "" then Some(NoPrompt(ordinal))
    else None
  }

  function MakeTurn(base: string, t: Supplied, ordinal: nat): TurnRow {
    TurnRow(ordinal, if t.stableId != "" then t.stableId else base + "." + JsonPrinter.Digits(ordinal),
            if t.linked.Some? then t.linked.value.text else t.prompt,
            if t.linked.Some? then Some(t.linked.value.question) else t.question)
  }

  function MakeTurns(base: string, supplied: seq<Supplied>): (turns: seq<TurnRow>)
    ensures |turns| == |supplied|
    ensures forall k :: 0 <= k < |supplied| ==> turns[k] == MakeTurn(base, supplied[k], k + 1)
  {
    seq(|supplied|, k requires 0 <= k < |supplied| => MakeTurn(base, supplied[k], k + 1))
  }

  predicate TurnsAccepted(supplied: seq<Supplied>) {
    supplied != [] && forall k :: 0 <= k < |supplied| ==> TurnProblem(supplied[k], k + 1).None?
  }

  /** `_scenario_turn_values`: all turns numbered without a gap, or the problem of the first one that has any. */
  method ScenarioTurnValues(base: string, supplied: seq<Supplied>) returns (made: Result<seq<TurnRow>, TurnError>)
    ensures made.Ok? <==> TurnsAccepted(supplied)
    ensures made.Ok? ==> made.value == MakeTurns(base, supplied)
    ensures made.Err? && supplied == [] ==> made.error == NoTurns
    ensures made.Err? && supplied != [] ==>
      exists k :: 0 <= k < |supplied| && TurnProblem(supplied[k], k + 1) == Some(made.error)
        && forall j :: 0 <= j < k ==> TurnProblem(supplied[j], j + 1).None?
  {
    var normalized: seq<TurnRow> := [];
    for k := 0 to |supplied|
      invariant normalized == MakeTurns(base, supplied[..k])
      invariant forall j :: 0 <= j < k ==> TurnProblem(supplied[j], j + 1).None?
    {
      var t, ordinal := supplied[k], k + 1;
      var prompt, question := t.prompt, t.question;
      if t.linked.Some? {
        if question.Some? && question.value != t.linked.value.question { return Err(OtherQuestion(ordinal)); }
        question := Some(t.linked.value.question);
        if prompt != "" && prompt != t.linked.value.text { return Err(OtherPrompt(ordinal)); }
        prompt := t.linked.value.text;
      }
      if prompt == "" { return Err(NoPrompt(ordinal)); }
      var stableId := if t.stableId != "" then t.stableId else base + "." + JsonPrinter.Digits(ordinal);
      normalized := normalized + [TurnRow(ordinal, stableId, prompt, question)];
    }
    assert supplied[..|supplied|] == supplied;
    if normalized == [] { return Err(NoTurns); }
    return Ok(normalized);
  }

  predicate DistinctIds(turns: seq<TurnRow>) {
    forall j, k :: 0 <= j < k < |turns| ==> turns[j].stableId != turns[k].stableId
  }

  // ---------- a scenario and its companion question ----------

  /** The companion's timeline is only ever changed here: versioning a companion question by itself is refused. */
  datatype Scenario = Scenario(
    name: string,
    own: seq<Version>,
    links: seq<nat>,
    turns: seq<seq<TurnRow>>,
    companion: seq<Version>)

  /** `create_conversation_scenario`: the clock is read once for the companion and then once more for the scenario; it
      may have stepped back meanwhile. */
  function NewScenario(name: string, companionAt: Time, ownAt: Time, definition: string, supplied: seq<Supplied>):
    Option<Scenario>
  {
    if !Acceptable(name, supplied) then None
    else Some(Scenario(name, [Version(1, ownAt, None, definition)], [0], [MakeTurns(name, supplied)],
                       [Version(1, companionAt, None, definition)]))
  }

  predicate Acceptable(name: string, supplied: seq<Supplied>) {
    TurnsAccepted(supplied) && DistinctIds(MakeTurns(name, supplied))
  }

  /** `create_conversation_scenario_version`: closes and appends on both timelines, or raises and changes neither. */
  function ReviseScenario(s: Scenario, at: Time, definition: string, supplied: seq<Supplied>): Option<Scenario> {
    if !MayBegin(s.own, at) || !MayBegin(s.companion, at) || !Acceptable(s.name, supplied) then None
    else Some(Scenario(s.name, Append(s.own, at, definition), s.links + [|s.companion|],
                       s.turns + [MakeTurns(s.name, supplied)], Append(s.companion, at, definition)))
  }

  /** One version for one version, in the same order, with the same ends and, after the first, the same starts. */
  predicate Lockstep(s: Scenario) {
    && Partition(s.own) && Partition(s.companion)
    && |s.own| == |s.companion| == |s.links| == |s.turns| > 0
    && forall k :: 0 <= k < |s.own| ==> PairAt(s, k)
  }

  predicate PairAt(s: Scenario, k: nat)
    requires k < |s.own| && |s.own| == |s.companion| == |s.links| == |s.turns|
  {
    && s.links[k] == k && s.own[k].validTo == s.companion[k].validTo
    && (k > 0 ==> s.own[k].validFrom == s.companion[k].validFrom)
    && TurnsNumbered(s.turns[k])
  }

  predicate TurnsNumbered(turns: seq<TurnRow>) {
    turns != [] && forall n :: 0 <= n < |turns| ==> turns[n].ordinal == n + 1 && turns[n].prompt != ""
  }

  lemma NewScenarioInStep(name: string, companionAt: Time, ownAt: Time, definition: string, supplied: seq<Supplied>)
    requires NewScenario(name, companionAt, ownAt, definition, supplied).Some?
    ensures Lockstep(NewScenario(name, companionAt, ownAt, definition, supplied).value)
  {
    var s := NewScenario(name, companionAt, ownAt, definition, supplied).value;
    assert LinkAt(s.own, 0) && LinkAt(s.companion, 0) && PairAt(s, 0);
  }

  /** A revision is refused exactly when it does not begin after the current version of the scenario and the first
      version of the companion, or its turns are not acceptable. */
  lemma RefusedExactly(s: Scenario, at: Time, definition: string, supplied: seq<Supplied>)
    requires Lockstep(s)
    ensures ReviseScenario(s, at, definition, supplied).Some? <==>
      at > s.own[|s.own| - 1].validFrom && at > s.companion[0].validFrom && Acceptable(s.name, supplied)
  {
    var last := |s.own| - 1;
    CurrentIsLast(s.own);
    CurrentIsLast(s.companion);
    StartsBefore(s.companion, 0, last);
    assert PairAt(s, last);
  }

  /** A revision keeps both timelines in step; the companion objects to none unless the clock stepped back at the
      creation. */
  lemma ReviseKeepsLockstep(s: Scenario, at: Time, definition: string, supplied: seq<Supplied>)
    requires Lockstep(s)
    ensures ReviseScenario(s, at, definition, supplied).Some? <==>
      at > s.own[|s.own| - 1].validFrom && at > s.companion[0].validFrom && Acceptable(s.name, supplied)
    ensures s.companion[0].validFrom <= s.own[0].validFrom ==>
      (ReviseScenario(s, at, definition, supplied).Some? <==>
        at > s.own[|s.own| - 1].validFrom && Acceptable(s.name, supplied))
    ensures ReviseScenario(s, at, definition, supplied).Some? ==>
      var after := ReviseScenario(s, at, definition, supplied).value;
      Lockstep(after) && SameStarts(s, after)
  {
    RefusedExactly(s, at, definition, supplied);
    StartsBefore(s.own, 0, |s.own| - 1);
    if ReviseScenario(s, at, definition, supplied).Some? { RevisionInStep(s, at, definition, supplied); }
  }

  lemma RevisionInStep(s: Scenario, at: Time, definition: string, supplied: seq<Supplied>)
    requires Lockstep(s) && ReviseScenario(s, at, definition, supplied).Some?
    ensures var after := ReviseScenario(s, at, definition, supplied).value;
      Lockstep(after) && SameStarts(s, after)
  {
    AddKeepsPartition(s.own, at, definition);
    AddKeepsPartition(s.companion, at, definition);
    CurrentIsLast(s.own);
    CurrentIsLast(s.companion);
    var after := ReviseScenario(s, at, definition, supplied).value;
    forall k | 0 <= k < |after.own| ensures PairAt(after, k) {
      if k < |s.own| { assert PairAt(s, k); }
    }
  }

  predicate SameStarts(s: Scenario, after: Scenario) {
    && s.own != [] && after.own != [] && after.own[0].validFrom == s.own[0].validFrom
    && s.companion != [] && after.companion != [] && after.companion[0].validFrom == s.companion[0].validFrom
  }

  /** What an accepted revision adds: one version to each timeline, from the requested instant on and with the
      definition, linked to each other, and the turns as they were supplied. */
  lemma RevisionAdds(s: Scenario, at: Time, definition: string, supplied: seq<Supplied>)
    requires Lockstep(s) && ReviseScenario(s, at, definition, supplied).Some?
    ensures var after, n := ReviseScenario(s, at, definition, supplied).value, |s.own|;
      && after.name == s.name && |after.own| == |after.companion| == |after.links| == |after.turns| == n + 1
      && after.own[n] == Version(n + 1, at, None, definition)
      && after.companion[n] == Version(n + 1, at, None, definition)
      && after.links == s.links + [n] && after.turns[..n] == s.turns
      && |after.turns[n]| == |supplied|
      && forall k :: 0 <= k < |supplied| ==> AsSupplied(after.turns[n][k], s.name, supplied[k], k + 1)
  {
    AddedVersion(s.own, at, definition);
    AddedVersion(s.companion, at, definition);
  }

  /** The turn asks what its linked version says, or what was supplied, and is about the question of that version, or
      the one supplied; a turn without a name of its own is named after the scenario and its place. */
  predicate AsSupplied(t: TurnRow, base: string, supplied: Supplied, ordinal: nat) {
    && t.ordinal == ordinal
    && (supplied.stableId != "" ==> t.stableId == supplied.stableId)
    && (supplied.stableId == "" ==> t.stableId == base + "." + JsonPrinter.Digits(ordinal))
    && (supplied.linked.Some? ==>
          t.prompt == supplied.linked.value.text && t.question == Some(supplied.linked.value.question))
    && (supplied.linked.None? ==> t.prompt == supplied.prompt && t.question == supplied.question)
  }

  /** A scenario begins with one version of each kind and its turns as supplied. */
  lemma NewScenarioIs(name: string, companionAt: Time, ownAt: Time, definition: string, supplied: seq<Supplied>)
    requires NewScenario(name, companionAt, ownAt, definition, supplied).Some?
    ensures var s := NewScenario(name, companionAt, ownAt, definition, supplied).value;
      && s.name == name && s.own == [Version(1, ownAt, None, definition)]
      && s.companion == [Version(1, companionAt, None, definition)] && s.links == [0]
      && |s.turns| == 1 && |s.turns[0]| == |supplied|
      && forall k :: 0 <= k < |supplied| ==> AsSupplied(s.turns[0][k], name, supplied[k], k + 1)
  {
  }

  /** A scenario is acceptable exactly when it has turns, each asks something and contradicts no version it is linked
      to, and their names differ. */
  lemma AcceptableIff(name: string, supplied: seq<Supplied>)
    ensures Acceptable(name, supplied) <==>
      && supplied != []
      && (forall k :: 0 <= k < |supplied| ==> TurnIsConsistent(supplied[k]))
      && (forall j, k :: 0 <= j < k < |supplied| ==> TurnName(name, supplied[j], j) != TurnName(name, supplied[k], k))
  {
    var turns := MakeTurns(name, supplied);
    forall k | 0 <= k < |supplied|
      ensures TurnProblem(supplied[k], k + 1).None? <==> TurnIsConsistent(supplied[k])
      ensures turns[k].stableId == TurnName(name, supplied[k], k)
    {
    }
  }

  function TurnName(base: string, t: Supplied, k: nat): string {
    if t.stableId != "" then t.stableId else base + "." + JsonPrinter.Digits(k + 1)
  }

  predicate TurnIsConsistent(t: Supplied) {
    && (t.linked.None? ==> t.prompt != "")
    && (t.linked.Some? ==>
          && t.linked.value.text != "" && (t.prompt == "" || t.prompt == t.linked.value.text)
          && (t.question.None? || t.question.value == t.linked.value.question))
  }

  datatype Revision = Revision(at: Time, definition: string, supplied: seq<Supplied>)

  function ReviseAll(s: Scenario, revisions: seq<Revision>): Scenario {
    if revisions == [] then s
    else
      var last := revisions[|revisions| - 1];
      var before := ReviseAll(s, revisions[..|revisions| - 1]);
      match ReviseScenario(before, last.at, last.definition, last.supplied)
      case None => before
      case Some(after) => after
  }

  lemma {:induction false} RevisionsKeepLockstep(s: Scenario, revisions: seq<Revision>)
    requires Lockstep(s)
    ensures Lockstep(ReviseAll(s, revisions)) && SameStarts(s, ReviseAll(s, revisions))
    decreases |revisions|
  {
    if revisions != [] {
      var n := |revisions| - 1;
      RevisionsKeepLockstep(s, revisions[..n]);
      ReviseKeepsLockstep(ReviseAll(s, revisions[..n]), revisions[n].at, revisions[n].definition,
        revisions[n].supplied);
    }
  }

  /** Version `k` of the scenario links to the companion version that is in force at `t`. */
  predicate LinkInForce(s: Scenario, k: nat, t: Time)
    requires k < |s.own|
  {
    k < |s.links| && s.links[k] < |s.companion| && s.companion[s.links[k]].InForce(t)
      && ExactlyOneInForce(s.companion, t)
  }

  /** Whatever was asked of a scenario in its life, at every instant at which one of its versions is in force, that one
      alone is, and the companion version it is linked to is the one in force of the companion question, except before
      the companion's own start. */
  lemma LinkedVersionIsInForce(name: string, companionAt: Time, ownAt: Time, definition: string,
      supplied: seq<Supplied>, revisions: seq<Revision>, t: Time, k: nat)
    requires NewScenario(name, companionAt, ownAt, definition, supplied).Some?
    requires var s := ReviseAll(NewScenario(name, companionAt, ownAt, definition, supplied).value, revisions);
      k < |s.own| && s.own[k].InForce(t)
    ensures var s := ReviseAll(NewScenario(name, companionAt, ownAt, definition, supplied).value, revisions);
      ExactlyOneInForce(s.own, t) && (LinkInForce(s, k, t) <==> companionAt <= t)
  {
    var start := NewScenario(name, companionAt, ownAt, definition, supplied).value;
    NewScenarioInStep(name, companionAt, ownAt, definition, supplied);
    RevisionsKeepLockstep(start, revisions);
    var s := ReviseAll(start, revisions);
    StartsBefore(s.own, 0, k);
    StartsBefore(s.companion, 0, k);
    assert PairAt(s, k);
    OneInForce(s.own, t);
    OneInForce(s.companion, t);
  }

  /** So a scenario is never ahead of its companion, over its whole life, if and only if the clock did not step back
      between the two reads at its creation. */
  lemma LinksAlwaysInForceIff(name: string, companionAt: Time, ownAt: Time, definition: string,
      supplied: seq<Supplied>, revisions: seq<Revision>)
    requires NewScenario(name, companionAt, ownAt, definition, supplied).Some?
    ensures var s := ReviseAll(NewScenario(name, companionAt, ownAt, definition, supplied).value, revisions);
      (forall k: nat, t :: k < |s.own| && s.own[k].InForce(t) ==> LinkInForce(s, k, t)) <==> companionAt <= ownAt
  {
    var start := NewScenario(name, companionAt, ownAt, definition, supplied).value;
    var s := ReviseAll(start, revisions);
    NewScenarioInStep(name, companionAt, ownAt, definition, supplied);
    RevisionsKeepLockstep(start, revisions);
    forall k: nat, t | k < |s.own| && s.own[k].InForce(t) ensures LinkInForce(s, k, t) <==> companionAt <= t
      ensures ownAt <= t
    {
      LinkedVersionIsInForce(name, companionAt, ownAt, definition, supplied, revisions, t, k);
      StartsBefore(s.own, 0, k);
    }
    assert s.own[0].InForce(ownAt) by { assert LinkAt(s.own, 0); }
  }

  /** The service on the rows of one scenario. */
  class ScenarioRows {
    var name: string
    var own: seq<Version>
    var links: seq<nat>
    var turns: seq<seq<TurnRow>>
    var companion: seq<Version>

    function State(): Scenario
      reads this
    {
      Scenario(name, own, links, turns, companion)
    }

    constructor (s: Scenario)
      requires Lockstep(s)
      ensures State() == s
    {
      name, own, links, turns, companion := s.name, s.own, s.links, s.turns, s.companion;
    }

    method CreateVersion(at: Time, definition: string, supplied: seq<Supplied>) returns (ok: bool)
      requires Lockstep(State())
      modifies this
      ensures ok <==> ReviseScenario(old(State()), at, definition, supplied).Some?
      ensures State() == if ok then ReviseScenario(old(State()), at, definition, supplied).value else old(State())
      ensures Lockstep(State())
    {
      ReviseKeepsLockstep(State(), at, definition, supplied);
      CurrentIsLast(own);
      var current := Current(own);
      if current.Some? && at <= own[current.value].validFrom { return false; }
      var made := ScenarioTurnValues(name, supplied);
      if made.Err? || !DistinctIds(made.value) { return false; }
      CurrentIsLast(companion);
      var paired := Current(companion);
      if paired.Some? && at <= companion[paired.value].validFrom { return false; }
      var revised, revisedCompanion := Append(own, at, definition), Append(companion, at, definition);
      own, companion := revised, revisedCompanion;
      links := links + [|companion| - 1];
      turns := turns + [made.value];
      return true;
    }
  }
}
