/** Every kind of launch appends a run that fits the tables, and the tables stay sound. */
module LaunchProofs {
  import opened Wrappers
  import opened Rows
  import opened TableInvariants
  import opened Launches

  /** The manifest of a new run: rows in order, all under its revision, all or none of them turns of its one attempt. */
  predicate Fits(db: Tables, n: NewRun) {
    && RunLinked(db, n.run) && n.run.state == Queued
    && n.manifests != [] && n.run.totalPlanned == |n.manifests|
    && |n.attempts| <= 1
    && (n.attempts != [] ==>
          n.attempts[0].run == |db.runs| && n.attempts[0].session == "" && n.attempts[0].state == NoSession)
    && (forall k :: 0 <= k < |n.manifests| ==> ManifestFits(db, n, n.manifests[k]))
    && (forall j, k :: 0 <= j < k < |n.manifests|
                       && n.manifests[j].conversation.Some? && n.manifests[k].conversation.Some?
                       ==> n.manifests[j].conversation.value.ordinal < n.manifests[k].conversation.value.ordinal)
  }

  predicate ManifestFits(db: Tables, n: NewRun, m: Manifest) {
    && m.run == |db.runs| && m.revision == n.run.revision
    && (n.attempts == [] ==> m.conversation.None?)
    && (n.attempts != [] ==> m.conversation.Some? && m.conversation.value.attempt == |db.attempts|)
    && (m.baseline.Some? ==> m.baseline.value < |db.executions|)
  }

  /** Normal, conversation, retry and controlled launches all fit, so one argument serves them all. */
  lemma PlanFits(db: Tables, plan: Plan)
    requires Linked(db) && Planned(db, plan).Some? && Planned(db, plan).value.run.ConcurrencyBounds()
    ensures Fits(db, Planned(db, plan).value)
  {
    match plan
    case Questions(v, sequential, workerMax, questions) =>
    case Conversation(v, sv) => assert TurnsOrdered(db.scenarios[sv]);
    case Retry(i) =>
      assert RowLinked(db, db.executions[i]);
      assert RunLinked(db, db.runs[db.executions[i].manifest.run]);
    case Controlled(b, v, sequential, workerMax) =>
    case ControlledConversation(b, v, a, sources) => assert TurnsOrdered(db.scenarios[db.attempts[a].scenarioVersion]);
  }

  lemma AppendedRow(db: Tables, n: NewRun, i: nat)
    requires i < |db.executions| + |n.manifests|
    ensures i < |AppendRun(db, n).executions|
    ensures i < |db.executions| ==> AppendRun(db, n).executions[i] == db.executions[i]
    ensures i >= |db.executions| ==> AppendRun(db, n).executions[i] == FreshExecution(n.manifests[i - |db.executions|])
  {
  }

  lemma AppendKeepsLinks(db: Tables, n: NewRun)
    requires Linked(db) && Fits(db, n)
    ensures Linked(AppendRun(db, n))
  {
    var after := AppendRun(db, n);
    forall i | 0 <= i < |after.executions| ensures RowLinked(after, after.executions[i]) {
      AppendedRow(db, n, i);
      if i < |db.executions| {
        assert RowLinked(db, db.executions[i]);
      } else {
        assert ManifestFits(db, n, n.manifests[i - |db.executions|]);
      }
    }
    forall r | 0 <= r < |after.runs| ensures RunLinked(after, after.runs[r]) {
      if r < |db.runs| { assert RunLinked(db, db.runs[r]); }
    }
    forall i, a | && 0 <= i < |after.executions| && 0 <= a < |after.attempts|
                  && after.attempts[a].run == after.executions[i].manifest.run
      ensures after.executions[i].InAttempt(a)
    {
      AppendedRow(db, n, i);
      if i < |db.executions| {
        assert RowLinked(db, db.executions[i]);
      } else {
        assert ManifestFits(db, n, n.manifests[i - |db.executions|]);
      }
    }
  }

  lemma AppendKeepsOrdinals(db: Tables, n: NewRun)
    requires Linked(db) && Fits(db, n) && DistinctOrdinals(db.executions) && TurnOrder(db.executions)
    ensures DistinctOrdinals(AppendRun(db, n).executions)
    ensures TurnOrder(AppendRun(db, n).executions)
  {
    var es := AppendRun(db, n).executions;
    forall i | 0 <= i < |es|
      ensures i < |db.executions| ==> es[i] == db.executions[i] && RowLinked(db, es[i])
      ensures i >= |db.executions| ==> es[i] == FreshExecution(n.manifests[i - |db.executions|])
                                       && ManifestFits(db, n, es[i].manifest)
    {
      AppendedRow(db, n, i);
    }
  }

  lemma AppendKeepsRuns(db: Tables, n: NewRun)
    requires Linked(db) && Fits(db, n) && RunsAgree(db) && RunsNonempty(db)
    ensures RunsAgree(AppendRun(db, n)) && RunsNonempty(AppendRun(db, n))
  {
    var after := AppendRun(db, n);
    var first := |db.executions|;
    AppendedRow(db, n, first);
    assert ManifestFits(db, n, n.manifests[0]);
    forall r | 0 <= r < |after.runs| ensures RunAgrees(after, r) && HasRow(after.executions, r) {
      if r == |db.runs| {
        assert after.executions[first].manifest.run == r;
        UnfinishedRunAgrees(after, r);
      } else {
        assert RunAgrees(db, r) && HasRow(db.executions, r);
        OldRunAgrees(db, n, r);
      }
    }
  }

  lemma OldRunAgrees(db: Tables, n: NewRun, r: nat)
    requires Fits(db, n) && r < |db.runs| && RunAgrees(db, r) && HasRow(db.executions, r)
    ensures RunAgrees(AppendRun(db, n), r) && HasRow(AppendRun(db, n).executions, r)
  {
    var es := AppendRun(db, n).executions;
    forall i | 0 <= i < |es|
      ensures i < |db.executions| ==> es[i] == db.executions[i]
      ensures i >= |db.executions| ==> es[i].manifest.run == |db.runs|
    {
      AppendedRow(db, n, i);
      if i >= |db.executions| { assert ManifestFits(db, n, n.manifests[i - |db.executions|]); }
    }
    var i0 :| 0 <= i0 < |db.executions| && db.executions[i0].manifest.run == r;
    assert es[i0].manifest.run == r;
    assert RunDone(db.executions, r) <==> RunDone(es, r) by {
      forall i | 0 <= i < |db.executions| ensures es[i] == db.executions[i] {}
    }
    assert RunClean(db.executions, r) <==> RunClean(es, r) by {
      forall i | 0 <= i < |db.executions| ensures es[i] == db.executions[i] {}
    }
  }

  lemma LaunchKeepsSound(db: Tables, plan: Plan)
    requires Sound(db) && Launched(db, plan).Some?
    ensures Sound(Launched(db, plan).value)
  {
    var n := Planned(db, plan).value;
    PlanFits(db, plan);
    AppendKeepsLinks(db, n);
    AppendKeepsOrdinals(db, n);
    AppendKeepsRuns(db, n);
    var after := AppendRun(db, n);
    forall i | 0 <= i < |after.executions| ensures RowSound(after.executions[i]) {
      AppendedRow(db, n, i);
      if i < |db.executions| { assert RowSound(db.executions[i]); }
    }
  }

  // ---------- catalog and baseline rows ----------

  lemma CatalogKeepsSound(db: Tables, after: Tables)
    requires Sound(db)
    requires after == db.(revisions := after.revisions, scenarios := after.scenarios, baselines := after.baselines)
    requires |after.revisions| >= |db.revisions| && after.revisions[..|db.revisions|] == db.revisions
    requires forall k :: 0 <= k < |after.scenarios| ==> TurnsOrdered(after.scenarios[k])
    ensures Sound(after)
  {
    forall i | 0 <= i < |after.executions| ensures RowLinked(after, after.executions[i]) {
      assert RowLinked(db, db.executions[i]);
    }
    forall r | 0 <= r < |after.runs| ensures RunLinked(after, after.runs[r]) && RunAgrees(after, r) {
      assert RunLinked(db, db.runs[r]) && RunAgrees(db, r);
      assert after.revisions[..|db.revisions|][after.runs[r].revision] == after.revisions[after.runs[r].revision];
    }
  }
}
