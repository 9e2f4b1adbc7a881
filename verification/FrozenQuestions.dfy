/** From the template of a question to what is sent: the bindings are frozen at the launch, a question with a problem is
    never sent, and one that is sent is its template filled. */
module FrozenQuestions {
  import opened Wrappers
  import opened PythonText
  import opened Rows
  import opened Protocol
  import opened Traces
  import opened Freezing
  import opened AnyTemplate
  import opened LaunchFields
  import Launches
  import SessionOpenings
  import Theorems

  /** The current version of an active question. */
  datatype Template = Template(question: nat, version: nat, text: string, definitions: seq<Definition>)

  function Stored(bindings: seq<Frozen>): map<string, Binding> {
    if bindings == [] then map[]
    else
      var b := bindings[|bindings| - 1];
      Stored(bindings[..|bindings| - 1])[b.name := Binding(b.display, b.display)]
  }

  /** The part of `launch_run` for one question. */
  function FrozenQuestion(t: Template): Launches.Question {
    var f := FreezeAll(Frozen0(t.text), t.definitions);
    Launches.Question(FrozenInput(Some(t.question), Some(t.version), t.text, f.question, Stored(f.bindings)),
                      if f.problems == [] then "" else "BINDING_CONFIGURATION_ERROR")
  }

  /** Every required binding has a value, and every value a place in the template. */
  predicate Answerable(t: Template) {
    forall k :: 0 <= k < |t.definitions| ==>
      var d := t.definitions[k];
      if d.value.None? then !d.required else Occurs(t.text, Marker(d.name))
  }

  function Bound(values: map<string, string>): map<string, Binding> {
    map n | n in values :: Binding(values[n], values[n])
  }

  lemma {:induction false} NoneMissingIff(text: string, ds: seq<Definition>)
    ensures MissingIn(text, ds) == [] <==>
      forall k :: 0 <= k < |ds| ==> if ds[k].value.None? then !ds[k].required else Occurs(text, Marker(ds[k].name))
  {
    if ds != [] {
      var n := |ds| - 1;
      NoneMissingIff(text, ds[..n]);
      assert forall k :: 0 <= k < n ==> ds[..n][k] == ds[k];
    }
  }

  lemma {:induction false} StoredAreBound(text: string, ds: seq<Definition>)
    requires Named(ds) && MissingIn(text, ds) == []
    ensures Stored(PlacedIn(text, ds)) == Bound(Values(ds))
  {
    if ds != [] {
      var n := |ds| - 1;
      NamedPrefix(ds, n);
      StoredAreBound(text, ds[..n]);
    }
  }

  /** What a launch freezes for a question: if it can be answered at all, the template filled, with the values that it
      was filled with; otherwise an error class, and exactly then. */
  lemma FrozenIsFilled(t: Template)
    requires Named(t.definitions) && UntouchedValues(t.definitions)
    ensures var q := FrozenQuestion(t);
      && (q.preflightError == "" <==> Answerable(t))
      && q.input.submitted == Filling(t.text, Values(t.definitions)) && q.input.template == t.text
      && q.input.question == Some(t.question) && q.input.questionVersion == Some(t.version)
      && (Answerable(t) ==> q.input.bindings == Bound(Values(t.definitions)))
  {
    LoopIsMeantIn(t.text, t.definitions);
    NoneMissingIff(t.text, t.definitions);
    if Answerable(t) { StoredAreBound(t.text, t.definitions); }
  }

  /** Row `n` is that of question `j` of the launch that is step `k`. */
  ghost predicate LaunchedAt(states: seq<System>, steps: seq<Step>, k: nat, ts: seq<Template>, j: nat, n: nat) {
    && k < |steps| && |states| == |steps| + 1 && j < |ts| && n == |states[k].db.executions| + j
    && exists v, sequential, workerMax ::
         steps[k] == Launch(Launches.Questions(v, sequential, workerMax, FrozenQuestions(ts)))
  }

  function FrozenQuestions(ts: seq<Template>): (qs: seq<Launches.Question>)
    ensures |qs| == |ts| && forall k :: 0 <= k < |ts| ==> qs[k] == FrozenQuestion(ts[k])
  {
    seq(|ts|, k requires 0 <= k < |ts| => FrozenQuestion(ts[k]))
  }

  lemma LaunchedRow(states: seq<System>, steps: seq<Step>, k: nat, m: nat, ts: seq<Template>, j: nat, n: nat)
    requires Behavior(states, steps) && k < m < |states| && LaunchedAt(states, steps, k, ts, j, n)
    ensures n < |states[m].db.executions|
    ensures var manifest, q := states[m].db.executions[n].manifest, FrozenQuestion(ts[j]);
      manifest.input == q.input && manifest.preflightError == q.preflightError
  {
    var v, sequential, workerMax :|
      steps[k] == Launch(Launches.Questions(v, sequential, workerMax, FrozenQuestions(ts)));
    assert StepAt(states, steps, k);
    LaunchLeaves(states[k], Launches.Questions(v, sequential, workerMax, FrozenQuestions(ts)));
    RowOfQuestion(states[k].db, v, sequential, workerMax, FrozenQuestions(ts), j);
    SessionOpenings.ManifestIsFinal(states, steps, k + 1, m, n);
  }

  lemma RowOfQuestion(db: Tables, v: nat, sequential: bool, workerMax: nat, questions: seq<Launches.Question>, j: nat)
    requires j < |questions| && Launches.Launched(db, Launches.Questions(v, sequential, workerMax, questions)).Some?
    ensures var es := Launches.Launched(db, Launches.Questions(v, sequential, workerMax, questions)).value.executions;
      && |db.executions| + j < |es|
      && es[|db.executions| + j].manifest.input == questions[j].input
      && es[|db.executions| + j].manifest.preflightError == questions[j].preflightError
  {
    QuestionsFreeze(db, v, sequential, workerMax, questions);
    var es := Launches.Launched(db, Launches.Questions(v, sequential, workerMax, questions)).value.executions;
    assert QuestionRow(es[|db.executions| + j], |db.runs|, j, v, questions[j]);
  }

  lemma LaunchLeaves(s: System, plan: Launches.Plan)
    requires Enabled(s, Launch(plan))
    ensures Launches.Launched(s.db, plan).Some? && Apply(s, Launch(plan)).db == Launches.Launched(s.db, plan).value
  {
  }

  /** In every trace: what is ever sent for a question of a launch is its template with all placeholders filled at once,
      and every required binding had a value and every value a placeholder. */
  lemma SentIsFilled(states: seq<System>, steps: seq<Step>, k: nat, m: nat, ts: seq<Template>, j: nat, n: nat, c: nat)
    requires Behavior(states, steps) && k < m < |states| && LaunchedAt(states, steps, k, ts, j, n)
    requires c < |states[m].calls| && states[m].calls[c].execution == n
    requires Named(ts[j].definitions) && UntouchedValues(ts[j].definitions)
    ensures n < |states[m].db.executions| && Answerable(ts[j])
    ensures var input := states[m].db.executions[n].manifest.input;
      && input.submitted == Filling(ts[j].text, Values(ts[j].definitions))
      && input.bindings == Bound(Values(ts[j].definitions))
  {
    LaunchedRow(states, steps, k, m, ts, j, n);
    FrozenIsFilled(ts[j]);
    Theorems.AtMostOnceSubmission(states, steps, m);
  }
}
