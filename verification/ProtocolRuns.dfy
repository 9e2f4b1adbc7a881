/** Runs of the protocol as lists of steps, for programs that show what they do to be one. */
module ProtocolRuns {
  import opened Protocol
  import opened Rows

  ghost predicate Reaches(s: System, steps: seq<Step>, after: System)
    decreases |steps|
  {
    if steps == [] then after == s else Enabled(s, steps[0]) && Reaches(Apply(s, steps[0]), steps[1..], after)
  }

  predicate NoCrash(steps: seq<Step>) {
    forall k :: 0 <= k < |steps| ==> !(steps[k].Work? && steps[k].action.Crash?)
  }

  lemma OneStep(s: System, step: Step)
    requires Enabled(s, step)
    ensures Reaches(s, [step], Apply(s, step))
  {
    assert [step][1..] == [];
  }

  lemma {:induction false} ReachesOn(s: System, steps: seq<Step>, mid: System, more: seq<Step>, after: System)
    requires Reaches(s, steps, mid) && Reaches(mid, more, after)
    ensures Reaches(s, steps + more, after) && (NoCrash(steps) && NoCrash(more) ==> NoCrash(steps + more))
    decreases |steps|
  {
    if steps == [] {
      assert steps + more == more;
    } else {
      assert (steps + more)[1..] == steps[1..] + more;
      ReachesOn(Apply(s, steps[0]), steps[1..], mid, more, after);
    }
  }

  /** The same claims are out, at the same time, and the task of `t` is still about the same row and worker. */
  predicate SameTasks(s: System, after: System, t: Token) {
    && after.tasks.Keys == s.tasks.Keys && after.clock == s.clock
    && t in s.tasks && after.tasks[t].execution == s.tasks[t].execution && after.tasks[t].worker == s.tasks[t].worker
  }

  lemma ActKeepsTasks(s: System, t: Token, action: Action)
    requires ActionEnabled(s, t, action)
    ensures SameTasks(s, Act(s, t, action), t)
  {
  }

  /** Steps of the task of `t` alone, none of them a crash. */
  ghost predicate Ran(s: System, steps: seq<Step>, after: System, t: Token) {
    Reaches(s, steps, after) && NoCrash(steps) && SameTasks(s, after, t)
  }

  lemma NothingRan(s: System, t: Token)
    requires t in s.tasks
    ensures Ran(s, [], s, t)
  {
  }

  /** One more step of the task of `t`. */
  lemma Take(s: System, steps: seq<Step>, mid: System, t: Token, action: Action)
    returns (more: seq<Step>, after: System)
    requires Ran(s, steps, mid, t) && ActionEnabled(mid, t, action) && !action.Crash?
    ensures after == Act(mid, t, action) && Ran(s, more, after, t)
  {
    var step := Work(t, action);
    after := Apply(mid, step);
    OneStep(mid, step);
    ReachesOn(s, steps, mid, [step], after);
    ActKeepsTasks(mid, t, action);
    more := steps + [step];
  }

  /** A list of steps that can be taken is a trace. */
  lemma {:induction false} ReachesIsTrace(s: System, steps: seq<Step>, after: System) returns (states: seq<System>)
    requires Reaches(s, steps, after)
    ensures IsTrace(states, steps) && states[0] == s && states[|steps|] == after
    decreases |steps|
  {
    if steps == [] {
      states := [s];
    } else {
      var rest := ReachesIsTrace(Apply(s, steps[0]), steps[1..], after);
      states := [s] + rest;
      forall k: nat | k < |steps| ensures StepAt(states, steps, k) {
        if k > 0 {
          assert StepAt(rest, steps[1..], k - 1);
          assert states[k] == rest[k - 1] && states[k + 1] == rest[k];
        }
      }
    }
  }
}
