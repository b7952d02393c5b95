/**
 * LIFO resumption.  Nothing the engine does while running plugin code
 * looks at the tasks already suspended: requiring and advancing only push
 * above them.  Hence the tasks on the stack when a stretch of work starts
 * are resumed only after everything pushed above them has run to
 * completion, as nested scopes are left innermost first.
 */
module Lifo {
  import opened Wrappers
  import opened Exceptions
  import opened Plugins
  import opened Resolution
  import opened Semantics

  /** The state st with the tasks `below` underneath its own stack. */
  function Under(below: seq<TaskState>, st: State): State {
    st.(tasks := below + st.tasks)
  }

  lemma UnderValid(env: Env, below: seq<TaskState>, st: State)
    requires StValid(env, st) && AllSuspended(env, below) && Owned(st.plugins, below)
    ensures StValid(env, Under(below, st))
  {
    var ts := Under(below, st).tasks;
    forall i | 0 <= i < |ts| ensures Suspended(env, ts[i]) {
      if i >= |below| {
        assert ts[i] == st.tasks[i - |below|];
      }
    }
  }

  lemma UnderPush(below: seq<TaskState>, st: State, t: TaskState)
    ensures Under(below, st).(tasks := Under(below, st).tasks + [t]) == Under(below, st.(tasks := st.tasks + [t]))
  {
    assert below + st.tasks + [t] == below + (st.tasks + [t]);
  }

  /** Running plugin code on a taller stack does the same and only leaves the lower tasks in place. */
  lemma {:induction false} PerformUnder(env: Env, below: seq<TaskState>, st: State, acts: seq<Action>)
    requires WellFormed(env) && StValid(env, st) && AllSuspended(env, below) && Owned(st.plugins, below) && ActionsOK(env, acts)
    decreases Unexecuted(env, st), 2, |acts|
    ensures StValid(env, Under(below, st)) && var r := Perform(env, st, acts);
            Perform(env, Under(below, st), acts) == Effect(Under(below, r.st), r.err)
  {
    UnderValid(env, below, st);
    if acts != [] {
      match acts[0]
      case Log(line) =>
        assert Under(below, st).(ctx := st.ctx + [line]) == Under(below, st.(ctx := st.ctx + [line]));
        PerformUnder(env, below, st.(ctx := st.ctx + [line]), acts[1..]);
      case Raise(e) =>
      case Require(specs) =>
        RequireUnder(env, below, st, specs);
        var r := Semantics.Require(env, st, specs);
        if r.err.None? {
          MeasureMono(env, st.plugins, r.st.plugins);
          PerformUnder(env, below, r.st, acts[1..]);
        }
    }
  }

  lemma {:induction false} RequireUnder(env: Env, below: seq<TaskState>, st: State, specs: seq<Spec>)
    requires WellFormed(env) && StValid(env, st) && AllSuspended(env, below) && Owned(st.plugins, below) && SpecsOK(env, specs)
    decreases Unexecuted(env, st), 1, |specs|
    ensures StValid(env, Under(below, st)) && var r := Semantics.Require(env, st, specs);
            Semantics.Require(env, Under(below, st), specs) == Effect(Under(below, r.st), r.err)
  {
    UnderValid(env, below, st);
    if specs != [] {
      var res := Resolve(env, specs[0]);
      if res.Ok? && res.value !in st.plugins {
        ExecuteUnder(env, below, st, res.value);
        var r := Execute(env, st, res.value);
        if r.err.None? {
          MeasureMono(env, st.plugins, r.st.plugins);
          RequireUnder(env, below, r.st, specs[1..]);
        }
      }
    }
  }

  lemma {:induction false} ExecuteUnder(env: Env, below: seq<TaskState>, st: State, p: PluginId)
    requires WellFormed(env) && StValid(env, st) && AllSuspended(env, below) && Owned(st.plugins, below) && p in env.defs && p !in st.plugins
    decreases Unexecuted(env, st), 0, 0
    ensures StValid(env, Under(below, st)) && var r := Execute(env, st, p);
            Execute(env, Under(below, st), p) == Effect(Under(below, r.st), r.err)
  {
    UnderValid(env, below, st);
    var st1 := st.(plugins := st.plugins + {p});
    MeasureMono(env, st.plugins, st1.plugins);
    assert Under(below, st).(plugins := st.plugins + {p}) == Under(below, st1);
    AdvanceUnder(env, below, st1, TaskState(p, None));
    var a := Advance(env, st1, TaskState(p, None));
    UnderPush(below, a.st, a.task);
  }

  lemma {:induction false} AdvanceUnder(env: Env, below: seq<TaskState>, st: State, t: TaskState)
    requires WellFormed(env) && StValid(env, st) && AllSuspended(env, below) && Owned(st.plugins, below) && TaskOK(env, t)
    decreases Unexecuted(env, st), 4, 0
    ensures StValid(env, Under(below, st)) && var r := Advance(env, st, t);
            Advance(env, Under(below, st), t) == Step(Under(below, r.st), r.task, r.outcome)
  {
    UnderValid(env, below, st);
    if t.cursor.None? {
      var d := env.defs[t.plugin];
      var st1 := st.(calls := st.calls + [t.plugin]);
      assert Under(below, st).(calls := st.calls + [t.plugin]) == Under(below, st1);
      PerformUnder(env, below, st1, d.call);
      var c := Perform(env, st1, d.call);
      if c.err.None? {
        MeasureMono(env, st.plugins, c.st.plugins);
        PullUnder(env, below, c.st, t.(cursor := Some(IterOf(d.returned))));
      }
    } else {
      PullUnder(env, below, st, t);
    }
  }

  lemma {:induction false} PullUnder(env: Env, below: seq<TaskState>, st: State, t: TaskState)
    requires WellFormed(env) && StValid(env, st) && AllSuspended(env, below) && Owned(st.plugins, below) && TaskOK(env, t) && t.cursor.Some?
    decreases Unexecuted(env, st), 3, 0
    ensures StValid(env, Under(below, st)) && var r := Pull(env, st, t);
            Pull(env, Under(below, st), t) == Step(Under(below, r.st), r.task, r.outcome)
  {
    UnderValid(env, below, st);
    var it := t.cursor.value;
    if |it.elements| > 0 {
      PerformUnder(env, below, st, it.elements[0]);
    } else {
      PerformUnder(env, below, st, it.epilogue);
    }
  }

  /** One round of run's loop on a taller stack resumes the same task and leaves the lower tasks in place. */
  lemma ResumedUnder(env: Env, below: seq<TaskState>, st: State)
    requires WellFormed(env) && StValid(env, st) && AllSuspended(env, below) && Owned(st.plugins, below) && st.tasks != []
    ensures StValid(env, Under(below, st)) && var r := Resumed(env, st);
            Resumed(env, Under(below, st)) == Step(Under(below, r.st), r.task, r.outcome)
  {
    UnderValid(env, below, st);
    var n := |st.tasks| - 1;
    var top := st.(tasks := st.tasks[..n]);
    var whole := Under(below, st);
    assert whole.tasks[..|whole.tasks| - 1] == Under(below, top).tasks;
    assert whole.tasks[|whole.tasks| - 1] == st.tasks[n];
    assert whole.(tasks := whole.tasks[..|whole.tasks| - 1]) == Under(below, top);
    AdvanceUnder(env, below, top, st.tasks[n]);
    var a := Advance(env, top, st.tasks[n]);
    UnderPush(below, a.st, a.task);
  }

  /**
   * LIFO resumption: draining a stack whose lower part is `below` first
   * drains everything above `below` to completion, exactly as if `below`
   * were absent, and only then resumes the tasks of `below`.  If the upper
   * part fails, the tasks of `below` are never resumed.
   */
  lemma {:induction false} DrainUnder(env: Env, below: seq<TaskState>, st: State)
    requires WellFormed(env) && StValid(env, st) && AllSuspended(env, below) && Owned(st.plugins, below)
    decreases Unexecuted(env, st), Weight(st.tasks)
    ensures StValid(env, Under(below, st)) && var r := Drain(env, st);
            StValid(env, Under(below, r.st)) &&
            Drain(env, Under(below, st)) == if r.err.Some? then Effect(Under(below, r.st), r.err)
                                            else Drain(env, Under(below, r.st))
  {
    UnderValid(env, below, st);
    UnderValid(env, below, Drain(env, st).st);
    if st.tasks != [] {
      ResumedUnder(env, below, st);
      ResumeProgress(env, st);
      var next := Resumed(env, st);
      if !next.outcome.Raised? {
        DrainUnder(env, below, next.st);
      }
    }
  }
}
