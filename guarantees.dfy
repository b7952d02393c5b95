/**
 * Guarantees of the engine that hold for every plugin set: how often a
 * plugin is invoked, when a task is left on the stack, and where require
 * stops.
 */
module Guarantees {
  import opened Wrappers
  import opened Exceptions
  import opened Plugins
  import opened Resolution
  import opened Semantics
  import opened Trace

  /**
   * Executing a plugin invokes it exactly once: its invocation is the first
   * one recorded, and no other recorded invocation is of it.
   */
  lemma ExecuteInvokesOnce(env: Env, st: State, p: PluginId)
    requires WellFormed(env) && StValid(env, st) && p in env.defs && p !in st.plugins && Traced(st)
    ensures var r := Execute(env, st, p);
            Traced(r.st) && r.st.calls[|st.calls|] == p &&
            forall i :: 0 <= i < |r.st.calls| && i != |st.calls| ==> r.st.calls[i] != p
  {
    ExecuteTrace(env, st, p);
    var r := Execute(env, st, p);
    assert NoDup(r.st.calls);
  }

  /** Advancing a task that was already started never invokes its plugin again. */
  lemma ResumeNeverReinvokes(env: Env, st: State, t: TaskState)
    requires WellFormed(env) && StValid(env, st) && TaskOK(env, t) && t.cursor.Some? && t.plugin in st.plugins
    ensures var r := Advance(env, st, t);
            forall i :: |st.calls| <= i < |r.st.calls| ==> r.st.calls[i] != t.plugin
  {
    AdvanceTrace(env, st, t);
  }

  /**
   * Every task on the stack has been started and its plugin executed, so
   * the round of run's loop that resumes the top task never calls that
   * task's plugin again.
   */
  lemma ResumedNeverReinvokes(env: Env, st: State)
    requires WellFormed(env) && StValid(env, st) && st.tasks != []
    ensures var r := Resumed(env, st);
            forall i :: |st.calls| <= i < |r.st.calls| ==> r.st.calls[i] != st.tasks[|st.tasks| - 1].plugin
  {
    var n := |st.tasks| - 1;
    var below := st.(tasks := st.tasks[..n]);
    ResumeNeverReinvokes(env, below, st.tasks[n]);
    assert Resumed(env, st).st.calls == Advance(env, below, st.tasks[n]).st.calls;
  }

  /**
   * When the call of a plugin raises, its first advance stops there, with
   * the state the call left: an ordinary exception comes out as a
   * PluginError naming the plugin with the exception as its cause, and an
   * exception of the fallthrough family comes out unchanged.
   */
  lemma CallFailureWrapped(env: Env, st: State, p: PluginId)
    requires WellFormed(env) && StValid(env, st) && p in env.defs
    ensures var c := Perform(env, st.(calls := st.calls + [p]), env.defs[p].call);
            var r := Advance(env, st, TaskState(p, None));
            c.err.Some? ==>
              r.st == c.st && r.task.cursor.None? &&
              (c.err.value.Ordinary? ==> r.outcome == Raised(PluginError(p, c.err.value))) &&
              (IsFallthrough(c.err.value) ==> r.outcome == Raised(c.err.value))
  {
  }

  /** The code the next pull from `it` runs: up to the next element, or to exhaustion. */
  function NextCode(it: Iter): seq<Action> {
    if |it.elements| > 0 then it.elements[0] else it.epilogue
  }

  /**
   * Pulling from a started task runs exactly the code before its next
   * element (or before exhaustion) and leaves the state that code left.  It
   * raises exactly when that code raised, with the exception passed through
   * the plugin guard; otherwise it reports more work exactly when an element
   * was left, and completion exactly when none was.
   */
  lemma PullOutcome(env: Env, st: State, t: TaskState)
    requires WellFormed(env) && StValid(env, st) && TaskOK(env, t) && t.cursor.Some?
    ensures var it := t.cursor.value;
            var c := Perform(env, st, NextCode(it));
            var r := Pull(env, st, t);
            r.st == c.st && (r.outcome.Raised? <==> c.err.Some?) &&
            (c.err.Some? ==> r.outcome.exc == GuardPlugin(t.plugin, c.err.value)) &&
            (c.err.None? ==> (r.outcome.Yielded? <==> |it.elements| > 0) && (r.outcome.Finished? <==> |it.elements| == 0))
  {
  }

  /**
   * The same for the first advance of a task whose call did not raise: the
   * advance then pulls from the iterator of what the call returned, so a
   * failure in a generator's code before its first element comes out
   * through the plugin guard too.
   */
  lemma AdvanceOutcome(env: Env, st: State, p: PluginId)
    requires WellFormed(env) && StValid(env, st) && p in env.defs
    ensures var d := env.defs[p];
            var c0 := Perform(env, st.(calls := st.calls + [p]), d.call);
            var it := IterOf(d.returned);
            var r := Advance(env, st, TaskState(p, None));
            c0.err.None? ==>
              var c := Perform(env, c0.st, NextCode(it));
              r.st == c.st && (r.outcome.Raised? <==> c.err.Some?) &&
              (c.err.Some? ==> r.outcome.exc == GuardPlugin(p, c.err.value)) &&
              (c.err.None? ==> (r.outcome.Yielded? <==> |it.elements| > 0) && (r.outcome.Finished? <==> |it.elements| == 0))
  {
    var d := env.defs[p];
    var c0 := Perform(env, st.(calls := st.calls + [p]), d.call);
    if c0.err.None? {
      MeasureMono(env, st.plugins, c0.st.plugins);
      PullOutcome(env, c0.st, TaskState(p, Some(IterOf(d.returned))));
    }
  }

  /**
   * A plugin whose result is not iterable is done after its first advance:
   * that advance never reports more work, and it fails exactly when the
   * plugin's own code raised.
   */
  lemma OneShotFinishes(env: Env, st: State, p: PluginId)
    requires WellFormed(env) && StValid(env, st) && p in env.defs && env.defs[p].returned.NonIterable?
    ensures var r := Advance(env, st, TaskState(p, None));
            var c := Perform(env, st.(calls := st.calls + [p]), env.defs[p].call);
            !r.outcome.Yielded? && (r.outcome.Raised? <==> c.err.Some?)
  {
    var c := Perform(env, st.(calls := st.calls + [p]), env.defs[p].call);
    if c.err.None? {
      assert Perform(env, c.st, Exhausted.epilogue) == Effect(c.st, None);
    }
  }

  /** Every task pushed between st and st' belongs to a plugin that was not executed in st. */
  predicate PushedFresh(st: State, st': State) {
    forall i :: |st.tasks| <= i < |st'.tasks| ==> st'.tasks[i].plugin !in st.plugins
  }

  lemma PushedFreshTrans(a: State, b: State, c: State)
    requires a.plugins <= b.plugins && a.tasks <= b.tasks <= c.tasks
    requires PushedFresh(a, b) && PushedFresh(b, c)
    ensures PushedFresh(a, c)
  {
    forall i | |a.tasks| <= i < |c.tasks| ensures c.tasks[i].plugin !in a.plugins {
      if i < |b.tasks| {
        assert c.tasks[i] == b.tasks[i];
      }
    }
  }

  lemma {:induction false} PerformPushesFresh(env: Env, st: State, acts: seq<Action>)
    requires WellFormed(env) && StValid(env, st) && ActionsOK(env, acts)
    decreases Unexecuted(env, st), 2, |acts|
    ensures PushedFresh(st, Perform(env, st, acts).st)
  {
    if acts != [] {
      match acts[0]
      case Log(line) =>
        PerformPushesFresh(env, st.(ctx := st.ctx + [line]), acts[1..]);
      case Raise(e) =>
      case Require(specs) =>
        RequirePushesFresh(env, st, specs);
        var r := Semantics.Require(env, st, specs);
        if r.err.None? {
          MeasureMono(env, st.plugins, r.st.plugins);
          PerformPushesFresh(env, r.st, acts[1..]);
          PushedFreshTrans(st, r.st, Perform(env, r.st, acts[1..]).st);
        }
    }
  }

  lemma {:induction false} RequirePushesFresh(env: Env, st: State, specs: seq<Spec>)
    requires WellFormed(env) && StValid(env, st) && SpecsOK(env, specs)
    decreases Unexecuted(env, st), 1, |specs|
    ensures PushedFresh(st, Semantics.Require(env, st, specs).st)
  {
    if specs != [] {
      var res := Resolve(env, specs[0]);
      if res.Ok? && res.value !in st.plugins {
        ExecutePushesFresh(env, st, res.value);
        var r := Execute(env, st, res.value);
        if r.err.None? {
          MeasureMono(env, st.plugins, r.st.plugins);
          RequirePushesFresh(env, r.st, specs[1..]);
          PushedFreshTrans(st, r.st, Semantics.Require(env, r.st, specs[1..]).st);
        }
      }
    }
  }

  lemma {:induction false} ExecutePushesFresh(env: Env, st: State, p: PluginId)
    requires WellFormed(env) && StValid(env, st) && p in env.defs && p !in st.plugins
    decreases Unexecuted(env, st), 0, 0
    ensures PushedFresh(st, Execute(env, st, p).st)
  {
    var st1 := st.(plugins := st.plugins + {p});
    MeasureMono(env, st.plugins, st1.plugins);
    AdvancePushesFresh(env, st1, TaskState(p, None));
  }

  lemma {:induction false} AdvancePushesFresh(env: Env, st: State, t: TaskState)
    requires WellFormed(env) && StValid(env, st) && TaskOK(env, t)
    decreases Unexecuted(env, st), 4, 0
    ensures PushedFresh(st, Advance(env, st, t).st)
  {
    if t.cursor.None? {
      var d := env.defs[t.plugin];
      var st1 := st.(calls := st.calls + [t.plugin]);
      PerformPushesFresh(env, st1, d.call);
      var c := Perform(env, st1, d.call);
      if c.err.None? {
        MeasureMono(env, st.plugins, c.st.plugins);
        PullPushesFresh(env, c.st, t.(cursor := Some(IterOf(d.returned))));
        PushedFreshTrans(st, c.st, Advance(env, st, t).st);
      }
    } else {
      PullPushesFresh(env, st, t);
    }
  }

  lemma {:induction false} PullPushesFresh(env: Env, st: State, t: TaskState)
    requires WellFormed(env) && StValid(env, st) && TaskOK(env, t) && t.cursor.Some?
    decreases Unexecuted(env, st), 3, 0
    ensures PushedFresh(st, Pull(env, st, t).st)
  {
    var it := t.cursor.value;
    if |it.elements| > 0 {
      PerformPushesFresh(env, st, it.elements[0]);
    } else {
      PerformPushesFresh(env, st, it.epilogue);
    }
  }

  /** The task of plugin p is on top of the stack, above everything in st. */
  predicate PushedOver(st: State, st': State, p: PluginId) {
    |st'.tasks| > |st.tasks| && st'.tasks[|st'.tasks| - 1].plugin == p
  }

  /**
   * require leaves the task of a newly executed plugin on the stack exactly
   * when its first advance pulled an element, that is, exactly when the
   * plugin returned something with at least one element; the task then
   * waits with that element consumed.
   */
  lemma ExecutePushesUnfinished(env: Env, st: State, p: PluginId)
    requires WellFormed(env) && StValid(env, st) && p in env.defs && p !in st.plugins
    ensures var r := Execute(env, st, p);
            var it := IterOf(env.defs[p].returned);
            r.err.None? ==>
              (PushedOver(st, r.st, p) <==> |it.elements| > 0) &&
              (PushedOver(st, r.st, p) ==> r.st.tasks[|r.st.tasks| - 1].cursor == Some(Iter(it.elements[1..], it.epilogue)))
  {
    var st1 := st.(plugins := st.plugins + {p});
    MeasureMono(env, st.plugins, st1.plugins);
    AdvancePushesFresh(env, st1, TaskState(p, None));
    var a := Advance(env, st1, TaskState(p, None));
    var r := Execute(env, st, p);
    if r.err.None? && !a.outcome.Yielded? {
      assert r.st == a.st;
      if |a.st.tasks| > |st.tasks| {
        assert a.st.tasks[|a.st.tasks| - 1].plugin !in st1.plugins;
      }
    }
  }

  /**
   * require(*specs) returns as soon as a spec names an executed plugin:
   * nothing changes and none of the specs after it is even resolved.
   */
  lemma RequireStopsAtExecuted(env: Env, st: State, specs: seq<Spec>)
    requires WellFormed(env) && StValid(env, st) && SpecsOK(env, specs)
    requires specs != [] && Resolve(env, specs[0]).Ok? && Resolve(env, specs[0]).value in st.plugins
    ensures Semantics.Require(env, st, specs) == Effect(st, None)
  {
  }

  /** On a fresh pipeline, run invokes every plugin it executes exactly once and no other. */
  lemma RunInvokesAtMostOnce(env: Env, specs: seq<Spec>)
    requires WellFormed(env) && SpecsOK(env, specs)
    ensures var r := Run(env, Init, specs);
            NoDup(r.st.calls) && forall x :: x in r.st.calls <==> x in r.st.plugins
  {
    assert Traced(Init);
    RunTrace(env, Init, specs);
  }
}
