/**
 * The invocation trace: every plugin the engine executes is invoked exactly
 * once, at the moment it is executed, and a plugin that has been executed is
 * never invoked again.  The executed set is filled before the first advance,
 * so a plugin that requires itself, directly or through a cycle, finds
 * itself executed and is skipped.
 */
module Trace {
  import opened Wrappers
  import opened Exceptions
  import opened Plugins
  import opened Resolution
  import opened Semantics

  predicate NoDup(s: seq<PluginId>) {
    forall i, j :: 0 <= i < j < |s| ==> s[i] != s[j]
  }

  /** Every executed plugin has been invoked, exactly once, and nothing else has. */
  ghost predicate Traced(st: State) {
    NoDup(st.calls) && forall x :: x in st.calls <==> x in st.plugins
  }

  /** As Traced, except that plugin p is marked executed and not invoked yet. */
  ghost predicate PendingCall(st: State, p: PluginId) {
    NoDup(st.calls) && p !in st.calls && forall x :: x in st.plugins <==> (x in st.calls || x == p)
  }

  /** Invocations recorded from index k on are of plugins that were not executed in st. */
  predicate FreshCalls(st: State, st': State, k: nat) {
    forall i :: k <= i < |st'.calls| ==> st'.calls[i] !in st.plugins
  }

  lemma FreshCallsTrans(a: State, b: State, c: State)
    requires a.plugins <= b.plugins && a.calls <= b.calls <= c.calls
    requires FreshCalls(a, b, |a.calls|) && FreshCalls(b, c, |b.calls|)
    ensures FreshCalls(a, c, |a.calls|)
  {
    forall i | |a.calls| <= i < |c.calls| ensures c.calls[i] !in a.plugins {
      if i < |b.calls| {
        assert c.calls[i] == b.calls[i];
      }
    }
  }

  /** Marking a plugin executed before its invocation leaves exactly that invocation pending. */
  lemma MarkExecuted(st: State, p: PluginId)
    requires p !in st.plugins
    ensures Traced(st) ==> PendingCall(st.(plugins := st.plugins + {p}), p)
  {
  }

  /** Recording the pending invocation restores the trace. */
  lemma RecordCall(st: State, p: PluginId)
    requires PendingCall(st, p)
    ensures Traced(st.(calls := st.calls + [p]))
  {
    var calls := st.calls + [p];
    forall i, j | 0 <= i < j < |calls| ensures calls[i] != calls[j] {
      if j == |st.calls| {
        assert calls[i] in st.calls;
      }
    }
  }

  lemma {:induction false} PerformTrace(env: Env, st: State, acts: seq<Action>)
    requires WellFormed(env) && StValid(env, st) && ActionsOK(env, acts)
    decreases Unexecuted(env, st), 2, |acts|
    ensures var r := Perform(env, st, acts);
            FreshCalls(st, r.st, |st.calls|) && (Traced(st) ==> Traced(r.st))
  {
    if acts != [] {
      match acts[0]
      case Log(line) =>
        var st' := st.(ctx := st.ctx + [line]);
        PerformTrace(env, st', acts[1..]);
        assert Perform(env, st, acts) == Perform(env, st', acts[1..]);
      case Raise(e) =>
      case Require(specs) =>
        RequireTrace(env, st, specs);
        var r := Semantics.Require(env, st, specs);
        if r.err.None? {
          MeasureMono(env, st.plugins, r.st.plugins);
          PerformTrace(env, r.st, acts[1..]);
          assert Perform(env, st, acts) == Perform(env, r.st, acts[1..]);
          FreshCallsTrans(st, r.st, Perform(env, r.st, acts[1..]).st);
        }
    }
  }

  lemma {:induction false} RequireTrace(env: Env, st: State, specs: seq<Spec>)
    requires WellFormed(env) && StValid(env, st) && SpecsOK(env, specs)
    decreases Unexecuted(env, st), 1, |specs|
    ensures var r := Semantics.Require(env, st, specs);
            FreshCalls(st, r.st, |st.calls|) && (Traced(st) ==> Traced(r.st))
  {
    if specs != [] {
      var res := Resolve(env, specs[0]);
      if res.Ok? && res.value !in st.plugins {
        ExecuteTrace(env, st, res.value);
        var r := Execute(env, st, res.value);
        if r.err.None? {
          MeasureMono(env, st.plugins, r.st.plugins);
          RequireTrace(env, r.st, specs[1..]);
          FreshCallsTrans(st, r.st, Semantics.Require(env, r.st, specs[1..]).st);
        }
      }
    }
  }

  /** Executing p invokes p first, and then only plugins that were not executed before. */
  lemma {:induction false} ExecuteTrace(env: Env, st: State, p: PluginId)
    requires WellFormed(env) && StValid(env, st) && p in env.defs && p !in st.plugins
    decreases Unexecuted(env, st), 0, 0
    ensures var r := Execute(env, st, p);
            |r.st.calls| > |st.calls| && r.st.calls[|st.calls|] == p &&
            FreshCalls(st, r.st, |st.calls|) && (Traced(st) ==> Traced(r.st))
  {
    var st1 := st.(plugins := st.plugins + {p});
    MeasureMono(env, st.plugins, st1.plugins);
    MarkExecuted(st, p);
    AdvanceTrace(env, st1, TaskState(p, None));
    var a := Advance(env, st1, TaskState(p, None));
    assert FreshCalls(st, a.st, |st.calls|) by {
      assert forall i :: |st.calls| < i < |a.st.calls| ==> a.st.calls[i] !in st1.plugins;
    }
  }

  /**
   * A first advance invokes the task's plugin and records it; any advance
   * then invokes only plugins that were not executed before it.
   */
  lemma {:induction false} AdvanceTrace(env: Env, st: State, t: TaskState)
    requires WellFormed(env) && StValid(env, st) && TaskOK(env, t)
    decreases Unexecuted(env, st), 4, 0
    ensures var r := Advance(env, st, t);
            (t.cursor.None? ==> |r.st.calls| > |st.calls| && r.st.calls[|st.calls|] == t.plugin) &&
            FreshCalls(st, r.st, if t.cursor.None? then |st.calls| + 1 else |st.calls|) &&
            ((if t.cursor.None? then PendingCall(st, t.plugin) else Traced(st)) ==> Traced(r.st))
  {
    if t.cursor.None? {
      var d := env.defs[t.plugin];
      var st1 := st.(calls := st.calls + [t.plugin]);
      if PendingCall(st, t.plugin) {
        RecordCall(st, t.plugin);
      }
      PerformTrace(env, st1, d.call);
      var c := Perform(env, st1, d.call);
      assert c.st.calls[|st.calls|] == t.plugin;
      if c.err.None? {
        MeasureMono(env, st.plugins, c.st.plugins);
        PullTrace(env, c.st, t.(cursor := Some(IterOf(d.returned))));
        FreshCallsTrans(st1, c.st, Advance(env, st, t).st);
      }
    } else {
      PullTrace(env, st, t);
    }
  }

  lemma {:induction false} PullTrace(env: Env, st: State, t: TaskState)
    requires WellFormed(env) && StValid(env, st) && TaskOK(env, t) && t.cursor.Some?
    decreases Unexecuted(env, st), 3, 0
    ensures var r := Pull(env, st, t);
            FreshCalls(st, r.st, |st.calls|) && (Traced(st) ==> Traced(r.st))
  {
    var it := t.cursor.value;
    if |it.elements| > 0 {
      PerformTrace(env, st, it.elements[0]);
    } else {
      PerformTrace(env, st, it.epilogue);
    }
  }

  lemma ResumedTrace(env: Env, st: State)
    requires WellFormed(env) && StValid(env, st) && st.tasks != []
    ensures var r := Resumed(env, st);
            FreshCalls(st, r.st, |st.calls|) && (Traced(st) ==> Traced(r.st))
  {
    var n := |st.tasks| - 1;
    AdvanceTrace(env, st.(tasks := st.tasks[..n]), st.tasks[n]);
  }

  lemma {:induction false} DrainTrace(env: Env, st: State)
    requires WellFormed(env) && StValid(env, st)
    decreases Unexecuted(env, st), Weight(st.tasks)
    ensures var r := Drain(env, st);
            FreshCalls(st, r.st, |st.calls|) && (Traced(st) ==> Traced(r.st))
  {
    if st.tasks != [] {
      ResumedTrace(env, st);
      ResumeProgress(env, st);
      var a := Resumed(env, st);
      if !a.outcome.Raised? {
        DrainTrace(env, a.st);
        FreshCallsTrans(st, a.st, Drain(env, a.st).st);
      }
    }
  }

  lemma {:induction false} RunTrace(env: Env, st: State, specs: seq<Spec>)
    requires WellFormed(env) && StValid(env, st) && SpecsOK(env, specs)
    decreases |specs|
    ensures var r := Run(env, st, specs);
            FreshCalls(st, r.st, |st.calls|) && (Traced(st) ==> Traced(r.st))
  {
    if specs == [] {
      DrainTrace(env, st);
    } else {
      RequireTrace(env, st, [specs[0]]);
      var r := Semantics.Require(env, st, [specs[0]]);
      if r.err.None? {
        RunTrace(env, r.st, specs[1..]);
        FreshCallsTrans(st, r.st, Run(env, r.st, specs[1..]).st);
      }
    }
  }
}
