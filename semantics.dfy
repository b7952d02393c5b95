/**
 * Reference semantics of the plugin execution engine: Task.advance,
 * GenericPipeline.require and GenericPipeline.run as functions from one
 * pipeline state to the next.  The imperative classes of module Engine are
 * proved to compute exactly these functions.
 *
 * Calling a plugin runs its code (Perform), and that code may call require
 * again, so Perform, Require, Advance and Pull are mutually recursive.  They
 * terminate because every require that does not skip adds a plugin to the
 * executed set, which is drawn from the finite universe env.defs.Keys.
 */
module Semantics {
  import opened Wrappers
  import opened Exceptions
  import opened Plugins
  import opened Resolution

  /** A task: the plugin it wraps and its `iterator` field, here `cursor` (None while fresh). */
  datatype TaskState = TaskState(plugin: PluginId, cursor: Option<Iter>)

  /**
   * A pipeline: the executed set, the stack of suspended tasks (top last),
   * the shared context, and the trace of plugin invocations in order.
   */
  datatype State = State(plugins: set<PluginId>, tasks: seq<TaskState>, ctx: seq<string>, calls: seq<PluginId>)

  /** How a require, a plugin body or a run ended: normally, or with an exception. */
  datatype Effect = Effect(st: State, err: Option<Exc>)

  /** What one advance reports: `self` returned, `None` returned, or an exception. */
  datatype Outcome = Yielded | Finished | Raised(exc: Exc)

  /** The state after an advance, the task as it was left, and what the advance reported. */
  datatype Step = Step(st: State, task: TaskState, outcome: Outcome)

  /** A fresh pipeline. */
  const Init := State({}, [], [], [])

  predicate TaskOK(env: Env, t: TaskState) {
    t.plugin in env.defs && (t.cursor.Some? ==> IterOK(env, t.cursor.value))
  }

  /** A task that has been advanced at least once. */
  predicate Suspended(env: Env, t: TaskState) {
    TaskOK(env, t) && t.cursor.Some?
  }

  predicate AllSuspended(env: Env, ts: seq<TaskState>) {
    forall i :: 0 <= i < |ts| ==> Suspended(env, ts[i])
  }

  /** Every task on the stack belongs to a plugin that has been executed. */
  predicate Owned(plugins: set<PluginId>, ts: seq<TaskState>) {
    forall i :: 0 <= i < |ts| ==> ts[i].plugin in plugins
  }

  /**
   * Executed plugins come from the universe; only advanced tasks of
   * executed plugins wait on the stack.
   */
  predicate StValid(env: Env, st: State) {
    st.plugins <= env.defs.Keys && AllSuspended(env, st.tasks) && Owned(st.plugins, st.tasks)
  }

  /** The number of plugins of the universe not executed yet. */
  function Unexecuted(env: Env, st: State): nat {
    |env.defs.Keys - st.plugins|
  }

  /** The executed set only grows, the context and the trace are only appended to. */
  predicate Extends(env: Env, st: State, st': State) {
    StValid(env, st') && st.plugins <= st'.plugins && st.ctx <= st'.ctx && st.calls <= st'.calls
  }

  /** Tasks are only pushed, and only when a plugin was newly executed. */
  predicate StackExtends(st: State, st': State) {
    st.tasks <= st'.tasks && (st'.plugins == st.plugins ==> st'.tasks == st.tasks)
  }

  lemma SubsetCard<T>(a: set<T>, b: set<T>)
    requires a <= b
    ensures |a| <= |b|
    ensures |a| == |b| ==> a == b
  {
    var d := b - a;
    assert b == a + d;
    assert a * d == {};
    if |a| == |b| {
      assert |d| == 0;
    }
  }

  /** Growing the executed set never increases the measure, and strictly decreases it within the universe. */
  lemma MeasureMono(env: Env, p: set<PluginId>, q: set<PluginId>)
    requires p <= q
    ensures |env.defs.Keys - q| <= |env.defs.Keys - p|
    ensures q <= env.defs.Keys && p != q ==> |env.defs.Keys - q| < |env.defs.Keys - p|
  {
    var u := env.defs.Keys;
    SubsetCard(u - q, u - p);
    if q <= u && p != q {
      var x :| x in q && x !in p;
      assert x in u - p && x !in u - q;
    }
  }

  /** The cursor a task pulls from: the one it holds, or the one calling its plugin yields. */
  function Started(env: Env, t: TaskState): Iter
    requires t.plugin in env.defs
  {
    if t.cursor.Some? then t.cursor.value else IterOf(env.defs[t.plugin].returned)
  }

  /** Running plugin code against the pipeline: the statements in order, until one raises. */
  function Perform(env: Env, st: State, acts: seq<Action>): (r: Effect)
    requires WellFormed(env) && StValid(env, st) && ActionsOK(env, acts)
    decreases Unexecuted(env, st), 2, |acts|
    ensures Extends(env, st, r.st) && StackExtends(st, r.st)
  {
    if acts == [] then Effect(st, None)
    else
      match acts[0]
      case Log(line) => Perform(env, st.(ctx := st.ctx + [line]), acts[1..])
      case Raise(e) => Effect(st, Some(e))
      case Require(specs) =>
        var r := Require(env, st, specs);
        if r.err.Some? then r
        else
          MeasureMono(env, st.plugins, r.st.plugins);
          Perform(env, r.st, acts[1..])
  }

  /**
   * GenericPipeline.require(*specs): resolve each spec in turn; stop at the
   * first failure, and also at the first spec whose plugin has already been
   * executed (the source returns there); otherwise execute the plugin.
   */
  function Require(env: Env, st: State, specs: seq<Spec>): (r: Effect)
    requires WellFormed(env) && StValid(env, st) && SpecsOK(env, specs)
    decreases Unexecuted(env, st), 1, |specs|
    ensures Extends(env, st, r.st) && StackExtends(st, r.st)
    ensures r.err.Some? ==> IsFallthrough(r.err.value)
  {
    if specs == [] then Effect(st, None)
    else
      match Resolve(env, specs[0])
      case Err(e) => Effect(st, Some(e))
      case Ok(p) =>
        if p in st.plugins then Effect(st, None)
        else
          var r := Execute(env, st, p);
          if r.err.Some? then r
          else
            MeasureMono(env, st.plugins, r.st.plugins);
            Require(env, r.st, specs[1..])
  }

  /**
   * The body of require's loop for a plugin not executed yet: add it to the
   * executed set first, then advance a fresh task for it once, and push the
   * task exactly when that advance reports more work.
   */
  function Execute(env: Env, st: State, p: PluginId): (r: Effect)
    requires WellFormed(env) && StValid(env, st) && p in env.defs && p !in st.plugins
    decreases Unexecuted(env, st), 0, 0
    ensures Extends(env, st, r.st) && StackExtends(st, r.st)
    ensures p in r.st.plugins
    ensures r.err.Some? ==> IsFallthrough(r.err.value)
  {
    var st1 := st.(plugins := st.plugins + {p});
    MeasureMono(env, st.plugins, st1.plugins);
    var a := Advance(env, st1, TaskState(p, None));
    if a.outcome.Raised? then Effect(a.st, Some(a.outcome.exc))
    else if a.outcome.Yielded? then Effect(a.st.(tasks := a.st.tasks + [a.task]), None)
    else Effect(a.st, None)
  }

  /**
   * Task.advance: a fresh task calls its plugin (exactly once, recorded in
   * the trace) and keeps the cursor of the result; then one element is
   * pulled.  Errors outside the fallthrough family become PluginError.
   */
  function Advance(env: Env, st: State, t: TaskState): (r: Step)
    requires WellFormed(env) && StValid(env, st) && TaskOK(env, t)
    decreases Unexecuted(env, st), 4, 0
    ensures Extends(env, st, r.st) && StackExtends(st, r.st)
    ensures TaskOK(env, r.task) && r.task.plugin == t.plugin
    ensures PullSpec(Started(env, t), r)
  {
    if t.cursor.None? then
      var d := env.defs[t.plugin];
      var c := Perform(env, st.(calls := st.calls + [t.plugin]), d.call);
      if c.err.Some? then Step(c.st, t, Raised(GuardPlugin(t.plugin, c.err.value)))
      else
        MeasureMono(env, st.plugins, c.st.plugins);
        Pull(env, c.st, t.(cursor := Some(IterOf(d.returned))))
    else
      Pull(env, st, t)
  }

  /**
   * What one advance does to the cursor it pulls from: it reports more
   * work exactly when it pulled an element, which is then consumed; it
   * reports completion exactly when the cursor was exhausted; a failure
   * is always in the fallthrough family.
   */
  predicate PullSpec(it: Iter, r: Step) {
    (r.outcome.Yielded? ==> |it.elements| > 0 && r.task.cursor == Some(Iter(it.elements[1..], it.epilogue))) &&
    (r.outcome.Finished? ==> |it.elements| == 0 && r.task.cursor == Some(Exhausted)) &&
    (r.outcome.Raised? ==> IsFallthrough(r.outcome.exc) && r.task.cursor in {None, Some(Exhausted)})
  }

  /** `for _ in self.cursor: return self` followed by `return None`. */
  function Pull(env: Env, st: State, t: TaskState): (r: Step)
    requires WellFormed(env) && StValid(env, st) && TaskOK(env, t) && t.cursor.Some?
    decreases Unexecuted(env, st), 3, 0
    ensures Extends(env, st, r.st) && StackExtends(st, r.st)
    ensures TaskOK(env, r.task) && r.task.plugin == t.plugin && r.task.cursor.Some?
    ensures PullSpec(t.cursor.value, r)
  {
    var it := t.cursor.value;
    if |it.elements| > 0 then
      var c := Perform(env, st, it.elements[0]);
      if c.err.Some? then Step(c.st, t.(cursor := Some(Exhausted)), Raised(GuardPlugin(t.plugin, c.err.value)))
      else Step(c.st, t.(cursor := Some(Iter(it.elements[1..], it.epilogue))), Yielded)
    else
      var c := Perform(env, st, it.epilogue);
      Step(c.st, t.(cursor := Some(Exhausted)),
           if c.err.Some? then Raised(GuardPlugin(t.plugin, c.err.value)) else Finished)
  }

  /** How many more advances a task can take: one per element left, plus the one that finds the end. */
  function Remaining(t: TaskState): nat {
    if t.cursor.Some? then |t.cursor.value.elements| + 1 else 0
  }

  /** The work left on a stack of tasks. */
  function Weight(ts: seq<TaskState>): nat {
    if ts == [] then 0 else Weight(ts[..|ts| - 1]) + Remaining(ts[|ts| - 1])
  }

  /** One round of run's loop: pop the top task, advance it, and push it back if it reports more work. */
  function Resumed(env: Env, st: State): (r: Step)
    requires WellFormed(env) && StValid(env, st) && st.tasks != []
  {
    var n := |st.tasks| - 1;
    var a := Advance(env, st.(tasks := st.tasks[..n]), st.tasks[n]);
    if a.outcome.Yielded? then a.(st := a.st.(tasks := a.st.tasks + [a.task])) else a
  }

  /**
   * A round of run's loop never touches the tasks below the one it
   * resumes, and pulls from that task's cursor as Advance does.  When no
   * new plugin was executed, the stack is exactly the lower tasks, with the
   * resumed task back on top precisely when it pulled an element.
   */
  lemma ResumedFrame(env: Env, st: State)
    requires WellFormed(env) && StValid(env, st) && st.tasks != []
    ensures var r := Resumed(env, st);
            Extends(env, st, r.st) && st.tasks[..|st.tasks| - 1] <= r.st.tasks &&
            r.task.plugin == st.tasks[|st.tasks| - 1].plugin &&
            PullSpec(st.tasks[|st.tasks| - 1].cursor.value, r) &&
            (r.st.plugins == st.plugins ==>
               r.st.tasks == st.tasks[..|st.tasks| - 1] + if r.outcome.Yielded? then [r.task] else [])
  {
  }

  /**
   * Each round of run's loop makes progress: either it executed a new
   * plugin, or the work left on the stack, counted in advances, went down
   * (ResumedFrame says what the stack then is).
   */
  lemma {:induction false} ResumeProgress(env: Env, st: State)
    requires WellFormed(env) && StValid(env, st) && st.tasks != []
    ensures var r := Resumed(env, st);
            Unexecuted(env, r.st) < Unexecuted(env, st) ||
            (Unexecuted(env, r.st) == Unexecuted(env, st) && Weight(r.st.tasks) < Weight(st.tasks))
  {
    var n := |st.tasks| - 1;
    var below, t := st.tasks[..n], st.tasks[n];
    var a := Advance(env, st.(tasks := below), t);
    MeasureMono(env, st.plugins, a.st.plugins);
    assert Weight(st.tasks) == Weight(below) + Remaining(t);
    if a.st.plugins == st.plugins {
      assert a.st.tasks == below;
      if a.outcome.Yielded? {
        var next := below + [a.task];
        assert next[..|next| - 1] == below;
        assert Weight(next) == Weight(below) + Remaining(a.task);
      }
    }
  }

  /**
   * run's loop: while tasks are suspended, pop the most recently pushed
   * one, advance it, and push it straight back if it reports more work.
   */
  function Drain(env: Env, st: State): (r: Effect)
    requires WellFormed(env) && StValid(env, st)
    decreases Unexecuted(env, st), Weight(st.tasks)
    ensures Extends(env, st, r.st)
    ensures r.err.None? ==> r.st.tasks == []
    ensures r.err.Some? ==> IsFallthrough(r.err.value)
  {
    if st.tasks == [] then Effect(st, None)
    else
      var a := Resumed(env, st);
      ResumeProgress(env, st);
      if a.outcome.Raised? then Effect(a.st, Some(a.outcome.exc))
      else Drain(env, a.st)
  }

  /** GenericPipeline.run(specs): require each spec on its own, in order, then drain the stack. */
  function Run(env: Env, st: State, specs: seq<Spec>): (r: Effect)
    requires WellFormed(env) && StValid(env, st) && SpecsOK(env, specs)
    decreases |specs|
    ensures Extends(env, st, r.st)
    ensures r.err.None? ==> r.st.tasks == []
    ensures r.err.Some? ==> IsFallthrough(r.err.value)
  {
    if specs == [] then Drain(env, st)
    else
      var r := Require(env, st, [specs[0]]);
      if r.err.Some? then r else Run(env, r.st, specs[1..])
  }
}
