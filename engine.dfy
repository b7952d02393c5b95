/**
 * The plugin execution engine as the source writes it: Task objects whose
 * advance updates their iterator in place, and a pipeline object that owns
 * the executed set, the stack of suspended tasks and the shared context.
 * Every method is proved to compute the corresponding function of module
 * Semantics, where the properties of the engine are proved.
 */
module Engine {
  import opened Wrappers
  import opened Exceptions
  import opened Plugins
  import opened Resolution
  import opened Semantics

  /** A unit of work generated by the pipeline. */
  class Task {
    const plugin: PluginId
    /** The `iterator` field: None until the plugin has been called. */
    var cursor: Option<Iter>

    constructor (plugin: PluginId)
      ensures this.plugin == plugin && cursor == None
    {
      this.plugin := plugin;
      cursor := None;
    }

    function Value(): TaskState
      reads this
    {
      TaskState(plugin, cursor)
    }

    /**
     * Make progress on the task and return it unless no more work is
     * necessary; an exception is returned in `err` instead of being raised.
     */
    method Advance(p: Pipeline) returns (next: Task?, err: Option<Exc>)
      requires p.Valid() && this !in p.tasks && TaskOK(p.env, Value())
      modifies this, p
      decreases p.Unexecuted(), 4, 0
      ensures p.Valid() && this !in p.tasks
      ensures forall x :: x in p.tasks ==> x in old(p.tasks) || fresh(x)
      ensures var a := Semantics.Advance(p.env, old(p.State()), old(Value()));
              p.State() == a.st && Value() == a.task &&
              (next == this <==> a.outcome.Yielded?) && (next == null <==> !a.outcome.Yielded?) &&
              err == (if a.outcome.Raised? then Some(a.outcome.exc) else None)
    {
      if cursor.None? {
        ghost var st0 := p.State();
        var d := p.env.defs[plugin];
        p.calls := p.calls + [plugin];
        assert p.State() == st0.(calls := st0.calls + [plugin]);
        var e := p.Perform(d.call);
        assert this !in p.tasks;
        if e.Some? {
          return null, Some(GuardPlugin(plugin, e.value));
        }
        ghost var st1 := p.State();
        cursor := Some(IterOf(d.returned));
        assert p.State() == st1;
        MeasureMono(p.env, st0.plugins, p.plugins);
      }
      next, err := Pull(p);
    }

    /** `for _ in self.iterator: return self`, then `return None`. */
    method Pull(p: Pipeline) returns (next: Task?, err: Option<Exc>)
      requires p.Valid() && this !in p.tasks && TaskOK(p.env, Value()) && cursor.Some?
      modifies this, p
      decreases p.Unexecuted(), 3, 0
      ensures p.Valid() && this !in p.tasks
      ensures forall x :: x in p.tasks ==> x in old(p.tasks) || fresh(x)
      ensures var a := Semantics.Pull(p.env, old(p.State()), old(Value()));
              p.State() == a.st && Value() == a.task &&
              (next == this <==> a.outcome.Yielded?) && (next == null <==> !a.outcome.Yielded?) &&
              err == (if a.outcome.Raised? then Some(a.outcome.exc) else None)
    {
      var it := cursor.value;
      var e;
      if |it.elements| > 0 {
        e := p.Perform(it.elements[0]);
        assert this !in p.tasks;
        ghost var st1 := p.State();
        if e.Some? {
          cursor := Some(Exhausted);
          assert p.State() == st1;
          return null, Some(GuardPlugin(plugin, e.value));
        }
        cursor := Some(Iter(it.elements[1..], it.epilogue));
        assert p.State() == st1;
        return this, None;
      }
      e := p.Perform(it.epilogue);
      assert this !in p.tasks;
      ghost var st1 := p.State();
      cursor := Some(Exhausted);
      assert p.State() == st1;
      if e.Some? {
        return null, Some(GuardPlugin(plugin, e.value));
      }
      return null, None;
    }
  }

  /** The values of a stack of task objects. */
  ghost function Values(ts: seq<Task>): (vs: seq<TaskState>)
    reads set t | t in ts
    ensures |vs| == |ts| && forall i :: 0 <= i < |ts| ==> vs[i] == ts[i].Value()
  {
    if ts == [] then [] else Values(ts[..|ts| - 1]) + [ts[|ts| - 1].Value()]
  }

  predicate Distinct(ts: seq<Task>) {
    forall i, j :: 0 <= i < j < |ts| ==> ts[i] != ts[j]
  }

  /** The plugin execution engine. */
  class Pipeline {
    const env: Env
    var plugins: set<PluginId>
    var tasks: seq<Task>
    /** The shared context, reduced to the lines plugins write to it. */
    var ctx: seq<string>
    /** Every plugin invocation so far, in order. */
    ghost var calls: seq<PluginId>

    ghost function State(): Semantics.State
      reads this, set t | t in tasks
    {
      Semantics.State(plugins, Values(tasks), ctx, calls)
    }

    ghost predicate Valid()
      reads this, set t | t in tasks
    {
      WellFormed(env) && StValid(env, State()) && Distinct(tasks)
    }

    function Unexecuted(): nat
      reads this
    {
      |env.defs.Keys - plugins|
    }

    constructor (env: Env)
      requires WellFormed(env)
      ensures Valid() && this.env == env && State() == Init
    {
      this.env := env;
      plugins := {};
      tasks := [];
      ctx := [];
      calls := [];
    }

    /** A plugin's code running with this pipeline as its context. */
    method Perform(acts: seq<Action>) returns (err: Option<Exc>)
      requires Valid() && ActionsOK(env, acts)
      modifies this
      decreases Unexecuted(), 2, |acts|
      ensures Valid() && forall x :: x in tasks ==> x in old(tasks) || fresh(x)
      ensures Effect(State(), err) == Semantics.Perform(env, old(State()), acts)
    {
      if acts == [] {
        return None;
      }
      var done;
      err, done := PerformFirst(acts);
      if !done {
        MeasureMono(env, old(plugins), plugins);
        err := Perform(acts[1..]);
      }
    }

    /**
     * The first of the remaining statements of a plugin's code: `done` when
     * the code stops here because the statement raised.
     */
    method PerformFirst(acts: seq<Action>) returns (err: Option<Exc>, done: bool)
      requires Valid() && ActionsOK(env, acts) && acts != []
      modifies this
      decreases Unexecuted(), 2, 0
      ensures Valid() && old(plugins) <= plugins && forall x :: x in tasks ==> x in old(tasks) || fresh(x)
      ensures done ==> Effect(State(), err) == Semantics.Perform(env, old(State()), acts)
      ensures !done ==> err.None? && Semantics.Perform(env, old(State()), acts) == Semantics.Perform(env, State(), acts[1..])
    {
      match acts[0] {
        case Log(line) =>
          ctx := ctx + [line];
          return None, false;
        case Raise(e) =>
          return Some(e), true;
        case Require(specs) =>
          err := Require(specs);
          done := err.Some?;
      }
    }

    /** Execute the specified plugins. */
    method Require(specs: seq<Spec>) returns (err: Option<Exc>)
      requires Valid() && SpecsOK(env, specs)
      modifies this
      decreases Unexecuted(), 1, |specs|
      ensures Valid() && forall x :: x in tasks ==> x in old(tasks) || fresh(x)
      ensures Effect(State(), err) == Semantics.Require(env, old(State()), specs)
    {
      var rest := specs;
      while rest != []
        invariant Valid() && old(plugins) <= plugins && SpecsOK(env, rest) && |rest| <= |specs|
        invariant forall x :: x in tasks ==> x in old(tasks) || fresh(x)
        invariant Semantics.Require(env, old(State()), specs) == Semantics.Require(env, State(), rest)
      {
        MeasureMono(env, old(plugins), plugins);
        var e, done := RequireFirst(rest);
        if done {
          return e;
        }
        rest := rest[1..];
      }
      return None;
    }

    /**
     * One round of require's loop, on the first of the remaining specs:
     * `done` when require returns here (the spec failed to resolve, its
     * plugin was already executed, or the plugin raised).
     */
    method RequireFirst(specs: seq<Spec>) returns (err: Option<Exc>, done: bool)
      requires Valid() && SpecsOK(env, specs) && specs != []
      modifies this
      decreases Unexecuted(), 1, 0
      ensures Valid() && old(plugins) <= plugins && forall x :: x in tasks ==> x in old(tasks) || fresh(x)
      ensures done ==> Effect(State(), err) == Semantics.Require(env, old(State()), specs)
      ensures !done ==> err.None? && Semantics.Require(env, old(State()), specs) == Semantics.Require(env, State(), specs[1..])
    {
      var resolved := Resolve(env, specs[0]);
      if resolved.Err? {
        return Some(resolved.exc), true;
      }
      var plugin := resolved.value;
      if plugin in plugins {
        return None, true;
      }
      err := Execute(plugin);
      done := err.Some?;
    }

    /**
     * The body of require's loop for a plugin not executed yet: mark it
     * executed, advance a fresh task for it, and push the task if the
     * advance returned it.
     */
    method Execute(plugin: PluginId) returns (err: Option<Exc>)
      requires Valid() && plugin in env.defs && plugin !in plugins
      modifies this
      decreases Unexecuted(), 0, 0
      ensures Valid() && forall x :: x in tasks ==> x in old(tasks) || fresh(x)
      ensures Effect(State(), err) == Semantics.Execute(env, old(State()), plugin)
    {
      var task := Start(plugin);
      MeasureMono(env, old(plugins), plugins);
      var remaining, e := task.Advance(this);
      err := Finish(task, remaining, e);
    }

    /** The start of require's loop body: mark the plugin executed and create its task. */
    method Start(plugin: PluginId) returns (task: Task)
      requires Valid() && plugin in env.defs
      modifies this
      ensures Valid() && fresh(task) && task.Value() == TaskState(plugin, None) && tasks == old(tasks)
      ensures State() == old(State()).(plugins := old(State()).plugins + {plugin})
    {
      plugins := plugins + {plugin};
      task := new Task(plugin);
    }

    /** The end of require's loop body: report the failure, or push the task if the advance returned it. */
    method Finish(task: Task, remaining: Task?, e: Option<Exc>) returns (err: Option<Exc>)
      requires Valid() && task !in tasks
      requires remaining != null ==> remaining == task && Suspended(env, task.Value()) && task.plugin in plugins
      modifies this
      ensures Valid() && forall x :: x in tasks ==> x in old(tasks) || x == task
      ensures err == e
      ensures State() == if e.None? && remaining != null then old(State()).(tasks := old(State()).tasks + [task.Value()]) else old(State())
    {
      if e.Some? {
        return e;
      }
      if remaining != null {
        Push(remaining);
      }
      return None;
    }

    /** `self.tasks.append(task)` for a task of an executed plugin that has been advanced and is not on the stack. */
    method Push(task: Task)
      requires Valid() && task !in tasks && Suspended(env, task.Value()) && task.plugin in plugins
      modifies this
      ensures Valid() && tasks == old(tasks) + [task]
      ensures State() == old(State()).(tasks := old(State()).tasks + [task.Value()])
    {
      tasks := tasks + [task];
      assert Values(tasks) == old(Values(tasks)) + [task.Value()];
    }

    /** Run the specified plugins. */
    method Run(specs: seq<Spec>) returns (err: Option<Exc>)
      requires Valid() && SpecsOK(env, specs)
      modifies this, set t | t in tasks
      ensures Valid() && Effect(State(), err) == Semantics.Run(env, old(State()), specs)
      ensures err.None? ==> tasks == []
    {
      var rest := specs;
      while rest != []
        invariant Valid() && SpecsOK(env, rest)
        invariant forall x :: x in tasks ==> x in old(tasks) || fresh(x)
        invariant Semantics.Run(env, old(State()), specs) == Semantics.Run(env, State(), rest)
      {
        var e := Require([rest[0]]);
        if e.Some? {
          return e;
        }
        rest := rest[1..];
      }
      err := Drain();
    }

    /** `self.tasks.pop()`. */
    method Pop() returns (task: Task)
      requires Valid() && tasks != []
      modifies this
      ensures Valid() && tasks == old(tasks)[..|old(tasks)| - 1] && task == old(tasks)[|old(tasks)| - 1]
      ensures task !in tasks && task.Value() == old(State()).tasks[|old(tasks)| - 1]
      ensures State() == old(State()).(tasks := old(State()).tasks[..|old(tasks)| - 1])
    {
      var n := |tasks| - 1;
      task := tasks[n];
      tasks := tasks[..n];
      assert Values(tasks) == old(Values(tasks))[..n];
    }

    /** One round of run's loop: pop the top task, advance it, push it back if it returned itself. */
    method Resume() returns (err: Option<Exc>)
      requires Valid() && tasks != []
      modifies this, tasks[|tasks| - 1]
      ensures Valid() && forall x :: x in tasks ==> x in old(tasks) || fresh(x)
      ensures var a := Resumed(env, old(State()));
              State() == a.st && err == (if a.outcome.Raised? then Some(a.outcome.exc) else None)
    {
      ghost var st := State();
      var task := Pop();
      assert task.plugin == st.tasks[|st.tasks| - 1].plugin;
      var remaining, e := task.Advance(this);
      err := Finish(task, remaining, e);
    }

    /** The loop of run: resume the most recently suspended task until none is left. */
    method Drain() returns (err: Option<Exc>)
      requires Valid()
      modifies this, set t | t in tasks
      ensures Valid() && Effect(State(), err) == Semantics.Drain(env, old(State()))
      ensures err.None? ==> tasks == []
    {
      while tasks != []
        invariant Valid()
        invariant forall x :: x in tasks ==> x in old(tasks) || fresh(x)
        invariant Semantics.Drain(env, old(State())) == Semantics.Drain(env, State())
        decreases Semantics.Unexecuted(env, State()), Weight(State().tasks)
      {
        ResumeProgress(env, State());
        err := Resume();
        if err.Some? {
          return;
        }
      }
      return None;
    }
  }
}
