/**
 * Worked examples of nesting: a generator plugin whose setup requires
 * another generator plugin, and a plugin that requires itself under an
 * alias.
 */
module Nesting {
  import opened Wrappers
  import opened Exceptions
  import opened Plugins
  import opened Resolution
  import opened Semantics

  /** An importer that knows no dotted path. */
  function NoPaths(path: string, default: string, whitelist: Option<seq<string>>): Res<PluginId> {
    Err(Ordinary("ModuleNotFoundError"))
  }

  /**
   * Plugin 0 (outer) writes "A-setup", requires plugin 1, yields, then writes
   * "A-teardown"; plugin 1 (inner) writes "B-setup", yields, then writes
   * "B-teardown".
   */
  function NestedEnv(): Env {
    Env(map[0 := PluginDef([], Iterable([[Log("A-setup"), Action.Require([Direct(1)])]], [Log("A-teardown")])),
            1 := PluginDef([], Iterable([[Log("B-setup")]], [Log("B-teardown")]))],
        NoPaths, DefaultSymbol, None)
  }

  /** The inner task, suspended after its setup. */
  const InnerTask := TaskState(1, Some(Iter([], [Log("B-teardown")])))

  /** The outer task, suspended after its setup. */
  const OuterTask := TaskState(0, Some(Iter([], [Log("A-teardown")])))

  /** The pipeline once both setups have run. */
  const BothSetUp := State({0, 1}, [InnerTask, OuterTask], ["A-setup", "B-setup"], [0, 1])

  lemma NestedEnvWellFormed()
    ensures WellFormed(NestedEnv())
  {
    var env := NestedEnv();
    forall p | p in env.defs ensures DefOK(env, env.defs[p]) {
      assert p == 0 || p == 1;
    }
    forall path ensures ImportOK(env, env.importer(path, env.defaultSymbol, env.whitelist)) {
    }
  }

  /** The first advance of the inner plugin runs its setup and stops at its yield. */
  lemma AdvanceInner()
    ensures WellFormed(NestedEnv())
    ensures Advance(NestedEnv(), State({0, 1}, [], ["A-setup"], [0]), TaskState(1, None)) ==
            Step(State({0, 1}, [], ["A-setup", "B-setup"], [0, 1]), InnerTask, Yielded)
  {
    NestedEnvWellFormed();
    var env := NestedEnv();
    var s0 := State({0, 1}, [], ["A-setup"], [0]);
    var s1 := State({0, 1}, [], ["A-setup"], [0, 1]);
    var s2 := State({0, 1}, [], ["A-setup", "B-setup"], [0, 1]);
    assert s0.(calls := s0.calls + [1]) == s1;
    assert Perform(env, s1, []) == Effect(s1, None);
    assert Perform(env, s2, []) == Effect(s2, None);
    assert s1.(ctx := s1.ctx + ["B-setup"]) == s2;
    assert Perform(env, s1, [Log("B-setup")]) == Effect(s2, None);
    assert Pull(env, s1, TaskState(1, Some(IterOf(env.defs[1].returned)))) == Step(s2, InnerTask, Yielded);
  }

  /** The outer plugin's require of the inner one leaves the inner task on the stack. */
  lemma RequireInner()
    ensures WellFormed(NestedEnv())
    ensures Semantics.Require(NestedEnv(), State({0}, [], ["A-setup"], [0]), [Direct(1)]) ==
            Effect(State({0, 1}, [InnerTask], ["A-setup", "B-setup"], [0, 1]), None)
  {
    AdvanceInner();
    var env := NestedEnv();
    var s := State({0}, [], ["A-setup"], [0]);
    assert s.(plugins := s.plugins + {1}) == State({0, 1}, [], ["A-setup"], [0]);
    assert Execute(env, s, 1) == Effect(State({0, 1}, [InnerTask], ["A-setup", "B-setup"], [0, 1]), None);
  }

  /** The outer plugin's setup. */
  lemma SetupOfOuter()
    ensures WellFormed(NestedEnv())
    ensures Perform(NestedEnv(), State({0}, [], [], [0]), [Log("A-setup"), Action.Require([Direct(1)])]) ==
            Effect(State({0, 1}, [InnerTask], ["A-setup", "B-setup"], [0, 1]), None)
  {
    RequireInner();
    var env := NestedEnv();
    var s0 := State({0}, [], [], [0]);
    var s1 := State({0}, [], ["A-setup"], [0]);
    var s2 := State({0, 1}, [InnerTask], ["A-setup", "B-setup"], [0, 1]);
    var setup := [Log("A-setup"), Action.Require([Direct(1)])];
    assert Perform(env, s2, []) == Effect(s2, None);
    assert Perform(env, s1, setup[1..]) == Effect(s2, None);
    assert s0.(ctx := s0.ctx + ["A-setup"]) == s1;
  }

  /** The first advance of the outer plugin returns after the inner task was pushed. */
  lemma AdvanceOuter()
    ensures WellFormed(NestedEnv())
    ensures Advance(NestedEnv(), State({0}, [], [], []), TaskState(0, None)) ==
            Step(State({0, 1}, [InnerTask], ["A-setup", "B-setup"], [0, 1]), OuterTask, Yielded)
  {
    SetupOfOuter();
    var env := NestedEnv();
    var s := State({0}, [], [], []);
    var s1 := State({0}, [], [], [0]);
    assert s.(calls := s.calls + [0]) == s1;
    assert Perform(env, s1, env.defs[0].call) == Effect(s1, None);
    assert Pull(env, s1, TaskState(0, Some(IterOf(env.defs[0].returned)))) ==
           Step(State({0, 1}, [InnerTask], ["A-setup", "B-setup"], [0, 1]), OuterTask, Yielded);
  }

  /** require of the outer plugin leaves the outer task above the inner one. */
  lemma RequireOuter()
    ensures WellFormed(NestedEnv())
    ensures Semantics.Require(NestedEnv(), Init, [Direct(0)]) == Effect(BothSetUp, None)
  {
    AdvanceOuter();
    var env := NestedEnv();
    assert Init.(plugins := Init.plugins + {0}) == State({0}, [], [], []);
    assert Execute(env, Init, 0) == Effect(BothSetUp, None);
  }

  /** The loop of run first resumes the outer task, the one on top. */
  lemma ResumeOuterFirst()
    ensures WellFormed(NestedEnv())
    ensures Resumed(NestedEnv(), BothSetUp) ==
            Step(State({0, 1}, [InnerTask], ["A-setup", "B-setup", "A-teardown"], [0, 1]), TaskState(0, Some(Exhausted)), Finished)
  {
    NestedEnvWellFormed();
    var env := NestedEnv();
    var s := State({0, 1}, [InnerTask], ["A-setup", "B-setup"], [0, 1]);
    var s' := State({0, 1}, [InnerTask], ["A-setup", "B-setup", "A-teardown"], [0, 1]);
    assert BothSetUp.tasks[..1] == [InnerTask];
    assert BothSetUp.(tasks := BothSetUp.tasks[..1]) == s;
    assert Perform(env, s', []) == Effect(s', None);
    assert Perform(env, s, [Log("A-teardown")]) == Effect(s', None);
    assert Advance(env, s, OuterTask) == Step(s', TaskState(0, Some(Exhausted)), Finished);
  }

  /** Then the inner task, and the stack is empty. */
  lemma ResumeInnerLast()
    ensures WellFormed(NestedEnv())
    ensures Drain(NestedEnv(), State({0, 1}, [InnerTask], ["A-setup", "B-setup", "A-teardown"], [0, 1])) ==
            Effect(State({0, 1}, [], ["A-setup", "B-setup", "A-teardown", "B-teardown"], [0, 1]), None)
  {
    NestedEnvWellFormed();
    var env := NestedEnv();
    var s := State({0, 1}, [], ["A-setup", "B-setup", "A-teardown"], [0, 1]);
    var s' := State({0, 1}, [], ["A-setup", "B-setup", "A-teardown", "B-teardown"], [0, 1]);
    assert Perform(env, s', []) == Effect(s', None);
    assert Perform(env, s, [Log("B-teardown")]) == Effect(s', None);
    assert Resumed(env, s.(tasks := [InnerTask])) == Step(s', TaskState(1, Some(Exhausted)), Finished);
  }

  /**
   * run([outer]) writes A-setup, B-setup, A-teardown, B-teardown: the inner
   * task is pushed during the outer plugin's first advance, before the outer
   * task itself, so the outer teardown runs first.
   */
  lemma NestedTeardownOrder()
    ensures WellFormed(NestedEnv())
    ensures Run(NestedEnv(), Init, [Direct(0)]) ==
            Effect(State({0, 1}, [], ["A-setup", "B-setup", "A-teardown", "B-teardown"], [0, 1]), None)
  {
    RequireOuter();
    ResumeOuterFirst();
    ResumeInnerLast();
    var env := NestedEnv();
    assert [Direct(0)][1..] == [];
    assert Drain(env, BothSetUp) == Drain(env, State({0, 1}, [InnerTask], ["A-setup", "B-setup", "A-teardown"], [0, 1]));
  }

  /** An importer under which "a" and "alias" name the same plugin. */
  function AliasPaths(path: string, default: string, whitelist: Option<seq<string>>): Res<PluginId> {
    if path == "a" || path == "alias" then Ok(0) else Err(Ordinary("ModuleNotFoundError"))
  }

  /** Plugin 0 writes "x", requires itself under its alias, then writes "y". */
  function AliasEnv(): Env {
    Env(map[0 := PluginDef([Log("x"), Action.Require([Dotted("alias")]), Log("y")], NonIterable)],
        AliasPaths, DefaultSymbol, None)
  }

  lemma AliasEnvWellFormed()
    ensures WellFormed(AliasEnv())
  {
    var env := AliasEnv();
    forall p | p in env.defs ensures DefOK(env, env.defs[p]) {
      assert p == 0;
    }
    forall path ensures ImportOK(env, env.importer(path, env.defaultSymbol, env.whitelist)) {
    }
  }

  /** The plugin's own code: the require of itself is skipped, since it is already marked executed. */
  lemma SelfRequireSkipped()
    ensures WellFormed(AliasEnv())
    ensures Perform(AliasEnv(), State({0}, [], [], [0]), [Log("x"), Action.Require([Dotted("alias")]), Log("y")]) ==
            Effect(State({0}, [], ["x", "y"], [0]), None)
  {
    AliasEnvWellFormed();
    var env := AliasEnv();
    var s0 := State({0}, [], [], [0]);
    var s1 := State({0}, [], ["x"], [0]);
    var s2 := State({0}, [], ["x", "y"], [0]);
    var body := [Log("x"), Action.Require([Dotted("alias")]), Log("y")];
    assert Perform(env, s2, []) == Effect(s2, None);
    assert s1.(ctx := s1.ctx + ["y"]) == s2;
    assert Perform(env, s1, body[2..]) == Effect(s2, None);
    assert Semantics.Require(env, s1, [Dotted("alias")]) == Effect(s1, None);
    assert Perform(env, s1, body[1..]) == Effect(s2, None);
    assert s0.(ctx := s0.ctx + ["x"]) == s1;
  }

  /**
   * run(["a", "alias"]): the plugin runs once although two different paths
   * name it, and its require of itself does not recurse.
   */
  lemma AliasRunsOnce()
    ensures WellFormed(AliasEnv())
    ensures Run(AliasEnv(), Init, [Dotted("a"), Dotted("alias")]) == Effect(State({0}, [], ["x", "y"], [0]), None)
  {
    SelfRequireSkipped();
    var env := AliasEnv();
    var s := State({0}, [], ["x", "y"], [0]);
    assert Perform(env, s, []) == Effect(s, None);
    assert State({0}, [], [], []).(calls := [] + [0]) == State({0}, [], [], [0]);
    assert Advance(env, State({0}, [], [], []), TaskState(0, None)) == Step(s, TaskState(0, Some(Exhausted)), Finished);
    assert Init.(plugins := Init.plugins + {0}) == State({0}, [], [], []);
    assert Semantics.Require(env, Init, [Dotted("a")]) == Effect(s, None);
    var specs := [Dotted("a"), Dotted("alias")];
    assert specs[1..] == [Dotted("alias")] && specs[1..][1..] == [];
    assert Semantics.Require(env, s, [Dotted("alias")]) == Effect(s, None);
  }
}
