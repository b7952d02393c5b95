/**
 * Worked examples of the engine on a small plugin set: plain plugins, a
 * generator whose setup requires another plugin, and the order in which
 * their code runs.
 */
module Scenarios {
  import opened Wrappers
  import opened Exceptions
  import opened Plugins
  import opened Resolution
  import opened Semantics

  /** An importer that knows three dotted paths, whatever the configuration. */
  function ThreePaths(path: string, default: string, whitelist: Option<seq<string>>): Res<PluginId> {
    if path == "a" then Ok(0)
    else if path == "b" then Ok(1)
    else if path == "c" then Ok(2)
    else Err(Ordinary("ModuleNotFoundError"))
  }

  /**
   * a writes "a"; b is a generator that writes "b-setup", requires c,
   * yields, then writes "b-teardown"; c writes "c".
   */
  function SetupEnv(): Env {
    Env(map[0 := PluginDef([Log("a")], NonIterable),
            1 := PluginDef([], Iterable([[Log("b-setup"), Action.Require([Dotted("c")])]], [Log("b-teardown")])),
            2 := PluginDef([Log("c")], NonIterable)],
        ThreePaths, DefaultSymbol, None)
  }

  lemma SetupEnvWellFormed()
    ensures WellFormed(SetupEnv())
  {
    var env := SetupEnv();
    forall p | p in env.defs ensures DefOK(env, env.defs[p]) {
      assert p == 0 || p == 1 || p == 2;
    }
    forall path ensures ImportOK(env, env.importer(path, env.defaultSymbol, env.whitelist)) {
    }
  }

  /** require("a") on a fresh pipeline: a runs to completion and nothing is suspended. */
  lemma RequireA()
    ensures WellFormed(SetupEnv())
    ensures Semantics.Require(SetupEnv(), Init, [Dotted("a")]) == Effect(State({0}, [], ["a"], [0]), None)
  {
    SetupEnvWellFormed();
    var env := SetupEnv();
    var sa := State({0}, [], ["a"], [0]);
    assert Perform(env, State({0}, [], [], [0]), [Log("a")]) == Effect(sa, None);
    assert Pull(env, sa, TaskState(0, Some(Exhausted))) == Step(sa, TaskState(0, Some(Exhausted)), Finished);
    assert Advance(env, State({0}, [], [], []), TaskState(0, None)) == Step(sa, TaskState(0, Some(Exhausted)), Finished);
    assert Init.(plugins := Init.plugins + {0}) == State({0}, [], [], []);
    assert Execute(env, Init, 0) == Effect(sa, None);
  }

  /** The one advance of c, the plugin b's setup requires. */
  lemma AdvanceC()
    ensures WellFormed(SetupEnv())
    ensures Advance(SetupEnv(), State({0, 1, 2}, [], ["a", "b-setup"], [0, 1]), TaskState(2, None)) ==
            Step(State({0, 1, 2}, [], ["a", "b-setup", "c"], [0, 1, 2]), TaskState(2, Some(Exhausted)), Finished)
  {
    SetupEnvWellFormed();
    var env := SetupEnv();
    var sc := State({0, 1, 2}, [], ["a", "b-setup", "c"], [0, 1, 2]);
    assert Perform(env, State({0, 1, 2}, [], ["a", "b-setup"], [0, 1, 2]), [Log("c")]) == Effect(sc, None);
    assert Pull(env, sc, TaskState(2, Some(Exhausted))) == Step(sc, TaskState(2, Some(Exhausted)), Finished);
  }

  /** b's setup requires c, which runs to completion inside it. */
  lemma RequireCInsideB()
    ensures WellFormed(SetupEnv())
    ensures Semantics.Require(SetupEnv(), State({0, 1}, [], ["a", "b-setup"], [0, 1]), [Dotted("c")]) ==
            Effect(State({0, 1, 2}, [], ["a", "b-setup", "c"], [0, 1, 2]), None)
  {
    AdvanceC();
    var env := SetupEnv();
    var s1 := State({0, 1}, [], ["a", "b-setup"], [0, 1]);
    assert s1.(plugins := s1.plugins + {2}) == State({0, 1, 2}, [], ["a", "b-setup"], [0, 1]);
    assert Execute(env, s1, 2) == Effect(State({0, 1, 2}, [], ["a", "b-setup", "c"], [0, 1, 2]), None);
  }

  /** b's setup writes "b-setup" and then requires c. */
  lemma SetupOfB()
    ensures WellFormed(SetupEnv())
    ensures Perform(SetupEnv(), State({0, 1}, [], ["a"], [0, 1]), [Log("b-setup"), Action.Require([Dotted("c")])]) ==
            Effect(State({0, 1, 2}, [], ["a", "b-setup", "c"], [0, 1, 2]), None)
  {
    RequireCInsideB();
    var env := SetupEnv();
    var sc := State({0, 1, 2}, [], ["a", "b-setup", "c"], [0, 1, 2]);
    var s0 := State({0, 1}, [], ["a"], [0, 1]);
    var s1 := State({0, 1}, [], ["a", "b-setup"], [0, 1]);
    var setup := [Log("b-setup"), Action.Require([Dotted("c")])];
    assert Perform(env, sc, []) == Effect(sc, None);
    assert Perform(env, s1, setup[1..]) == Effect(sc, None);
    assert s0.(ctx := s0.ctx + ["b-setup"]) == s1;
  }

  /** The first advance of b runs its setup and stops at its yield. */
  lemma AdvanceB()
    ensures WellFormed(SetupEnv())
    ensures Advance(SetupEnv(), State({0, 1}, [], ["a"], [0]), TaskState(1, None)) ==
            Step(State({0, 1, 2}, [], ["a", "b-setup", "c"], [0, 1, 2]), TaskState(1, Some(Iter([], [Log("b-teardown")]))), Yielded)
  {
    SetupOfB();
    var env := SetupEnv();
    var sc := State({0, 1, 2}, [], ["a", "b-setup", "c"], [0, 1, 2]);
    var sa := State({0, 1}, [], ["a"], [0]);
    assert sa.(calls := sa.calls + [1]) == State({0, 1}, [], ["a"], [0, 1]);
    assert Perform(env, State({0, 1}, [], ["a"], [0, 1]), env.defs[1].call) == Effect(State({0, 1}, [], ["a"], [0, 1]), None);
    assert Pull(env, State({0, 1}, [], ["a"], [0, 1]), TaskState(1, Some(IterOf(env.defs[1].returned)))) ==
           Step(sc, TaskState(1, Some(Iter([], [Log("b-teardown")]))), Yielded);
  }

  /** require("b"): its first advance runs the setup and b is left suspended on the stack. */
  lemma RequireB()
    ensures WellFormed(SetupEnv())
    ensures Semantics.Require(SetupEnv(), State({0}, [], ["a"], [0]), [Dotted("b")]) ==
            Effect(State({0, 1, 2}, [TaskState(1, Some(Iter([], [Log("b-teardown")])))], ["a", "b-setup", "c"], [0, 1, 2]), None)
  {
    AdvanceB();
    var env := SetupEnv();
    var sc := State({0, 1, 2}, [], ["a", "b-setup", "c"], [0, 1, 2]);
    var tb := TaskState(1, Some(Iter([], [Log("b-teardown")])));
    var sa := State({0}, [], ["a"], [0]);
    assert sa.(plugins := sa.plugins + {1}) == State({0, 1}, [], ["a"], [0]);
    assert Execute(env, sa, 1) == Effect(sc.(tasks := [tb]), None);
  }

  /** The loop of run resumes b, whose teardown runs last. */
  lemma ResumeB()
    ensures WellFormed(SetupEnv())
    ensures Drain(SetupEnv(), State({0, 1, 2}, [TaskState(1, Some(Iter([], [Log("b-teardown")])))], ["a", "b-setup", "c"], [0, 1, 2])) ==
            Effect(State({0, 1, 2}, [], ["a", "b-setup", "c", "b-teardown"], [0, 1, 2]), None)
  {
    SetupEnvWellFormed();
    var env := SetupEnv();
    var sc := State({0, 1, 2}, [], ["a", "b-setup", "c"], [0, 1, 2]);
    var sd := State({0, 1, 2}, [], ["a", "b-setup", "c", "b-teardown"], [0, 1, 2]);
    assert Perform(env, sc, [Log("b-teardown")]) == Effect(sd, None);
    assert Resumed(env, sc.(tasks := [TaskState(1, Some(Iter([], [Log("b-teardown")])))])) ==
           Step(sd, TaskState(1, Some(Exhausted)), Finished);
  }

  /**
   * run(["a", "b"]) writes a, b-setup, c, b-teardown: c, required during
   * b's setup, completes inside it, and b's teardown waits for the loop of
   * run.  Every plugin is invoked once and nothing is left suspended.
   */
  lemma SetupTeardownOrder()
    ensures WellFormed(SetupEnv())
    ensures Run(SetupEnv(), Init, [Dotted("a"), Dotted("b")]) ==
            Effect(State({0, 1, 2}, [], ["a", "b-setup", "c", "b-teardown"], [0, 1, 2]), None)
  {
    RequireA();
    RequireB();
    ResumeB();
    var env := SetupEnv();
    var specs := [Dotted("a"), Dotted("b")];
    assert specs[1..] == [Dotted("b")] && specs[1..][1..] == [];
  }
}
