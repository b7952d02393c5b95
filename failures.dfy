/**
 * Worked examples of the error paths: a failure deep inside nested requires,
 * the teardown it abandons, an import failure, and require returning at an
 * executed plugin where run goes on.
 */
module Failures {
  import opened Wrappers
  import opened Exceptions
  import opened Plugins
  import opened Resolution
  import opened Semantics
  import Nesting
  import Scenarios

  /**
   * Plugin 0 writes "b-setup", yields, then writes "b-teardown"; plugin 1
   * requires plugin 2; plugin 2 writes "c" and then raises an ordinary
   * exception.
   */
  function FailEnv(): Env {
    Env(map[0 := PluginDef([], Iterable([[Log("b-setup")]], [Log("b-teardown")])),
            1 := PluginDef([Action.Require([Direct(2)])], NonIterable),
            2 := PluginDef([Log("c"), Raise(Ordinary("boom"))], NonIterable)],
        Nesting.NoPaths, DefaultSymbol, None)
  }

  const Boom := PluginError(2, Ordinary("boom"))

  /** The generator, suspended after its setup. */
  const SetupTask := TaskState(0, Some(Iter([], [Log("b-teardown")])))

  /** The pipeline when plugin 2 raises. */
  const Failed := State({0, 1, 2}, [SetupTask], ["b-setup", "c"], [0, 1, 2])

  lemma FailEnvWellFormed()
    ensures WellFormed(FailEnv())
  {
    var env := FailEnv();
    forall p | p in env.defs ensures DefOK(env, env.defs[p]) {
      assert p == 0 || p == 1 || p == 2;
    }
    forall path ensures ImportOK(env, env.importer(path, env.defaultSymbol, env.whitelist)) {
    }
  }

  /** require([0]) on a fresh pipeline suspends the generator after its setup. */
  lemma RequireGenerator()
    ensures WellFormed(FailEnv())
    ensures Semantics.Require(FailEnv(), Init, [Direct(0)]) == Effect(State({0}, [SetupTask], ["b-setup"], [0]), None)
  {
    FailEnvWellFormed();
    var env := FailEnv();
    var s1 := State({0}, [], [], [0]);
    var s2 := State({0}, [], ["b-setup"], [0]);
    assert State({0}, [], [], []).(calls := [] + [0]) == s1;
    assert Perform(env, s1, []) == Effect(s1, None);
    assert Perform(env, s2, []) == Effect(s2, None);
    assert s1.(ctx := s1.ctx + ["b-setup"]) == s2;
    assert Pull(env, s1, TaskState(0, Some(IterOf(env.defs[0].returned)))) == Step(s2, SetupTask, Yielded);
    assert Advance(env, State({0}, [], [], []), TaskState(0, None)) == Step(s2, SetupTask, Yielded);
    assert Init.(plugins := Init.plugins + {0}) == State({0}, [], [], []);
  }

  /** Plugin 2's own failure is wrapped once, naming plugin 2. */
  lemma InnermostFailure()
    ensures WellFormed(FailEnv())
    ensures Advance(FailEnv(), State({0, 1, 2}, [SetupTask], ["b-setup"], [0, 1]), TaskState(2, None)) ==
            Step(Failed, TaskState(2, None), Raised(Boom))
  {
    FailEnvWellFormed();
    var env := FailEnv();
    var s := State({0, 1, 2}, [SetupTask], ["b-setup"], [0, 1]);
    var s1 := State({0, 1, 2}, [SetupTask], ["b-setup"], [0, 1, 2]);
    var body := [Log("c"), Raise(Ordinary("boom"))];
    assert s.(calls := s.calls + [2]) == s1;
    assert s1.(ctx := s1.ctx + ["c"]) == Failed;
    assert Perform(env, Failed, body[1..]) == Effect(Failed, Some(Ordinary("boom")));
    assert Perform(env, s1, body) == Effect(Failed, Some(Ordinary("boom")));
    assert GuardPlugin(2, Ordinary("boom")) == Boom;
  }

  /** Plugin 1's require of plugin 2 fails with plugin 2's error. */
  lemma RequireFailing()
    ensures WellFormed(FailEnv())
    ensures Semantics.Require(FailEnv(), State({0, 1}, [SetupTask], ["b-setup"], [0, 1]), [Direct(2)]) == Effect(Failed, Some(Boom))
  {
    InnermostFailure();
    var env := FailEnv();
    var s := State({0, 1}, [SetupTask], ["b-setup"], [0, 1]);
    assert s.(plugins := s.plugins + {2}) == State({0, 1, 2}, [SetupTask], ["b-setup"], [0, 1]);
    assert Execute(env, s, 2) == Effect(Failed, Some(Boom));
  }

  /** Plugin 1 passes the error on unwrapped: it is already a plugin error. */
  lemma OuterPassesThrough()
    ensures WellFormed(FailEnv())
    ensures Semantics.Require(FailEnv(), State({0}, [SetupTask], ["b-setup"], [0]), [Direct(1)]) == Effect(Failed, Some(Boom))
  {
    RequireFailing();
    var env := FailEnv();
    var s := State({0}, [SetupTask], ["b-setup"], [0]);
    var s1 := State({0, 1}, [SetupTask], ["b-setup"], [0]);
    assert s.(plugins := s.plugins + {1}) == s1;
    assert s1.(calls := s1.calls + [1]) == State({0, 1}, [SetupTask], ["b-setup"], [0, 1]);
    assert Perform(env, State({0, 1}, [SetupTask], ["b-setup"], [0, 1]), env.defs[1].call) == Effect(Failed, Some(Boom));
    assert GuardPlugin(1, Boom) == Boom;
    assert Advance(env, s1, TaskState(1, None)) == Step(Failed, TaskState(1, None), Raised(Boom));
  }

  /**
   * run([0, 1]) raises PluginError(2, boom): the error names the plugin that
   * raised, not the one that required it, and the teardown of the suspended
   * generator never runs: its task is still on the stack and "b-teardown" is
   * not in the log.
   */
  lemma FailureAbandonsTeardown()
    ensures WellFormed(FailEnv())
    ensures Run(FailEnv(), Init, [Direct(0), Direct(1)]) == Effect(Failed, Some(Boom))
  {
    RequireGenerator();
    OuterPassesThrough();
    var specs := [Direct(0), Direct(1)];
    assert specs[1..] == [Direct(1)];
  }

  /** A path no importer knows fails with an import error carrying the spec and the cause. */
  lemma UnknownPathFails()
    ensures WellFormed(Scenarios.SetupEnv())
    ensures Semantics.Require(Scenarios.SetupEnv(), Init, [Dotted("zzz")]) ==
            Effect(Init, Some(PluginImportError(Dotted("zzz"), Ordinary("ModuleNotFoundError"))))
  {
    Scenarios.SetupEnvWellFormed();
  }

  /** After a has run: c executed on its own. */
  lemma RequireCAfterA()
    ensures WellFormed(Scenarios.SetupEnv())
    ensures Semantics.Require(Scenarios.SetupEnv(), State({0}, [], ["a"], [0]), [Dotted("c")]) ==
            Effect(State({0, 2}, [], ["a", "c"], [0, 2]), None)
  {
    Scenarios.SetupEnvWellFormed();
    var env := Scenarios.SetupEnv();
    var s := State({0}, [], ["a"], [0]);
    var s1 := State({0, 2}, [], ["a"], [0]);
    var s2 := State({0, 2}, [], ["a"], [0, 2]);
    var s3 := State({0, 2}, [], ["a", "c"], [0, 2]);
    assert s.(plugins := s.plugins + {2}) == s1;
    assert s1.(calls := s1.calls + [2]) == s2;
    assert s2.(ctx := s2.ctx + ["c"]) == s3;
    assert Perform(env, s3, []) == Effect(s3, None);
    assert Perform(env, s3, Exhausted.epilogue) == Effect(s3, None);
    assert Perform(env, s2, [Log("c")]) == Effect(s3, None);
    assert Advance(env, s1, TaskState(2, None)) == Step(s3, TaskState(2, Some(Exhausted)), Finished);
  }

  /**
   * require("a", "c") after a has run returns at once and never runs c,
   * while run(["a", "c"]), which requires one spec at a time, does run c.
   */
  lemma RequireReturnsWhereRunContinues()
    ensures WellFormed(Scenarios.SetupEnv())
    ensures Semantics.Require(Scenarios.SetupEnv(), State({0}, [], ["a"], [0]), [Dotted("a"), Dotted("c")]) ==
            Effect(State({0}, [], ["a"], [0]), None)
    ensures Run(Scenarios.SetupEnv(), State({0}, [], ["a"], [0]), [Dotted("a"), Dotted("c")]) ==
            Effect(State({0, 2}, [], ["a", "c"], [0, 2]), None)
  {
    RequireCAfterA();
    var specs := [Dotted("a"), Dotted("c")];
    assert specs[1..] == [Dotted("c")] && specs[1..][1..] == [];
  }
}
