# beet plugin pipeline, modelled in Dafny

beet's toolchain runs *plugins* against a shared context. The engine is
`GenericPipeline` in `beet/toolchain/pipeline.py`. It works like this:

- `require(*specs)` resolves each spec. A spec is either a plugin object or
  a dotted import path. A plugin that has not run yet is marked as executed
  and wrapped in a `Task`.
- The task is advanced once. A plugin that returns an iterable (typically a
  generator) is advanced up to its first element. If it has more work, the
  task is pushed on a stack.
- `run(specs)` requires each spec in turn. It then pops tasks off the stack
  and advances them until the stack is empty. That is how the teardown code
  after a generator's `yield` runs: tasks are resumed in reverse order of
  suspension, that is, of the order in which they were pushed.
- Errors raised by plugin code are wrapped in `PluginError`. Import failures
  are wrapped in `PluginImportError`. Exceptions of the
  `PipelineFallthroughException` family pass through unchanged.

The model has two layers.

- **Semantics** (`semantics.dfy`) gives the engine as pure functions from one
  pipeline state to the next:
  - `Advance` and `Pull` model `Task.advance`;
  - `Require` and `Execute` model `GenericPipeline.require`;
  - `Drain` and `Run` model `GenericPipeline.run`.

  The state holds:
  - the executed set;
  - the stack of suspended tasks;
  - the context, reduced to a log of lines;
  - a ghost trace of plugin invocations.
- **Engine** (`engine.dfy`) gives the same operations as classes:
  - `Task` has its `plugin` and `cursor` (`iterator`) fields;
  - `Pipeline` has `plugins: set`, `tasks: seq<Task>` and `ctx`.

  Each method is proved to compute exactly the corresponding Semantics
  function on the old state.

A plugin is modelled as data (`plugins.dfy`):
- the actions its call performs (write to the context, `require` some specs,
  raise);
- what the call returns: either something not iterable, or an iterable given
  by the code that runs before each element and the code that runs before
  exhaustion (for a generator: the code between its `yield`s).

Dotted paths are resolved through an importer function held in the
environment (`resolution.dfy`). The exception hierarchy is a tagged datatype
(`exceptions.dfy`).

Termination of the mutually recursive require/advance functions rests on one
fact. Every require that does not stop adds a plugin to the executed set,
drawn from the finite universe of plugin definitions. `Drain` additionally
decreases the total number of advances left on the stack.

Two behaviours of the code are easy to misread; the model follows the code:

- `require(*specs)` **returns** at the first spec that names an
  already-executed plugin (`pipeline.py:118-119`). It does not skip that spec
  and carry on, so later specs in the same call are never resolved.
  `Guarantees.RequireStopsAtExecuted` proves this, and
  `Failures.RequireReturnsWhereRunContinues` contrasts it with `run`, which
  requires one spec at a time.
- For generators nested through `require`, teardown is **not**
  innermost-first. The inner task is pushed during the outer plugin's first
  advance, before the outer task itself. So the outer plugin's teardown runs
  first: A-setup, B-setup, A-teardown, B-teardown (`Nesting.NestedTeardownOrder`).
  Sibling generators required one after another by `run` do tear down in
  reverse order (`Lifo.DrainUnder`).

## Model

| member | source | states |
|---|---|---|
| Exceptions.GuardPlugin | beet/toolchain/pipeline.py:94-99 | the result always belongs to the fallthrough family; a fallthrough exception is re-raised unchanged, and any other becomes a PluginError that names the plugin, carries the original as its cause and formats it |
| Exceptions.GuardImport | beet/toolchain/pipeline.py:138-141 | the same for import failures: a fallthrough exception is kept, any other becomes a PluginImportError naming the spec, with the cause |
| Exceptions.NoDoubleWrapping | beet/toolchain/pipeline.py:59-74 | a PluginError is itself in the fallthrough family, so a failure passing through enclosing tasks or resolve is never wrapped a second time |
| Resolution.Resolve | beet/toolchain/pipeline.py:126-141 | the call of `import_from_string` (lines 130-134) is Resolution.Lookup, the environment's importer applied to the path, the default member and the whitelist; a plugin object resolves to itself and never fails; a dotted path succeeds exactly when the import does and then gives the imported plugin; an import failure surfaces through the import guard (kept when fallthrough, else PluginImportError of the spec); a successful resolution under a well-formed environment is a known plugin |
| Semantics.Perform | beet/toolchain/pipeline.py:88 | running plugin code only grows the executed set, context and trace, and only pushes tasks, and only when it executed a new plugin |
| Semantics.Require | beet/toolchain/pipeline.py:114-124 | require keeps the state valid, only grows the executed set, context and trace, pushes tasks only when a new plugin was executed, and fails only with a fallthrough exception |
| Semantics.Execute | beet/toolchain/pipeline.py:121-124 | executing a plugin marks it executed; otherwise as Require |
| Semantics.Advance | beet/toolchain/pipeline.py:84-100 | an advance keeps the task's plugin; when it reports more work it pulled an element from the started cursor, and the task waits with that element consumed; when it reports completion the cursor was exhausted and stays exhausted; every failure is a fallthrough exception (the converse directions are Guarantees.AdvanceOutcome and Guarantees.PullOutcome) |
| Semantics.Pull | beet/toolchain/pipeline.py:92-100 | the same relation for pulling from an already started cursor, which stays set afterwards |
| Semantics.ResumedFrame | beet/toolchain/pipeline.py:149-150 | one round (Semantics.Resumed) of run's loop resumes the top task: the tasks below it stay in place at the bottom of the stack, the advance obeys the same pull relation as Advance on the task's cursor, and when no new plugin was executed the stack is exactly the lower tasks plus the resumed task, put back precisely when it pulled an element |
| Semantics.ResumeProgress | beet/toolchain/pipeline.py:148-150 | every round of run's loop either executes a new plugin or lowers the total number of advances left on the stack, so the loop ends for finite iterables |
| Semantics.Drain | beet/toolchain/pipeline.py:148-150 | the loop only grows the executed set, context and trace; on normal exit the stack is empty; it fails only with a fallthrough exception |
| Semantics.Run | beet/toolchain/pipeline.py:143-150 | run leaves no suspended task when it returns normally and fails only with a fallthrough exception |
| Lifo.PerformUnder | beet/toolchain/pipeline.py:88 | plugin code run over a taller stack behaves the same and leaves the lower tasks where they are |
| Lifo.RequireUnder | beet/toolchain/pipeline.py:114-124 | require over a taller stack behaves the same and only pushes above the lower tasks |
| Lifo.ExecuteUnder | beet/toolchain/pipeline.py:121-124 | the same for executing one plugin |
| Lifo.AdvanceUnder | beet/toolchain/pipeline.py:84-100 | the same for one advance |
| Lifo.PullUnder | beet/toolchain/pipeline.py:92-100 | the same for one pull |
| Lifo.ResumedUnder | beet/toolchain/pipeline.py:149-150 | one round of run's loop over a taller stack resumes the same task, with the same effect, leaving the lower tasks in place |
| Lifo.DrainUnder | beet/toolchain/pipeline.py:148-150 | last in, first out: draining a stack first drains everything above its lower part to completion exactly as if the lower part were absent, and only then resumes the lower tasks; if the upper part fails they are never resumed |
| Trace.MarkExecuted | beet/toolchain/pipeline.py:121 | marking a plugin executed before it is called leaves exactly its invocation pending |
| Trace.RecordCall | beet/toolchain/pipeline.py:88 | recording the pending invocation restores "every executed plugin was invoked exactly once" |
| Trace.PerformTrace | beet/toolchain/pipeline.py:88 | plugin code invokes only plugins that were not executed before it, and preserves the one-invocation-per-executed-plugin trace |
| Trace.RequireTrace | beet/toolchain/pipeline.py:114-124 | require invokes only plugins that were not executed before it and preserves the trace invariant |
| Trace.ExecuteTrace | beet/toolchain/pipeline.py:121-124 | executing p invokes p first, then only plugins not executed before, and preserves the trace invariant |
| Trace.AdvanceTrace | beet/toolchain/pipeline.py:84-100 | a first advance invokes the task's plugin first and records it; every advance afterwards invokes only plugins that were not executed before |
| Trace.PullTrace | beet/toolchain/pipeline.py:92-100 | pulling an element invokes only plugins not executed before and preserves the trace invariant |
| Trace.ResumedTrace | beet/toolchain/pipeline.py:149-150 | the same for one round of run's loop |
| Trace.DrainTrace | beet/toolchain/pipeline.py:148-150 | the same for the whole loop |
| Trace.RunTrace | beet/toolchain/pipeline.py:143-150 | the same for run |
| Guarantees.ExecuteInvokesOnce | beet/toolchain/pipeline.py:121-123 | executing a plugin invokes it exactly once: its invocation is the first one recorded and no other recorded invocation is of it |
| Guarantees.ResumeNeverReinvokes | beet/toolchain/pipeline.py:87-93 | advancing a task that has already started never calls its plugin again |
| Guarantees.ResumedNeverReinvokes | beet/toolchain/pipeline.py:148-150 | every task on the stack belongs to an executed plugin, so the round of run's loop that resumes it never calls its plugin again |
| Guarantees.CallFailureWrapped | beet/toolchain/pipeline.py:86-99 | when a plugin's call raises, its first advance stops with the state the call left and the iterator still unset; an ordinary exception comes out as a PluginError naming the plugin with that exception as cause, a fallthrough one unchanged |
| Guarantees.PullOutcome | beet/toolchain/pipeline.py:92-100 | pulling from a started task runs exactly the code before its next element (or before exhaustion) and leaves that code's state; it raises exactly when that code raised, with the exception passed through the plugin guard (so an ordinary failure in a generator's setup or teardown becomes PluginError of the task's plugin); otherwise it reports more work exactly when an element was left and completion exactly when none was |
| Guarantees.AdvanceOutcome | beet/toolchain/pipeline.py:86-100 | the same for a task's first advance once its call returned normally: it pulls from the iterator of what the call returned, with the same wrapping of failures and the same yielded-exactly-when-an-element-was-left relation |
| Guarantees.OneShotFinishes | beet/toolchain/pipeline.py:89-91 | a plugin whose result is not iterable never reports more work after its one advance, and that advance fails exactly when the plugin's own code raised |
| Guarantees.PerformPushesFresh | beet/toolchain/pipeline.py:88 | every task pushed while plugin code runs belongs to a plugin not executed before it |
| Guarantees.RequirePushesFresh | beet/toolchain/pipeline.py:123-124 | every task pushed by require belongs to a plugin not executed before it |
| Guarantees.ExecutePushesFresh | beet/toolchain/pipeline.py:121-124 | the same for executing one plugin |
| Guarantees.AdvancePushesFresh | beet/toolchain/pipeline.py:84-100 | the same for one advance |
| Guarantees.PullPushesFresh | beet/toolchain/pipeline.py:92-100 | the same for one pull |
| Guarantees.ExecutePushesUnfinished | beet/toolchain/pipeline.py:123-124 | after a successful execution the plugin's task is on top of the stack exactly when the plugin returned an iterable with at least one element, and it waits with that element consumed |
| Guarantees.RequireStopsAtExecuted | beet/toolchain/pipeline.py:116-119 | require returns at once, changing nothing, when the first spec names an executed plugin; later specs are not resolved |
| Guarantees.RunInvokesAtMostOnce | beet/toolchain/pipeline.py:143-150 | on a fresh pipeline, run invokes every plugin it executes exactly once and invokes nothing else |
| Engine.Task.constructor | beet/toolchain/pipeline.py:77-82 | a new task wraps its plugin with no iterator yet |
| Engine.Task.Advance | beet/toolchain/pipeline.py:84-100 | the method's effect on the pipeline, the task it returns (itself or null) and the error it raises are exactly those of Semantics.Advance |
| Engine.Task.Pull | beet/toolchain/pipeline.py:92-100 | the same for Semantics.Pull |
| Engine.Pipeline.constructor | beet/toolchain/pipeline.py:103-112 | a new pipeline is valid and has nothing executed, no tasks and an empty context |
| Engine.Pipeline.Perform | beet/toolchain/pipeline.py:88 | running plugin code against the pipeline has exactly the effect of Semantics.Perform |
| Engine.Pipeline.PerformFirst | beet/toolchain/pipeline.py:88 | runs the first action; either that ends the code with Semantics.Perform's result, or the rest of the code from the new state has the same result as the whole from the old |
| Engine.Pipeline.Require | beet/toolchain/pipeline.py:114-124 | require has exactly the effect and error of Semantics.Require |
| Engine.Pipeline.RequireFirst | beet/toolchain/pipeline.py:116-124 | one iteration of require's loop: either it ends require with Semantics.Require's result, or requiring the remaining specs from the new state has the same result as the whole from the old |
| Engine.Pipeline.Execute | beet/toolchain/pipeline.py:121-124 | adding a plugin, advancing a new task for it and pushing that task when it has more work has exactly the effect of Semantics.Execute |
| Engine.Pipeline.Start | beet/toolchain/pipeline.py:121-123 | marks the plugin executed and creates its fresh task; nothing else changes |
| Engine.Pipeline.Finish | beet/toolchain/pipeline.py:123-124 | pushes the task exactly when its advance succeeded and returned it; the error is passed on unchanged |
| Engine.Pipeline.Push | beet/toolchain/pipeline.py:124 | appends the task on top of the stack; nothing else changes |
| Engine.Pipeline.Pop | beet/toolchain/pipeline.py:149 | removes and returns the top task; nothing else changes |
| Engine.Pipeline.Resume | beet/toolchain/pipeline.py:149-150 | one round of run's loop has exactly the effect of Semantics.Resumed |
| Engine.Pipeline.Drain | beet/toolchain/pipeline.py:148-150 | the loop has exactly the effect of Semantics.Drain and leaves the stack empty when it returns normally |
| Engine.Pipeline.Run | beet/toolchain/pipeline.py:143-150 | run has exactly the effect of Semantics.Run and leaves the stack empty when it returns normally |
| Scenarios.RequireA | beet/toolchain/pipeline.py:114-124 | require("a") on a fresh pipeline runs a to completion and suspends nothing |
| Scenarios.AdvanceC | beet/toolchain/pipeline.py:84-100 | the one advance of a plain plugin writes its line and finishes |
| Scenarios.RequireCInsideB | beet/toolchain/pipeline.py:114-124 | a require issued from inside a generator's setup runs the required plugin to completion there |
| Scenarios.SetupOfB | beet/toolchain/pipeline.py:88 | the generator's setup writes its line and then requires c |
| Scenarios.AdvanceB | beet/toolchain/pipeline.py:84-100 | a generator's first advance runs its setup and stops at its first yield |
| Scenarios.RequireB | beet/toolchain/pipeline.py:121-124 | require of a generator leaves it suspended on the stack after its setup |
| Scenarios.ResumeB | beet/toolchain/pipeline.py:148-150 | run's loop resumes the generator, whose teardown runs and which then finishes |
| Scenarios.SetupTeardownOrder | beet/toolchain/pipeline.py:143-150 | run(["a", "b"]) writes a, b-setup, c, b-teardown, invokes each plugin once and leaves nothing suspended |
| Nesting.AdvanceInner | beet/toolchain/pipeline.py:84-100 | the inner generator's first advance runs its setup and stops at its yield |
| Nesting.RequireInner | beet/toolchain/pipeline.py:121-124 | the outer plugin's require of the inner one pushes the inner task |
| Nesting.SetupOfOuter | beet/toolchain/pipeline.py:88 | the outer setup writes its line and leaves the inner task on the stack |
| Nesting.AdvanceOuter | beet/toolchain/pipeline.py:84-100 | the outer plugin's first advance returns after the inner task was pushed |
| Nesting.RequireOuter | beet/toolchain/pipeline.py:121-124 | the outer task is pushed above the inner one |
| Nesting.ResumeOuterFirst | beet/toolchain/pipeline.py:148-150 | run's loop resumes the outer task first, running the outer teardown |
| Nesting.ResumeInnerLast | beet/toolchain/pipeline.py:148-150 | then it resumes the inner task and the stack is empty |
| Nesting.NestedTeardownOrder | beet/toolchain/pipeline.py:143-150 | with one generator requiring another, run writes A-setup, B-setup, A-teardown, B-teardown: the outer teardown runs first |
| Nesting.SelfRequireSkipped | beet/toolchain/pipeline.py:118-121 | a plugin requiring itself finds itself executed already and is not re-entered |
| Nesting.AliasRunsOnce | beet/toolchain/pipeline.py:116-121 | two dotted paths naming the same plugin run it once, and its require of itself does not recurse |
| Failures.RequireGenerator | beet/toolchain/pipeline.py:121-124 | requiring the generator suspends it after its setup |
| Failures.InnermostFailure | beet/toolchain/pipeline.py:94-99 | a plugin's own ordinary exception is wrapped once into a PluginError naming that plugin, after its earlier output was written |
| Failures.RequireFailing | beet/toolchain/pipeline.py:121-124 | requiring the failing plugin fails with that PluginError and leaves it executed |
| Failures.OuterPassesThrough | beet/toolchain/pipeline.py:94-95 | the plugin that required the failing one passes the PluginError on unchanged |
| Failures.FailureAbandonsTeardown | beet/toolchain/pipeline.py:143-147 | run stops at the first failure: the error names the plugin that raised, and a generator suspended earlier keeps its task and never runs its teardown |
| Failures.UnknownPathFails | beet/toolchain/pipeline.py:138-141 | a dotted path the importer does not know fails with PluginImportError carrying the spec and the cause, and changes nothing |
| Failures.RequireCAfterA | beet/toolchain/pipeline.py:114-124 | requiring a new plugin after another ran executes just that plugin |
| Failures.RequireReturnsWhereRunContinues | beet/toolchain/pipeline.py:116-119 | require("a", "c") after a ran returns without running c, while run(["a", "c"]) runs c |

## Left out

- `beet/contrib/babelbox.py` and the rest of beet are not part of this model.
- `import_from_string` is not part of this model. Resolution uses an abstract
  importer function in the environment. The default member
  (`beet_default`) and the whitelist are passed through to it unchanged.
- Error messages: the text built by `format_obj` and the traceback trimming
  (`with_traceback(... tb_next ...)`) are not modelled. An exception keeps only
  its kind, the plugin or spec it names, its cause and the `format_cause` flag.
- `BaseException` subclasses outside `Exception` (such as `KeyboardInterrupt`)
  are not modelled. Every raised exception is either ordinary or in the
  fallthrough family.
- Plugin code is a fixed list of actions: write a line, require specs, raise.
  The following are left out:
  - plugin code that catches exceptions itself;
  - plugin code that chooses what to do from the context;
  - arbitrary computation.
- A call that fails because the object is not callable is expressed as
  plugin code that raises.
- Semantics.Perform: the `isinstance(result, Iterable)` test is a tag on the
  returned value. Any iterable, strings and lists included, is an `Iterable`
  whose elements run no code. Generators are the case with code between
  elements.
- The context object is reduced to an append-only log of lines.
- Plugin identity is a number. Two specs name the same plugin exactly when
  they resolve to the same number, which stands in for Python's hash
  equality in the `plugins` set. Because every plugin has such an identity,
  the model leaves out the `TypeError` that `plugin in self.plugins`
  (`pipeline.py:118`) raises for an unhashable plugin, for instance an
  instance of a callable non-frozen dataclass. In the source that error
  sits outside any `try`: it escapes a top-level `require` or `run`
  unwrapped and is wrapped only by an enclosing advance.
- Semantics.Require: it demands a well-formed environment. Every plugin the
  importer can return must have a definition. That finite universe is what
  bounds the recursion. The source makes no such demand. In Python, plugins
  created without end through nested `require` calls recurse on the call
  stack until a RecursionError, which `advance` wraps into a PluginError
  (`pipeline.py:96-99`). Only creation driven from run's loop would spin
  forever. Neither case is in the model.
- Semantics.Drain / Semantics.ResumeProgress: an iterable is a finite
  sequence of elements, so every task finishes after finitely many advances
  and the loop always ends. In the source a plugin that returns an endless
  iterable (`itertools.count()`, a generator with `while True: yield`) is
  pushed back on every round and `run` never returns. That behaviour is not
  modelled.
- Engine.Pipeline.Perform is recursive over the actions, not a loop, because
  it runs plugin code rather than a loop of the engine.
- The helpers `Start`, `Finish`, `PerformFirst`, `RequireFirst`, `Push`, `Pop`
  and `Resume` split the source's loop bodies into separate methods. The
  order of state changes within each is the source's.
- Engine.Pipeline: the invocation trace `calls` is a ghost field. It records
  which plugins were called, for the proofs, and has no counterpart in the
  source.
