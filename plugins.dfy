/**
 * Plugins as data.  A plugin is identified by a PluginId and its code is a
 * PluginDef: the actions it performs when called, and what the call
 * returns.  The shared context is reduced to an append-only log of lines.
 */
module Plugins {
  import opened Wrappers
  import opened Exceptions

  /** One statement of plugin code. */
  datatype Action =
    | Log(line: string)           // write to the shared context
    | Require(specs: seq<Spec>)   // ctx.require(*specs)
    | Raise(exc: Exc)             // raise an exception

  /**
   * What calling a plugin returns: something that is not iterable, or an
   * iterable.  For an iterable, elements[i] is the code that runs before
   * its i-th element is produced and epilogue the code that runs before it
   * reports exhaustion (for a generator: the segments between its yields).
   */
  datatype Returned = NonIterable | Iterable(elements: seq<seq<Action>>, epilogue: seq<Action>)

  /** The code of a plugin: the actions of the call itself, then what it returns. */
  datatype PluginDef = PluginDef(call: seq<Action>, returned: Returned)

  /** The iterator a task holds, with the same reading as Returned.Iterable. */
  datatype Iter = Iter(elements: seq<seq<Action>>, epilogue: seq<Action>)

  /** An iterator that produces nothing more and runs nothing more. */
  const Exhausted := Iter([], [])

  /** `iter(result if isinstance(result, Iterable) else [])`. */
  function IterOf(r: Returned): (it: Iter)
    ensures r.NonIterable? ==> it.elements == [] && it.epilogue == []
    ensures r.Iterable? ==> it.elements == r.elements && it.epilogue == r.epilogue
  {
    match r
    case NonIterable => Exhausted
    case Iterable(elements, epilogue) => Iter(elements, epilogue)
  }

  /**
   * The world a pipeline runs in: the code of every plugin, the dotted-path
   * importer (its inputs are the path, the default member name and the
   * optional whitelist), and the pipeline's two configuration values.
   */
  datatype Env = Env(
    defs: map<PluginId, PluginDef>,
    importer: (string, string, Option<seq<string>>) -> Res<PluginId>,
    defaultSymbol: string,
    whitelist: Option<seq<string>>)

  /** The constructor defaults of GenericPipeline. */
  const DefaultSymbol := "beet_default"

  /** A callable specification must name a plugin that has code. */
  predicate SpecOK(env: Env, s: Spec) {
    s.Direct? ==> s.plugin in env.defs
  }

  predicate SpecsOK(env: Env, specs: seq<Spec>) {
    forall i :: 0 <= i < |specs| ==> SpecOK(env, specs[i])
  }

  predicate ActionOK(env: Env, a: Action) {
    a.Require? ==> SpecsOK(env, a.specs)
  }

  predicate ActionsOK(env: Env, acts: seq<Action>) {
    forall i :: 0 <= i < |acts| ==> ActionOK(env, acts[i])
  }

  predicate IterOK(env: Env, it: Iter) {
    (forall i :: 0 <= i < |it.elements| ==> ActionsOK(env, it.elements[i])) && ActionsOK(env, it.epilogue)
  }

  predicate DefOK(env: Env, d: PluginDef) {
    ActionsOK(env, d.call) && IterOK(env, IterOf(d.returned))
  }

  predicate ImportOK(env: Env, r: Res<PluginId>) {
    r.Ok? ==> r.value in env.defs
  }

  /**
   * Every plugin that code or the importer can name has code: the plugins
   * of a pipeline are drawn from the finite universe env.defs.Keys.
   */
  ghost predicate WellFormed(env: Env) {
    (forall p :: p in env.defs ==> DefOK(env, env.defs[p])) &&
    (forall path :: ImportOK(env, env.importer(path, env.defaultSymbol, env.whitelist)))
  }
}
