/** GenericPipeline.resolve: from a plugin specification to a plugin. */
module Resolution {
  import opened Exceptions
  import opened Plugins

  /** What import_from_string does with a dotted path under the pipeline's configuration. */
  function Lookup(env: Env, path: string): Res<PluginId> {
    env.importer(path, env.defaultSymbol, env.whitelist)
  }

  /**
   * A callable passes unchanged and only a dotted path reaches the importer;
   * an import failure outside the fallthrough family becomes a
   * PluginImportError carrying the original specification, a fallthrough
   * one propagates as it is.
   */
  function Resolve(env: Env, spec: Spec): (r: Res<PluginId>)
    ensures spec.Direct? ==> r == Ok(spec.plugin)
    ensures spec.Dotted? ==> (r.Ok? <==> Lookup(env, spec.path).Ok?)
    ensures spec.Dotted? && r.Ok? ==> r == Lookup(env, spec.path)
    ensures r.Err? ==> IsFallthrough(r.exc) && spec.Dotted?
    ensures spec.Dotted? && Lookup(env, spec.path).Err? ==>
              var cause := Lookup(env, spec.path).exc;
              r.Err? && (if IsFallthrough(cause) then r.exc == cause else r.exc == PluginImportError(spec, cause))
    ensures WellFormed(env) && SpecOK(env, spec) && r.Ok? ==> r.value in env.defs
  {
    match spec
    case Direct(plugin) => Ok(plugin)
    case Dotted(path) =>
      match Lookup(env, path)
      case Ok(plugin) => Ok(plugin)
      case Err(e) => Err(GuardImport(spec, e))
  }
}
