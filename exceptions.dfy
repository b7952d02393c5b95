/**
 * Plugin identities, plugin specifications and the pipeline's exception
 * hierarchy, written as a tagged error type.
 *
 * PipelineFallthroughException is the root of the fallthrough family;
 * FormattedPipelineException extends it, and PluginError and
 * PluginImportError extend FormattedPipelineException.  Anything outside
 * that family is an ordinary exception.
 */
module Exceptions {

  /** The identity of a plugin callable: deduplication compares these. */
  type PluginId = nat

  /** A plugin specification: the callable itself, or a dotted path naming it. */
  datatype Spec = Direct(plugin: PluginId) | Dotted(path: string)

  /** What can be raised while a pipeline runs, tagged by its place in the hierarchy. */
  datatype Exc =
    | Ordinary(kind: string)      // any exception outside the fallthrough family
    | Fallthrough(kind: string)   // PipelineFallthroughException or a subclass that is not formatted
    | Formatted(kind: string)     // FormattedPipelineException or a subclass other than the two below
    | PluginError(plugin: PluginId, cause: Exc)
    | PluginImportError(spec: Spec, cause: Exc)

  /** A value, or the exception raised instead of producing it. */
  datatype Res<+T> = Ok(value: T) | Err(exc: Exc)

  /** Membership in the PipelineFallthroughException family. */
  predicate IsFallthrough(e: Exc) {
    !e.Ordinary?
  }

  /** Membership in the FormattedPipelineException family. */
  predicate IsFormatted(e: Exc) {
    e.Formatted? || e.PluginError? || e.PluginImportError?
  }

  /** The `format_cause` flag: set by the two engine errors, cleared by the base class. */
  predicate FormatCause(e: Exc)
    requires IsFormatted(e)
  {
    e.PluginError? || e.PluginImportError?
  }

  /**
   * The two except clauses around a plugin invocation in Task.advance:
   * fallthrough exceptions are re-raised as they are, any other exception
   * is replaced by a PluginError naming the plugin, with the original as
   * its cause.
   */
  function GuardPlugin(plugin: PluginId, e: Exc): (r: Exc)
    ensures IsFallthrough(r) && IsFormatted(r) == (IsFormatted(e) || !IsFallthrough(e))
    ensures IsFallthrough(e) <==> r == e
    ensures !IsFallthrough(e) ==> r.PluginError? && r.plugin == plugin && r.cause == e && FormatCause(r)
  {
    if IsFallthrough(e) then e else PluginError(plugin, e)
  }

  /**
   * The two except clauses in GenericPipeline.resolve: fallthrough
   * exceptions pass, any other becomes a PluginImportError carrying the
   * original specification.
   */
  function GuardImport(spec: Spec, e: Exc): (r: Exc)
    ensures IsFallthrough(r)
    ensures IsFallthrough(e) <==> r == e
    ensures !IsFallthrough(e) ==> r.PluginImportError? && r.spec == spec && r.cause == e && FormatCause(r)
  {
    if IsFallthrough(e) then e else PluginImportError(spec, e)
  }

  /**
   * A failure already translated by an inner guard is never translated
   * again by an outer one, whichever plugin or specification the outer
   * guard names.
   */
  lemma NoDoubleWrapping(p: PluginId, q: PluginId, s: Spec, e: Exc)
    ensures GuardPlugin(q, GuardPlugin(p, e)) == GuardPlugin(p, e)
    ensures GuardImport(s, GuardPlugin(p, e)) == GuardPlugin(p, e)
    ensures GuardPlugin(q, GuardImport(s, e)) == GuardImport(s, e)
  {
  }
}
