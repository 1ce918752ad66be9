/**
 * featureIsEnabled of pkg/configen/funcs.go, the template helper that decides a
 * feature toggle from a semantic-version constraint and a version. Parsing the
 * constraint, parsing the version and checking one against the other belong to
 * the semver library and are passed in as functions that may fail.
 */
module ConfigenFuncs {
  import opened Wrappers
  import opened ConfigenModel

  /** The helper's two results: whether the feature is on, and an error. */
  datatype Toggle = Toggle(enabled: bool, err: Option<string>)

  /** The constraint is a non-empty string the semver library accepts: only then is the version looked at. */
  predicate ReachesVersion<C>(constraint: Value, parseConstraint: string -> Result<C, string>)
  {
    constraint.Str? && constraint.str != "" && parseConstraint(constraint.str).Success?
  }

  /**
   * featureIsEnabled. The version must be a string wherever it is examined:
   * Go's `version.(string)` panics otherwise.
   */
  function FeatureIsEnabled<C, V>(
    constraint: Value,
    version: Value,
    parseConstraint: string -> Result<C, string>,
    parseVersion: string -> Result<V, string>,
    check: (C, V) -> bool): (r: Toggle)
    requires ReachesVersion(constraint, parseConstraint) ==> version.Str?
    ensures r.err.Some? ==> !r.enabled
    ensures constraint.Null? ==> r == Toggle(false, None)
    ensures !constraint.Null? && !constraint.Str? ==>
      r == Toggle(false, Some("invalid feature toggle constraint type: " + constraint.TypeName()))
    ensures constraint == Str("") ==> r == Toggle(false, None)
    ensures constraint.Str? && constraint.str != "" && parseConstraint(constraint.str).Failure? ==>
      r == Toggle(false, Some(parseConstraint(constraint.str).error))
    ensures ReachesVersion(constraint, parseConstraint) && parseVersion(version.str).Failure? ==>
      r == Toggle(false, Some(parseVersion(version.str).error))
    ensures r.err.None? <==>
      || constraint.Null?
      || constraint == Str("")
      || (ReachesVersion(constraint, parseConstraint) && parseVersion(version.str).Success?)
    ensures r.enabled <==>
      ReachesVersion(constraint, parseConstraint) && parseVersion(version.str).Success? &&
      check(parseConstraint(constraint.str).value, parseVersion(version.str).value)
  {
    if constraint.Null? then Toggle(false, None)
    else if !constraint.Str? then
      Toggle(false, Some("invalid feature toggle constraint type: " + constraint.TypeName()))
    else if constraint.str == "" then Toggle(false, None)
    else
      match parseConstraint(constraint.str)
      case Failure(e) => Toggle(false, Some(e))
      case Success(c) =>
        match parseVersion(version.str)
        case Failure(e) => Toggle(false, Some(e))
        case Success(v) => Toggle(check(c, v), None)
  }

  /** Without a constraint, or with an empty one, the version is never examined: any version gives the same answer. */
  lemma VersionIgnoredWithoutConstraint<C, V>(
    constraint: Value,
    version: Value,
    version': Value,
    parseConstraint: string -> Result<C, string>,
    parseVersion: string -> Result<V, string>,
    check: (C, V) -> bool)
    requires constraint.Null? || constraint == Str("")
    ensures FeatureIsEnabled(constraint, version, parseConstraint, parseVersion, check)
         == FeatureIsEnabled(constraint, version', parseConstraint, parseVersion, check)
         == Toggle(false, None)
  {
  }
}
