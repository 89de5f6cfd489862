/**
 * The transition data the engine runs on, gathered in one value so that the engine's
 * lemmas can be stated for any tables and then specialised to the repository's own.
 */
module KinshipTables {
  import opened Steps
  import opened Roles
  import opened Reductions
  import opened ResolutionMap
  import opened ContinuationMap
  import opened ReverseMap

  /**
   * The repository keeps one resolution object whose keys are dot-joined chains, some with
   * a ":male" or ":female" suffix; here the plain keys and the suffixed keys are two maps.
   */
  datatype Tables = Tables(
    rules: seq<ReductionRule>,
    resolution: map<seq<Step>, Role>,
    gendered: map<(seq<Step>, Gender), Role>,
    continuation: map<Role, map<Step, Role>>,
    reverse: map<Role, ReverseEntry>)

  /** The repository's tables. */
  const Source: Tables :=
    Tables(ReductionRules, ResolutionMap.ResolutionMap, GenderedResolutionMap,
      ContinuationMap.ContinuationMap, ReverseMapRaw)
}
