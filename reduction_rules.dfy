/**
 * The reduction rules of src/data/reduction-rules.ts: patterns that cancel out of a
 * chain. Only the two spouse round trips are rules; parent-child pairs are deliberately
 * not reduced, because "my father's son" is a brother, not the user.
 */
module Reductions {
  import opened Wrappers
  import opened Steps

  /** A rule replaces an occurrence of pattern by replacement (reduction-rules.ts:18-22). */
  datatype Rule = Rule(pattern: seq<Step>, replacement: seq<Step>, genderCondition: Option<Gender>)

  /**
   * A rule that shortens the chain. Every rule the repository defines does, and it is what
   * makes rewriting to a fixed point terminate.
   */
  type ReductionRule = r: Rule | |r.replacement| < |r.pattern| witness Rule([Husband], [], None)

  /** INVERSE_PAIRS: the pairs of steps that undo each other. */
  const InversePairs: seq<(Step, Step)> := [(Husband, Wife), (Wife, Husband)]

  /** REDUCTION_RULES: each inverse pair cancels to nothing. */
  const ReductionRules: seq<ReductionRule> :=
    [Rule([Husband, Wife], [], None), Rule([Wife, Husband], [], None)]

  predicate IsSpouseStep(s: Step)
  {
    s == Husband || s == Wife
  }

  /** The rules are exactly the inverse pairs, each cancelled without a gender condition. */
  lemma RulesAreInversePairs()
    ensures |ReductionRules| == |InversePairs|
    ensures forall k | 0 <= k < |ReductionRules| ::
      ReductionRules[k].pattern == [InversePairs[k].0, InversePairs[k].1]
      && ReductionRules[k].replacement == []
      && ReductionRules[k].genderCondition.None?
  {
  }

  /** Every pattern is made of spouse steps only, so no parent or child step is ever cancelled. */
  lemma PatternsAreSpouseSteps()
    ensures forall k, j | 0 <= k < |ReductionRules| && 0 <= j < |ReductionRules[k].pattern| ::
      IsSpouseStep(ReductionRules[k].pattern[j])
  {
  }
}
