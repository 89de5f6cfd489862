/**
 * The validator on the repository's own tables: every step is offered to start a chain, and
 * a step whose chain resolves only after a spouse round trip cancels is not offered.
 */
module ValidatorExamples {
  import opened Wrappers
  import opened Steps
  import opened Roles
  import opened Reductions
  import opened Normalizer
  import opened ResolutionMap
  import opened ContinuationMap
  import opened KinshipTables
  import opened Resolver
  import opened ResolverExamples
  import opened Validator

  /** Every single step is a key, so an empty chain may be extended by any of the ten steps. */
  lemma EmptyChainOffersAllSteps(g: Gender)
    ensures ValidNextSteps(Source, [], g) == AllSteps
  {
    SingleStepsResolveToSameName();
    assert Source.resolution == ResolutionMap.ResolutionMap;
    forall s: Step ensures Accepts(Source, [], g, s) {
      assert [] + [s] == [s];
    }
    AllAcceptedOffersAllSteps(Source, [], g);
  }

  /** A son's husband resolves, by continuation, to the son's wife. */
  lemma SonsHusbandResolves(g: Gender)
    ensures ResolveToId(Source, [Son, Husband], g) == Some(sons_wife)
  {
    var c := [Son, Husband];
    SourceRules();
    WithoutRoundTripIsNormal(c);
    SourceLookup(c, g);
    assert c[..1] == [Son] && c[1..] == [Husband];
    SourceLookup(c[..1], g);
    assert LongestPrefix(Source, c, g, 1) == Some((1, son));
    ResolveViaPrefix(Source, c, g, 1, son);
    SonsHusbandPath();
  }

  lemma SonsHusbandPath()
    ensures Path(Source, son, [Husband]) == Some(sons_wife)
  {
    SourceContinuation();
    SonsSpouseEntry();
  }

  /** Appending the wife step cancels the husband step, leaving the son. */
  lemma SonsHusbandsWifeResolves(g: Gender)
    ensures ResolveToId(Source, [Son, Husband, Wife], g) == Some(son)
  {
    SourceRules();
    SourceLookup([Son], g);
    SonsHusbandsWifeResolvesIn(Source, g);
  }

  lemma SonsHusbandsWifeResolvesIn(t: Tables, g: Gender)
    requires t.rules == ReductionRules && Lookup(t, [Son], g) == Some(son)
    ensures ResolveToId(t, [Son, Husband, Wife], g) == Some(son)
  {
    SonsHusbandsWifeNormalizes();
    ResolveToIdIsResolveOfNormal(t, [Son, Husband, Wife], g);
    DirectMatchWins(t, [Son], g);
  }

  lemma SonsHusbandsWifeNormalizes()
    ensures Normalize(ReductionRules, [Son, Husband, Wife]) == [Son]
  {
    var c := [Son, Husband, Wife];
    assert c[0..2] == [Son, Husband] && c[1..3] == [Husband, Wife];
    assert FindRule(ReductionRules, c, 0) == Some((0, 1));
    assert Apply(c, ReductionRules[0], 1) == [Son];
    WithoutRoundTripIsNormal([Son]);
  }

  /**
   * The validator is not sound for chains that normalisation shortens: the chain
   * son, husband resolves, the wife step is not offered after it, and yet the chain
   * son, husband, wife resolves (to the son).
   */
  lemma WifeNotOfferedAfterSonsHusband(g: Gender)
    ensures Wife !in ValidNextSteps(Source, [Son, Husband], g)
    ensures ResolveToId(Source, [Son, Husband, Wife], g).Some?
  {
    var cand := [Son, Husband] + [Wife];
    assert cand == [Son, Husband, Wife];
    SonsHusbandResolves(g);
    SonsHusbandsWifeResolves(g);
    NotAKey(cand, g);
    NoKeyExtendsThreeSteps(cand);
    SonsWifeHasNoWifeStep();
  }

  lemma NotAKey(cand: seq<Step>, g: Gender)
    requires cand == [Son, Husband, Wife]
    ensures !IsKey(Source, cand, g)
  {
    SourceLookup(cand, g);
  }

  /** No key is longer than three steps, so no key extends a three-step chain. */
  lemma NoKeyExtendsThreeSteps(cand: seq<Step>)
    requires |cand| == 3
    ensures !ExtendsToKey(Source, cand)
  {
    KeysHaveOneToThreeSteps();
    assert Source.resolution == ResolutionMap.ResolutionMap && Source.gendered == map[];
  }

  lemma SonsWifeHasNoWifeStep()
    ensures !Continues(Source, Some(sons_wife), Wife)
  {
    SourceContinuation();
    SonsSpouseEntry();
  }
}
