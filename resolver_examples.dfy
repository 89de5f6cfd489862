/**
 * The resolver on the repository's own tables: the cases its tests pin down, the depth
 * bound meeting a cycle, and the reverse of a few resolutions.
 */
module ResolverExamples {
  import opened Wrappers
  import opened Steps
  import opened Roles
  import opened Normalizer
  import opened Reductions
  import opened ResolutionMap
  import opened ContinuationMap
  import opened ReverseMap
  import opened KinshipTables
  import opened Resolver

  lemma SourceRules()
    ensures Source.rules == ReductionRules
  {
  }

  lemma SourceContinuation()
    ensures Source.continuation == ContinuationMap.ContinuationMap
  {
  }

  lemma SourceReverse()
    ensures Source.reverse == ReverseMapRaw
  {
  }

  /** A lookup in the repository's tables reads the listed entry of a one- to three-step chain. */
  lemma SourceLookup(key: seq<Step>, g: Gender)
    ensures Lookup(Source, key, g) == if 1 <= |key| <= 3 then Entry(key) else None
  {
    assert Source.gendered == map[] && Source.resolution == ResolutionMap.ResolutionMap;
    KeyIffListed(key);
  }

  /** A chain that is itself a key and has no spouse round trip resolves to its entry. */
  lemma ResolvesToEntry(c: seq<Step>, g: Gender)
    requires 1 <= |c| <= 3 && Entry(c).Some?
    requires forall j | 0 <= j < |c| - 1 ::
      !(c[j] == Husband && c[j + 1] == Wife) && !(c[j] == Wife && c[j + 1] == Husband)
    ensures ResolveToId(Source, c, g) == Entry(c)
  {
    SourceRules();
    WithoutRoundTripIsNormal(c);
    SourceLookup(c, g);
  }

  /** Single steps resolve to themselves; the grandparents come straight from the table. */
  lemma DirectResolutions(g: Gender)
    ensures ResolveToId(Source, [Father], g) == Some(father)
    ensures ResolveToId(Source, [Father, Father], g) == Some(paternal_grandfather)
    ensures ResolveToId(Source, [Mother, Mother], g) == Some(maternal_grandmother)
  {
    ResolvesToEntry([Father], g);
    ResolvesToEntry([Father, Father], g);
    ResolvesToEntry([Mother, Mother], g);
  }

  /** The spouse-family keys carry no gender, so they resolve for a user of either gender. */
  lemma HusbandsFatherForEitherGender(g: Gender)
    ensures ResolveToId(Source, [Husband, Father], g) == Some(husbands_father)
  {
    ResolvesToEntry([Husband, Father], g);
  }

  lemma WifesFatherForEitherGender(g: Gender)
    ensures ResolveToId(Source, [Wife, Father], g) == Some(wifes_father)
  {
    ResolvesToEntry([Wife, Father], g);
  }

  /** Prefixes longer than three steps are never keys, so the search falls through to length three. */
  lemma {:induction false} LongestPrefixSkipsLongKeys(c: seq<Step>, g: Gender, len: nat)
    requires 3 <= len <= |c|
    ensures LongestPrefix(Source, c, g, len) == LongestPrefix(Source, c, g, 3)
    decreases len
  {
    if len > 3 {
      SourceLookup(c[..len], g);
      LongestPrefixSkipsLongKeys(c, g, len - 1);
    }
  }

  /**
   * A chain of more than three steps, free of spouse round trips, whose first three steps are
   * a key: it resolves by walking the rest from that key's role.
   */
  lemma ResolvesFromThreeStepPrefix(c: seq<Step>, g: Gender)
    requires |c| > 3 && Entry(c[..3]).Some?
    requires forall j | 0 <= j < |c| - 1 ::
      !(c[j] == Husband && c[j + 1] == Wife) && !(c[j] == Wife && c[j + 1] == Husband)
    ensures ResolveToId(Source, c, g) ==
      if |c| - 3 <= MaxDepth then Path(Source, Entry(c[..3]).value, c[3..]) else None
  {
    SourceRules();
    WithoutRoundTripIsNormal(c);
    SourceLookup(c, g);
    SourceLookup(c[..3], g);
    LongestPrefixSkipsLongKeys(c, g, |c| - 1);
    ResolveViaPrefix(Source, c, g, 3, Entry(c[..3]).value);
  }

  /** Four steps: the three-step cousin key, then one continuation hop. */
  lemma CousinsWifeResolves(g: Gender)
    ensures ResolveToId(Source, [Father, OlderBrother, Son, Wife], g) == Some(tang_older_brothers_wife)
  {
    var c := [Father, OlderBrother, Son, Wife];
    assert c[..3] == [Father, OlderBrother, Son] && c[3..] == [Wife];
    ResolvesFromThreeStepPrefix(c, g);
    CousinsWifePath();
  }

  lemma CousinsWifePath()
    ensures Path(Source, paternal_uncle_older_son, [Wife]) == Some(tang_older_brothers_wife)
  {
    SourceContinuation();
    CousinsWifeEntry();
  }

  /** Five steps: the three-step cousin key, then two hops. */
  lemma CousinsNephewsWifeResolves(g: Gender)
    ensures ResolveToId(Source, [Father, OlderBrother, Son, Son, Wife], g) == Some(tang_nephews_wife)
  {
    var c := [Father, OlderBrother, Son, Son, Wife];
    assert c[..3] == [Father, OlderBrother, Son] && c[3..] == [Son, Wife];
    ResolvesFromThreeStepPrefix(c, g);
    CousinKey();
    CousinsNephewsWifePath();
  }

  lemma CousinKey()
    ensures Entry([Father, OlderBrother, Son]) == Some(paternal_uncle_older_son)
  {
  }

  lemma CousinsNephewsWifePath()
    ensures Path(Source, paternal_uncle_older_son, [Son, Wife]) == Some(tang_nephews_wife)
  {
    assert [Son, Wife][1..] == [Wife];
    SourceContinuation();
    CousinsSonEntry();
    CousinsSonsWifeEntry();
  }

  /** Five fathers: the walk reaches the great-great-grandfather, who has no continuations. */
  lemma FiveFathersResolveToNothing(g: Gender)
    ensures ResolveToId(Source, [Father, Father, Father, Father, Father], g).None?
  {
    var c := [Father, Father, Father, Father, Father];
    assert c[..3] == [Father, Father, Father] && c[3..] == [Father, Father] && [Father, Father][1..] == [Father];
    ResolvesFromThreeStepPrefix(c, g);
    SourceContinuation();
    GreatGreatGrandfatherIsTerminal();
  }

  /** A husband's wife cancels out, and the empty chain resolves to nothing. */
  lemma SpouseRoundTripResolvesToNothing(g: Gender)
    ensures ResolveToId(Source, [Husband, Wife], g).None?
    ensures ReverseId(Source, [Husband, Wife], g).None?
  {
    SourceRules();
    NormalizeCancelsRoundTrips();
  }

  /**
   * The cousin's self-loop meets the depth bound: ten extra older-brother steps still
   * resolve, the eleventh makes the walk too long.
   */
  lemma CycleStopsAtMaxDepth(g: Gender)
    ensures ResolveToId(Source, [Father, OlderBrother, Son] + Repeat(OlderBrother, 10), g)
      == Some(paternal_uncle_older_son)
    ensures ResolveToId(Source, [Father, OlderBrother, Son] + Repeat(OlderBrother, 11), g).None?
  {
    CycleWithin(g, 10);
    CycleWithin(g, 11);
  }

  lemma CycleWithin(g: Gender, n: nat)
    requires 1 <= n <= 11
    ensures ResolveToId(Source, [Father, OlderBrother, Son] + Repeat(OlderBrother, n), g)
      == if n <= MaxDepth then Some(paternal_uncle_older_son) else None
  {
    var c := [Father, OlderBrother, Son] + Repeat(OlderBrother, n);
    assert c[..3] == [Father, OlderBrother, Son] && c[3..] == Repeat(OlderBrother, n);
    CousinLoopChainHasNoRoundTrip(c, n);
    ResolvesFromThreeStepPrefix(c, g);
    CousinKey();
    CousinLoopPath(n);
  }

  lemma CousinLoopChainHasNoRoundTrip(c: seq<Step>, n: nat)
    requires c == [Father, OlderBrother, Son] + Repeat(OlderBrother, n)
    ensures forall j | 0 <= j < |c| - 1 ::
      !(c[j] == Husband && c[j + 1] == Wife) && !(c[j] == Wife && c[j + 1] == Husband)
  {
    forall j | 0 <= j < |c| - 1
      ensures !(c[j] == Husband && c[j + 1] == Wife) && !(c[j] == Wife && c[j + 1] == Husband)
    {
      if j >= 3 {
        assert c[j] == Repeat(OlderBrother, n)[j - 3];
      }
    }
  }

  lemma CousinLoopPath(n: nat)
    ensures Path(Source, paternal_uncle_older_son, Repeat(OlderBrother, n)) == Some(paternal_uncle_older_son)
  {
    SourceContinuation();
    CousinSelfLoop();
    SelfLoopWalk(Source, paternal_uncle_older_son, OlderBrother, n);
  }

  /** What the relatives of a few resolved chains call the user. */
  lemma ReverseExamples()
    ensures ReverseId(Source, [Father], Male) == Some(son)
    ensures ReverseId(Source, [Father], Female) == Some(daughter)
    ensures ReverseId(Source, [Husband, Father], Female) == Some(sons_wife)
  {
    DirectResolutions(Male);
    DirectResolutions(Female);
    HusbandsFatherForEitherGender(Female);
    SourceReverse();
    ParentsCallTheUserChild();
    HusbandsFatherReverse();
  }

  lemma HusbandsFatherReverse()
    ensures GetReverseTermId(ReverseMapRaw, husbands_father, Female) == Some(sons_wife)
  {
  }
}
