/**
 * normalizeChain of src/lib/normalizer.ts: rewrite a chain with the reduction rules until
 * none applies. Each pass takes the first rule (in list order) that occurs anywhere in the
 * chain and rewrites its leftmost occurrence, then starts over.
 *
 * Normalize is the specification, NormalizeChain the loop the repository runs; both take
 * the rule list as a parameter so that the lemmas hold for any list of shortening rules.
 */
module Normalizer {
  import opened Wrappers
  import opened Steps
  import opened Reductions

  /** Pattern p sits in c starting at position i. */
  predicate MatchesAt(c: seq<Step>, p: seq<Step>, i: int)
  {
    0 <= i && i + |p| <= |c| && c[i..i + |p|] == p
  }

  ghost predicate Occurs(c: seq<Step>, p: seq<Step>)
  {
    exists i :: MatchesAt(c, p, i)
  }

  /** No rule applies anywhere in c. */
  ghost predicate Irreducible(rules: seq<ReductionRule>, c: seq<Step>)
  {
    forall k | 0 <= k < |rules| :: !Occurs(c, rules[k].pattern)
  }

  /** The first position at or after from where p occurs in c. */
  function LeftmostMatch(c: seq<Step>, p: seq<Step>, from: nat): (r: Option<nat>)
    ensures r.Some? ==> from <= r.value && MatchesAt(c, p, r.value)
    ensures r.Some? ==> forall j | from <= j < r.value :: !MatchesAt(c, p, j)
    ensures r.None? ==> forall j | from <= j :: !MatchesAt(c, p, j)
    decreases |c| - from
  {
    if from + |p| > |c| then None
    else if c[from..from + |p|] == p then Some(from)
    else LeftmostMatch(c, p, from + 1)
  }

  /** The first rule, from index k on, that occurs in c, with its leftmost position. */
  function FindRule(rules: seq<ReductionRule>, c: seq<Step>, k: nat): (r: Option<(nat, nat)>)
    requires k <= |rules|
    ensures r.Some? ==>
      k <= r.value.0 < |rules| && LeftmostMatch(c, rules[r.value.0].pattern, 0) == Some(r.value.1)
    ensures r.Some? ==> forall k' | k <= k' < r.value.0 :: !Occurs(c, rules[k'].pattern)
    ensures r.None? <==> forall k' | k <= k' < |rules| :: !Occurs(c, rules[k'].pattern)
    decreases |rules| - k
  {
    if k == |rules| then None
    else match LeftmostMatch(c, rules[k].pattern, 0)
      case Some(i) => Some((k, i))
      case None => FindRule(rules, c, k + 1)
  }

  /** Replace the occurrence of the rule's pattern at i by its replacement. */
  function Apply(c: seq<Step>, rule: ReductionRule, i: nat): (r: seq<Step>)
    requires MatchesAt(c, rule.pattern, i)
    ensures |r| == |c| - |rule.pattern| + |rule.replacement| < |c|
    ensures r[..i] == c[..i] && r[i + |rule.replacement|..] == c[i + |rule.pattern|..]
    ensures r[i..i + |rule.replacement|] == rule.replacement
  {
    c[..i] + rule.replacement + c[i + |rule.pattern|..]
  }

  /** The chain normalizeChain returns: rewrite until no rule applies. */
  function Normalize(rules: seq<ReductionRule>, c: seq<Step>): (r: seq<Step>)
    ensures |r| <= |c|
    ensures Irreducible(rules, r)
    decreases |c|
  {
    match FindRule(rules, c, 0)
    case None => c
    case Some((k, i)) => Normalize(rules, Apply(c, rules[k], i))
  }

  /** A chain no rule applies to is already normal. */
  lemma IrreducibleIsFixed(rules: seq<ReductionRule>, c: seq<Step>)
    ensures Irreducible(rules, c) <==> Normalize(rules, c) == c
  {
  }

  /** Normalising twice is normalising once. */
  lemma NormalizeIdempotent(rules: seq<ReductionRule>, c: seq<Step>)
    ensures Normalize(rules, Normalize(rules, c)) == Normalize(rules, c)
  {
    IrreducibleIsFixed(rules, Normalize(rules, c));
  }

  /** One pass that finds rule k at position i rewrites towards the same normal form. */
  lemma RewriteFound(rules: seq<ReductionRule>, c: seq<Step>, k: nat, i: nat)
    requires k < |rules| && FindRule(rules, c, 0) == FindRule(rules, c, k)
    requires LeftmostMatch(c, rules[k].pattern, 0) == Some(i)
    ensures Normalize(rules, Apply(c, rules[k], i)) == Normalize(rules, c)
  {
    assert FindRule(rules, c, k) == Some((k, i));
  }

  /** The inner scan of normalizeChain: the leftmost position where pattern occurs in c. */
  method ScanForPattern(c: seq<Step>, pattern: seq<Step>) returns (found: bool, i: nat)
    ensures found <==> LeftmostMatch(c, pattern, 0).Some?
    ensures found ==> LeftmostMatch(c, pattern, 0) == Some(i)
  {
    i := 0;
    while i + |pattern| <= |c|
      invariant LeftmostMatch(c, pattern, 0) == LeftmostMatch(c, pattern, i)
      decreases |c| - i
    {
      if c[i..i + |pattern|] == pattern {
        return true, i;
      }
      i := i + 1;
    }
    return false, i;
  }

  /** One pass of normalizeChain: rewrite the first rule that occurs, at its leftmost match. */
  method RewriteOnce(rules: seq<ReductionRule>, c: seq<Step>) returns (changed: bool, result: seq<Step>)
    ensures changed <==> FindRule(rules, c, 0).Some?
    ensures changed ==> |result| < |c| && Normalize(rules, result) == Normalize(rules, c)
    ensures !changed ==> result == c
  {
    result := c;
    for k := 0 to |rules|
      invariant FindRule(rules, c, 0) == FindRule(rules, c, k)
    {
      var pattern := rules[k].pattern;
      var found, i := ScanForPattern(c, pattern);
      if found {
        RewriteFound(rules, c, k, i);
        result := c[..i] + rules[k].replacement + c[i + |pattern|..];
        assert result == Apply(c, rules[k], i);
        return true, result;
      }
    }
    return false, result;
  }

  /** normalizeChain: rewrite until a whole pass changes nothing. */
  method NormalizeChain(rules: seq<ReductionRule>, chain: seq<Step>) returns (result: seq<Step>)
    ensures result == Normalize(rules, chain)
  {
    result := chain;
    var changed := true;
    while changed
      invariant Normalize(rules, result) == Normalize(rules, chain)
      invariant !changed ==> FindRule(rules, result, 0).None?
      decreases |result| + (if changed then 1 else 0)
    {
      changed, result := RewriteOnce(rules, result);
    }
  }

  // The repository's own rule list.

  /** The steps of c that are not spouse steps, in order. */
  function NonSpouseSteps(c: seq<Step>): (r: seq<Step>)
    ensures |r| <= |c|
    ensures forall j | 0 <= j < |r| :: !IsSpouseStep(r[j])
  {
    if c == [] then []
    else (if IsSpouseStep(c[0]) then [] else [c[0]]) + NonSpouseSteps(c[1..])
  }

  /** The steps kept are exactly the steps of c that are not spouse steps. */
  lemma {:induction false} NonSpouseStepsMembers(c: seq<Step>)
    ensures forall s :: s in NonSpouseSteps(c) <==> s in c && !IsSpouseStep(s)
    decreases |c|
  {
    if c != [] {
      NonSpouseStepsMembers(c[1..]);
      assert forall s :: s in c <==> s == c[0] || s in c[1..];
    }
  }

  lemma {:induction false} NonSpouseStepsAppend(a: seq<Step>, b: seq<Step>)
    ensures NonSpouseSteps(a + b) == NonSpouseSteps(a) + NonSpouseSteps(b)
    decreases |a|
  {
    if a == [] {
      assert a + b == b;
    } else {
      assert (a + b)[0] == a[0];
      assert (a + b)[1..] == a[1..] + b;
      NonSpouseStepsAppend(a[1..], b);
    }
  }

  /** Cancelling one spouse pair keeps the other steps. */
  lemma ApplyKeepsNonSpouseSteps(c: seq<Step>, k: nat, i: nat)
    requires k < |ReductionRules| && MatchesAt(c, ReductionRules[k].pattern, i)
    ensures NonSpouseSteps(Apply(c, ReductionRules[k], i)) == NonSpouseSteps(c)
  {
    var p := ReductionRules[k].pattern;
    var left, right := c[..i], c[i + |p|..];
    SplitAtMatch(c, ReductionRules[k], i);
    PatternWithoutSpouseSteps(k);
    NonSpouseStepsAppend(left + p, right);
    NonSpouseStepsAppend(left, p);
    NonSpouseStepsAppend(left, right);
  }

  /** Around a match of a rule with an empty replacement, the chain is left + pattern + right. */
  lemma SplitAtMatch(c: seq<Step>, rule: ReductionRule, i: nat)
    requires MatchesAt(c, rule.pattern, i) && rule.replacement == []
    ensures c == c[..i] + rule.pattern + c[i + |rule.pattern|..]
    ensures Apply(c, rule, i) == c[..i] + c[i + |rule.pattern|..]
  {
    assert c[i..i + |rule.pattern|] == rule.pattern;
  }

  /** A repository pattern is a spouse round trip: no other steps, and balanced. */
  lemma PatternWithoutSpouseSteps(k: nat)
    requires k < |ReductionRules|
    ensures NonSpouseSteps(ReductionRules[k].pattern) == []
    ensures Balance(ReductionRules[k].pattern) == 0
  {
    var p := ReductionRules[k].pattern;
    assert p[1..][1..] == [];
  }

  /**
   * Normalising with the repository's rules removes spouse steps only: every other step
   * survives, in its order.
   */
  lemma {:induction false} NormalizeKeepsNonSpouseSteps(c: seq<Step>)
    ensures NonSpouseSteps(Normalize(ReductionRules, c)) == NonSpouseSteps(c)
    decreases |c|
  {
    match FindRule(ReductionRules, c, 0)
    case None =>
    case Some((k, i)) =>
      ApplyKeepsNonSpouseSteps(c, k, i);
      NormalizeKeepsNonSpouseSteps(Apply(c, ReductionRules[k], i));
  }

  /** A normal chain never has a husband step next to a wife step. */
  lemma NormalHasNoSpouseRoundTrip(c: seq<Step>, j: nat)
    requires j + 1 < |Normalize(ReductionRules, c)|
    ensures Normalize(ReductionRules, c)[j..j + 2] != [Husband, Wife]
    ensures Normalize(ReductionRules, c)[j..j + 2] != [Wife, Husband]
  {
    var r := Normalize(ReductionRules, c);
    assert !MatchesAt(r, ReductionRules[0].pattern, j);
    assert !MatchesAt(r, ReductionRules[1].pattern, j);
  }

  /** Conversely, a chain with no husband step next to a wife step is irreducible. */
  lemma WithoutRoundTripIsIrreducible(c: seq<Step>)
    requires forall j | 0 <= j < |c| - 1 ::
      !(c[j] == Husband && c[j + 1] == Wife) && !(c[j] == Wife && c[j + 1] == Husband)
    ensures Irreducible(ReductionRules, c)
  {
    forall k, i | 0 <= k < |ReductionRules| && 0 <= i && i + 2 <= |c|
      ensures !MatchesAt(c, ReductionRules[k].pattern, i)
    {
      assert c[i..i + 2] == [c[i], c[i + 1]];
    }
  }

  /** ... and therefore comes back from normalisation unchanged. */
  lemma WithoutRoundTripIsNormal(c: seq<Step>)
    requires forall j | 0 <= j < |c| - 1 ::
      !(c[j] == Husband && c[j + 1] == Wife) && !(c[j] == Wife && c[j + 1] == Husband)
    ensures Normalize(ReductionRules, c) == c
  {
    WithoutRoundTripIsIrreducible(c);
    IrreducibleIsFixed(ReductionRules, c);
  }

  /** Chains with no spouse round trip come back unchanged, as the repository's tests expect. */
  lemma NormalizeKeepsPlainChains()
    ensures Normalize(ReductionRules, []) == []
    ensures Normalize(ReductionRules, [Father]) == [Father]
    ensures Normalize(ReductionRules, [Father, OlderBrother]) == [Father, OlderBrother]
  {
    var c := [Father, OlderBrother];
    assert c[0..2] == c;
    assert LeftmostMatch(c, ReductionRules[0].pattern, 1).None?;
    assert LeftmostMatch(c, ReductionRules[1].pattern, 1).None?;
  }

  /** A spouse round trip on its own cancels, in either order, as the repository's tests expect. */
  lemma NormalizeCancelsRoundTrips()
    ensures Normalize(ReductionRules, [Husband, Wife]) == []
    ensures Normalize(ReductionRules, [Wife, Husband]) == []
  {
    var hw, wh := [Husband, Wife], [Wife, Husband];
    assert hw[0..2] == hw && wh[0..2] == wh;
    assert Apply(hw, ReductionRules[0], 0) == [];
    assert FindRule(ReductionRules, wh, 1) == Some((1, 0));
    assert Apply(wh, ReductionRules[1], 0) == [];
  }

  /** A round trip inside a chain cancels and the neighbouring steps keep their order. */
  lemma NormalizeCancelsInnerRoundTrip()
    ensures Normalize(ReductionRules, [Father, Wife, Husband, OlderBrother]) == [Father, OlderBrother]
  {
    var c := [Father, Wife, Husband, OlderBrother];
    assert c[0..2] == [Father, Wife] && c[1..3] == [Wife, Husband] && c[2..4] == [Husband, OlderBrother];
    assert LeftmostMatch(c, ReductionRules[0].pattern, 3).None?;
    assert FindRule(ReductionRules, c, 1) == Some((1, 1));
    assert Apply(c, ReductionRules[1], 1) == [Father, OlderBrother];
    NormalizeKeepsPlainChains();
  }

  /** Cancelling one pair can expose another, and the loop keeps going. */
  lemma NormalizeCascades()
    ensures Normalize(ReductionRules, [Husband, Wife, Wife, Husband]) == []
    ensures Normalize(ReductionRules, [Husband, Wife, Husband]) == [Husband]
  {
    assert Apply([Husband, Wife, Wife, Husband], ReductionRules[0], 0) == [Wife, Husband];
    assert Apply([Wife, Husband], ReductionRules[1], 0) == [];
    assert Apply([Husband, Wife, Husband], ReductionRules[0], 0) == [Husband];
  }

  /** The chain made of the given pairs, one after another. */
  function Flatten(ps: seq<(Step, Step)>): (c: seq<Step>)
    ensures |c| == 2 * |ps|
  {
    if ps == [] then [] else [ps[0].0, ps[0].1] + Flatten(ps[1..])
  }

  /** +1 for a husband step, -1 for a wife step, 0 for any other. */
  function Weight(s: Step): int
  {
    if s == Husband then 1 else if s == Wife then -1 else 0
  }

  /** The number of husband steps minus the number of wife steps. */
  function Balance(c: seq<Step>): int
  {
    if c == [] then 0 else Weight(c[0]) + Balance(c[1..])
  }

  lemma {:induction false} BalanceAppend(a: seq<Step>, b: seq<Step>)
    ensures Balance(a + b) == Balance(a) + Balance(b)
    decreases |a|
  {
    if a == [] {
      assert a + b == b;
    } else {
      assert (a + b)[0] == a[0];
      assert (a + b)[1..] == a[1..] + b;
      BalanceAppend(a[1..], b);
    }
  }

  /** Cancelling one spouse pair removes one husband and one wife step. */
  lemma ApplyKeepsBalance(c: seq<Step>, k: nat, i: nat)
    requires k < |ReductionRules| && MatchesAt(c, ReductionRules[k].pattern, i)
    ensures Balance(Apply(c, ReductionRules[k], i)) == Balance(c)
  {
    var p := ReductionRules[k].pattern;
    var left, right := c[..i], c[i + |p|..];
    SplitAtMatch(c, ReductionRules[k], i);
    PatternWithoutSpouseSteps(k);
    BalanceAppend(left + p, right);
    BalanceAppend(left, p);
    BalanceAppend(left, right);
  }

  /** Normalising with the repository's rules keeps the balance of husband and wife steps. */
  lemma {:induction false} NormalizeKeepsBalance(c: seq<Step>)
    ensures Balance(Normalize(ReductionRules, c)) == Balance(c)
    decreases |c|
  {
    match FindRule(ReductionRules, c, 0)
    case None =>
    case Some((k, i)) =>
      ApplyKeepsBalance(c, k, i);
      NormalizeKeepsBalance(Apply(c, ReductionRules[k], i));
  }

  /** A chain of inverse pairs is balanced and has nothing but spouse steps. */
  lemma {:induction false} FlattenedPairsAreBalanced(ps: seq<(Step, Step)>)
    requires forall j | 0 <= j < |ps| :: ps[j] in InversePairs
    ensures Balance(Flatten(ps)) == 0 && NonSpouseSteps(Flatten(ps)) == []
  {
    if ps != [] {
      var pair := [ps[0].0, ps[0].1];
      assert pair[1..][1..] == [];
      FlattenedPairsAreBalanced(ps[1..]);
      BalanceAppend(pair, Flatten(ps[1..]));
      NonSpouseStepsAppend(pair, Flatten(ps[1..]));
    }
  }

  /** A chain whose steps all equal x has balance |c| times the weight of x. */
  lemma {:induction false} UniformBalance(c: seq<Step>, x: Step)
    requires forall j | 0 <= j < |c| :: c[j] == x
    ensures Balance(c) == |c| * Weight(x)
  {
    if c != [] {
      UniformBalance(c[1..], x);
    }
  }

  /** In a normal chain of spouse steps only, every step equals the first. */
  lemma {:induction false} NormalSpouseStepsAreUniform(c: seq<Step>, j: nat)
    requires forall s | s in Normalize(ReductionRules, c) :: IsSpouseStep(s)
    requires j < |Normalize(ReductionRules, c)|
    ensures Normalize(ReductionRules, c)[j] == Normalize(ReductionRules, c)[0]
  {
    var r := Normalize(ReductionRules, c);
    if j > 0 {
      NormalSpouseStepsAreUniform(c, j - 1);
      NormalHasNoSpouseRoundTrip(c, j - 1);
      assert r[j - 1..j + 1] == [r[j - 1], r[j]];
      assert r[j - 1] in r && r[j] in r;
    }
  }

  /** The normal form of a chain of spouse steps only has spouse steps only. */
  lemma SpouseOnlyNormalForm(c: seq<Step>)
    requires NonSpouseSteps(c) == []
    ensures forall s | s in Normalize(ReductionRules, c) :: IsSpouseStep(s)
  {
    NormalizeKeepsNonSpouseSteps(c);
    NonSpouseStepsMembers(Normalize(ReductionRules, c));
  }

  /** A normal form of spouse steps only with as many husbands as wives is empty. */
  lemma BalancedSpouseOnlyNormalFormIsEmpty(c: seq<Step>)
    requires forall s | s in Normalize(ReductionRules, c) :: IsSpouseStep(s)
    requires Balance(Normalize(ReductionRules, c)) == 0
    ensures Normalize(ReductionRules, c) == []
  {
    var r := Normalize(ReductionRules, c);
    if r != [] {
      forall j | 0 <= j < |r| ensures r[j] == r[0] {
        NormalSpouseStepsAreUniform(c, j);
      }
      assert r[0] in r;
      UniformBalance(r, r[0]);
    }
  }

  /** Any chain made of inverse pairs, one after another, cancels to nothing. */
  lemma CancelPairsNormalizeToEmpty(ps: seq<(Step, Step)>)
    requires forall j | 0 <= j < |ps| :: ps[j] in InversePairs
    ensures Normalize(ReductionRules, Flatten(ps)) == []
  {
    FlattenedPairsAreBalanced(ps);
    SpouseOnlyNormalForm(Flatten(ps));
    NormalizeKeepsBalance(Flatten(ps));
    BalancedSpouseOnlyNormalFormIsEmpty(Flatten(ps));
  }
}
