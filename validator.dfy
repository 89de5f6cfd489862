/**
 * getValidNextSteps and getContextualNextSteps of src/lib/validator.ts: which of the ten
 * steps the interface may offer after a chain. A step is kept when any of four checks
 * accepts it. Checks 1 and 2 look at the chain as entered; checks 3 and 4 go through
 * resolveToId, which normalises first.
 */
module Validator {
  import opened Wrappers
  import opened Steps
  import opened Roles
  import opened Normalizer
  import opened KinshipTables
  import opened Resolver

  /** ALL_STEPS, in the repository's order. */
  const AllSteps: seq<Step> :=
    [Father, Mother, Husband, Wife, OlderBrother, YoungerBrother, OlderSister, YoungerSister, Son, Daughter]

  /** The position of a step in AllSteps. */
  function Ordinal(s: Step): (i: nat)
    ensures i < |AllSteps| && AllSteps[i] == s
  {
    match s
    case Father => 0
    case Mother => 1
    case Husband => 2
    case Wife => 3
    case OlderBrother => 4
    case YoungerBrother => 5
    case OlderSister => 6
    case YoungerSister => 7
    case Son => 8
    case Daughter => 9
  }

  predicate IsStrictPrefix(a: seq<Step>, b: seq<Step>)
  {
    |a| < |b| && b[..|a|] == a
  }

  /** The role the chain currently resolves to; none for the empty chain. */
  function CurrentRole(t: Tables, chain: seq<Step>, g: Gender): Option<Role>
  {
    if |chain| > 0 then ResolveToId(t, chain, g) else None
  }

  /** Check 1: the extended chain is a plain key, or a key for the user's gender. */
  predicate IsKey(t: Tables, cand: seq<Step>, g: Gender)
  {
    cand in t.resolution || (cand, g) in t.gendered
  }

  /**
   * Check 2: the extended chain is a strict prefix of some key. The repository scans every
   * key with a string prefix test, so gendered keys of either gender count.
   */
  predicate ExtendsToKey(t: Tables, cand: seq<Step>)
  {
    (exists k | k in t.resolution :: IsStrictPrefix(cand, k))
    || (exists kg | kg in t.gendered :: IsStrictPrefix(cand, kg.0))
  }

  /** Check 3: the current role has a continuation entry for the step. */
  predicate Continues(t: Tables, current: Option<Role>, s: Step)
  {
    current.Some? && current.value in t.continuation && s in t.continuation[current.value]
  }

  /** Check 4: only for a non-empty chain that does not resolve, the extended chain resolves. */
  predicate ResolvesAfterDeadEnd(t: Tables, chain: seq<Step>, g: Gender, s: Step)
  {
    |chain| > 0 && CurrentRole(t, chain, g).None? && ResolveToId(t, chain + [s], g).Some?
  }

  /** The filter's predicate: any one of the four checks. */
  predicate Accepts(t: Tables, chain: seq<Step>, g: Gender, s: Step)
  {
    IsKey(t, chain + [s], g)
    || ExtendsToKey(t, chain + [s])
    || Continues(t, CurrentRole(t, chain, g), s)
    || ResolvesAfterDeadEnd(t, chain, g, s)
  }

  /** Ordinal numbers the steps of AllSteps by position. */
  lemma OrdinalOfAllSteps()
    ensures forall i | 0 <= i < |AllSteps| :: Ordinal(AllSteps[i]) == i
  {
  }

  /** The steps from position i of AllSteps on that accept keeps, in order. */
  function KeepFrom(accept: Step -> bool, i: nat): (r: seq<Step>)
    requires i <= |AllSteps|
    ensures forall s :: s in r <==> i <= Ordinal(s) && accept(s)
    ensures forall j, k | 0 <= j < k < |r| :: Ordinal(r[j]) < Ordinal(r[k])
    ensures forall j | 0 <= j < |r| :: i <= Ordinal(r[j])
    decreases |AllSteps| - i
  {
    OrdinalOfAllSteps();
    if i == |AllSteps| then []
    else (if accept(AllSteps[i]) then [AllSteps[i]] else []) + KeepFrom(accept, i + 1)
  }

  /** getValidNextSteps: ALL_STEPS filtered by the four checks, so in ALL_STEPS order, each once. */
  function ValidNextSteps(t: Tables, chain: seq<Step>, g: Gender): (r: seq<Step>)
    ensures forall s :: s in r <==> Accepts(t, chain, g, s)
    ensures forall j, k | 0 <= j < k < |r| :: Ordinal(r[j]) < Ordinal(r[k])
  {
    KeepFrom(s => Accepts(t, chain, g, s), 0)
  }

  /** getContextualNextSteps filters nothing further. */
  function GetContextualNextSteps(t: Tables, chain: seq<Step>, g: Gender): (r: seq<Step>)
    ensures r == ValidNextSteps(t, chain, g)
  {
    ValidNextSteps(t, chain, g)
  }

  /** Check 4 is never consulted when the chain is empty or already resolves. */
  lemma FallbackOnlyAtDeadEnds(t: Tables, chain: seq<Step>, g: Gender, s: Step)
    requires chain == [] || CurrentRole(t, chain, g).Some?
    ensures s in ValidNextSteps(t, chain, g) <==>
      IsKey(t, chain + [s], g) || ExtendsToKey(t, chain + [s]) || Continues(t, CurrentRole(t, chain, g), s)
  {
  }

  /** A prefix of a chain no rule applies to is one no rule applies to. */
  lemma IrreduciblePrefix(t: Tables, c: seq<Step>, n: nat)
    requires n <= |c| && Irreducible(t.rules, c)
    ensures Irreducible(t.rules, c[..n])
  {
    forall k, i | 0 <= k < |t.rules| && MatchesAt(c[..n], t.rules[k].pattern, i)
      ensures MatchesAt(c, t.rules[k].pattern, i)
    {
      assert c[..n][i..i + |t.rules[k].pattern|] == c[i..i + |t.rules[k].pattern|];
    }
  }

  /**
   * The validator is sound for chains normalisation leaves alone: if appending s and then
   * any further steps gives a chain no rule applies to and that chain resolves, s is offered.
   */
  lemma ValidatorSoundForNormalCompletions(t: Tables, chain: seq<Step>, g: Gender, s: Step, rest: seq<Step>)
    requires Irreducible(t.rules, chain + [s] + rest)
    requires ResolveToId(t, chain + [s] + rest, g).Some?
    ensures s in ValidNextSteps(t, chain, g)
  {
    IrreducibleIsFixed(t.rules, chain + [s] + rest);
    assert ResolveChain(t, chain + [s] + rest, g).Some?;
    if Lookup(t, chain + [s] + rest, g).Some? {
      KeyCompletion(t, chain + [s], rest, g);
    } else {
      PrefixCompletion(t, chain, g, s, rest);
    }
  }

  /** A completion that is itself a key: the extension is a key or a strict prefix of one. */
  lemma KeyCompletion(t: Tables, c: seq<Step>, rest: seq<Step>, g: Gender)
    requires Lookup(t, c + rest, g).Some?
    ensures IsKey(t, c, g) || ExtendsToKey(t, c)
  {
    if rest == [] {
      assert c + rest == c;
    } else {
      assert (c + rest)[..|c|] == c;
      StrictPrefixOfKey(t, c, c + rest, g);
    }
  }

  /** A completion that resolves through a proper prefix: one of checks 1 to 3 accepts s. */
  lemma PrefixCompletion(t: Tables, chain: seq<Step>, g: Gender, s: Step, rest: seq<Step>)
    requires Irreducible(t.rules, chain + [s] + rest)
    requires Lookup(t, chain + [s] + rest, g).None? && ResolveChain(t, chain + [s] + rest, g).Some?
    ensures s in ValidNextSteps(t, chain, g)
  {
    var c := chain + [s];
    var l := c + rest;
    var p := LongestPrefix(t, l, g, |l| - 1);
    var len, id := p.value.0, p.value.1;
    ResolveChainByPrefix(t, l, g, len, id);
    assert l[..|c|] == c;
    if len > |c| {
      assert l[..len][..|c|] == c;
      StrictPrefixOfKey(t, c, l[..len], g);
    } else if len == |c| {
      assert IsKey(t, c, g);
    } else {
      IrreduciblePrefix(t, l, |chain|);
      CompletionSlices(chain, s, rest, len);
      if len == |chain| {
        ContinuesFromWholeChain(t, chain, g, s, rest, id);
      } else {
        ContinuesFromProperPrefix(t, chain, l, g, s, rest, len, id);
      }
    }
  }

  /** The one-step case: if chain + [s] is normal and resolves, s is offered. */
  lemma ValidatorSoundForNormalChains(t: Tables, chain: seq<Step>, g: Gender, s: Step)
    requires Irreducible(t.rules, chain + [s])
    requires ResolveToId(t, chain + [s], g).Some?
    ensures s in ValidNextSteps(t, chain, g)
  {
    assert chain + [s] + [] == chain + [s];
    ValidatorSoundForNormalCompletions(t, chain, g, s, []);
  }

  /** A strict prefix of a key is accepted by check 2. */
  lemma StrictPrefixOfKey(t: Tables, cand: seq<Step>, key: seq<Step>, g: Gender)
    requires IsStrictPrefix(cand, key) && Lookup(t, key, g).Some?
    ensures ExtendsToKey(t, cand)
  {
    if (key, g) in t.gendered {
      assert IsStrictPrefix(cand, (key, g).0);
    } else {
      assert key in t.resolution;
    }
  }

  /** How chain + [s] + rest splits at a position within chain. */
  lemma CompletionSlices(chain: seq<Step>, s: Step, rest: seq<Step>, n: nat)
    requires n <= |chain|
    ensures (chain + [s] + rest)[..|chain|] == chain
    ensures (chain + [s] + rest)[..n] == chain[..n]
    ensures (chain + [s] + rest)[n..] == chain[n..] + ([s] + rest)
  {
  }

  /** A nonempty chain no rule applies to is what resolveToId resolves unchanged. */
  lemma CurrentRoleOfIrreducible(t: Tables, chain: seq<Step>, g: Gender)
    requires chain != [] && Irreducible(t.rules, chain)
    ensures CurrentRole(t, chain, g) == ResolveChain(t, chain, g)
  {
    IrreducibleIsFixed(t.rules, chain);
  }

  /** A one-step walk succeeds only along a continuation entry. */
  lemma OneStepPath(t: Tables, id: Role, s: Step)
    requires Path(t, id, [s]).Some?
    ensures id in t.continuation && s in t.continuation[id]
  {
  }

  /** The completion resolved from chain itself and a walk: chain resolves, and s continues it. */
  lemma ContinuesFromWholeChain(t: Tables, chain: seq<Step>, g: Gender, s: Step, rest: seq<Step>, id: Role)
    requires chain != [] && Irreducible(t.rules, chain)
    requires Lookup(t, chain, g) == Some(id)
    requires Path(t, id, [s] + rest).Some?
    ensures s in ValidNextSteps(t, chain, g)
  {
    CurrentRoleOfIrreducible(t, chain, g);
    PathAppend(t, id, [s], rest);
    OneStepPath(t, id, s);
    assert Continues(t, CurrentRole(t, chain, g), s);
  }

  /** The completion resolved from a shorter prefix: chain walks to a role that s continues. */
  lemma ContinuesFromProperPrefix(t: Tables, chain: seq<Step>, l: seq<Step>, g: Gender, s: Step, rest: seq<Step>,
                                  len: nat, id: Role)
    requires l == chain + [s] + rest
    requires 1 <= len < |chain| && Irreducible(t.rules, chain)
    requires LongestPrefix(t, l, g, |l| - 1) == Some((len, id))
    requires |l| - len <= MaxDepth
    requires Path(t, id, chain[len..] + ([s] + rest)).Some?
    ensures s in ValidNextSteps(t, chain, g)
  {
    CompletionSlices(chain, s, rest, len);
    LongestPrefixOfExtension(t, chain, l, g, len, id);
    assert Lookup(t, l[..|chain|], g).None?;
    ResolveChainByPrefix(t, chain, g, len, id);
    CurrentRoleOfIrreducible(t, chain, g);
    PathAppend(t, id, chain[len..], [s] + rest);
    var x := Path(t, id, chain[len..]).value;
    PathAppend(t, x, [s], rest);
    OneStepPath(t, x, s);
    assert Continues(t, CurrentRole(t, chain, g), s);
  }

  /** Below the length of chain, the longest resolving prefix of an extension is chain's own. */
  lemma LongestPrefixOfExtension(t: Tables, chain: seq<Step>, c: seq<Step>, g: Gender, len: nat, id: Role)
    requires |c| > |chain| && c[..|chain|] == chain
    requires 1 <= len < |chain|
    requires LongestPrefix(t, c, g, |c| - 1) == Some((len, id))
    ensures LongestPrefix(t, chain, g, |chain| - 1) == Some((len, id))
  {
    forall l | 1 <= l <= |chain| ensures c[..l] == chain[..l] {
    }
    assert Lookup(t, chain[..len], g).Some?;
    var q := LongestPrefix(t, chain, g, |chain| - 1);
    assert Lookup(t, c[..q.value.0], g).Some?;
  }

  /** One step of KeepFrom when the step at position i is accepted. */
  lemma KeepFromAccepted(accept: Step -> bool, i: nat)
    requires i < |AllSteps| && accept(AllSteps[i])
    ensures KeepFrom(accept, i) == [AllSteps[i]] + KeepFrom(accept, i + 1)
  {
  }

  /** Keeping every step from position i on gives the rest of AllSteps. */
  lemma {:induction false} KeepFromAll(accept: Step -> bool, i: nat)
    requires i <= |AllSteps|
    requires forall j | i <= j < |AllSteps| :: accept(AllSteps[j])
    ensures KeepFrom(accept, i) == AllSteps[i..]
    decreases |AllSteps| - i
  {
    if i < |AllSteps| {
      KeepFromAccepted(accept, i);
      KeepFromAll(accept, i + 1);
      SliceCons(AllSteps, i);
    }
  }

  lemma SliceCons(xs: seq<Step>, i: nat)
    requires i < |xs|
    ensures xs[i..] == [xs[i]] + xs[i + 1..]
  {
  }

  /** When every check accepts every step, all ten are offered, in order. */
  lemma AllAcceptedOffersAllSteps(t: Tables, chain: seq<Step>, g: Gender)
    requires forall s :: Accepts(t, chain, g, s)
    ensures ValidNextSteps(t, chain, g) == AllSteps
  {
    KeepFromAll(s => Accepts(t, chain, g, s), 0);
  }
}
