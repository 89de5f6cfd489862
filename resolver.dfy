/**
 * The two-stage resolver of src/lib/resolver.ts. Stage one looks the whole chain up in the
 * resolution table; stage two takes the longest proper prefix that resolves and walks the
 * continuation table for the remaining steps, at most MaxDepth hops.
 *
 * The pure parts (lookupResolutionMap, resolveToId) are functions; resolveChainToId,
 * resolve and resolveReverse are methods proved against the functions.
 */
module Resolver {
  import opened Wrappers
  import opened Steps
  import opened Roles
  import opened Reductions
  import opened Normalizer
  import opened ReverseMap
  import opened KinshipTables

  /** MAX_DEPTH: the most continuation hops a resolution may take. */
  const MaxDepth: nat := 10

  /** lookupResolutionMap: the gendered key first, the plain key only when that is absent. */
  function Lookup(t: Tables, key: seq<Step>, g: Gender): (r: Option<Role>)
    ensures r.None? <==> (key, g) !in t.gendered && key !in t.resolution
    ensures (key, g) in t.gendered ==> r == Some(t.gendered[(key, g)])
    ensures (key, g) !in t.gendered && key in t.resolution ==> r == Some(t.resolution[key])
  {
    if (key, g) in t.gendered then Some(t.gendered[(key, g)])
    else if key in t.resolution then Some(t.resolution[key])
    else None
  }

  /** The longest prefix of chain, of length 1 to len, that resolves, with its role. */
  function LongestPrefix(t: Tables, chain: seq<Step>, g: Gender, len: nat): (r: Option<(nat, Role)>)
    requires len <= |chain|
    ensures r.Some? ==> 1 <= r.value.0 <= len && Lookup(t, chain[..r.value.0], g) == Some(r.value.1)
    ensures r.Some? ==> forall l | r.value.0 < l <= len :: Lookup(t, chain[..l], g).None?
    ensures r.None? <==> forall l | 1 <= l <= len :: Lookup(t, chain[..l], g).None?
    decreases len
  {
    if len == 0 then None
    else match Lookup(t, chain[..len], g)
      case Some(id) => Some((len, id))
      case None => LongestPrefix(t, chain, g, len - 1)
  }

  /** Follow the continuation table from id, one step of rest at a time, without a bound. */
  function Path(t: Tables, id: Role, rest: seq<Step>): (r: Option<Role>)
    decreases |rest|
  {
    if rest == [] then Some(id)
    else if id in t.continuation && rest[0] in t.continuation[id] then
      Path(t, t.continuation[id][rest[0]], rest[1..])
    else None
  }

  /** A walk succeeds along a + b exactly when it succeeds along a and then along b. */
  lemma {:induction false} PathAppend(t: Tables, id: Role, a: seq<Step>, b: seq<Step>)
    ensures Path(t, id, a + b) == if Path(t, id, a).Some? then Path(t, Path(t, id, a).value, b) else None
    decreases |a|
  {
    if a == [] {
      assert a + b == b;
    } else {
      assert (a + b)[0] == a[0];
      assert (a + b)[1..] == a[1..] + b;
      if id in t.continuation && a[0] in t.continuation[id] {
        PathAppend(t, t.continuation[id][a[0]], a[1..], b);
      }
    }
  }

  /** The role resolveChainToId returns for a chain (no normalisation). */
  function ResolveChain(t: Tables, chain: seq<Step>, g: Gender): Option<Role>
  {
    if chain == [] then None
    else match Lookup(t, chain, g)
      case Some(id) => Some(id)
      case None =>
        match LongestPrefix(t, chain, g, |chain| - 1)
        case None => None
        case Some((len, id)) => if |chain| - len <= MaxDepth then Path(t, id, chain[len..]) else None
  }

  /**
   * What a resolution means: either the whole chain is a key, or some proper prefix is a key,
   * no longer proper prefix is, and the remaining steps, at most MaxDepth of them, are all
   * continuation entries leading to the result.
   */
  lemma ResolveChainMeans(t: Tables, chain: seq<Step>, g: Gender, r: Role)
    ensures ResolveChain(t, chain, g) == Some(r) <==>
      chain != [] &&
      (Lookup(t, chain, g) == Some(r) ||
       (Lookup(t, chain, g).None? &&
        exists len | 1 <= len < |chain| ::
          Lookup(t, chain[..len], g).Some?
          && (forall l | len < l < |chain| :: Lookup(t, chain[..l], g).None?)
          && |chain| - len <= MaxDepth
          && Path(t, Lookup(t, chain[..len], g).value, chain[len..]) == Some(r)))
  {
    if chain != [] && Lookup(t, chain, g).None? {
      var p := LongestPrefix(t, chain, g, |chain| - 1);
      if p.Some? {
        var len := p.value.0;
        assert Lookup(t, chain[..len], g).Some?;
      }
      if exists len | 1 <= len < |chain| ::
          Lookup(t, chain[..len], g).Some?
          && (forall l | len < l < |chain| :: Lookup(t, chain[..l], g).None?)
          && |chain| - len <= MaxDepth
          && Path(t, Lookup(t, chain[..len], g).value, chain[len..]) == Some(r)
      {
        var len :| 1 <= len < |chain| &&
          Lookup(t, chain[..len], g).Some?
          && (forall l | len < l < |chain| :: Lookup(t, chain[..l], g).None?)
          && |chain| - len <= MaxDepth
          && Path(t, Lookup(t, chain[..len], g).value, chain[len..]) == Some(r);
        assert p.Some? && p.value.0 == len;
      }
    }
  }

  /** resolveToId: normalise, give up on an empty chain, then resolve. */
  function ResolveToId(t: Tables, chain: seq<Step>, g: Gender): Option<Role>
  {
    if chain == [] then None
    else
      var normalized := Normalize(t.rules, chain);
      if normalized == [] then None else ResolveChain(t, normalized, g)
  }

  /** resolveChainToId: the direct lookup, the prefix loop and the bounded walk. */
  method ResolveChainToId(t: Tables, chain: seq<Step>, g: Gender) returns (r: Option<Role>)
    ensures r == ResolveChain(t, chain, g)
  {
    if |chain| == 0 {
      return None;
    }
    var directMatch := Lookup(t, chain, g);
    if directMatch.Some? {
      return directMatch;
    }

    var bestPrefixLen := 0;
    var bestKinshipId: Option<Role> := None;
    var len := |chain| - 1;
    while len >= 1
      invariant 0 <= len < |chain|
      invariant LongestPrefix(t, chain, g, |chain| - 1) == LongestPrefix(t, chain, g, len)
    {
      var m := Lookup(t, chain[..len], g);
      if m.Some? {
        bestPrefixLen := len;
        bestKinshipId := m;
        break;
      }
      LongestPrefixSkips(t, chain, g, len);
      len := len - 1;
    }
    if bestKinshipId.None? {
      return None;
    }
    ghost var start := bestKinshipId.value;
    assert LongestPrefix(t, chain, g, |chain| - 1) == Some((bestPrefixLen, start));
    ResolveChainByPrefix(t, chain, g, bestPrefixLen, start);

    var currentId := bestKinshipId.value;
    var pos := bestPrefixLen;
    var iterations := 0;
    while pos < |chain| && iterations < MaxDepth
      invariant bestPrefixLen <= pos <= |chain|
      invariant iterations == pos - bestPrefixLen <= MaxDepth
      invariant Path(t, start, chain[bestPrefixLen..]) == Path(t, currentId, chain[pos..])
    {
      iterations := iterations + 1;
      var nextStep := chain[pos];
      PathFrom(t, currentId, chain, pos);
      if currentId !in t.continuation {
        return None;
      }
      var continuations := t.continuation[currentId];
      if nextStep !in continuations {
        return None;
      }
      currentId := continuations[nextStep];
      pos := pos + 1;
    }
    if pos < |chain| {
      return None;
    }
    return Some(currentId);
  }

  /** A prefix length that does not resolve is passed over by the search. */
  lemma LongestPrefixSkips(t: Tables, chain: seq<Step>, g: Gender, len: nat)
    requires 1 <= len <= |chain| && Lookup(t, chain[..len], g).None?
    ensures LongestPrefix(t, chain, g, len) == LongestPrefix(t, chain, g, len - 1)
  {
  }

  /** One hop of a walk along the steps of chain from position pos. */
  lemma PathFrom(t: Tables, id: Role, chain: seq<Step>, pos: nat)
    requires pos < |chain|
    ensures Path(t, id, chain[pos..]) ==
      if id in t.continuation && chain[pos] in t.continuation[id]
      then Path(t, t.continuation[id][chain[pos]], chain[pos + 1..])
      else None
  {
    assert chain[pos..][0] == chain[pos] && chain[pos..][1..] == chain[pos + 1..];
  }

  /** How a chain that is not itself a key resolves: the longest resolving prefix, then the bounded walk. */
  lemma ResolveChainByPrefix(t: Tables, chain: seq<Step>, g: Gender, len: nat, id: Role)
    requires chain != [] && Lookup(t, chain, g).None?
    requires LongestPrefix(t, chain, g, |chain| - 1) == Some((len, id))
    ensures ResolveChain(t, chain, g) == if |chain| - len <= MaxDepth then Path(t, id, chain[len..]) else None
  {
  }

  /** How a chain that is not itself a key and is already normal resolves: prefix, then walk. */
  lemma ResolveViaPrefix(t: Tables, chain: seq<Step>, g: Gender, len: nat, id: Role)
    requires chain != [] && Normalize(t.rules, chain) == chain && Lookup(t, chain, g).None?
    requires LongestPrefix(t, chain, g, |chain| - 1) == Some((len, id))
    ensures ResolveToId(t, chain, g) == if |chain| - len <= MaxDepth then Path(t, id, chain[len..]) else None
  {
  }

  /** Nothing resolves the empty chain, forwards or in reverse. */
  lemma EmptyChainResolvesToNothing(t: Tables, g: Gender)
    ensures ResolveChain(t, [], g).None? && ResolveToId(t, [], g).None?
  {
  }

  /** resolveToId is resolveChainToId on the normal form; its empty checks change nothing. */
  lemma ResolveToIdIsResolveOfNormal(t: Tables, chain: seq<Step>, g: Gender)
    ensures ResolveToId(t, chain, g) == ResolveChain(t, Normalize(t.rules, chain), g)
  {
  }

  /** When the whole chain is a key, its role is the answer, whatever the prefixes say. */
  lemma DirectMatchWins(t: Tables, chain: seq<Step>, g: Gender)
    requires chain != [] && Lookup(t, chain, g).Some?
    ensures ResolveChain(t, chain, g) == Lookup(t, chain, g)
  {
  }

  /** Without gendered keys, lookups do not depend on the user's gender... */
  lemma {:induction false} LongestPrefixGenderFree(t: Tables, chain: seq<Step>, len: nat)
    requires t.gendered == map[] && len <= |chain|
    ensures LongestPrefix(t, chain, Male, len) == LongestPrefix(t, chain, Female, len)
    decreases len
  {
    if len > 0 {
      LongestPrefixGenderFree(t, chain, len - 1);
    }
  }

  /** ...and neither does resolution, so husband's and wife's relatives resolve for either gender. */
  lemma ResolveToIdGenderFree(t: Tables, chain: seq<Step>)
    requires t.gendered == map[]
    ensures ResolveToId(t, chain, Male) == ResolveToId(t, chain, Female)
  {
    var n := Normalize(t.rules, chain);
    if n != [] {
      LongestPrefixGenderFree(t, n, |n| - 1);
    }
  }

  /** The step s repeated n times. */
  function Repeat(s: Step, n: nat): (r: seq<Step>)
    ensures |r| == n && forall i | 0 <= i < n :: r[i] == s
  {
    if n == 0 then [] else [s] + Repeat(s, n - 1)
  }

  /** A self-loop in the continuation table can be followed any number of times. */
  lemma {:induction false} SelfLoopWalk(t: Tables, id: Role, s: Step, n: nat)
    requires id in t.continuation && s in t.continuation[id] && t.continuation[id][s] == id
    ensures Path(t, id, Repeat(s, n)) == Some(id)
  {
    if n > 0 {
      assert Repeat(s, n)[1..] == Repeat(s, n - 1);
      SelfLoopWalk(t, id, s, n - 1);
    }
  }

  // Presentation: labels and dialect terms are display data, passed in as opaque tables.

  /** DialectId, in the key order of ALL_DIALECT_TERMS. */
  datatype Dialect = Mandarin | Hokkien | Cantonese | Teochew

  const AllDialects: seq<Dialect> := [Mandarin, Hokkien, Cantonese, Teochew]

  datatype DialectTerm = DialectTerm(
    characters: string, romanization: string, alternates: Option<seq<string>>, notes: Option<string>)

  /** KINSHIP_LABELS and ALL_DIALECT_TERMS: a term table for every dialect. */
  datatype Display = Display(labels: map<Role, string>, dialectTerms: map<Dialect, map<Role, DialectTerm>>)

  predicate HasAllDialects(d: Display)
  {
    forall dl: Dialect :: dl in d.dialectTerms
  }

  datatype ResolutionResult = ResolutionResult(kinshipId: Role, displayLabel: string, terms: map<Dialect, DialectTerm>)

  /** The English label, or the id itself when there is none. */
  function Label(d: Display, id: Role): string
  {
    if id in d.labels then d.labels[id] else Id(id)
  }

  /** The terms loop of resolve and resolveReverse: every dialect that has a term for id. */
  method CollectTerms(d: Display, id: Role) returns (terms: map<Dialect, DialectTerm>)
    requires HasAllDialects(d)
    ensures forall dl: Dialect :: dl in terms <==> id in d.dialectTerms[dl]
    ensures forall dl | dl in terms :: terms[dl] == d.dialectTerms[dl][id]
  {
    terms := map[];
    for n := 0 to |AllDialects|
      invariant forall dl | dl in terms :: dl in AllDialects[..n] && id in d.dialectTerms[dl]
      invariant forall dl | dl in AllDialects[..n] && id in d.dialectTerms[dl] :: dl in terms
      invariant forall dl | dl in terms :: terms[dl] == d.dialectTerms[dl][id]
    {
      var dialectId := AllDialects[n];
      var dialectTerms := d.dialectTerms[dialectId];
      if id in dialectTerms {
        terms := terms[dialectId := dialectTerms[id]];
      }
    }
    assert AllDialects[..|AllDialects|] == AllDialects;
    forall dl: Dialect ensures dl in AllDialects {
      match dl
      case Mandarin => assert AllDialects[0] == dl;
      case Hokkien => assert AllDialects[1] == dl;
      case Cantonese => assert AllDialects[2] == dl;
      case Teochew => assert AllDialects[3] == dl;
    }
  }

  /** The result resolve builds for a resolved role. */
  predicate Describes(d: Display, id: Role, res: ResolutionResult)
    requires HasAllDialects(d)
  {
    && res.kinshipId == id
    && res.displayLabel == Label(d, id)
    && (forall dl: Dialect :: dl in res.terms <==> id in d.dialectTerms[dl])
    && (forall dl | dl in res.terms :: res.terms[dl] == d.dialectTerms[dl][id])
  }

  /** resolve: normalise, resolve, then attach the label and the dialect terms. */
  method Resolve(t: Tables, d: Display, chain: seq<Step>, g: Gender) returns (res: Option<ResolutionResult>)
    requires HasAllDialects(d)
    ensures res.None? <==> ResolveToId(t, chain, g).None?
    ensures res.Some? ==> Describes(d, ResolveToId(t, chain, g).value, res.value)
  {
    if |chain| == 0 {
      return None;
    }
    var normalized := NormalizeChain(t.rules, chain);
    if |normalized| == 0 {
      return None;
    }
    var kinshipId := ResolveChainToId(t, normalized, g);
    if kinshipId.None? {
      return None;
    }
    var displayLabel := Label(d, kinshipId.value);
    var terms := CollectTerms(d, kinshipId.value);
    return Some(ResolutionResult(kinshipId.value, displayLabel, terms));
  }

  /** What the relative reached by chain calls the user, if anything. */
  function ReverseId(t: Tables, chain: seq<Step>, g: Gender): (r: Option<Role>)
    ensures r.Some? ==> ResolveToId(t, chain, g).Some?
    ensures r.Some? <==> ResolveToId(t, chain, g).Some? && ResolveToId(t, chain, g).value in t.reverse
  {
    match ResolveToId(t, chain, g)
    case None => None
    case Some(id) => GetReverseTermId(t.reverse, id, g)
  }

  /** resolveReverse: resolve forwards, look the role up in the reverse table, then describe it. */
  method ResolveReverse(t: Tables, d: Display, chain: seq<Step>, g: Gender) returns (res: Option<ResolutionResult>)
    requires HasAllDialects(d)
    ensures res.None? <==> ReverseId(t, chain, g).None?
    ensures res.Some? ==> Describes(d, ReverseId(t, chain, g).value, res.value)
  {
    if |chain| == 0 {
      return None;
    }
    var normalized := NormalizeChain(t.rules, chain);
    if |normalized| == 0 {
      return None;
    }
    var kinshipId := ResolveChainToId(t, normalized, g);
    if kinshipId.None? {
      return None;
    }
    var reverseId := GetReverseTermId(t.reverse, kinshipId.value, g);
    if reverseId.None? {
      return None;
    }
    var displayLabel := Label(d, reverseId.value);
    var terms := CollectTerms(d, reverseId.value);
    return Some(ResolutionResult(reverseId.value, displayLabel, terms));
  }
}
