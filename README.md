# Kinship resolution engine, in Dafny

This project models the engine of a Chinese kinship-term calculator. A user builds a chain of
relation steps (father, older brother, son, wife, ...). The engine finds the canonical role
that chain names, for example `paternal_uncle_older_son` (堂哥). It also finds the role that
relative uses for the user, and it decides which steps the interface may offer next.

The model covers four parts of the engine and the three tables they read:

- **the normaliser** (`normalizeChain`): cancels `husband·wife` and `wife·husband` pairs until
  none remain. It is modelled twice. `Normalizer.Normalize` is a function that specifies it.
  `Normalizer.NormalizeChain` is the loop itself, with its inner scans as methods, proved
  equal to the function;
- **the resolver** (`resolveChainToId`, `resolve`, `resolveReverse`, `resolveToId`). It has two
  stages: an exact lookup of the whole chain, then the longest proper prefix that resolves
  followed by at most ten hops through the continuation table. The functions
  `Resolver.ResolveChain` and `Resolver.ResolveToId` specify it. The methods
  `Resolver.ResolveChainToId`, `Resolver.Resolve` and `Resolver.ResolveReverse` keep the
  repository's loops and are proved against those functions;
- **the reverse lookup** (`getReverseTermId`) over a table whose entries are either one role or
  a male/female pair;
- **the next-step validator** (`getValidNextSteps`): a filter over the ten steps built from
  four checks.

Chains are `seq<Step>`, not dot-joined strings. Role ids are the numbers of the type
`Roles.Role`, one named constant per id, spelled as the repository spells it; distinct ids are
distinct numbers, and `Roles.Id` gives back each id's string. Every table is a constant:
`ReductionRules`, `ResolutionMap`, `ContinuationMap` and `ReverseMapRaw`, all transcribed in
full. The `:male`/`:female` key suffix becomes a separate map from (chain, gender) to role.
That map is empty for the repository's data, because no key of the resolution map carries a
suffix. This change of representation is exact because no step name contains `.` or `:`.

The engine takes its tables as a parameter (`KinshipTables.Tables`), so the general lemmas
hold for any tables. `KinshipTables.Source` holds the repository's own data. The modules
`ResolverExamples` and `ValidatorExamples` prove facts about that data, mostly the cases
the repository's tests pin down.

## Two behaviours of the code

- The three-step chain father, older brother, son is itself a key
  (`src/data/resolution-map.ts:37`). The four-step chain father, older brother, son, wife
  therefore resolves through that three-step prefix and a single continuation hop, as the
  comment at `src/data/continuation-map.ts:7-10` says. See `ResolverExamples.CousinsWifeResolves`.
- The validator can withhold a step that leads to a chain that resolves. After son, husband
  (which resolves to `sons_wife`, whose entry has no `wife` step), `wife` is not offered,
  yet son, husband, wife normalises to son and resolves
  (`ValidatorExamples.WifeNotOfferedAfterSonsHusband`). Checks 1 and 2 read the chain as
  entered, while checks 3 and 4 read it through `resolveToId`, which normalises; the model
  keeps that difference. For chains that normalisation leaves unchanged the validator is
  sound: if chain + [s] + rest is such a chain and resolves, for any further steps rest,
  then s is offered (`Validator.ValidatorSoundForNormalCompletions`).

## Model

| member | source | states |
|---|---|---|
| Reductions.RulesAreInversePairs | src/data/reduction-rules.ts:7-27 | the rule patterns are exactly the `INVERSE_PAIRS` (lines 7-10), in the same order; each rule's replacement is empty and no rule sets a gender condition |
| Reductions.PatternsAreSpouseSteps | src/data/reduction-rules.ts:24-34 | every step of every rule pattern is husband or wife, so no parent–child pair is ever reduced |
| Normalizer.LeftmostMatch | src/lib/normalizer.ts:16-18 | the position found is a match, no earlier position from `from` on is one, and none means there is no match at all |
| Normalizer.FindRule | src/lib/normalizer.ts:14-28 | the rule found is the first in list order whose pattern occurs, at its leftmost match; none means no rule pattern occurs anywhere |
| Normalizer.Apply | src/lib/normalizer.ts:19-23 | the rewrite keeps the steps before and after the match in place, puts the rule's replacement at the match position, and makes the chain strictly shorter |
| Normalizer.Normalize | src/lib/normalizer.ts:8-33 | the normal form is never longer than the input, and no rule pattern occurs anywhere in it |
| Normalizer.IrreducibleIsFixed | src/lib/normalizer.ts:12-30 | a chain is its own normal form exactly when no rule pattern occurs in it |
| Normalizer.NormalizeIdempotent | src/lib/normalizer.ts:8-33 | normalising a normal form returns it unchanged |
| Normalizer.RewriteFound | src/lib/normalizer.ts:14-25 | rewriting the first matching rule at its leftmost match leads to the same normal form |
| Normalizer.ScanForPattern | src/lib/normalizer.ts:16-27 | the inner position loop reports a match exactly when the pattern occurs, and returns its leftmost position |
| Normalizer.RewriteOnce | src/lib/normalizer.ts:13-29 | one pass of the rule loop changes the chain exactly when some rule occurs; the result is then strictly shorter with the same normal form, and otherwise it is the input |
| Normalizer.NormalizeChain | src/lib/normalizer.ts:8-33 | the `while (changed)` loop returns exactly `Normalize` of the input, and it terminates because every pass that changes the chain shortens it |
| Normalizer.NonSpouseSteps | src/data/reduction-rules.ts:26-27 | the chain with its husband and wife steps removed: no longer than the chain and free of spouse steps |
| Normalizer.NonSpouseStepsMembers | src/data/reduction-rules.ts:26-27 | a step is kept exactly when it occurs in the chain and is not a spouse step |
| Normalizer.NonSpouseStepsAppend | src/data/reduction-rules.ts:26-27 | removing spouse steps distributes over concatenation |
| Normalizer.ApplyKeepsNonSpouseSteps | src/lib/normalizer.ts:19-23 | one cancellation with the repository's rules removes only spouse steps |
| Normalizer.NormalizeKeepsNonSpouseSteps | src/lib/normalizer.ts:8-33 | normalising with the repository's rules keeps every other step, in order |
| Normalizer.NormalHasNoSpouseRoundTrip | src/lib/normalizer.ts:12-30 | no `husband·wife` or `wife·husband` pair is left anywhere in a normal form |
| Normalizer.WithoutRoundTripIsIrreducible | src/data/reduction-rules.ts:24-27 | a chain with no adjacent spouse round trip matches no rule |
| Normalizer.WithoutRoundTripIsNormal | src/lib/normalizer.ts:12-30 | a chain with no adjacent spouse round trip comes back unchanged |
| Normalizer.NormalizeKeepsPlainChains | src/lib/normalizer.ts:8-33 | the empty chain, `[father]` and `[father, older_brother]` are returned unchanged |
| Normalizer.NormalizeCancelsRoundTrips | src/data/reduction-rules.ts:26-27 | `[husband, wife]` and `[wife, husband]` both normalise to the empty chain |
| Normalizer.NormalizeCancelsInnerRoundTrip | src/lib/normalizer.ts:19-23 | `[father, wife, husband, older_brother]` becomes `[father, older_brother]`: the pair goes and its neighbours stay in order |
| Normalizer.NormalizeCascades | src/lib/normalizer.ts:12-30 | after a pair cancels the scan restarts, so `[husband, wife, wife, husband]` normalises to the empty chain and `[husband, wife, husband]` to `[husband]` |
| Normalizer.BalanceAppend | src/data/reduction-rules.ts:7-10 | the husband-minus-wife count of a concatenation is the sum of the parts' counts |
| Normalizer.ApplyKeepsBalance | src/lib/normalizer.ts:19-23 | one cancellation with the repository's rules removes as many husband steps as wife steps |
| Normalizer.NormalizeKeepsBalance | src/lib/normalizer.ts:8-33 | normalising with the repository's rules keeps the husband-minus-wife count |
| Normalizer.FlattenedPairsAreBalanced | src/data/reduction-rules.ts:7-10 | a chain made of inverse pairs has as many husband as wife steps and no other steps |
| Normalizer.UniformBalance | src/data/reduction-rules.ts:7-10 | a chain of one repeated step has that step's weight times its length as husband-minus-wife count |
| Normalizer.NormalSpouseStepsAreUniform | src/lib/normalizer.ts:12-30 | a normal form made of spouse steps only repeats its first step throughout |
| Normalizer.SpouseOnlyNormalForm | src/lib/normalizer.ts:8-33 | the normal form of a chain of spouse steps has spouse steps only |
| Normalizer.BalancedSpouseOnlyNormalFormIsEmpty | src/lib/normalizer.ts:8-33 | a normal form of spouse steps only, with as many husbands as wives, is empty |
| Normalizer.CancelPairsNormalizeToEmpty | src/data/reduction-rules.ts:24-27 | every chain made of inverse pairs, one after another and in any mix, normalises to the empty chain |
| Normalizer.SplitAtMatch | src/lib/normalizer.ts:19-23 | at a match of a rule whose replacement is empty, the chain is the steps before, the pattern and the steps after, and the rewrite drops the pattern |
| Normalizer.PatternWithoutSpouseSteps | src/data/reduction-rules.ts:24-27 | each repository pattern has no step other than husband and wife, and as many of each |
| ResolutionMap.Entry1 | src/data/resolution-map.ts:8-17 | definition: the ten one-step keys, each mapped to the role of the same name (`SingleStepsResolveToSameName`) |
| ResolutionMap.Entry2 | src/data/resolution-map.ts:21-122 | definition: the two-step keys, one case per entry |
| ResolutionMap.Entry3 | src/data/resolution-map.ts:27-152 | definition: the three-step keys, one case per entry |
| ResolutionMap.Entry | src/data/resolution-map.ts:6-153 | definition: the entry of a chain of one to three steps, none for any other length; `KeyIffListed` ties it to the map |
| ResolutionMap.KeyIffListed | src/data/resolution-map.ts:8-153 | a chain is a key exactly when it has one to three steps and has a listed entry, and the key's value is that entry |
| ResolutionMap.KeysHaveOneToThreeSteps | src/data/resolution-map.ts:8-153 | every key has between one and three steps |
| ResolutionMap.SingleStepsResolveToSameName | src/data/resolution-map.ts:8-17 | each of the ten single steps is a key whose role has the step's own name |
| ResolutionMap.GrandparentEntries | src/data/resolution-map.ts:21 | father·father is `paternal_grandfather`, and mother·mother is `maternal_grandmother` (line 51) |
| ResolutionMap.OlderAndYoungerCollapse | src/data/resolution-map.ts:31-32 | father·older_sister and father·younger_sister are both `paternal_aunt`; mother·older_brother and mother·younger_brother are both `maternal_uncle` (lines 54-55) |
| ResolutionMap.SpouseFamilyKeysAreUngendered | src/data/resolution-map.ts:104-126 | the husband and wife family keys are plain keys, and there are no gender-suffixed keys at all |
| ContinuationMap.ContinuationEntry | src/data/continuation-map.ts:15-916 | definition: one case per role entry of `CONTINUATION_MAP`, none for a role without one; `SpouseStepsAgree` and the entry lemmas below state its properties |
| ContinuationMap.SpouseStepsAgreeAt | src/data/continuation-map.ts:12-13 | in one role's entry, the husband step is present exactly when the wife step is, and both lead to the same spouse role |
| ContinuationMap.SpouseStepsAgree | src/data/continuation-map.ts:12-13 | the same holds for every role with an entry |
| ContinuationMap.CousinsWifeEntry | src/data/continuation-map.ts:107 | `paternal_uncle_older_son` + wife gives `tang_older_brothers_wife` |
| ContinuationMap.CousinSelfLoop | src/data/continuation-map.ts:113 | `paternal_uncle_older_son` + older_brother returns to `paternal_uncle_older_son` |
| ContinuationMap.GreatGreatGrandfatherIsTerminal | src/data/continuation-map.ts:879 | `paternal_great_grandfather` + father gives `gao_grandfather_p`, which has no entry |
| ContinuationMap.CousinsSonEntry | src/data/continuation-map.ts:109 | `paternal_uncle_older_son` + son gives `tang_nephew` |
| ContinuationMap.CousinsSonsWifeEntry | src/data/continuation-map.ts:783 | `tang_nephew` + wife gives `tang_nephews_wife` |
| ContinuationMap.SonsSpouseEntry | src/data/continuation-map.ts:356-358 | `son` + husband gives `sons_wife`, and the entry of `sons_wife` (lines 762-769) has no wife step |
| ReverseMap.ReverseEntryOf | src/data/reverse-map.ts:14-273 | definition: one case per entry of `REVERSE_MAP_RAW`, a single role or a male/female pair, none for a role without one |
| ReverseMap.GetReverseTermId | src/data/reverse-map.ts:278-287 | a role with no entry gives none; a single-role entry gives that role for both genders; a pair entry gives the component for the user's gender |
| ReverseMap.ReverseDependsOnGenderIff | src/data/reverse-map.ts:14 | the answer differs between the genders exactly when the entry is a pair with two different components |
| ReverseMap.ParentsCallTheUserChild | src/data/reverse-map.ts:18-19 | father and mother reverse to `son` for a male user and to `daughter` for a female user |
| ReverseMap.SpousesAreMutualReverses | src/data/reverse-map.ts:20-21 | husband reverses to wife and wife to husband, for either gender |
| ReverseMap.BrothersAreMutualReverses | src/data/reverse-map.ts:22-23 | for a male user, older_brother reverses to younger_brother and back |
| ReverseMap.SonsCoParentsInLawAreSymmetric | src/data/reverse-map.ts:122-123 | the son's wife's father and mother reverse to themselves |
| ReverseMap.DaughtersCoParentsInLawAreSymmetric | src/data/reverse-map.ts:124-125 | the daughter's husband's father and mother reverse to themselves |
| ReverseMap.MissingReverseEntry | src/data/reverse-map.ts:282-283 | `sons_wifes_brother` has no entry, so it has no reverse |
| Resolver.Path | src/lib/resolver.ts:61-73 | definition of the walk through the continuation table, without the hop bound; `PathAppend` splits it and `ResolveChainToId` bounds it |
| Resolver.ResolveChain | src/lib/resolver.ts:28-78 | definition of `resolveChainToId` as a function; `ResolveChainMeans` characterises its result and `ResolveChainToId` is proved equal to it |
| Resolver.ResolveToId | src/lib/resolver.ts:142-148 | definition of `resolveToId`; `ResolveToIdIsResolveOfNormal` shows it is `ResolveChain` of the normal form |
| Resolver.Label | src/lib/resolver.ts:95 | definition of the label lookup with the id as fallback, used at lines 95 and 136; `Resolve` and `ResolveReverse` state the fallback |
| Resolver.Lookup | src/lib/resolver.ts:14-17 | the gendered key wins when present; the plain key is used only when it is absent; none when neither is a key |
| Resolver.LongestPrefix | src/lib/resolver.ts:41-54 | the prefix found resolves and no longer prefix within the bound does; none means no prefix of length 1 to the bound resolves |
| Resolver.PathAppend | src/lib/resolver.ts:61-73 | a walk along `a + b` succeeds exactly when the walk along `a` succeeds and the walk along `b` from its end does |
| Resolver.ResolveChainMeans | src/lib/resolver.ts:28-78 | a chain resolves to `r` exactly when it is non-empty and either the whole chain is a key for `r`, or it is not a key, its longest resolving proper prefix leaves at most ten steps, and every one of those steps has a continuation entry, the last leading to `r` |
| Resolver.ResolveChainToId | src/lib/resolver.ts:28-78 | the method with the prefix loop and the bounded walk returns exactly `ResolveChain` |
| Resolver.ResolveChainByPrefix | src/lib/resolver.ts:40-77 | a chain that is not itself a key resolves, through its longest resolving proper prefix, to the walk along the remaining steps when there are at most `MAX_DEPTH` of them, and to nothing otherwise |
| Resolver.ResolveViaPrefix | src/lib/resolver.ts:56-77 | a normal, non-key chain resolves by walking from its longest resolving prefix, and gives none when more than `MaxDepth` = 10 steps remain |
| Resolver.EmptyChainResolvesToNothing | src/lib/resolver.ts:32 | the empty chain resolves to nothing, with or without normalising first (lines 87, 115) |
| Resolver.ResolveToIdIsResolveOfNormal | src/lib/resolver.ts:142-148 | `resolveToId` is `resolveChainToId` applied to the normal form of the chain |
| Resolver.DirectMatchWins | src/lib/resolver.ts:34-38 | when the whole chain is a key, its value is the answer, whatever the prefixes say |
| Resolver.LongestPrefixGenderFree | src/lib/resolver.ts:14-17 | without gendered keys, the prefix search gives the same answer for both genders |
| Resolver.ResolveToIdGenderFree | src/lib/resolver.ts:142-148 | without gendered keys, resolution does not depend on the user's gender |
| Resolver.SelfLoopWalk | src/lib/resolver.ts:61-73 | a self-loop entry can be followed any number of times and stays on its role |
| Resolver.CollectTerms | src/lib/resolver.ts:98-103 | the terms loop keeps a dialect exactly when that dialect has a term for the role, with that term (also lines 129-134) |
| Resolver.Resolve | src/lib/resolver.ts:83-106 | `resolve` gives no result exactly when `resolveToId` gives none; otherwise it returns that id, its label (the id itself when there is no label) and its dialect terms |
| Resolver.ReverseId | src/lib/resolver.ts:120-124 | a reverse exists exactly when the chain resolves and the reverse table has an entry for the role |
| Resolver.ResolveReverse | src/lib/resolver.ts:111-137 | `resolveReverse` gives no result exactly when the chain does not resolve or the role has no reverse entry; otherwise it describes the reverse role, with its label falling back to the id |
| ResolverExamples.SourceLookup | src/lib/resolver.ts:14-17 | on the repository's tables, a lookup reads the listed entry of a one- to three-step chain and finds nothing for longer chains |
| ResolverExamples.ResolvesToEntry | src/lib/resolver.ts:83-106 | a key with no spouse round trip resolves to its own entry |
| ResolverExamples.DirectResolutions | src/data/resolution-map.ts:8-21 | `[father]`, `[father, father]` and `[mother, mother]` resolve to `father`, `paternal_grandfather` and `maternal_grandmother` |
| ResolverExamples.HusbandsFatherForEitherGender | src/data/resolution-map.ts:104-105 | husband·father resolves to `husbands_father` for a user of either gender |
| ResolverExamples.WifesFatherForEitherGender | src/data/resolution-map.ts:116-117 | wife·father resolves to `wifes_father` for a user of either gender |
| ResolverExamples.LongestPrefixSkipsLongKeys | src/lib/resolver.ts:44-52 | on the repository's tables, the prefix search over lengths above three falls through to length three |
| ResolverExamples.ResolvesFromThreeStepPrefix | src/lib/resolver.ts:41-77 | a normal chain longer than three whose first three steps are a key walks on from that key's role |
| ResolverExamples.CousinsWifeResolves | src/data/continuation-map.ts:7-10 | father, older_brother, son, wife resolves to `tang_older_brothers_wife`, through the three-step prefix and one hop |
| ResolverExamples.CousinsWifePath | src/data/continuation-map.ts:107 | the one hop from `paternal_uncle_older_son` along wife reaches `tang_older_brothers_wife` |
| ResolverExamples.CousinsNephewsWifeResolves | src/lib/resolver.ts:56-77 | the five-step chain father, older_brother, son, son, wife resolves to `tang_nephews_wife` |
| ResolverExamples.CousinKey | src/data/resolution-map.ts:37 | father·older_brother·son is listed as `paternal_uncle_older_son` |
| ResolverExamples.CousinsNephewsWifePath | src/data/continuation-map.ts:109 | the two hops son, wife from `paternal_uncle_older_son` reach `tang_nephews_wife` (line 783) |
| ResolverExamples.FiveFathersResolveToNothing | src/data/continuation-map.ts:879 | five father steps resolve to nothing: the walk reaches `gao_grandfather_p`, which has no entry |
| ResolverExamples.SpouseRoundTripResolvesToNothing | src/lib/resolver.ts:89-90 | `[husband, wife]` normalises to empty, so it resolves to nothing and has no reverse (lines 117-118) |
| ResolverExamples.CycleStopsAtMaxDepth | src/lib/resolver.ts:61-75 | after the cousin's key, ten further older_brother steps resolve to the cousin through the self-loop, and eleven resolve to nothing: the bound stops the cycle |
| ResolverExamples.CycleWithin | src/lib/resolver.ts:61-75 | for one to eleven extra steps, the chain resolves to the cousin exactly when at most ten are extra |
| ResolverExamples.CousinLoopChainHasNoRoundTrip | src/data/reduction-rules.ts:26-27 | the cycling chains contain no adjacent husband·wife or wife·husband pair |
| ResolverExamples.CousinLoopPath | src/data/continuation-map.ts:113 | any number of older_brother hops from `paternal_uncle_older_son` stay on it |
| ResolverExamples.ReverseExamples | src/lib/resolver.ts:111-137 | the father calls a male user `son` and a female user `daughter`; the husband's father calls a female user `sons_wife` |
| ResolverExamples.HusbandsFatherReverse | src/data/reverse-map.ts:88 | `husbands_father` reverses to `sons_wife` |
| Validator.CurrentRole | src/lib/validator.ts:25 | definition: `resolveToId` of a non-empty chain, none for the empty chain; `CurrentRoleOfIrreducible` relates it to `ResolveChain` |
| Validator.IsKey | src/lib/validator.ts:30-33 | definition of check 1: the extended chain is a plain key or a key for the user's gender |
| Validator.ExtendsToKey | src/lib/validator.ts:35-40 | definition of check 2: the extended chain is a strict prefix of some plain or gendered key; `StrictPrefixOfKey` and `NoKeyExtendsThreeSteps` use it |
| Validator.Continues | src/lib/validator.ts:42-48 | definition of check 3: the current role has a continuation entry for the step |
| Validator.ResolvesAfterDeadEnd | src/lib/validator.ts:50-57 | definition of check 4: only for a non-empty chain that does not resolve, the extended chain resolves; `FallbackOnlyAtDeadEnds` states when it is consulted |
| Validator.Accepts | src/lib/validator.ts:27-60 | definition of the filter's predicate: any one of the four checks; `ValidNextSteps` offers exactly the accepted steps |
| Validator.Ordinal | src/lib/validator.ts:6-10 | the position of each step in `ALL_STEPS` |
| Validator.OrdinalOfAllSteps | src/lib/validator.ts:6-10 | `ALL_STEPS` lists each step once, at its ordinal |
| Validator.KeepFrom | src/lib/validator.ts:27 | filtering `ALL_STEPS` from position i on keeps exactly the accepted steps at or after i, in strictly increasing order |
| Validator.ValidNextSteps | src/lib/validator.ts:18-61 | a step is offered exactly when one of the four checks accepts it, and the offered steps come in `ALL_STEPS` order, each once |
| Validator.GetContextualNextSteps | src/lib/validator.ts:66-73 | `getContextualNextSteps` returns `getValidNextSteps` unchanged |
| Validator.FallbackOnlyAtDeadEnds | src/lib/validator.ts:50-57 | for an empty chain or one that resolves, a step is offered exactly when check 1, 2 or 3 accepts it |
| Validator.IrreduciblePrefix | src/lib/normalizer.ts:12-30 | a prefix of a chain no rule applies to is one no rule applies to |
| Validator.ValidatorSoundForNormalCompletions | src/lib/validator.ts:27-60 | if appending s and any further steps gives a chain no rule applies to and that chain resolves, s is offered |
| Validator.ValidatorSoundForNormalChains | src/lib/validator.ts:27-60 | the one-step case: if appending s gives a chain no rule applies to and that chain resolves, s is offered |
| Validator.KeyCompletion | src/lib/validator.ts:30-40 | when a completion of the extended chain is itself a key, check 1 or check 2 accepts the extension |
| Validator.PrefixCompletion | src/lib/validator.ts:30-48 | when a normal completion resolves through a proper prefix, check 1, 2 or 3 accepts the step |
| Validator.StrictPrefixOfKey | src/lib/validator.ts:35-40 | a strict prefix of a plain or gendered key is accepted by check 2 |
| Validator.CompletionSlices | src/lib/validator.ts:54 | how chain + [s] + rest splits at a position within chain |
| Validator.CurrentRoleOfIrreducible | src/lib/validator.ts:25 | for a non-empty normal chain, the current role is what `resolveChainToId` gives for it |
| Validator.ContinuesFromWholeChain | src/lib/validator.ts:42-48 | when a completion resolves from the chain itself and a walk that starts with s, check 3 offers s |
| Validator.ContinuesFromProperPrefix | src/lib/validator.ts:42-48 | when a completion resolves from a shorter prefix of the chain, the chain resolves along the first part of the same walk and check 3 offers s |
| Validator.LongestPrefixOfExtension | src/lib/resolver.ts:41-52 | below the chain's own length, the longest resolving prefix of any longer chain that starts with it is the chain's own |
| Validator.KeepFromAll | src/lib/validator.ts:27 | a filter that accepts every step keeps the rest of `ALL_STEPS` unchanged |
| Validator.AllAcceptedOffersAllSteps | src/lib/validator.ts:6-10 | when every step is accepted, all ten are offered, in `ALL_STEPS` order |
| ValidatorExamples.EmptyChainOffersAllSteps | src/lib/validator.ts:22-33 | for the empty chain, all ten steps are offered, because each single step is a key |
| ValidatorExamples.SonsHusbandResolves | src/data/continuation-map.ts:358 | son·husband resolves to `sons_wife` by continuation |
| ValidatorExamples.SonsHusbandsWifeResolves | src/lib/resolver.ts:89-92 | son·husband·wife normalises to `[son]` and resolves to `son` |
| ValidatorExamples.SonsHusbandsWifeNormalizes | src/lib/normalizer.ts:12-30 | son·husband·wife normalises to `[son]` |
| ValidatorExamples.WifeNotOfferedAfterSonsHusband | src/lib/validator.ts:27-60 | `wife` is not offered after son·husband, and yet son·husband·wife resolves |
| ValidatorExamples.NoKeyExtendsThreeSteps | src/lib/validator.ts:35-40 | check 2 accepts no three-step candidate, since no key is longer than three steps |
| ValidatorExamples.SonsWifeHasNoWifeStep | src/data/continuation-map.ts:762-769 | check 3 does not accept wife after `sons_wife` |

## Left out

- The React interface, the hooks and `localStorage` persistence are not part of this model.
  The calculator's chain editing is plain append and slice.
- Display data. English labels and the four dialect term tables enter as an opaque
  `Resolver.Display` value, a partial map from role to label and from dialect to terms.
  The strings themselves are not transcribed.
- Every role id is a non-empty string; the model does not prove this about `Roles.Id`. The repository tests
  presence through truthiness (`if (directMatch)`, `if (!nextId)`, `RESOLUTION_MAP[key] ||`).
  That coincides with membership only because no id is empty. The model uses membership.
- Keys are sequences of steps plus a separate gendered map, not dot-joined strings with a
  `:male`/`:female` suffix. Check 2's string `startsWith` over all keys, gendered ones
  included, is modelled as the strict step-prefix test on both maps.
- The default gender of `resolveToId` (`'male'`) is not modelled as a default: the model
  always takes the gender explicitly, and a call without one, such as the repository's tests
  make, is `ResolveToId(t, c, Male)`.
- `normalizeChain` copies its input before changing it. Dafny sequences are values, so no
  caller can observe a change to its argument in any case.
- The order of the keys in a `terms` object is not modelled. The model returns a Dafny
  map, which has no order.
- `ReductionRule.genderCondition` is carried in the rule but never read, as in the
  repository. `Reductions.ReductionRule` admits only rules whose replacement is shorter
  than their pattern. Both repository rules qualify. A rule that does not shorten the chain
  could make the repository's loop run forever.
- ContinuationMap.SpouseStepsAgreeAt: the lemma covers the husband and wife steps only.
  That the entries map a subset of the ten steps to roles holds by the types.
- The model does not prove that every continuation target and reverse role has a label and
  dialect terms. Those are integrity checks over display data.
