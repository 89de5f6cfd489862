/**
 * The resolution table of src/data/resolution-map.ts: chains of one to three steps
 * mapped to a canonical role. The repository writes it as one object keyed by the
 * dot-joined chain; here the entries are grouped by chain length (one case per entry,
 * the source line in a trailing comment) and the table itself is the finite map
 * those cases define.
 */
module ResolutionMap {
  import opened Wrappers
  import opened Steps
  import opened Roles

  /** Entries whose key is a single step (resolution-map.ts:8-17). */
  function Entry1(a: Step): Role
  {
    match a
    case Father => father  // :8
    case Mother => mother  // :9
    case Husband => husband  // :10
    case Wife => wife  // :11
    case OlderBrother => older_brother  // :12
    case YoungerBrother => younger_brother  // :13
    case OlderSister => older_sister  // :14
    case YoungerSister => younger_sister  // :15
    case Son => son  // :16
    case Daughter => daughter  // :17
  }

  /** Entries whose key has two steps. */
  function Entry2(a: Step, b: Step): Option<Role>
  {
    match (a, b)
    case (Father, Father) => Some(paternal_grandfather)  // :21
    case (Father, Mother) => Some(paternal_grandmother)  // :22
    case (Father, OlderBrother) => Some(fathers_older_brother)  // :25
    case (Father, YoungerBrother) => Some(fathers_younger_brother)  // :26
    case (Father, OlderSister) => Some(paternal_aunt)  // :31
    case (Father, YoungerSister) => Some(paternal_aunt)  // :32
    case (Mother, Father) => Some(maternal_grandfather)  // :50
    case (Mother, Mother) => Some(maternal_grandmother)  // :51
    case (Mother, OlderBrother) => Some(maternal_uncle)  // :54
    case (Mother, YoungerBrother) => Some(maternal_uncle)  // :55
    case (Mother, OlderSister) => Some(maternal_aunt)  // :60
    case (Mother, YoungerSister) => Some(maternal_aunt)  // :61
    case (OlderBrother, Wife) => Some(older_brothers_wife)  // :78
    case (YoungerBrother, Wife) => Some(younger_brothers_wife)  // :79
    case (OlderSister, Husband) => Some(older_sisters_husband)  // :80
    case (YoungerSister, Husband) => Some(younger_sisters_husband)  // :81
    case (OlderBrother, Son) => Some(brothers_son)  // :84
    case (OlderBrother, Daughter) => Some(brothers_daughter)  // :85
    case (YoungerBrother, Son) => Some(brothers_son)  // :86
    case (YoungerBrother, Daughter) => Some(brothers_daughter)  // :87
    case (OlderSister, Son) => Some(sisters_son)  // :88
    case (OlderSister, Daughter) => Some(sisters_daughter)  // :89
    case (YoungerSister, Son) => Some(sisters_son)  // :90
    case (YoungerSister, Daughter) => Some(sisters_daughter)  // :91
    case (Son, Wife) => Some(sons_wife)  // :94
    case (Daughter, Husband) => Some(daughters_husband)  // :95
    case (Son, Son) => Some(sons_son)  // :98
    case (Son, Daughter) => Some(sons_daughter)  // :99
    case (Daughter, Son) => Some(daughters_son)  // :100
    case (Daughter, Daughter) => Some(daughters_daughter)  // :101
    case (Husband, Father) => Some(husbands_father)  // :105
    case (Husband, Mother) => Some(husbands_mother)  // :106
    case (Husband, OlderBrother) => Some(husbands_older_brother)  // :107
    case (Husband, YoungerBrother) => Some(husbands_younger_brother)  // :108
    case (Husband, OlderSister) => Some(husbands_older_sister)  // :109
    case (Husband, YoungerSister) => Some(husbands_younger_sister)  // :110
    case (Wife, Father) => Some(wifes_father)  // :117
    case (Wife, Mother) => Some(wifes_mother)  // :118
    case (Wife, OlderBrother) => Some(wifes_brother)  // :119
    case (Wife, YoungerBrother) => Some(wifes_brother)  // :120
    case (Wife, OlderSister) => Some(wifes_older_sister)  // :121
    case (Wife, YoungerSister) => Some(wifes_younger_sister)  // :122
    case _ => None
  }

  /** Entries whose key has three steps. */
  function Entry3(a: Step, b: Step, c: Step): Option<Role>
  {
    match (a, b, c)
    case (Father, OlderBrother, Wife) => Some(fathers_older_brothers_wife)  // :27
    case (Father, YoungerBrother, Wife) => Some(fathers_younger_brothers_wife)  // :28
    case (Father, OlderSister, Husband) => Some(paternal_aunts_husband)  // :33
    case (Father, YoungerSister, Husband) => Some(paternal_aunts_husband)  // :34
    case (Father, OlderBrother, Son) => Some(paternal_uncle_older_son)  // :37
    case (Father, OlderBrother, Daughter) => Some(paternal_uncle_older_daughter)  // :38
    case (Father, YoungerBrother, Son) => Some(paternal_uncle_younger_son)  // :39
    case (Father, YoungerBrother, Daughter) => Some(paternal_uncle_younger_daughter)  // :40
    case (Father, OlderSister, Son) => Some(paternal_aunts_son)  // :43
    case (Father, OlderSister, Daughter) => Some(paternal_aunts_daughter)  // :44
    case (Father, YoungerSister, Son) => Some(paternal_aunts_son)  // :45
    case (Father, YoungerSister, Daughter) => Some(paternal_aunts_daughter)  // :46
    case (Mother, OlderBrother, Wife) => Some(maternal_uncles_wife)  // :56
    case (Mother, YoungerBrother, Wife) => Some(maternal_uncles_wife)  // :57
    case (Mother, OlderSister, Husband) => Some(maternal_aunts_husband)  // :62
    case (Mother, YoungerSister, Husband) => Some(maternal_aunts_husband)  // :63
    case (Mother, OlderBrother, Son) => Some(maternal_uncles_son)  // :66
    case (Mother, OlderBrother, Daughter) => Some(maternal_uncles_daughter)  // :67
    case (Mother, YoungerBrother, Son) => Some(maternal_uncles_son)  // :68
    case (Mother, YoungerBrother, Daughter) => Some(maternal_uncles_daughter)  // :69
    case (Mother, OlderSister, Son) => Some(maternal_aunts_son)  // :72
    case (Mother, OlderSister, Daughter) => Some(maternal_aunts_daughter)  // :73
    case (Mother, YoungerSister, Son) => Some(maternal_aunts_son)  // :74
    case (Mother, YoungerSister, Daughter) => Some(maternal_aunts_daughter)  // :75
    case (Husband, OlderBrother, Wife) => Some(husbands_older_brothers_wife)  // :111
    case (Husband, YoungerBrother, Wife) => Some(husbands_younger_brothers_wife)  // :112
    case (Husband, OlderSister, Husband) => Some(husbands_sisters_husband)  // :113
    case (Husband, YoungerSister, Husband) => Some(husbands_sisters_husband)  // :114
    case (Wife, OlderBrother, Wife) => Some(wifes_brothers_wife)  // :123
    case (Wife, YoungerBrother, Wife) => Some(wifes_brothers_wife)  // :124
    case (Wife, OlderSister, Husband) => Some(wifes_sisters_husband)  // :125
    case (Wife, YoungerSister, Husband) => Some(wifes_sisters_husband)  // :126
    case (Father, Father, Father) => Some(paternal_great_grandfather)  // :129
    case (Father, Father, Mother) => Some(paternal_great_grandmother)  // :130
    case (Mother, Father, Father) => Some(maternal_great_grandfather)  // :131
    case (Mother, Father, Mother) => Some(maternal_great_grandmother)  // :132
    case (Mother, Mother, Father) => Some(maternal_great_grandfather_m)  // :133
    case (Mother, Mother, Mother) => Some(maternal_great_grandmother_m)  // :134
    case (Father, Mother, Father) => Some(paternal_great_grandfather_m)  // :135
    case (Father, Mother, Mother) => Some(paternal_great_grandmother_m)  // :136
    case (Son, Son, Son) => Some(great_grandson_p)  // :139
    case (Son, Son, Daughter) => Some(great_granddaughter_p)  // :140
    case (Son, Daughter, Son) => Some(great_grandson_p)  // :141
    case (Son, Daughter, Daughter) => Some(great_granddaughter_p)  // :142
    case (Daughter, Son, Son) => Some(great_grandson_m)  // :143
    case (Daughter, Son, Daughter) => Some(great_granddaughter_m)  // :144
    case (Daughter, Daughter, Son) => Some(great_grandson_m)  // :145
    case (Daughter, Daughter, Daughter) => Some(great_granddaughter_m)  // :146
    case (Son, Wife, Father) => Some(sons_wifes_father)  // :149
    case (Son, Wife, Mother) => Some(sons_wifes_mother)  // :150
    case (Daughter, Husband, Father) => Some(daughters_husbands_father)  // :151
    case (Daughter, Husband, Mother) => Some(daughters_husbands_mother)  // :152
    case _ => None
  }


  /** Every chain of one to three steps: the finite set the keys are drawn from. */
  function ShortChains(): set<seq<Step>>
  {
    (set a: Step :: [a])
    + (set a: Step, b: Step :: [a, b])
    + (set a: Step, b: Step, c: Step :: [a, b, c])
  }

  function Entry(key: seq<Step>): Option<Role>
  {
    if |key| == 1 then Some(Entry1(key[0]))
    else if |key| == 2 then Entry2(key[0], key[1])
    else if |key| == 3 then Entry3(key[0], key[1], key[2])
    else None
  }

  /** The repository's RESOLUTION_MAP, keys without a gender suffix. */
  const ResolutionMap: map<seq<Step>, Role> :=
    map k | k in ShortChains() && Entry(k).Some? :: Entry(k).value

  /** The keys of RESOLUTION_MAP that carry a `:male` or `:female` suffix: the table has none. */
  const GenderedResolutionMap: map<(seq<Step>, Gender), Role> := map[]

  /** A chain is a key exactly when it has one to three steps and the table lists it. */
  lemma KeyIffListed(k: seq<Step>)
    ensures k in ResolutionMap <==> 1 <= |k| <= 3 && Entry(k).Some?
    ensures k in ResolutionMap ==> ResolutionMap[k] == Entry(k).value
  {
    if |k| == 1 {
      assert k == [k[0]];
    } else if |k| == 2 {
      assert k == [k[0], k[1]];
    } else if |k| == 3 {
      assert k == [k[0], k[1], k[2]];
    }
  }

  /** Every key has between one and three steps. */
  lemma KeysHaveOneToThreeSteps()
    ensures forall k | k in ResolutionMap :: 1 <= |k| <= 3
  {
  }

  /** Each single step is a key, and it maps to the role spelled like the step. */
  lemma SingleStepsResolveToSameName()
    ensures forall s: Step :: [s] in ResolutionMap && Id(ResolutionMap[[s]]) == StepName(s)
  {
    forall s: Step ensures [s] in ResolutionMap && Id(ResolutionMap[[s]]) == StepName(s) {
      KeyIffListed([s]);
      SingleStepName(s);
    }
  }

  lemma SingleStepName(s: Step)
    ensures Id(Entry1(s)) == StepName(s)
  {
  }

  /** The two grandparent entries the tests rely on. */
  lemma GrandparentEntries()
    ensures [Father, Father] in ResolutionMap && ResolutionMap[[Father, Father]] == paternal_grandfather
    ensures [Mother, Mother] in ResolutionMap && ResolutionMap[[Mother, Mother]] == maternal_grandmother
  {
    assert [Father, Father] in ShortChains();
    assert [Mother, Mother] in ShortChains();
  }

  /** Older and younger variants that the table maps to one role. */
  lemma OlderAndYoungerCollapse()
    ensures [Father, OlderSister] in ResolutionMap && [Father, YoungerSister] in ResolutionMap
    ensures ResolutionMap[[Father, OlderSister]] == ResolutionMap[[Father, YoungerSister]] == paternal_aunt
    ensures [Mother, OlderBrother] in ResolutionMap && [Mother, YoungerBrother] in ResolutionMap
    ensures ResolutionMap[[Mother, OlderBrother]] == ResolutionMap[[Mother, YoungerBrother]] == maternal_uncle
  {
    assert [Father, OlderSister] in ShortChains() && [Father, YoungerSister] in ShortChains();
    assert [Mother, OlderBrother] in ShortChains() && [Mother, YoungerBrother] in ShortChains();
  }

  /** The in-law entries reached through a spouse are plain keys, usable whatever the user's gender. */
  lemma SpouseFamilyKeysAreUngendered()
    ensures [Husband, Father] in ResolutionMap && ResolutionMap[[Husband, Father]] == husbands_father
    ensures [Wife, Father] in ResolutionMap && ResolutionMap[[Wife, Father]] == wifes_father
    ensures forall k, g | (k, g) in GenderedResolutionMap :: false
  {
    assert [Husband, Father] in ShortChains() && [Wife, Father] in ShortChains();
  }
}
