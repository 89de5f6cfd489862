/**
 * The reverse table of src/data/reverse-map.ts (what the relative calls the user) and
 * its lookup, getReverseTermId.
 */
module ReverseMap {
  import opened Wrappers
  import opened Steps
  import opened Roles

  /** An entry is either one role for both genders or a {male, female} pair (reverse-map.ts:14). */
  datatype ReverseEntry = Same(role: Role) | ByGender(male: Role, female: Role)

  function ReverseEntryOf(r: Role): Option<ReverseEntry>
  {
    if r == father then Some(ByGender(son, daughter))  // :18
    else if r == mother then Some(ByGender(son, daughter))  // :19
    else if r == husband then Some(Same(wife))  // :20
    else if r == wife then Some(Same(husband))  // :21
    else if r == older_brother then Some(ByGender(younger_brother, younger_sister))  // :22
    else if r == younger_brother then Some(ByGender(older_brother, older_sister))  // :23
    else if r == older_sister then Some(ByGender(younger_brother, younger_sister))  // :24
    else if r == younger_sister then Some(ByGender(older_brother, older_sister))  // :25
    else if r == son then Some(Same(father))  // :26
    else if r == daughter then Some(Same(father))  // :27
    else if r == paternal_grandfather then Some(ByGender(sons_son, sons_daughter))  // :30
    else if r == paternal_grandmother then Some(ByGender(sons_son, sons_daughter))  // :31
    else if r == fathers_older_brother then Some(ByGender(brothers_son, brothers_daughter))  // :34
    else if r == fathers_younger_brother then Some(ByGender(brothers_son, brothers_daughter))  // :35
    else if r == fathers_older_brothers_wife then Some(ByGender(brothers_son, brothers_daughter))  // :36
    else if r == fathers_younger_brothers_wife then Some(ByGender(brothers_son, brothers_daughter))  // :37
    else if r == paternal_aunt then Some(ByGender(brothers_son, brothers_daughter))  // :38
    else if r == paternal_aunts_husband then Some(ByGender(brothers_son, brothers_daughter))  // :39
    else if r == paternal_uncle_older_son then Some(ByGender(paternal_uncle_older_son, paternal_uncle_older_daughter))  // :42
    else if r == paternal_uncle_older_daughter then Some(ByGender(paternal_uncle_older_son, paternal_uncle_older_daughter))  // :43
    else if r == paternal_uncle_younger_son then Some(ByGender(paternal_uncle_younger_son, paternal_uncle_younger_daughter))  // :44
    else if r == paternal_uncle_younger_daughter then Some(ByGender(paternal_uncle_younger_son, paternal_uncle_younger_daughter))  // :45
    else if r == paternal_aunts_son then Some(ByGender(paternal_aunts_son, paternal_aunts_daughter))  // :46
    else if r == paternal_aunts_daughter then Some(ByGender(paternal_aunts_son, paternal_aunts_daughter))  // :47
    else if r == maternal_grandfather then Some(ByGender(daughters_son, daughters_daughter))  // :50
    else if r == maternal_grandmother then Some(ByGender(daughters_son, daughters_daughter))  // :51
    else if r == maternal_uncle then Some(ByGender(sisters_son, sisters_daughter))  // :54
    else if r == maternal_uncles_wife then Some(ByGender(sisters_son, sisters_daughter))  // :55
    else if r == maternal_aunt then Some(ByGender(sisters_son, sisters_daughter))  // :56
    else if r == maternal_aunts_husband then Some(ByGender(sisters_son, sisters_daughter))  // :57
    else if r == maternal_uncles_son then Some(ByGender(maternal_uncles_son, maternal_uncles_daughter))  // :60
    else if r == maternal_uncles_daughter then Some(ByGender(maternal_uncles_son, maternal_uncles_daughter))  // :61
    else if r == maternal_aunts_son then Some(ByGender(maternal_aunts_son, maternal_aunts_daughter))  // :62
    else if r == maternal_aunts_daughter then Some(ByGender(maternal_aunts_son, maternal_aunts_daughter))  // :63
    else if r == older_brothers_wife then Some(ByGender(husbands_younger_brother, husbands_younger_sister))  // :66
    else if r == younger_brothers_wife then Some(ByGender(husbands_older_brother, husbands_older_sister))  // :67
    else if r == older_sisters_husband then Some(ByGender(wifes_brother, wifes_younger_sister))  // :68
    else if r == younger_sisters_husband then Some(ByGender(wifes_brother, wifes_older_sister))  // :69
    else if r == brothers_son then Some(ByGender(fathers_older_brother, paternal_aunt))  // :72
    else if r == brothers_daughter then Some(ByGender(fathers_older_brother, paternal_aunt))  // :73
    else if r == sisters_son then Some(ByGender(maternal_uncle, maternal_aunt))  // :74
    else if r == sisters_daughter then Some(ByGender(maternal_uncle, maternal_aunt))  // :75
    else if r == sons_wife then Some(ByGender(husbands_father, husbands_mother))  // :78
    else if r == daughters_husband then Some(ByGender(wifes_father, wifes_mother))  // :79
    else if r == sons_son then Some(Same(paternal_grandfather))  // :82
    else if r == sons_daughter then Some(Same(paternal_grandfather))  // :83
    else if r == daughters_son then Some(Same(maternal_grandfather))  // :84
    else if r == daughters_daughter then Some(Same(maternal_grandfather))  // :85
    else if r == husbands_father then Some(Same(sons_wife))  // :88
    else if r == husbands_mother then Some(Same(sons_wife))  // :89
    else if r == husbands_older_brother then Some(ByGender(younger_brothers_wife, younger_brothers_wife))  // :90
    else if r == husbands_younger_brother then Some(ByGender(older_brothers_wife, older_brothers_wife))  // :91
    else if r == husbands_older_sister then Some(Same(younger_brothers_wife))  // :92
    else if r == husbands_younger_sister then Some(Same(younger_brothers_wife))  // :93
    else if r == husbands_older_brothers_wife then Some(Same(husbands_younger_brothers_wife))  // :94
    else if r == husbands_younger_brothers_wife then Some(Same(husbands_older_brothers_wife))  // :95
    else if r == husbands_sisters_husband then Some(Same(husbands_older_brothers_wife))  // :96
    else if r == wifes_father then Some(Same(daughters_husband))  // :99
    else if r == wifes_mother then Some(Same(daughters_husband))  // :100
    else if r == wifes_brother then Some(Same(wifes_sisters_husband))  // :101
    else if r == wifes_older_sister then Some(Same(wifes_sisters_husband))  // :102
    else if r == wifes_younger_sister then Some(Same(wifes_sisters_husband))  // :103
    else if r == wifes_brothers_wife then Some(Same(wifes_sisters_husband))  // :104
    else if r == wifes_sisters_husband then Some(Same(wifes_brother))  // :105
    else if r == paternal_great_grandfather then Some(ByGender(great_grandson_p, great_granddaughter_p))  // :108
    else if r == paternal_great_grandmother then Some(ByGender(great_grandson_p, great_granddaughter_p))  // :109
    else if r == maternal_great_grandfather then Some(ByGender(great_grandson_m, great_granddaughter_m))  // :110
    else if r == maternal_great_grandmother then Some(ByGender(great_grandson_m, great_granddaughter_m))  // :111
    else if r == paternal_great_grandfather_m then Some(ByGender(great_grandson_p, great_granddaughter_p))  // :112
    else if r == paternal_great_grandmother_m then Some(ByGender(great_grandson_p, great_granddaughter_p))  // :113
    else if r == great_grandson_p then Some(Same(paternal_great_grandfather))  // :116
    else if r == great_granddaughter_p then Some(Same(paternal_great_grandfather))  // :117
    else if r == great_grandson_m then Some(Same(maternal_great_grandfather))  // :118
    else if r == great_granddaughter_m then Some(Same(maternal_great_grandfather))  // :119
    else if r == sons_wifes_father then Some(Same(sons_wifes_father))  // :122
    else if r == sons_wifes_mother then Some(Same(sons_wifes_mother))  // :123
    else if r == daughters_husbands_father then Some(Same(daughters_husbands_father))  // :124
    else if r == daughters_husbands_mother then Some(Same(daughters_husbands_mother))  // :125
    else if r == tang_older_brothers_wife then Some(ByGender(paternal_uncle_older_son, paternal_uncle_older_daughter))  // :128
    else if r == tang_younger_brothers_wife then Some(ByGender(paternal_uncle_younger_son, paternal_uncle_younger_daughter))  // :129
    else if r == tang_older_sisters_husband then Some(ByGender(paternal_uncle_older_son, paternal_uncle_older_daughter))  // :130
    else if r == tang_younger_sisters_husband then Some(ByGender(paternal_uncle_younger_son, paternal_uncle_younger_daughter))  // :131
    else if r == tang_nephew then Some(ByGender(paternal_uncle_older_son, paternal_uncle_older_daughter))  // :134
    else if r == tang_niece then Some(ByGender(paternal_uncle_older_son, paternal_uncle_older_daughter))  // :135
    else if r == tang_nephews_wife then Some(ByGender(paternal_uncle_older_son, paternal_uncle_older_daughter))  // :136
    else if r == tang_nieces_husband then Some(ByGender(paternal_uncle_older_son, paternal_uncle_older_daughter))  // :137
    else if r == biao_brothers_wife then Some(ByGender(paternal_aunts_son, paternal_aunts_daughter))  // :140
    else if r == biao_sisters_husband then Some(ByGender(paternal_aunts_son, paternal_aunts_daughter))  // :141
    else if r == biao_nephew then Some(ByGender(paternal_aunts_son, paternal_aunts_daughter))  // :144
    else if r == biao_niece then Some(ByGender(paternal_aunts_son, paternal_aunts_daughter))  // :145
    else if r == biao_nephews_wife then Some(ByGender(paternal_aunts_son, paternal_aunts_daughter))  // :146
    else if r == biao_nieces_husband then Some(ByGender(paternal_aunts_son, paternal_aunts_daughter))  // :147
    else if r == nephews_wife then Some(ByGender(fathers_older_brother, paternal_aunt))  // :150
    else if r == nieces_husband then Some(ByGender(fathers_older_brother, paternal_aunt))  // :151
    else if r == sisters_sons_wife then Some(ByGender(maternal_uncle, maternal_aunt))  // :152
    else if r == sisters_daughters_husband then Some(ByGender(maternal_uncle, maternal_aunt))  // :153
    else if r == grandnephew then Some(ByGender(paternal_grandfather, paternal_grandmother))  // :156
    else if r == grandniece then Some(ByGender(paternal_grandfather, paternal_grandmother))  // :157
    else if r == sisters_grandchild_son then Some(ByGender(maternal_grandfather, maternal_grandmother))  // :158
    else if r == sisters_grandchild_daughter then Some(ByGender(maternal_grandfather, maternal_grandmother))  // :159
    else if r == grandnephews_wife then Some(ByGender(paternal_grandfather, paternal_grandmother))  // :160
    else if r == grandsons_wife then Some(Same(paternal_grandfather))  // :163
    else if r == granddaughters_husband then Some(Same(paternal_grandfather))  // :164
    else if r == grand_paternal_uncle_older then Some(ByGender(sons_son, sons_daughter))  // :167
    else if r == grand_paternal_uncle_younger then Some(ByGender(sons_son, sons_daughter))  // :168
    else if r == grand_paternal_aunt then Some(ByGender(sons_son, sons_daughter))  // :169
    else if r == grand_paternal_uncles_wife then Some(ByGender(sons_son, sons_daughter))  // :170
    else if r == grand_paternal_aunts_husband then Some(ByGender(sons_son, sons_daughter))  // :171
    else if r == grand_maternal_uncle_p then Some(ByGender(daughters_son, daughters_daughter))  // :172
    else if r == grand_maternal_aunt_p then Some(ByGender(daughters_son, daughters_daughter))  // :173
    else if r == grand_paternal_uncle_m then Some(ByGender(sons_son, sons_daughter))  // :174
    else if r == grand_paternal_aunt_m then Some(ByGender(sons_son, sons_daughter))  // :175
    else if r == grand_maternal_uncle_m then Some(ByGender(daughters_son, daughters_daughter))  // :176
    else if r == grand_maternal_aunt_m then Some(ByGender(daughters_son, daughters_daughter))  // :177
    else if r == husbands_nephew then Some(Same(husbands_older_brothers_wife))  // :180
    else if r == husbands_niece then Some(Same(husbands_older_brothers_wife))  // :181
    else if r == husbands_grandfather then Some(Same(grandsons_wife))  // :182
    else if r == husbands_grandmother then Some(Same(grandsons_wife))  // :183
    else if r == husbands_paternal_uncle_older then Some(Same(sons_wife))  // :184
    else if r == husbands_paternal_uncle_younger then Some(Same(sons_wife))  // :185
    else if r == husbands_paternal_aunt then Some(Same(sons_wife))  // :186
    else if r == husbands_maternal_uncle then Some(Same(sons_wife))  // :187
    else if r == husbands_maternal_aunt then Some(Same(sons_wife))  // :188
    else if r == wifes_nephew then Some(Same(wifes_sisters_husband))  // :191
    else if r == wifes_niece then Some(Same(wifes_sisters_husband))  // :192
    else if r == wifes_grandfather then Some(Same(granddaughters_husband))  // :193
    else if r == wifes_grandmother then Some(Same(granddaughters_husband))  // :194
    else if r == wifes_paternal_uncle_older then Some(Same(daughters_husband))  // :195
    else if r == wifes_paternal_uncle_younger then Some(Same(daughters_husband))  // :196
    else if r == wifes_paternal_aunt then Some(Same(daughters_husband))  // :197
    else if r == wifes_maternal_uncle then Some(Same(daughters_husband))  // :198
    else if r == wifes_maternal_aunt then Some(Same(daughters_husband))  // :199
    else if r == grand_uncles_son then Some(ByGender(brothers_son, brothers_daughter))  // :202
    else if r == grand_uncles_daughter then Some(ByGender(brothers_son, brothers_daughter))  // :203
    else if r == grand_aunts_son then Some(ByGender(sisters_son, sisters_daughter))  // :204
    else if r == grand_aunts_daughter then Some(ByGender(sisters_son, sisters_daughter))  // :205
    else if r == grand_uncles_son_cross then Some(ByGender(sisters_son, sisters_daughter))  // :206
    else if r == grand_uncles_daughter_cross then Some(ByGender(sisters_son, sisters_daughter))  // :207
    else if r == grand_aunts_son_cross then Some(ByGender(sisters_son, sisters_daughter))  // :208
    else if r == grand_aunts_daughter_cross then Some(ByGender(sisters_son, sisters_daughter))  // :209
    else if r == grand_uncles_sons_wife then Some(ByGender(brothers_son, brothers_daughter))  // :210
    else if r == grand_uncles_daughters_husband then Some(ByGender(brothers_son, brothers_daughter))  // :211
    else if r == grand_aunts_sons_wife then Some(ByGender(sisters_son, sisters_daughter))  // :212
    else if r == grand_aunts_daughters_husband then Some(ByGender(sisters_son, sisters_daughter))  // :213
    else if r == cong_tang_brother then Some(ByGender(cong_tang_brother, cong_tang_sister))  // :216
    else if r == cong_tang_sister then Some(ByGender(cong_tang_brother, cong_tang_sister))  // :217
    else if r == cong_tang_brothers_wife then Some(ByGender(cong_tang_brother, cong_tang_sister))  // :218
    else if r == cong_tang_sisters_husband then Some(ByGender(cong_tang_brother, cong_tang_sister))  // :219
    else if r == cong_tang_nephew then Some(ByGender(grand_uncles_son, grand_uncles_daughter))  // :220
    else if r == cong_tang_niece then Some(ByGender(grand_uncles_son, grand_uncles_daughter))  // :221
    else if r == cong_biao_brother then Some(ByGender(cong_biao_brother, cong_biao_sister))  // :222
    else if r == cong_biao_sister then Some(ByGender(cong_biao_brother, cong_biao_sister))  // :223
    else if r == cong_biao_brothers_wife then Some(ByGender(cong_biao_brother, cong_biao_sister))  // :224
    else if r == cong_biao_sisters_husband then Some(ByGender(cong_biao_brother, cong_biao_sister))  // :225
    else if r == cong_biao_nephew then Some(ByGender(grand_aunts_son, grand_aunts_daughter))  // :226
    else if r == cong_biao_niece then Some(ByGender(grand_aunts_son, grand_aunts_daughter))  // :227
    else if r == tang_grandnephew then Some(ByGender(paternal_grandfather, paternal_grandmother))  // :230
    else if r == tang_grandniece then Some(ByGender(paternal_grandfather, paternal_grandmother))  // :231
    else if r == biao_grandnephew then Some(ByGender(maternal_grandfather, maternal_grandmother))  // :232
    else if r == biao_grandniece then Some(ByGender(maternal_grandfather, maternal_grandmother))  // :233
    else if r == grandnieces_husband then Some(ByGender(paternal_grandfather, paternal_grandmother))  // :234
    else if r == great_grandsons_wife then Some(Same(paternal_great_grandfather))  // :237
    else if r == great_granddaughters_husband then Some(Same(paternal_great_grandfather))  // :238
    else if r == gao_grandfather_p then Some(ByGender(xuan_grandson, xuan_granddaughter))  // :241
    else if r == gao_grandmother_p then Some(ByGender(xuan_grandson, xuan_granddaughter))  // :242
    else if r == gao_grandfather_m then Some(ByGender(xuan_grandson, xuan_granddaughter))  // :243
    else if r == gao_grandmother_m then Some(ByGender(xuan_grandson, xuan_granddaughter))  // :244
    else if r == xuan_grandson then Some(Same(gao_grandfather_p))  // :247
    else if r == xuan_granddaughter then Some(Same(gao_grandfather_p))  // :248
    else if r == great_grand_uncle then Some(ByGender(great_grandson_p, great_granddaughter_p))  // :251
    else if r == great_grand_uncles_wife then Some(ByGender(great_grandson_p, great_granddaughter_p))  // :252
    else if r == great_grand_aunt then Some(ByGender(great_grandson_p, great_granddaughter_p))  // :253
    else if r == great_grand_aunts_husband then Some(ByGender(great_grandson_p, great_granddaughter_p))  // :254
    else if r == husbands_paternal_uncles_wife then Some(Same(sons_wife))  // :257
    else if r == husbands_paternal_aunts_husband then Some(Same(sons_wife))  // :258
    else if r == husbands_maternal_uncles_wife then Some(Same(sons_wife))  // :259
    else if r == husbands_maternal_aunts_husband then Some(Same(sons_wife))  // :260
    else if r == wifes_paternal_uncles_wife then Some(Same(daughters_husband))  // :261
    else if r == wifes_paternal_aunts_husband then Some(Same(daughters_husband))  // :262
    else if r == wifes_maternal_uncles_wife then Some(Same(daughters_husband))  // :263
    else if r == wifes_maternal_aunts_husband then Some(Same(daughters_husband))  // :264
    else if r == grand_maternal_uncles_wife_p then Some(ByGender(daughters_son, daughters_daughter))  // :267
    else if r == grand_maternal_aunts_husband_p then Some(ByGender(daughters_son, daughters_daughter))  // :268
    else if r == grand_paternal_uncles_wife_m then Some(ByGender(sons_son, sons_daughter))  // :269
    else if r == grand_paternal_aunts_husband_m then Some(ByGender(sons_son, sons_daughter))  // :270
    else if r == grand_maternal_uncles_wife_m then Some(ByGender(daughters_son, daughters_daughter))  // :271
    else if r == grand_maternal_aunts_husband_m then Some(ByGender(daughters_son, daughters_daughter))  // :272
    else None
  }

  /** The repository's REVERSE_MAP_RAW. */
  const ReverseMapRaw: map<Role, ReverseEntry> :=
    map r: Role | ReverseEntryOf(r).Some? :: ReverseEntryOf(r).value

  /**
   * What the relative with role id calls the user: nothing when id has no entry, the one
   * role of a shorthand entry, otherwise the role for the user's gender.
   */
  function GetReverseTermId(table: map<Role, ReverseEntry>, id: Role, userGender: Gender): (r: Option<Role>)
    ensures r.None? <==> id !in table
    ensures id in table && table[id].Same? ==> r == Some(table[id].role)
    ensures id in table && table[id].ByGender? && userGender == Male ==> r == Some(table[id].male)
    ensures id in table && table[id].ByGender? && userGender == Female ==> r == Some(table[id].female)
  {
    if id !in table then None
    else match table[id]
      case Same(role) => Some(role)
      case ByGender(male, female) => Some(if userGender == Male then male else female)
  }

  /** The user's gender matters exactly for pair entries whose two roles differ. */
  lemma ReverseDependsOnGenderIff(table: map<Role, ReverseEntry>, id: Role)
    ensures GetReverseTermId(table, id, Male) != GetReverseTermId(table, id, Female)
      <==> id in table && table[id].ByGender? && table[id].male != table[id].female
  {
  }

  /** The repository's own example: a father calls the user son or daughter. */
  lemma ParentsCallTheUserChild()
    ensures GetReverseTermId(ReverseMapRaw, father, Male) == Some(son)
    ensures GetReverseTermId(ReverseMapRaw, father, Female) == Some(daughter)
    ensures GetReverseTermId(ReverseMapRaw, mother, Male) == Some(son)
    ensures GetReverseTermId(ReverseMapRaw, mother, Female) == Some(daughter)
  {
  }

  /** Husband and wife are each other's reverse, whatever the user's gender. */
  lemma SpousesAreMutualReverses(g: Gender)
    ensures GetReverseTermId(ReverseMapRaw, husband, g) == Some(wife)
    ensures GetReverseTermId(ReverseMapRaw, wife, g) == Some(husband)
  {
  }

  /** For a male user, older and younger brother are each other's reverse. */
  lemma BrothersAreMutualReverses()
    ensures GetReverseTermId(ReverseMapRaw, older_brother, Male) == Some(younger_brother)
    ensures GetReverseTermId(ReverseMapRaw, younger_brother, Male) == Some(older_brother)
  {
  }

  /** The son's wife's parents call the user by the role the user calls them. */
  lemma SonsCoParentsInLawAreSymmetric(g: Gender)
    ensures GetReverseTermId(ReverseMapRaw, sons_wifes_father, g) == Some(sons_wifes_father)
    ensures GetReverseTermId(ReverseMapRaw, sons_wifes_mother, g) == Some(sons_wifes_mother)
  {
  }

  /** The daughter's husband's parents call the user by the role the user calls them. */
  lemma DaughtersCoParentsInLawAreSymmetric(g: Gender)
    ensures GetReverseTermId(ReverseMapRaw, daughters_husbands_father, g) == Some(daughters_husbands_father)
    ensures GetReverseTermId(ReverseMapRaw, daughters_husbands_mother, g) == Some(daughters_husbands_mother)
  {
  }

  /** Roles with no reverse entry give no reverse. */
  lemma MissingReverseEntry(g: Gender)
    ensures GetReverseTermId(ReverseMapRaw, sons_wifes_brother, g).None?
  {
  }
}
