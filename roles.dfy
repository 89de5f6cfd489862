/**
 * Canonical kinship role ids. Every id that occurs as a key or a value in the
 * resolution, continuation or reverse table is a named constant here, spelled exactly
 * as the repository spells the id, and distinct ids are distinct numbers, so that the tables below can be compared with
 * src/data/resolution-map.ts, src/data/continuation-map.ts and src/data/reverse-map.ts
 * entry by entry.
 */
module Roles {

  /** A role id: one number per id, in the order of the constants below. */
  newtype Role = x: int | 0 <= x < 215

  const father: Role := 0
  const mother: Role := 1
  const husband: Role := 2
  const wife: Role := 3
  const older_brother: Role := 4
  const younger_brother: Role := 5
  const older_sister: Role := 6
  const younger_sister: Role := 7
  const son: Role := 8
  const daughter: Role := 9
  const paternal_grandfather: Role := 10
  const paternal_grandmother: Role := 11
  const fathers_older_brother: Role := 12
  const fathers_younger_brother: Role := 13
  const fathers_older_brothers_wife: Role := 14
  const fathers_younger_brothers_wife: Role := 15
  const paternal_aunt: Role := 16
  const paternal_aunts_husband: Role := 17
  const paternal_uncle_older_son: Role := 18
  const paternal_uncle_older_daughter: Role := 19
  const paternal_uncle_younger_son: Role := 20
  const paternal_uncle_younger_daughter: Role := 21
  const paternal_aunts_son: Role := 22
  const paternal_aunts_daughter: Role := 23
  const maternal_grandfather: Role := 24
  const maternal_grandmother: Role := 25
  const maternal_uncle: Role := 26
  const maternal_uncles_wife: Role := 27
  const maternal_aunt: Role := 28
  const maternal_aunts_husband: Role := 29
  const maternal_uncles_son: Role := 30
  const maternal_uncles_daughter: Role := 31
  const maternal_aunts_son: Role := 32
  const maternal_aunts_daughter: Role := 33
  const older_brothers_wife: Role := 34
  const younger_brothers_wife: Role := 35
  const older_sisters_husband: Role := 36
  const younger_sisters_husband: Role := 37
  const brothers_son: Role := 38
  const brothers_daughter: Role := 39
  const sisters_son: Role := 40
  const sisters_daughter: Role := 41
  const sons_wife: Role := 42
  const daughters_husband: Role := 43
  const sons_son: Role := 44
  const sons_daughter: Role := 45
  const daughters_son: Role := 46
  const daughters_daughter: Role := 47
  const husbands_father: Role := 48
  const husbands_mother: Role := 49
  const husbands_older_brother: Role := 50
  const husbands_younger_brother: Role := 51
  const husbands_older_sister: Role := 52
  const husbands_younger_sister: Role := 53
  const husbands_older_brothers_wife: Role := 54
  const husbands_younger_brothers_wife: Role := 55
  const husbands_sisters_husband: Role := 56
  const wifes_father: Role := 57
  const wifes_mother: Role := 58
  const wifes_brother: Role := 59
  const wifes_older_sister: Role := 60
  const wifes_younger_sister: Role := 61
  const wifes_brothers_wife: Role := 62
  const wifes_sisters_husband: Role := 63
  const paternal_great_grandfather: Role := 64
  const paternal_great_grandmother: Role := 65
  const maternal_great_grandfather: Role := 66
  const maternal_great_grandmother: Role := 67
  const maternal_great_grandfather_m: Role := 68
  const maternal_great_grandmother_m: Role := 69
  const paternal_great_grandfather_m: Role := 70
  const paternal_great_grandmother_m: Role := 71
  const great_grandson_p: Role := 72
  const great_granddaughter_p: Role := 73
  const great_grandson_m: Role := 74
  const great_granddaughter_m: Role := 75
  const sons_wifes_father: Role := 76
  const sons_wifes_mother: Role := 77
  const daughters_husbands_father: Role := 78
  const daughters_husbands_mother: Role := 79
  const fathers_older_brothers_wifes_father: Role := 80
  const fathers_older_brothers_wifes_mother: Role := 81
  const fathers_younger_brothers_wifes_father: Role := 82
  const fathers_younger_brothers_wifes_mother: Role := 83
  const paternal_aunts_husbands_father: Role := 84
  const paternal_aunts_husbands_mother: Role := 85
  const tang_older_brothers_wife: Role := 86
  const tang_nephew: Role := 87
  const tang_niece: Role := 88
  const tang_younger_brothers_wife: Role := 89
  const tang_older_sisters_husband: Role := 90
  const tang_younger_sisters_husband: Role := 91
  const biao_brothers_wife: Role := 92
  const biao_nephew: Role := 93
  const biao_niece: Role := 94
  const biao_sisters_husband: Role := 95
  const older_brothers_wifes_father: Role := 96
  const older_brothers_wifes_mother: Role := 97
  const older_brothers_wifes_brother: Role := 98
  const older_brothers_wifes_sister: Role := 99
  const younger_brothers_wifes_father: Role := 100
  const younger_brothers_wifes_mother: Role := 101
  const younger_brothers_wifes_brother: Role := 102
  const younger_brothers_wifes_sister: Role := 103
  const older_sisters_husbands_father: Role := 104
  const older_sisters_husbands_mother: Role := 105
  const older_sisters_husbands_brother: Role := 106
  const older_sisters_husbands_sister: Role := 107
  const younger_sisters_husbands_father: Role := 108
  const younger_sisters_husbands_mother: Role := 109
  const younger_sisters_husbands_brother: Role := 110
  const younger_sisters_husbands_sister: Role := 111
  const nephews_wife: Role := 112
  const grandnephew: Role := 113
  const grandniece: Role := 114
  const nieces_husband: Role := 115
  const sisters_sons_wife: Role := 116
  const sisters_grandchild_son: Role := 117
  const sisters_grandchild_daughter: Role := 118
  const sisters_daughters_husband: Role := 119
  const grandsons_wife: Role := 120
  const granddaughters_husband: Role := 121
  const grand_paternal_uncle_older: Role := 122
  const grand_paternal_uncle_younger: Role := 123
  const grand_paternal_aunt: Role := 124
  const grand_maternal_uncle_p: Role := 125
  const grand_maternal_aunt_p: Role := 126
  const grand_paternal_uncle_m: Role := 127
  const grand_paternal_aunt_m: Role := 128
  const grand_maternal_uncle_m: Role := 129
  const grand_maternal_aunt_m: Role := 130
  const grand_paternal_uncles_wife: Role := 131
  const grand_uncles_son: Role := 132
  const grand_uncles_daughter: Role := 133
  const grand_paternal_aunts_husband: Role := 134
  const grand_aunts_son: Role := 135
  const grand_aunts_daughter: Role := 136
  const grand_maternal_uncles_wife_p: Role := 137
  const grand_uncles_son_cross: Role := 138
  const grand_uncles_daughter_cross: Role := 139
  const grand_maternal_aunts_husband_p: Role := 140
  const grand_aunts_son_cross: Role := 141
  const grand_aunts_daughter_cross: Role := 142
  const grand_paternal_uncles_wife_m: Role := 143
  const grand_paternal_aunts_husband_m: Role := 144
  const grand_maternal_uncles_wife_m: Role := 145
  const grand_maternal_aunts_husband_m: Role := 146
  const grand_uncles_sons_wife: Role := 147
  const cong_tang_brother: Role := 148
  const cong_tang_sister: Role := 149
  const grand_uncles_daughters_husband: Role := 150
  const grand_aunts_sons_wife: Role := 151
  const cong_biao_brother: Role := 152
  const cong_biao_sister: Role := 153
  const grand_aunts_daughters_husband: Role := 154
  const cong_tang_brothers_wife: Role := 155
  const cong_tang_nephew: Role := 156
  const cong_tang_niece: Role := 157
  const cong_tang_sisters_husband: Role := 158
  const cong_biao_brothers_wife: Role := 159
  const cong_biao_nephew: Role := 160
  const cong_biao_niece: Role := 161
  const cong_biao_sisters_husband: Role := 162
  const husbands_nephew: Role := 163
  const husbands_niece: Role := 164
  const wifes_nephew: Role := 165
  const wifes_niece: Role := 166
  const husbands_paternal_uncle_older: Role := 167
  const husbands_paternal_uncle_younger: Role := 168
  const husbands_paternal_aunt: Role := 169
  const husbands_grandfather: Role := 170
  const husbands_grandmother: Role := 171
  const husbands_maternal_uncle: Role := 172
  const husbands_maternal_aunt: Role := 173
  const wifes_paternal_uncle_older: Role := 174
  const wifes_paternal_uncle_younger: Role := 175
  const wifes_paternal_aunt: Role := 176
  const wifes_grandfather: Role := 177
  const wifes_grandmother: Role := 178
  const wifes_maternal_uncle: Role := 179
  const wifes_maternal_aunt: Role := 180
  const husbands_paternal_uncles_wife: Role := 181
  const husbands_paternal_aunts_husband: Role := 182
  const husbands_maternal_uncles_wife: Role := 183
  const husbands_maternal_aunts_husband: Role := 184
  const wifes_paternal_uncles_wife: Role := 185
  const wifes_paternal_aunts_husband: Role := 186
  const wifes_maternal_uncles_wife: Role := 187
  const wifes_maternal_aunts_husband: Role := 188
  const sons_wifes_brother: Role := 189
  const sons_wifes_sister: Role := 190
  const daughters_husbands_brother: Role := 191
  const daughters_husbands_sister: Role := 192
  const tang_nephews_wife: Role := 193
  const tang_grandnephew: Role := 194
  const tang_grandniece: Role := 195
  const tang_nieces_husband: Role := 196
  const biao_nephews_wife: Role := 197
  const biao_grandnephew: Role := 198
  const biao_grandniece: Role := 199
  const biao_nieces_husband: Role := 200
  const grandnephews_wife: Role := 201
  const grandnieces_husband: Role := 202
  const great_grandsons_wife: Role := 203
  const xuan_grandson: Role := 204
  const xuan_granddaughter: Role := 205
  const great_granddaughters_husband: Role := 206
  const gao_grandfather_p: Role := 207
  const gao_grandmother_p: Role := 208
  const great_grand_uncle: Role := 209
  const great_grand_aunt: Role := 210
  const gao_grandfather_m: Role := 211
  const gao_grandmother_m: Role := 212
  const great_grand_uncles_wife: Role := 213
  const great_grand_aunts_husband: Role := 214

  /** The id as the repository writes it (used where a label falls back to the id). */
  function Id(r: Role): string
  {
    if r == father then "father" else
    if r == mother then "mother" else
    if r == husband then "husband" else
    if r == wife then "wife" else
    if r == older_brother then "older_brother" else
    if r == younger_brother then "younger_brother" else
    if r == older_sister then "older_sister" else
    if r == younger_sister then "younger_sister" else
    if r == son then "son" else
    if r == daughter then "daughter" else
    if r == paternal_grandfather then "paternal_grandfather" else
    if r == paternal_grandmother then "paternal_grandmother" else
    if r == fathers_older_brother then "fathers_older_brother" else
    if r == fathers_younger_brother then "fathers_younger_brother" else
    if r == fathers_older_brothers_wife then "fathers_older_brothers_wife" else
    if r == fathers_younger_brothers_wife then "fathers_younger_brothers_wife" else
    if r == paternal_aunt then "paternal_aunt" else
    if r == paternal_aunts_husband then "paternal_aunts_husband" else
    if r == paternal_uncle_older_son then "paternal_uncle_older_son" else
    if r == paternal_uncle_older_daughter then "paternal_uncle_older_daughter" else
    if r == paternal_uncle_younger_son then "paternal_uncle_younger_son" else
    if r == paternal_uncle_younger_daughter then "paternal_uncle_younger_daughter" else
    if r == paternal_aunts_son then "paternal_aunts_son" else
    if r == paternal_aunts_daughter then "paternal_aunts_daughter" else
    if r == maternal_grandfather then "maternal_grandfather" else
    if r == maternal_grandmother then "maternal_grandmother" else
    if r == maternal_uncle then "maternal_uncle" else
    if r == maternal_uncles_wife then "maternal_uncles_wife" else
    if r == maternal_aunt then "maternal_aunt" else
    if r == maternal_aunts_husband then "maternal_aunts_husband" else
    if r == maternal_uncles_son then "maternal_uncles_son" else
    if r == maternal_uncles_daughter then "maternal_uncles_daughter" else
    if r == maternal_aunts_son then "maternal_aunts_son" else
    if r == maternal_aunts_daughter then "maternal_aunts_daughter" else
    if r == older_brothers_wife then "older_brothers_wife" else
    if r == younger_brothers_wife then "younger_brothers_wife" else
    if r == older_sisters_husband then "older_sisters_husband" else
    if r == younger_sisters_husband then "younger_sisters_husband" else
    if r == brothers_son then "brothers_son" else
    if r == brothers_daughter then "brothers_daughter" else
    if r == sisters_son then "sisters_son" else
    if r == sisters_daughter then "sisters_daughter" else
    if r == sons_wife then "sons_wife" else
    if r == daughters_husband then "daughters_husband" else
    if r == sons_son then "sons_son" else
    if r == sons_daughter then "sons_daughter" else
    if r == daughters_son then "daughters_son" else
    if r == daughters_daughter then "daughters_daughter" else
    if r == husbands_father then "husbands_father" else
    if r == husbands_mother then "husbands_mother" else
    if r == husbands_older_brother then "husbands_older_brother" else
    if r == husbands_younger_brother then "husbands_younger_brother" else
    if r == husbands_older_sister then "husbands_older_sister" else
    if r == husbands_younger_sister then "husbands_younger_sister" else
    if r == husbands_older_brothers_wife then "husbands_older_brothers_wife" else
    if r == husbands_younger_brothers_wife then "husbands_younger_brothers_wife" else
    if r == husbands_sisters_husband then "husbands_sisters_husband" else
    if r == wifes_father then "wifes_father" else
    if r == wifes_mother then "wifes_mother" else
    if r == wifes_brother then "wifes_brother" else
    if r == wifes_older_sister then "wifes_older_sister" else
    if r == wifes_younger_sister then "wifes_younger_sister" else
    if r == wifes_brothers_wife then "wifes_brothers_wife" else
    if r == wifes_sisters_husband then "wifes_sisters_husband" else
    if r == paternal_great_grandfather then "paternal_great_grandfather" else
    if r == paternal_great_grandmother then "paternal_great_grandmother" else
    if r == maternal_great_grandfather then "maternal_great_grandfather" else
    if r == maternal_great_grandmother then "maternal_great_grandmother" else
    if r == maternal_great_grandfather_m then "maternal_great_grandfather_m" else
    if r == maternal_great_grandmother_m then "maternal_great_grandmother_m" else
    if r == paternal_great_grandfather_m then "paternal_great_grandfather_m" else
    if r == paternal_great_grandmother_m then "paternal_great_grandmother_m" else
    if r == great_grandson_p then "great_grandson_p" else
    if r == great_granddaughter_p then "great_granddaughter_p" else
    if r == great_grandson_m then "great_grandson_m" else
    if r == great_granddaughter_m then "great_granddaughter_m" else
    if r == sons_wifes_father then "sons_wifes_father" else
    if r == sons_wifes_mother then "sons_wifes_mother" else
    if r == daughters_husbands_father then "daughters_husbands_father" else
    if r == daughters_husbands_mother then "daughters_husbands_mother" else
    if r == fathers_older_brothers_wifes_father then "fathers_older_brothers_wifes_father" else
    if r == fathers_older_brothers_wifes_mother then "fathers_older_brothers_wifes_mother" else
    if r == fathers_younger_brothers_wifes_father then "fathers_younger_brothers_wifes_father" else
    if r == fathers_younger_brothers_wifes_mother then "fathers_younger_brothers_wifes_mother" else
    if r == paternal_aunts_husbands_father then "paternal_aunts_husbands_father" else
    if r == paternal_aunts_husbands_mother then "paternal_aunts_husbands_mother" else
    if r == tang_older_brothers_wife then "tang_older_brothers_wife" else
    if r == tang_nephew then "tang_nephew" else
    if r == tang_niece then "tang_niece" else
    if r == tang_younger_brothers_wife then "tang_younger_brothers_wife" else
    if r == tang_older_sisters_husband then "tang_older_sisters_husband" else
    if r == tang_younger_sisters_husband then "tang_younger_sisters_husband" else
    if r == biao_brothers_wife then "biao_brothers_wife" else
    if r == biao_nephew then "biao_nephew" else
    if r == biao_niece then "biao_niece" else
    if r == biao_sisters_husband then "biao_sisters_husband" else
    if r == older_brothers_wifes_father then "older_brothers_wifes_father" else
    if r == older_brothers_wifes_mother then "older_brothers_wifes_mother" else
    if r == older_brothers_wifes_brother then "older_brothers_wifes_brother" else
    if r == older_brothers_wifes_sister then "older_brothers_wifes_sister" else
    if r == younger_brothers_wifes_father then "younger_brothers_wifes_father" else
    if r == younger_brothers_wifes_mother then "younger_brothers_wifes_mother" else
    if r == younger_brothers_wifes_brother then "younger_brothers_wifes_brother" else
    if r == younger_brothers_wifes_sister then "younger_brothers_wifes_sister" else
    if r == older_sisters_husbands_father then "older_sisters_husbands_father" else
    if r == older_sisters_husbands_mother then "older_sisters_husbands_mother" else
    if r == older_sisters_husbands_brother then "older_sisters_husbands_brother" else
    if r == older_sisters_husbands_sister then "older_sisters_husbands_sister" else
    if r == younger_sisters_husbands_father then "younger_sisters_husbands_father" else
    if r == younger_sisters_husbands_mother then "younger_sisters_husbands_mother" else
    if r == younger_sisters_husbands_brother then "younger_sisters_husbands_brother" else
    if r == younger_sisters_husbands_sister then "younger_sisters_husbands_sister" else
    if r == nephews_wife then "nephews_wife" else
    if r == grandnephew then "grandnephew" else
    if r == grandniece then "grandniece" else
    if r == nieces_husband then "nieces_husband" else
    if r == sisters_sons_wife then "sisters_sons_wife" else
    if r == sisters_grandchild_son then "sisters_grandchild_son" else
    if r == sisters_grandchild_daughter then "sisters_grandchild_daughter" else
    if r == sisters_daughters_husband then "sisters_daughters_husband" else
    if r == grandsons_wife then "grandsons_wife" else
    if r == granddaughters_husband then "granddaughters_husband" else
    if r == grand_paternal_uncle_older then "grand_paternal_uncle_older" else
    if r == grand_paternal_uncle_younger then "grand_paternal_uncle_younger" else
    if r == grand_paternal_aunt then "grand_paternal_aunt" else
    if r == grand_maternal_uncle_p then "grand_maternal_uncle_p" else
    if r == grand_maternal_aunt_p then "grand_maternal_aunt_p" else
    if r == grand_paternal_uncle_m then "grand_paternal_uncle_m" else
    if r == grand_paternal_aunt_m then "grand_paternal_aunt_m" else
    if r == grand_maternal_uncle_m then "grand_maternal_uncle_m" else
    if r == grand_maternal_aunt_m then "grand_maternal_aunt_m" else
    if r == grand_paternal_uncles_wife then "grand_paternal_uncles_wife" else
    if r == grand_uncles_son then "grand_uncles_son" else
    if r == grand_uncles_daughter then "grand_uncles_daughter" else
    if r == grand_paternal_aunts_husband then "grand_paternal_aunts_husband" else
    if r == grand_aunts_son then "grand_aunts_son" else
    if r == grand_aunts_daughter then "grand_aunts_daughter" else
    if r == grand_maternal_uncles_wife_p then "grand_maternal_uncles_wife_p" else
    if r == grand_uncles_son_cross then "grand_uncles_son_cross" else
    if r == grand_uncles_daughter_cross then "grand_uncles_daughter_cross" else
    if r == grand_maternal_aunts_husband_p then "grand_maternal_aunts_husband_p" else
    if r == grand_aunts_son_cross then "grand_aunts_son_cross" else
    if r == grand_aunts_daughter_cross then "grand_aunts_daughter_cross" else
    if r == grand_paternal_uncles_wife_m then "grand_paternal_uncles_wife_m" else
    if r == grand_paternal_aunts_husband_m then "grand_paternal_aunts_husband_m" else
    if r == grand_maternal_uncles_wife_m then "grand_maternal_uncles_wife_m" else
    if r == grand_maternal_aunts_husband_m then "grand_maternal_aunts_husband_m" else
    if r == grand_uncles_sons_wife then "grand_uncles_sons_wife" else
    if r == cong_tang_brother then "cong_tang_brother" else
    if r == cong_tang_sister then "cong_tang_sister" else
    if r == grand_uncles_daughters_husband then "grand_uncles_daughters_husband" else
    if r == grand_aunts_sons_wife then "grand_aunts_sons_wife" else
    if r == cong_biao_brother then "cong_biao_brother" else
    if r == cong_biao_sister then "cong_biao_sister" else
    if r == grand_aunts_daughters_husband then "grand_aunts_daughters_husband" else
    if r == cong_tang_brothers_wife then "cong_tang_brothers_wife" else
    if r == cong_tang_nephew then "cong_tang_nephew" else
    if r == cong_tang_niece then "cong_tang_niece" else
    if r == cong_tang_sisters_husband then "cong_tang_sisters_husband" else
    if r == cong_biao_brothers_wife then "cong_biao_brothers_wife" else
    if r == cong_biao_nephew then "cong_biao_nephew" else
    if r == cong_biao_niece then "cong_biao_niece" else
    if r == cong_biao_sisters_husband then "cong_biao_sisters_husband" else
    if r == husbands_nephew then "husbands_nephew" else
    if r == husbands_niece then "husbands_niece" else
    if r == wifes_nephew then "wifes_nephew" else
    if r == wifes_niece then "wifes_niece" else
    if r == husbands_paternal_uncle_older then "husbands_paternal_uncle_older" else
    if r == husbands_paternal_uncle_younger then "husbands_paternal_uncle_younger" else
    if r == husbands_paternal_aunt then "husbands_paternal_aunt" else
    if r == husbands_grandfather then "husbands_grandfather" else
    if r == husbands_grandmother then "husbands_grandmother" else
    if r == husbands_maternal_uncle then "husbands_maternal_uncle" else
    if r == husbands_maternal_aunt then "husbands_maternal_aunt" else
    if r == wifes_paternal_uncle_older then "wifes_paternal_uncle_older" else
    if r == wifes_paternal_uncle_younger then "wifes_paternal_uncle_younger" else
    if r == wifes_paternal_aunt then "wifes_paternal_aunt" else
    if r == wifes_grandfather then "wifes_grandfather" else
    if r == wifes_grandmother then "wifes_grandmother" else
    if r == wifes_maternal_uncle then "wifes_maternal_uncle" else
    if r == wifes_maternal_aunt then "wifes_maternal_aunt" else
    if r == husbands_paternal_uncles_wife then "husbands_paternal_uncles_wife" else
    if r == husbands_paternal_aunts_husband then "husbands_paternal_aunts_husband" else
    if r == husbands_maternal_uncles_wife then "husbands_maternal_uncles_wife" else
    if r == husbands_maternal_aunts_husband then "husbands_maternal_aunts_husband" else
    if r == wifes_paternal_uncles_wife then "wifes_paternal_uncles_wife" else
    if r == wifes_paternal_aunts_husband then "wifes_paternal_aunts_husband" else
    if r == wifes_maternal_uncles_wife then "wifes_maternal_uncles_wife" else
    if r == wifes_maternal_aunts_husband then "wifes_maternal_aunts_husband" else
    if r == sons_wifes_brother then "sons_wifes_brother" else
    if r == sons_wifes_sister then "sons_wifes_sister" else
    if r == daughters_husbands_brother then "daughters_husbands_brother" else
    if r == daughters_husbands_sister then "daughters_husbands_sister" else
    if r == tang_nephews_wife then "tang_nephews_wife" else
    if r == tang_grandnephew then "tang_grandnephew" else
    if r == tang_grandniece then "tang_grandniece" else
    if r == tang_nieces_husband then "tang_nieces_husband" else
    if r == biao_nephews_wife then "biao_nephews_wife" else
    if r == biao_grandnephew then "biao_grandnephew" else
    if r == biao_grandniece then "biao_grandniece" else
    if r == biao_nieces_husband then "biao_nieces_husband" else
    if r == grandnephews_wife then "grandnephews_wife" else
    if r == grandnieces_husband then "grandnieces_husband" else
    if r == great_grandsons_wife then "great_grandsons_wife" else
    if r == xuan_grandson then "xuan_grandson" else
    if r == xuan_granddaughter then "xuan_granddaughter" else
    if r == great_granddaughters_husband then "great_granddaughters_husband" else
    if r == gao_grandfather_p then "gao_grandfather_p" else
    if r == gao_grandmother_p then "gao_grandmother_p" else
    if r == great_grand_uncle then "great_grand_uncle" else
    if r == great_grand_aunt then "great_grand_aunt" else
    if r == gao_grandfather_m then "gao_grandfather_m" else
    if r == gao_grandmother_m then "gao_grandmother_m" else
    if r == great_grand_uncles_wife then "great_grand_uncles_wife" else
    "great_grand_aunts_husband"
  }
}
