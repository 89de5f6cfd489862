/**
 * The continuation table of src/data/continuation-map.ts: for a resolved role and one
 * further step, the role that step leads to. One case per role entry of the repository's
 * object (its source lines in a trailing comment); roles with no entry have none here.
 */
module ContinuationMap {
  import opened Wrappers
  import opened Steps
  import opened Roles

  function ContinuationEntry(r: Role): Option<map<Step, Role>>
  {
    if r == father then  // :21-30
      Some(map[
        Father := paternal_grandfather,
        Mother := paternal_grandmother,
        OlderBrother := fathers_older_brother,
        YoungerBrother := fathers_younger_brother,
        OlderSister := paternal_aunt,
        YoungerSister := paternal_aunt,
        Wife := mother,
        Husband := mother
      ])
    else if r == mother then  // :31-40
      Some(map[
        Father := maternal_grandfather,
        Mother := maternal_grandmother,
        OlderBrother := maternal_uncle,
        YoungerBrother := maternal_uncle,
        OlderSister := maternal_aunt,
        YoungerSister := maternal_aunt,
        Husband := father,
        Wife := father
      ])
    else if r == fathers_older_brother then  // :45-52
      Some(map[
        Wife := fathers_older_brothers_wife,
        Husband := fathers_older_brothers_wife,
        Son := paternal_uncle_older_son,
        Daughter := paternal_uncle_older_daughter,
        Father := paternal_grandfather,
        Mother := paternal_grandmother
      ])
    else if r == fathers_younger_brother then  // :53-60
      Some(map[
        Wife := fathers_younger_brothers_wife,
        Husband := fathers_younger_brothers_wife,
        Son := paternal_uncle_younger_son,
        Daughter := paternal_uncle_younger_daughter,
        Father := paternal_grandfather,
        Mother := paternal_grandmother
      ])
    else if r == paternal_aunt then  // :61-68
      Some(map[
        Husband := paternal_aunts_husband,
        Wife := paternal_aunts_husband,
        Son := paternal_aunts_son,
        Daughter := paternal_aunts_daughter,
        Father := paternal_grandfather,
        Mother := paternal_grandmother
      ])
    else if r == fathers_older_brothers_wife then  // :70-73
      Some(map[
        Father := fathers_older_brothers_wifes_father,
        Mother := fathers_older_brothers_wifes_mother
      ])
    else if r == fathers_younger_brothers_wife then  // :74-77
      Some(map[
        Father := fathers_younger_brothers_wifes_father,
        Mother := fathers_younger_brothers_wifes_mother
      ])
    else if r == paternal_aunts_husband then  // :78-81
      Some(map[
        Father := paternal_aunts_husbands_father,
        Mother := paternal_aunts_husbands_mother
      ])
    else if r == maternal_uncle then  // :86-93
      Some(map[
        Wife := maternal_uncles_wife,
        Husband := maternal_uncles_wife,
        Son := maternal_uncles_son,
        Daughter := maternal_uncles_daughter,
        Father := maternal_grandfather,
        Mother := maternal_grandmother
      ])
    else if r == maternal_aunt then  // :94-101
      Some(map[
        Husband := maternal_aunts_husband,
        Wife := maternal_aunts_husband,
        Son := maternal_aunts_son,
        Daughter := maternal_aunts_daughter,
        Father := maternal_grandfather,
        Mother := maternal_grandmother
      ])
    else if r == paternal_uncle_older_son then  // :106-117
      Some(map[
        Wife := tang_older_brothers_wife,
        Husband := tang_older_brothers_wife,
        Son := tang_nephew,
        Daughter := tang_niece,
        Father := fathers_older_brother,
        Mother := fathers_older_brothers_wife,
        OlderBrother := paternal_uncle_older_son,
        YoungerBrother := paternal_uncle_older_son,
        OlderSister := paternal_uncle_older_daughter,
        YoungerSister := paternal_uncle_older_daughter
      ])
    else if r == paternal_uncle_younger_son then  // :118-129
      Some(map[
        Wife := tang_younger_brothers_wife,
        Husband := tang_younger_brothers_wife,
        Son := tang_nephew,
        Daughter := tang_niece,
        Father := fathers_younger_brother,
        Mother := fathers_younger_brothers_wife,
        OlderBrother := paternal_uncle_younger_son,
        YoungerBrother := paternal_uncle_younger_son,
        OlderSister := paternal_uncle_younger_daughter,
        YoungerSister := paternal_uncle_younger_daughter
      ])
    else if r == paternal_uncle_older_daughter then  // :130-141
      Some(map[
        Husband := tang_older_sisters_husband,
        Wife := tang_older_sisters_husband,
        Son := tang_nephew,
        Daughter := tang_niece,
        Father := fathers_older_brother,
        Mother := fathers_older_brothers_wife,
        OlderBrother := paternal_uncle_older_son,
        YoungerBrother := paternal_uncle_older_son,
        OlderSister := paternal_uncle_older_daughter,
        YoungerSister := paternal_uncle_older_daughter
      ])
    else if r == paternal_uncle_younger_daughter then  // :142-153
      Some(map[
        Husband := tang_younger_sisters_husband,
        Wife := tang_younger_sisters_husband,
        Son := tang_nephew,
        Daughter := tang_niece,
        Father := fathers_younger_brother,
        Mother := fathers_younger_brothers_wife,
        OlderBrother := paternal_uncle_younger_son,
        YoungerBrother := paternal_uncle_younger_son,
        OlderSister := paternal_uncle_younger_daughter,
        YoungerSister := paternal_uncle_younger_daughter
      ])
    else if r == paternal_aunts_son then  // :158-169
      Some(map[
        Wife := biao_brothers_wife,
        Husband := biao_brothers_wife,
        Son := biao_nephew,
        Daughter := biao_niece,
        Father := paternal_aunts_husband,
        Mother := paternal_aunt,
        OlderBrother := paternal_aunts_son,
        YoungerBrother := paternal_aunts_son,
        OlderSister := paternal_aunts_daughter,
        YoungerSister := paternal_aunts_daughter
      ])
    else if r == paternal_aunts_daughter then  // :170-181
      Some(map[
        Husband := biao_sisters_husband,
        Wife := biao_sisters_husband,
        Son := biao_nephew,
        Daughter := biao_niece,
        Father := paternal_aunts_husband,
        Mother := paternal_aunt,
        OlderBrother := paternal_aunts_son,
        YoungerBrother := paternal_aunts_son,
        OlderSister := paternal_aunts_daughter,
        YoungerSister := paternal_aunts_daughter
      ])
    else if r == maternal_uncles_son then  // :186-197
      Some(map[
        Wife := biao_brothers_wife,
        Husband := biao_brothers_wife,
        Son := biao_nephew,
        Daughter := biao_niece,
        Father := maternal_uncle,
        Mother := maternal_uncles_wife,
        OlderBrother := maternal_uncles_son,
        YoungerBrother := maternal_uncles_son,
        OlderSister := maternal_uncles_daughter,
        YoungerSister := maternal_uncles_daughter
      ])
    else if r == maternal_uncles_daughter then  // :198-209
      Some(map[
        Husband := biao_sisters_husband,
        Wife := biao_sisters_husband,
        Son := biao_nephew,
        Daughter := biao_niece,
        Father := maternal_uncle,
        Mother := maternal_uncles_wife,
        OlderBrother := maternal_uncles_son,
        YoungerBrother := maternal_uncles_son,
        OlderSister := maternal_uncles_daughter,
        YoungerSister := maternal_uncles_daughter
      ])
    else if r == maternal_aunts_son then  // :214-225
      Some(map[
        Wife := biao_brothers_wife,
        Husband := biao_brothers_wife,
        Son := biao_nephew,
        Daughter := biao_niece,
        Father := maternal_aunts_husband,
        Mother := maternal_aunt,
        OlderBrother := maternal_aunts_son,
        YoungerBrother := maternal_aunts_son,
        OlderSister := maternal_aunts_daughter,
        YoungerSister := maternal_aunts_daughter
      ])
    else if r == maternal_aunts_daughter then  // :226-237
      Some(map[
        Husband := biao_sisters_husband,
        Wife := biao_sisters_husband,
        Son := biao_nephew,
        Daughter := biao_niece,
        Father := maternal_aunts_husband,
        Mother := maternal_aunt,
        OlderBrother := maternal_aunts_son,
        YoungerBrother := maternal_aunts_son,
        OlderSister := maternal_aunts_daughter,
        YoungerSister := maternal_aunts_daughter
      ])
    else if r == older_brother then  // :242-249
      Some(map[
        Wife := older_brothers_wife,
        Husband := older_brothers_wife,
        Son := brothers_son,
        Daughter := brothers_daughter,
        Father := father,
        Mother := mother
      ])
    else if r == younger_brother then  // :250-257
      Some(map[
        Wife := younger_brothers_wife,
        Husband := younger_brothers_wife,
        Son := brothers_son,
        Daughter := brothers_daughter,
        Father := father,
        Mother := mother
      ])
    else if r == older_sister then  // :258-265
      Some(map[
        Husband := older_sisters_husband,
        Wife := older_sisters_husband,
        Son := sisters_son,
        Daughter := sisters_daughter,
        Father := father,
        Mother := mother
      ])
    else if r == younger_sister then  // :266-273
      Some(map[
        Husband := younger_sisters_husband,
        Wife := younger_sisters_husband,
        Son := sisters_son,
        Daughter := sisters_daughter,
        Father := father,
        Mother := mother
      ])
    else if r == older_brothers_wife then  // :276-283
      Some(map[
        Father := older_brothers_wifes_father,
        Mother := older_brothers_wifes_mother,
        OlderBrother := older_brothers_wifes_brother,
        YoungerBrother := older_brothers_wifes_brother,
        OlderSister := older_brothers_wifes_sister,
        YoungerSister := older_brothers_wifes_sister
      ])
    else if r == younger_brothers_wife then  // :284-291
      Some(map[
        Father := younger_brothers_wifes_father,
        Mother := younger_brothers_wifes_mother,
        OlderBrother := younger_brothers_wifes_brother,
        YoungerBrother := younger_brothers_wifes_brother,
        OlderSister := younger_brothers_wifes_sister,
        YoungerSister := younger_brothers_wifes_sister
      ])
    else if r == older_sisters_husband then  // :292-299
      Some(map[
        Father := older_sisters_husbands_father,
        Mother := older_sisters_husbands_mother,
        OlderBrother := older_sisters_husbands_brother,
        YoungerBrother := older_sisters_husbands_brother,
        OlderSister := older_sisters_husbands_sister,
        YoungerSister := older_sisters_husbands_sister
      ])
    else if r == younger_sisters_husband then  // :300-307
      Some(map[
        Father := younger_sisters_husbands_father,
        Mother := younger_sisters_husbands_mother,
        OlderBrother := younger_sisters_husbands_brother,
        YoungerBrother := younger_sisters_husbands_brother,
        OlderSister := younger_sisters_husbands_sister,
        YoungerSister := younger_sisters_husbands_sister
      ])
    else if r == brothers_son then  // :312-321
      Some(map[
        Wife := nephews_wife,
        Husband := nephews_wife,
        Son := grandnephew,
        Daughter := grandniece,
        OlderBrother := brothers_son,
        YoungerBrother := brothers_son,
        OlderSister := brothers_daughter,
        YoungerSister := brothers_daughter
      ])
    else if r == brothers_daughter then  // :322-331
      Some(map[
        Husband := nieces_husband,
        Wife := nieces_husband,
        Son := grandnephew,
        Daughter := grandniece,
        OlderBrother := brothers_son,
        YoungerBrother := brothers_son,
        OlderSister := brothers_daughter,
        YoungerSister := brothers_daughter
      ])
    else if r == sisters_son then  // :332-341
      Some(map[
        Wife := sisters_sons_wife,
        Husband := sisters_sons_wife,
        Son := sisters_grandchild_son,
        Daughter := sisters_grandchild_daughter,
        OlderBrother := sisters_son,
        YoungerBrother := sisters_son,
        OlderSister := sisters_daughter,
        YoungerSister := sisters_daughter
      ])
    else if r == sisters_daughter then  // :342-351
      Some(map[
        Husband := sisters_daughters_husband,
        Wife := sisters_daughters_husband,
        Son := sisters_grandchild_son,
        Daughter := sisters_grandchild_daughter,
        OlderBrother := sisters_son,
        YoungerBrother := sisters_son,
        OlderSister := sisters_daughter,
        YoungerSister := sisters_daughter
      ])
    else if r == son then  // :356-365
      Some(map[
        Wife := sons_wife,
        Husband := sons_wife,
        Son := sons_son,
        Daughter := sons_daughter,
        OlderBrother := son,
        YoungerBrother := son,
        OlderSister := daughter,
        YoungerSister := daughter
      ])
    else if r == daughter then  // :366-375
      Some(map[
        Husband := daughters_husband,
        Wife := daughters_husband,
        Son := daughters_son,
        Daughter := daughters_daughter,
        OlderBrother := son,
        YoungerBrother := son,
        OlderSister := daughter,
        YoungerSister := daughter
      ])
    else if r == sons_son then  // :380-389
      Some(map[
        Wife := grandsons_wife,
        Husband := grandsons_wife,
        Son := great_grandson_p,
        Daughter := great_granddaughter_p,
        OlderBrother := sons_son,
        YoungerBrother := sons_son,
        OlderSister := sons_daughter,
        YoungerSister := sons_daughter
      ])
    else if r == sons_daughter then  // :390-399
      Some(map[
        Husband := granddaughters_husband,
        Wife := granddaughters_husband,
        Son := great_grandson_p,
        Daughter := great_granddaughter_p,
        OlderBrother := sons_son,
        YoungerBrother := sons_son,
        OlderSister := sons_daughter,
        YoungerSister := sons_daughter
      ])
    else if r == daughters_son then  // :400-409
      Some(map[
        Wife := grandsons_wife,
        Husband := grandsons_wife,
        Son := great_grandson_m,
        Daughter := great_granddaughter_m,
        OlderBrother := daughters_son,
        YoungerBrother := daughters_son,
        OlderSister := daughters_daughter,
        YoungerSister := daughters_daughter
      ])
    else if r == daughters_daughter then  // :410-419
      Some(map[
        Husband := granddaughters_husband,
        Wife := granddaughters_husband,
        Son := great_grandson_m,
        Daughter := great_granddaughter_m,
        OlderBrother := daughters_son,
        YoungerBrother := daughters_son,
        OlderSister := daughters_daughter,
        YoungerSister := daughters_daughter
      ])
    else if r == paternal_grandfather then  // :424-433
      Some(map[
        OlderBrother := grand_paternal_uncle_older,
        YoungerBrother := grand_paternal_uncle_younger,
        OlderSister := grand_paternal_aunt,
        YoungerSister := grand_paternal_aunt,
        Father := paternal_great_grandfather,
        Mother := paternal_great_grandmother,
        Wife := paternal_grandmother,
        Husband := paternal_grandmother
      ])
    else if r == paternal_grandmother then  // :434-441
      Some(map[
        OlderBrother := grand_maternal_uncle_p,
        YoungerBrother := grand_maternal_uncle_p,
        OlderSister := grand_maternal_aunt_p,
        YoungerSister := grand_maternal_aunt_p,
        Husband := paternal_grandfather,
        Wife := paternal_grandfather
      ])
    else if r == maternal_grandfather then  // :442-451
      Some(map[
        OlderBrother := grand_paternal_uncle_m,
        YoungerBrother := grand_paternal_uncle_m,
        OlderSister := grand_paternal_aunt_m,
        YoungerSister := grand_paternal_aunt_m,
        Father := maternal_great_grandfather,
        Mother := maternal_great_grandmother,
        Wife := maternal_grandmother,
        Husband := maternal_grandmother
      ])
    else if r == maternal_grandmother then  // :452-459
      Some(map[
        OlderBrother := grand_maternal_uncle_m,
        YoungerBrother := grand_maternal_uncle_m,
        OlderSister := grand_maternal_aunt_m,
        YoungerSister := grand_maternal_aunt_m,
        Husband := maternal_grandfather,
        Wife := maternal_grandfather
      ])
    else if r == grand_paternal_uncle_older then  // :464-473
      Some(map[
        Wife := grand_paternal_uncles_wife,
        Husband := grand_paternal_uncles_wife,
        Son := grand_uncles_son,
        Daughter := grand_uncles_daughter,
        OlderBrother := grand_paternal_uncle_older,
        YoungerBrother := grand_paternal_uncle_younger,
        OlderSister := grand_paternal_aunt,
        YoungerSister := grand_paternal_aunt
      ])
    else if r == grand_paternal_uncle_younger then  // :474-483
      Some(map[
        Wife := grand_paternal_uncles_wife,
        Husband := grand_paternal_uncles_wife,
        Son := grand_uncles_son,
        Daughter := grand_uncles_daughter,
        OlderBrother := grand_paternal_uncle_older,
        YoungerBrother := grand_paternal_uncle_younger,
        OlderSister := grand_paternal_aunt,
        YoungerSister := grand_paternal_aunt
      ])
    else if r == grand_paternal_aunt then  // :484-493
      Some(map[
        Husband := grand_paternal_aunts_husband,
        Wife := grand_paternal_aunts_husband,
        Son := grand_aunts_son,
        Daughter := grand_aunts_daughter,
        OlderBrother := grand_paternal_uncle_older,
        YoungerBrother := grand_paternal_uncle_younger,
        OlderSister := grand_paternal_aunt,
        YoungerSister := grand_paternal_aunt
      ])
    else if r == grand_paternal_uncles_wife then  // :494-497
      Some(map[
        Son := grand_uncles_son,
        Daughter := grand_uncles_daughter
      ])
    else if r == grand_paternal_aunts_husband then  // :498-501
      Some(map[
        Son := grand_aunts_son,
        Daughter := grand_aunts_daughter
      ])
    else if r == grand_maternal_uncle_p then  // :504-509
      Some(map[
        Wife := grand_maternal_uncles_wife_p,
        Husband := grand_maternal_uncles_wife_p,
        Son := grand_uncles_son_cross,
        Daughter := grand_uncles_daughter_cross
      ])
    else if r == grand_maternal_aunt_p then  // :510-515
      Some(map[
        Husband := grand_maternal_aunts_husband_p,
        Wife := grand_maternal_aunts_husband_p,
        Son := grand_aunts_son_cross,
        Daughter := grand_aunts_daughter_cross
      ])
    else if r == grand_paternal_uncle_m then  // :516-521
      Some(map[
        Wife := grand_paternal_uncles_wife_m,
        Husband := grand_paternal_uncles_wife_m,
        Son := grand_uncles_son_cross,
        Daughter := grand_uncles_daughter_cross
      ])
    else if r == grand_paternal_aunt_m then  // :522-527
      Some(map[
        Husband := grand_paternal_aunts_husband_m,
        Wife := grand_paternal_aunts_husband_m,
        Son := grand_aunts_son_cross,
        Daughter := grand_aunts_daughter_cross
      ])
    else if r == grand_maternal_uncle_m then  // :528-533
      Some(map[
        Wife := grand_maternal_uncles_wife_m,
        Husband := grand_maternal_uncles_wife_m,
        Son := grand_uncles_son_cross,
        Daughter := grand_uncles_daughter_cross
      ])
    else if r == grand_maternal_aunt_m then  // :534-539
      Some(map[
        Husband := grand_maternal_aunts_husband_m,
        Wife := grand_maternal_aunts_husband_m,
        Son := grand_aunts_son_cross,
        Daughter := grand_aunts_daughter_cross
      ])
    else if r == grand_uncles_son then  // :542-547
      Some(map[
        Wife := grand_uncles_sons_wife,
        Husband := grand_uncles_sons_wife,
        Son := cong_tang_brother,
        Daughter := cong_tang_sister
      ])
    else if r == grand_uncles_daughter then  // :548-553
      Some(map[
        Husband := grand_uncles_daughters_husband,
        Wife := grand_uncles_daughters_husband,
        Son := cong_tang_brother,
        Daughter := cong_tang_sister
      ])
    else if r == grand_aunts_son then  // :554-559
      Some(map[
        Wife := grand_aunts_sons_wife,
        Husband := grand_aunts_sons_wife,
        Son := cong_biao_brother,
        Daughter := cong_biao_sister
      ])
    else if r == grand_aunts_daughter then  // :560-565
      Some(map[
        Husband := grand_aunts_daughters_husband,
        Wife := grand_aunts_daughters_husband,
        Son := cong_biao_brother,
        Daughter := cong_biao_sister
      ])
    else if r == grand_uncles_son_cross then  // :566-571
      Some(map[
        Wife := grand_uncles_sons_wife,
        Husband := grand_uncles_sons_wife,
        Son := cong_biao_brother,
        Daughter := cong_biao_sister
      ])
    else if r == grand_uncles_daughter_cross then  // :572-577
      Some(map[
        Husband := grand_uncles_daughters_husband,
        Wife := grand_uncles_daughters_husband,
        Son := cong_biao_brother,
        Daughter := cong_biao_sister
      ])
    else if r == grand_aunts_son_cross then  // :578-583
      Some(map[
        Wife := grand_aunts_sons_wife,
        Husband := grand_aunts_sons_wife,
        Son := cong_biao_brother,
        Daughter := cong_biao_sister
      ])
    else if r == grand_aunts_daughter_cross then  // :584-589
      Some(map[
        Husband := grand_aunts_daughters_husband,
        Wife := grand_aunts_daughters_husband,
        Son := cong_biao_brother,
        Daughter := cong_biao_sister
      ])
    else if r == cong_tang_brother then  // :592-597
      Some(map[
        Wife := cong_tang_brothers_wife,
        Husband := cong_tang_brothers_wife,
        Son := cong_tang_nephew,
        Daughter := cong_tang_niece
      ])
    else if r == cong_tang_sister then  // :598-603
      Some(map[
        Husband := cong_tang_sisters_husband,
        Wife := cong_tang_sisters_husband,
        Son := cong_tang_nephew,
        Daughter := cong_tang_niece
      ])
    else if r == cong_biao_brother then  // :604-609
      Some(map[
        Wife := cong_biao_brothers_wife,
        Husband := cong_biao_brothers_wife,
        Son := cong_biao_nephew,
        Daughter := cong_biao_niece
      ])
    else if r == cong_biao_sister then  // :610-615
      Some(map[
        Husband := cong_biao_sisters_husband,
        Wife := cong_biao_sisters_husband,
        Son := cong_biao_nephew,
        Daughter := cong_biao_niece
      ])
    else if r == husbands_older_brother then  // :620-625
      Some(map[
        Wife := husbands_older_brothers_wife,
        Husband := husbands_older_brothers_wife,
        Son := husbands_nephew,
        Daughter := husbands_niece
      ])
    else if r == husbands_younger_brother then  // :626-631
      Some(map[
        Wife := husbands_younger_brothers_wife,
        Husband := husbands_younger_brothers_wife,
        Son := husbands_nephew,
        Daughter := husbands_niece
      ])
    else if r == husbands_older_sister then  // :632-637
      Some(map[
        Husband := husbands_sisters_husband,
        Wife := husbands_sisters_husband,
        Son := husbands_nephew,
        Daughter := husbands_niece
      ])
    else if r == husbands_younger_sister then  // :638-643
      Some(map[
        Husband := husbands_sisters_husband,
        Wife := husbands_sisters_husband,
        Son := husbands_nephew,
        Daughter := husbands_niece
      ])
    else if r == wifes_brother then  // :646-651
      Some(map[
        Wife := wifes_brothers_wife,
        Husband := wifes_brothers_wife,
        Son := wifes_nephew,
        Daughter := wifes_niece
      ])
    else if r == wifes_older_sister then  // :652-657
      Some(map[
        Husband := wifes_sisters_husband,
        Wife := wifes_sisters_husband,
        Son := wifes_nephew,
        Daughter := wifes_niece
      ])
    else if r == wifes_younger_sister then  // :658-663
      Some(map[
        Husband := wifes_sisters_husband,
        Wife := wifes_sisters_husband,
        Son := wifes_nephew,
        Daughter := wifes_niece
      ])
    else if r == husbands_father then  // :668-675
      Some(map[
        OlderBrother := husbands_paternal_uncle_older,
        YoungerBrother := husbands_paternal_uncle_younger,
        OlderSister := husbands_paternal_aunt,
        YoungerSister := husbands_paternal_aunt,
        Father := husbands_grandfather,
        Mother := husbands_grandmother
      ])
    else if r == husbands_mother then  // :676-681
      Some(map[
        OlderBrother := husbands_maternal_uncle,
        YoungerBrother := husbands_maternal_uncle,
        OlderSister := husbands_maternal_aunt,
        YoungerSister := husbands_maternal_aunt
      ])
    else if r == wifes_father then  // :682-689
      Some(map[
        OlderBrother := wifes_paternal_uncle_older,
        YoungerBrother := wifes_paternal_uncle_younger,
        OlderSister := wifes_paternal_aunt,
        YoungerSister := wifes_paternal_aunt,
        Father := wifes_grandfather,
        Mother := wifes_grandmother
      ])
    else if r == wifes_mother then  // :690-695
      Some(map[
        OlderBrother := wifes_maternal_uncle,
        YoungerBrother := wifes_maternal_uncle,
        OlderSister := wifes_maternal_aunt,
        YoungerSister := wifes_maternal_aunt
      ])
    else if r == husbands_paternal_uncle_older then  // :698-703
      Some(map[
        Son := husbands_nephew,
        Daughter := husbands_niece,
        Wife := husbands_paternal_uncles_wife,
        Husband := husbands_paternal_uncles_wife
      ])
    else if r == husbands_paternal_uncle_younger then  // :704-709
      Some(map[
        Son := husbands_nephew,
        Daughter := husbands_niece,
        Wife := husbands_paternal_uncles_wife,
        Husband := husbands_paternal_uncles_wife
      ])
    else if r == husbands_paternal_aunt then  // :710-715
      Some(map[
        Son := husbands_nephew,
        Daughter := husbands_niece,
        Husband := husbands_paternal_aunts_husband,
        Wife := husbands_paternal_aunts_husband
      ])
    else if r == husbands_maternal_uncle then  // :716-721
      Some(map[
        Son := husbands_nephew,
        Daughter := husbands_niece,
        Wife := husbands_maternal_uncles_wife,
        Husband := husbands_maternal_uncles_wife
      ])
    else if r == husbands_maternal_aunt then  // :722-727
      Some(map[
        Son := husbands_nephew,
        Daughter := husbands_niece,
        Husband := husbands_maternal_aunts_husband,
        Wife := husbands_maternal_aunts_husband
      ])
    else if r == wifes_paternal_uncle_older then  // :728-733
      Some(map[
        Son := wifes_nephew,
        Daughter := wifes_niece,
        Wife := wifes_paternal_uncles_wife,
        Husband := wifes_paternal_uncles_wife
      ])
    else if r == wifes_paternal_uncle_younger then  // :734-739
      Some(map[
        Son := wifes_nephew,
        Daughter := wifes_niece,
        Wife := wifes_paternal_uncles_wife,
        Husband := wifes_paternal_uncles_wife
      ])
    else if r == wifes_paternal_aunt then  // :740-745
      Some(map[
        Son := wifes_nephew,
        Daughter := wifes_niece,
        Husband := wifes_paternal_aunts_husband,
        Wife := wifes_paternal_aunts_husband
      ])
    else if r == wifes_maternal_uncle then  // :746-751
      Some(map[
        Son := wifes_nephew,
        Daughter := wifes_niece,
        Wife := wifes_maternal_uncles_wife,
        Husband := wifes_maternal_uncles_wife
      ])
    else if r == wifes_maternal_aunt then  // :752-757
      Some(map[
        Son := wifes_nephew,
        Daughter := wifes_niece,
        Husband := wifes_maternal_aunts_husband,
        Wife := wifes_maternal_aunts_husband
      ])
    else if r == sons_wife then  // :762-769
      Some(map[
        Father := sons_wifes_father,
        Mother := sons_wifes_mother,
        OlderBrother := sons_wifes_brother,
        YoungerBrother := sons_wifes_brother,
        OlderSister := sons_wifes_sister,
        YoungerSister := sons_wifes_sister
      ])
    else if r == daughters_husband then  // :770-777
      Some(map[
        Father := daughters_husbands_father,
        Mother := daughters_husbands_mother,
        OlderBrother := daughters_husbands_brother,
        YoungerBrother := daughters_husbands_brother,
        OlderSister := daughters_husbands_sister,
        YoungerSister := daughters_husbands_sister
      ])
    else if r == tang_nephew then  // :782-787
      Some(map[
        Wife := tang_nephews_wife,
        Husband := tang_nephews_wife,
        Son := tang_grandnephew,
        Daughter := tang_grandniece
      ])
    else if r == tang_niece then  // :788-793
      Some(map[
        Husband := tang_nieces_husband,
        Wife := tang_nieces_husband,
        Son := tang_grandnephew,
        Daughter := tang_grandniece
      ])
    else if r == biao_nephew then  // :794-799
      Some(map[
        Wife := biao_nephews_wife,
        Husband := biao_nephews_wife,
        Son := biao_grandnephew,
        Daughter := biao_grandniece
      ])
    else if r == biao_niece then  // :800-805
      Some(map[
        Husband := biao_nieces_husband,
        Wife := biao_nieces_husband,
        Son := biao_grandnephew,
        Daughter := biao_grandniece
      ])
    else if r == nephews_wife then  // :810-813
      Some(map[
        Son := grandnephew,
        Daughter := grandniece
      ])
    else if r == nieces_husband then  // :814-817
      Some(map[
        Son := grandnephew,
        Daughter := grandniece
      ])
    else if r == grandnephew then  // :818-821
      Some(map[
        Wife := grandnephews_wife,
        Husband := grandnephews_wife
      ])
    else if r == grandniece then  // :822-825
      Some(map[
        Husband := grandnieces_husband,
        Wife := grandnieces_husband
      ])
    else if r == sisters_sons_wife then  // :826-829
      Some(map[
        Son := sisters_grandchild_son,
        Daughter := sisters_grandchild_daughter
      ])
    else if r == sisters_daughters_husband then  // :830-833
      Some(map[
        Son := sisters_grandchild_son,
        Daughter := sisters_grandchild_daughter
      ])
    else if r == grandsons_wife then  // :838-841
      Some(map[
        Son := great_grandson_p,
        Daughter := great_granddaughter_p
      ])
    else if r == granddaughters_husband then  // :842-845
      Some(map[
        Son := great_grandson_p,
        Daughter := great_granddaughter_p
      ])
    else if r == great_grandson_p then  // :850-855
      Some(map[
        Wife := great_grandsons_wife,
        Husband := great_grandsons_wife,
        Son := xuan_grandson,
        Daughter := xuan_granddaughter
      ])
    else if r == great_granddaughter_p then  // :856-861
      Some(map[
        Husband := great_granddaughters_husband,
        Wife := great_granddaughters_husband,
        Son := xuan_grandson,
        Daughter := xuan_granddaughter
      ])
    else if r == great_grandson_m then  // :862-867
      Some(map[
        Wife := great_grandsons_wife,
        Husband := great_grandsons_wife,
        Son := xuan_grandson,
        Daughter := xuan_granddaughter
      ])
    else if r == great_granddaughter_m then  // :868-873
      Some(map[
        Husband := great_granddaughters_husband,
        Wife := great_granddaughters_husband,
        Son := xuan_grandson,
        Daughter := xuan_granddaughter
      ])
    else if r == paternal_great_grandfather then  // :878-887
      Some(map[
        Father := gao_grandfather_p,
        Mother := gao_grandmother_p,
        OlderBrother := great_grand_uncle,
        YoungerBrother := great_grand_uncle,
        OlderSister := great_grand_aunt,
        YoungerSister := great_grand_aunt,
        Wife := paternal_great_grandmother,
        Husband := paternal_great_grandmother
      ])
    else if r == paternal_great_grandmother then  // :888-891
      Some(map[
        Husband := paternal_great_grandfather,
        Wife := paternal_great_grandfather
      ])
    else if r == maternal_great_grandfather then  // :892-897
      Some(map[
        Father := gao_grandfather_m,
        Mother := gao_grandmother_m,
        Wife := maternal_great_grandmother,
        Husband := maternal_great_grandmother
      ])
    else if r == maternal_great_grandmother then  // :898-901
      Some(map[
        Husband := maternal_great_grandfather,
        Wife := maternal_great_grandfather
      ])
    else if r == great_grand_uncle then  // :904-909
      Some(map[
        Wife := great_grand_uncles_wife,
        Husband := great_grand_uncles_wife,
        Son := grand_paternal_uncle_older,
        Daughter := grand_paternal_aunt
      ])
    else if r == great_grand_aunt then  // :910-915
      Some(map[
        Husband := great_grand_aunts_husband,
        Wife := great_grand_aunts_husband,
        Son := grand_uncles_son,
        Daughter := grand_uncles_daughter
      ])
    else None
  }

  /** The repository's CONTINUATION_MAP. */
  const ContinuationMap: map<Role, map<Step, Role>> :=
    map r: Role | ContinuationEntry(r).Some? :: ContinuationEntry(r).value

  /** The husband and wife steps of one continuation entry agree. */
  predicate SpouseStepsAgreeIn(m: map<Step, Role>)
  {
    (Husband in m <==> Wife in m) && (Husband in m ==> m[Husband] == m[Wife])
  }

  /** The husband and wife steps of one continuation entry agree, for each role with an entry. */
  lemma SpouseStepsAgreeAt(r: Role)
    ensures ContinuationEntry(r).Some? ==> SpouseStepsAgreeIn(ContinuationEntry(r).value)
  {
    if r < HalfOfRoles {
      SpouseStepsAgreeBelowHalf(r);
    } else {
      SpouseStepsAgreeFromHalf(r);
    }
  }

  /** Half of the entries have a role number below this one; the proof is split there to keep each half small. */
  const HalfOfRoles: Role := 64

  lemma SpouseStepsAgreeBelowHalf(r: Role)
    requires r < HalfOfRoles
    ensures ContinuationEntry(r).Some? ==> SpouseStepsAgreeIn(ContinuationEntry(r).value)
  {
  }

  lemma SpouseStepsAgreeFromHalf(r: Role)
    requires r >= HalfOfRoles
    ensures ContinuationEntry(r).Some? ==> SpouseStepsAgreeIn(ContinuationEntry(r).value)
  {
  }

  /** A role offers the husband step exactly when it offers the wife step, and both lead to the same spouse role. */
  lemma SpouseStepsAgree()
    ensures forall r | r in ContinuationMap :: SpouseStepsAgreeIn(ContinuationMap[r])
  {
    forall r | r in ContinuationMap ensures SpouseStepsAgreeIn(ContinuationMap[r]) {
      SpouseStepsAgreeAt(r);
    }
  }

  /** The example in the table's own documentation: a paternal cousin's wife. */
  lemma CousinsWifeEntry()
    ensures paternal_uncle_older_son in ContinuationMap
    ensures Wife in ContinuationMap[paternal_uncle_older_son]
    ensures ContinuationMap[paternal_uncle_older_son][Wife] == tang_older_brothers_wife
  {
  }

  /** A self-loop: the table can send a walk back to the role it came from. */
  lemma CousinSelfLoop()
    ensures paternal_uncle_older_son in ContinuationMap
    ensures OlderBrother in ContinuationMap[paternal_uncle_older_son]
    ensures ContinuationMap[paternal_uncle_older_son][OlderBrother] == paternal_uncle_older_son
  {
  }

  /** The great-great-grandfather reached from the great-grandfather has no continuations. */
  lemma GreatGreatGrandfatherIsTerminal()
    ensures paternal_great_grandfather in ContinuationMap
    ensures Father in ContinuationMap[paternal_great_grandfather]
    ensures ContinuationMap[paternal_great_grandfather][Father] == gao_grandfather_p
    ensures gao_grandfather_p !in ContinuationMap
  {
  }

  /** The paternal cousin's son, and his wife. */
  lemma CousinsSonEntry()
    ensures paternal_uncle_older_son in ContinuationMap
    ensures Son in ContinuationMap[paternal_uncle_older_son]
    ensures ContinuationMap[paternal_uncle_older_son][Son] == tang_nephew
  {
  }

  lemma CousinsSonsWifeEntry()
    ensures tang_nephew in ContinuationMap
    ensures Wife in ContinuationMap[tang_nephew]
    ensures ContinuationMap[tang_nephew][Wife] == tang_nephews_wife
  {
  }

  /** A son's spouse is the son's wife, who has no spouse step of her own. */
  lemma SonsSpouseEntry()
    ensures son in ContinuationMap && Husband in ContinuationMap[son]
    ensures ContinuationMap[son][Husband] == sons_wife
    ensures sons_wife in ContinuationMap && Wife !in ContinuationMap[sons_wife]
  {
  }
}
