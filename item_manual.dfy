/** The item manual of the client UI (frontend/client/item_manual.py): the
    table of abbreviations, names and usage texts, the order of its sections,
    and the three lookups with their fallbacks for unknown ids. */
module ItemManual {

  datatype ManualEntry = ManualEntry(abbr: string, name: string, use: string)

  datatype Category = Category(title: string, ids: seq<string>)

  /** ITEM_MANUAL: abbreviation, display name and usage text of every item. */
  const Manual: map<string, ManualEntry> := map[
    "WPN_SHOCK_T1" := ManualEntry("SHK", "简易电击器",
                 "对3m内最近敌人造成伤害并短暂减速。打开背包按数字键使用。"),
    "WPN_STONE" := ManualEntry("STN", "投掷石块",
                 "低伤害投掷，主要用于制造噪音诱导。"),
    "WPN_KNIFE_T2" := ManualEntry("KNF", "战术飞刀",
                 "对6m内最近敌人造成高伤害，偏无声。"),
    "WPN_STUN_GRENADE" := ManualEntry("STG", "闪光震撼弹",
                 "对范围内最近敌人造成伤害（当前为简化实现）。"),
    "WPN_TRACK_DART" := ManualEntry("DRT", "追踪毒镖",
                 "对6m内最近敌人造成伤害（流血/足迹为后续增强）。"),
    "WPN_EMP_MINE" := ManualEntry("EMP", "电磁脉冲雷",
                 "对8m内最近敌人造成高伤害（禁用侦察为后续增强）。"),
    "SURV_BANDAGE" := ManualEntry("BDG", "急救绷带",
                 "回复生命值（当前为即时治疗，后续可加入引导）。"),
    "SURV_ENERGY_BAR" := ManualEntry("BAR", "能量棒",
                 "少量即时治疗（轻盈状态为后续增强）。"),
    "SURV_ADRENALINE" := ManualEntry("ADR", "肾上腺素",
                 "短时间提升移动速度（解除控制/虚弱为后续增强）。"),
    "SURV_SILENT_PAD" := ManualEntry("PAD", "消音鞋垫",
                 "使用后20秒内脚步声大幅降低（更难被听觉侦测）。打开背包按数字键使用。"),
    "SURV_JAMMER" := ManualEntry("JAM", "便携式干扰器",
                 "使用后12秒内你的脚步声方向会被干扰（对方听觉提示更不准确）。打开背包按数字键使用。"),
    "SURV_ARMOR_LIGHT" := ManualEntry("ARM", "凯夫拉内衬",
                 "使用后20秒内受到的伤害降低（当前为简化实现：减伤35%）。打开背包按数字键使用。"),
    "RECON_AMP_T1" := ManualEntry("AMP", "听音增幅器",
                 "临时扩大听觉半径。"),
    "RECON_FLASHLIGHT" := ManualEntry("LGT", "定向手电筒",
                 "临时提升视距（当前为简化：增加视野半径）。"),
    "RECON_HEARTBEAT" := ManualEntry("HBT", "心跳探测仪",
                 "临时提升侦察能力（当前为简化：增加视野半径）。"),
    "RECON_DRONE_TAG" := ManualEntry("DRN", "无人机信标",
                 "标记/高亮待接入（当前为简化：增加视野半径）。"),
    "RECON_GLOBAL_SCAN" := ManualEntry("GSC", "全境扫描终端",
                 "全图广播待接入（当前为简化：增加视野半径）。"),
    "RECON_XRAY" := ManualEntry("XRY", "透视护目镜",
                 "透视轮廓待接入（当前为简化：短时增加视野半径）。"),
    "SCAV_BACKPACK_M" := ManualEntry("BPK", "大容量背包",
                 "使用后30秒内背包上限+2，同时最大负重+3。到期后若携带物品数超过上限，无法再拾取直到减少。"),
    "SCAV_DETECTOR" := ManualEntry("DET", "金属探测器",
                 "高亮附近掉落（当前为简化：给予少量资金）。"),
    "SCAV_DECODER" := ManualEntry("DCD", "电机解码卡",
                 "与电机交互时使用：立即推进25%进度。"),
    "SCAV_MASTER_KEY" := ManualEntry("KEY", "万能钥匙",
                 "开启上锁补给箱（当前为简化：给予少量资金）。")
  ]

  /** The offense section. */
  const OffenseIds: seq<string> := [
    "WPN_SHOCK_T1", "WPN_STONE", "WPN_KNIFE_T2",
    "WPN_STUN_GRENADE", "WPN_TRACK_DART", "WPN_EMP_MINE"
  ]

  /** The survival section. */
  const SurvivalIds: seq<string> := [
    "SURV_BANDAGE", "SURV_ENERGY_BAR", "SURV_ADRENALINE",
    "SURV_SILENT_PAD", "SURV_JAMMER", "SURV_ARMOR_LIGHT"
  ]

  /** The recon section. */
  const ReconIds: seq<string> := [
    "RECON_AMP_T1", "RECON_FLASHLIGHT", "RECON_HEARTBEAT",
    "RECON_DRONE_TAG", "RECON_GLOBAL_SCAN", "RECON_XRAY"
  ]

  /** The scavenge section. */
  const ScavengeIds: seq<string> := [
    "SCAV_BACKPACK_M", "SCAV_DETECTOR", "SCAV_DECODER",
    "SCAV_MASTER_KEY"
  ]

  /** CATEGORY_ORDER: the manual's sections and the items of each, in order. */
  const CategoryOrder: seq<Category> := [
    Category("攻击类", OffenseIds),
    Category("生存类", SurvivalIds),
    Category("侦察类", ReconIds),
    Category("搜索类", ScavengeIds)
  ]

  function Min(a: int, b: int): int {
    if a < b then a else b
  }

  /** item_id[:3]: at most the first three characters. */
  function Prefix3(id: string): (r: string)
    ensures |r| <= 3 && |r| <= |id| && r == id[..|r|]
    ensures |id| >= 3 ==> |r| == 3
    ensures |id| < 3 ==> r == id
  {
    id[..Min(3, |id|)]
  }

  /** get_item_abbr: the table's abbreviation, or the first three characters
      of an unknown id. */
  function GetItemAbbr(id: string): (r: string)
    ensures id in Manual ==> r == Manual[id].abbr
    ensures id !in Manual ==> r == Prefix3(id)
    ensures |r| <= 3
  {
    if id in Manual then
      AbbrsHaveThreeLetters();
      Manual[id].abbr
    else Prefix3(id)
  }

  /** get_item_name: the table's name, or the id itself. */
  function GetItemName(id: string): (r: string)
    ensures id in Manual ==> r == Manual[id].name
    ensures id !in Manual ==> r == id
  {
    if id in Manual then Manual[id].name else id
  }

  /** get_item_use: the table's usage text, or "" for an unknown id. */
  function GetItemUse(id: string): (r: string)
    ensures id in Manual ==> r == Manual[id].use
    ensures id !in Manual ==> r == ""
  {
    if id in Manual then Manual[id].use else ""
  }

  /** Every abbreviation in the table has exactly three characters. */
  lemma AbbrsHaveThreeLetters()
    ensures forall id | id in Manual :: |Manual[id].abbr| == 3
  {
  }

  /** Every id listed in a section is a key of the table. */
  lemma CategoryIdsAreKeys()
    ensures forall c, id | c in CategoryOrder && id in c.ids :: id in Manual
  {
    assert forall id | id in OffenseIds :: id in Manual;
    assert forall id | id in SurvivalIds :: id in Manual;
    assert forall id | id in ReconIds :: id in Manual;
    assert forall id | id in ScavengeIds :: id in Manual;
  }

  /** The ids of a section are pairwise distinct. */
  predicate Distinct(ids: seq<string>) {
    forall a, b | 0 <= a < b < |ids| :: ids[a] != ids[b]
  }

  /** Two sections share no id. */
  predicate Disjoint(xs: seq<string>, ys: seq<string>) {
    forall x | x in xs :: x !in ys
  }

  lemma OffenseDistinct()
    ensures Distinct(OffenseIds)
  {
  }

  lemma SurvivalDistinct()
    ensures Distinct(SurvivalIds)
  {
  }

  lemma ReconDistinct()
    ensures Distinct(ReconIds)
  {
  }

  lemma ScavengeDistinct()
    ensures Distinct(ScavengeIds)
  {
  }

  lemma OffenseSurvivalDisjoint()
    ensures Disjoint(OffenseIds, SurvivalIds)
  {
  }

  lemma OffenseReconDisjoint()
    ensures Disjoint(OffenseIds, ReconIds)
  {
  }

  lemma OffenseScavengeDisjoint()
    ensures Disjoint(OffenseIds, ScavengeIds)
  {
  }

  lemma SurvivalReconDisjoint()
    ensures Disjoint(SurvivalIds, ReconIds)
  {
  }

  lemma SurvivalScavengeDisjoint()
    ensures Disjoint(SurvivalIds, ScavengeIds)
  {
  }

  lemma ReconScavengeDisjoint()
    ensures Disjoint(ReconIds, ScavengeIds)
  {
  }

  /** No id is listed twice, neither within a section nor in two sections. */
  lemma CategoryIdsDistinct()
    ensures forall c | c in CategoryOrder :: Distinct(c.ids)
    ensures forall i, j | 0 <= i < j < |CategoryOrder| :: Disjoint(CategoryOrder[i].ids, CategoryOrder[j].ids)
  {
    OffenseDistinct();
    SurvivalDistinct();
    ReconDistinct();
    ScavengeDistinct();
    OffenseSurvivalDisjoint();
    OffenseReconDisjoint();
    OffenseScavengeDisjoint();
    SurvivalReconDisjoint();
    SurvivalScavengeDisjoint();
    ReconScavengeDisjoint();
  }

  /** The sections list every item of the table. */
  lemma CategoriesCoverManual()
    ensures forall id | id in Manual :: exists c | c in CategoryOrder :: id in c.ids
  {
    assert forall id | id in Manual :: id in OffenseIds + SurvivalIds + ReconIds + ScavengeIds;
    assert forall id | id in OffenseIds :: CategoryOrder[0].ids == OffenseIds;
  }

  /** Known ids get their abbreviation from the table, unknown ones at most
      three characters of their own, so the two cases never need telling apart
      by length; an unknown id's name lookup gives the id back. */
  lemma UnknownIdFallbacks(id: string)
    requires id !in Manual
    ensures GetItemAbbr(id) == id[..|GetItemAbbr(id)|]
    ensures GetItemName(id) == id && GetItemUse(id) == ""
  {
  }
}
