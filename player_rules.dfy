/** The per-player rules of backend/logic/gamestate.go, as functions on the
    player record: the price fallbacks, stat recalculation, tactic choice,
    drop / sell / buy, the shop refresh charge and the extraction payout.
    The GameState class applies them to its player table. */
module PlayerRules {
  import opened Geometry
  import opened Wrappers
  import opened Entities
  import opened ConfigValidation

  // ---------------------------------------------------------------------------
  // Prices

  /** What the merchant pays for an item: its Value, or 50 when Value is 0. */
  function SaleValue(it: Item): (v: int)
    ensures it.value != 0 ==> v == it.value
    ensures it.value >= 0 ==> v > 0
  {
    if it.value == 0 then 50 else it.value
  }

  /** What the merchant charges: Value, or 50 per tier when Value is not positive. */
  function PurchaseCost(it: Item): (c: int)
    ensures it.value > 0 ==> c == it.value
    ensures it.value > 0 || it.tier > 0 ==> c > 0
  {
    if it.value <= 0 then 50 * it.tier else it.value
  }

  /** What extraction pays for an item: Value, or 50 per tier when Value is 0. */
  function ExtractionValue(it: Item): int {
    if it.value == 0 then 50 * it.tier else it.value
  }

  /** The payout of ProcessExtraction's loop over the inventory. */
  function LootValue(inv: seq<Item>): int {
    if inv == [] then 0 else LootValue(inv[..|inv| - 1]) + ExtractionValue(inv[|inv| - 1])
  }

  /** The payout is additive over the inventory. */
  lemma {:induction false} LootValueAppend(a: seq<Item>, b: seq<Item>)
    ensures LootValue(a + b) == LootValue(a) + LootValue(b)
    decreases |b|
  {
    if b == [] {
      assert a + b == a;
    } else {
      var last := |b| - 1;
      assert (a + b)[..|a + b| - 1] == a + b[..last];
      assert (a + b)[|a + b| - 1] == b[last];
      LootValueAppend(a, b[..last]);
    }
  }

  /** Items that carry a non-negative Value and Tier pay a non-negative amount. */
  lemma {:induction false} LootValueNonNegative(inv: seq<Item>)
    requires forall j | 0 <= j < |inv| :: inv[j].value >= 0 && inv[j].tier >= 0
    ensures LootValue(inv) >= 0
    decreases |inv|
  {
    if inv != [] {
      LootValueNonNegative(inv[..|inv| - 1]);
    }
  }

  /** The inventory after slot `slot` is spliced out: the items before it and
      after it, in their order. */
  function RemoveSlot(inv: seq<Item>, slot: int): (r: seq<Item>)
    requires 0 <= slot < |inv|
    ensures |r| == |inv| - 1
    ensures forall j | 0 <= j < |r| :: r[j] == if j < slot then inv[j] else inv[j + 1]
    ensures multiset(r) + multiset{inv[slot]} == multiset(inv)
  {
    assert inv == inv[..slot] + [inv[slot]] + inv[slot + 1..];
    inv[..slot] + inv[slot + 1..]
  }

  /** Splicing an item out removes exactly its share of the payout. */
  lemma LootValueRemoveSlot(inv: seq<Item>, slot: int)
    requires 0 <= slot < |inv|
    ensures LootValue(RemoveSlot(inv, slot)) + ExtractionValue(inv[slot]) == LootValue(inv)
  {
    var pre, it, post := inv[..slot], inv[slot], inv[slot + 1..];
    assert inv == pre + ([it] + post);
    assert RemoveSlot(inv, slot) == pre + post;
    LootValueAppend(pre, [it] + post);
    LootValueAppend([it], post);
    LootValueAppend(pre, post);
    assert LootValue([it]) == LootValue([]) + ExtractionValue(it);
  }

  // ---------------------------------------------------------------------------
  // Stats

  /** A configured float read as a number; NaN (which the JSON config cannot
      carry) reads as 0. */
  function ConfigReal(f: Float): real {
    if f.Num? then f.value else 0.0
  }

  /** A configured float when it is positive, else the fallback. */
  function PositiveOr(f: Float, fallback: real): (v: real)
    ensures fallback > 0.0 ==> v > 0.0
  {
    if ConfigReal(f) > 0.0 then ConfigReal(f) else fallback
  }

  /** The three tactics the server accepts. */
  predicate KnownTactic(t: string) {
    t == "RECON" || t == "DEFENSE" || t == "TRAP"
  }

  /** HandleChooseTactic's validation: an unknown tactic becomes RECON. */
  function NormalizeTactic(t: string): (r: string)
    ensures KnownTactic(r)
    ensures KnownTactic(t) ==> r == t
    ensures !KnownTactic(t) ==> r == "RECON"
  {
    if KnownTactic(t) then t else "RECON"
  }

  /** The multiplier block for a tactic; none for "" or an unknown name. */
  function TacticBlock(tc: TacticsConfig, tactic: string): Option<TacticMultipliers> {
    if tactic == "RECON" then Some(tc.recon)
    else if tactic == "DEFENSE" then Some(tc.defense)
    else if tactic == "TRAP" then Some(tc.trap)
    else None
  }

  function MaxHpMult(cfg: ConfigData, tactic: string): real {
    var b := TacticBlock(cfg.tactics, tactic);
    if b.Some? then PositiveOr(b.value.maxHPMult, 1.0) else 1.0
  }

  function ViewMult(cfg: ConfigData, tactic: string): real {
    var b := TacticBlock(cfg.tactics, tactic);
    if b.Some? then PositiveOr(b.value.viewRadiusMult, 1.0) else 1.0
  }

  /** The base inventory capacity: the configured size, or 6 when not positive. */
  function BaseInventoryCap(cfg: ConfigData): (c: int)
    ensures c >= 1
  {
    if cfg.gameplay.inventorySize <= 0 then 6 else cfg.gameplay.inventorySize
  }

  /** The base maximum HP: the configured value, or 100 when not positive. */
  function BaseMaxHp(cfg: ConfigData): (h: real)
    ensures h > 0.0
  {
    PositiveOr(cfg.gameplay.baseMaxHP, 100.0)
  }

  /** RecalculateStats with every timed buff lapsed: the capacity, maximum HP
      and view radius recomputed from the configuration and the tactic.  The
      view radius has no fallback: it is positive once the base view radius
      has been clamped into [1, 20]. */
  function Recalculated(cfg: ConfigData, p: Player): (q: Player)
    ensures q.inventoryCap >= 1 && q.maxHp > 0.0
    ensures GameplayInRange(cfg.gameplay) ==> q.viewRadius > 0.0
    ensures q.(inventoryCap := p.inventoryCap, maxHp := p.maxHp, viewRadius := p.viewRadius) == p
  {
    var hpMult := MaxHpMult(cfg, p.tactic);
    assert hpMult > 0.0;
    MulPositive(BaseMaxHp(cfg), hpMult);
    var view := ConfigReal(cfg.gameplay.baseViewRadius) * ViewMult(cfg, p.tactic);
    assert GameplayInRange(cfg.gameplay) ==> view > 0.0 by {
      if GameplayInRange(cfg.gameplay) {
        MulPositive(ConfigReal(cfg.gameplay.baseViewRadius), ViewMult(cfg, p.tactic));
      }
    }
    p.(inventoryCap := BaseInventoryCap(cfg),
       maxHp := BaseMaxHp(cfg) * hpMult,
       viewRadius := view)
  }

  /** The recomputed stats depend only on the configuration and the tactic, so
      recalculating twice changes nothing more. */
  lemma RecalculatedIdempotent(cfg: ConfigData, p: Player)
    ensures Recalculated(cfg, Recalculated(cfg, p)) == Recalculated(cfg, p)
  {
  }

  /** HandleChooseTactic on the player: the validated tactic, the recomputed
      stats, and HP cut down to the new maximum. */
  function WithTactic(cfg: ConfigData, p: Player, tactic: string): (q: Player)
    ensures q.tactic == NormalizeTactic(tactic) && q.tactic != ""
    ensures q.hp <= q.maxHp
    ensures q.hp == (if p.hp > q.maxHp then q.maxHp else p.hp)
    ensures q.inventory == p.inventory && q.funds == p.funds && q.pos == p.pos
  {
    var r := Recalculated(cfg, p.(tactic := NormalizeTactic(tactic)));
    if r.hp > r.maxHp then r.(hp := r.maxHp) else r
  }

  // ---------------------------------------------------------------------------
  // Inventory and shop

  /** HandleDropItem on the player: the slot spliced out, stats recomputed. */
  function Dropped(cfg: ConfigData, p: Player, slot: int): (q: Player)
    requires 0 <= slot < |p.inventory|
    ensures q.funds == p.funds && q.pos == p.pos && q.tactic == p.tactic
    ensures multiset(q.inventory) + multiset{p.inventory[slot]} == multiset(p.inventory)
  {
    Recalculated(cfg, p.(inventory := RemoveSlot(p.inventory, slot)))
  }

  /** HandleSellItem on the player: paid the sale value, the slot spliced out. */
  function Sold(cfg: ConfigData, p: Player, slot: int): (q: Player)
    requires 0 <= slot < |p.inventory|
    ensures q.funds == p.funds + SaleValue(p.inventory[slot])
    ensures p.inventory[slot].value >= 0 ==> q.funds > p.funds
    ensures multiset(q.inventory) + multiset{p.inventory[slot]} == multiset(p.inventory)
  {
    Recalculated(cfg, p.(funds := p.funds + SaleValue(p.inventory[slot]),
                         inventory := RemoveSlot(p.inventory, slot)))
  }

  /** HandleBuyItem's final test: enough funds and a free inventory slot. */
  predicate CanBuy(p: Player, cost: int) {
    p.funds >= cost && |p.inventory| < p.inventoryCap
  }

  /** HandleBuyItem on the player: charged the cost, the item appended. */
  function Bought(cfg: ConfigData, p: Player, it: Item): (q: Player)
    ensures multiset(q.inventory) == multiset(p.inventory) + multiset{it}
    ensures q.inventory[|q.inventory| - 1] == it
    ensures q.funds == p.funds - PurchaseCost(it)
    ensures p.funds >= PurchaseCost(it) ==> q.funds >= 0
  {
    Recalculated(cfg, p.(funds := p.funds - PurchaseCost(it), inventory := p.inventory + [it]))
  }

  /** What a player is worth at extraction: funds plus the payout of the
      inventory. */
  function NetWorth(p: Player): int {
    p.funds + LootValue(p.inventory)
  }

  /** Dropping an item loses exactly its payout and keeps the other items in
      order. */
  lemma DropLosesItemWorth(cfg: ConfigData, p: Player, slot: int)
    requires 0 <= slot < |p.inventory|
    ensures NetWorth(Dropped(cfg, p, slot)) == NetWorth(p) - ExtractionValue(p.inventory[slot])
    ensures Dropped(cfg, p, slot).inventory == p.inventory[..slot] + p.inventory[slot + 1..]
    ensures Dropped(cfg, p, slot).funds == p.funds
  {
    LootValueRemoveSlot(p.inventory, slot);
  }

  /** Selling an item whose Value is set turns it into the same amount of
      funds, so the player's worth is unchanged. */
  lemma SellPreservesNetWorth(cfg: ConfigData, p: Player, slot: int)
    requires 0 <= slot < |p.inventory| && p.inventory[slot].value != 0
    ensures NetWorth(Sold(cfg, p, slot)) == NetWorth(p)
    ensures Sold(cfg, p, slot).funds == p.funds + p.inventory[slot].value
  {
    LootValueRemoveSlot(p.inventory, slot);
  }

  /** Buying leaves funds non-negative when they were, and leaves the
      inventory within the capacity the stats recompute. */
  lemma BuyKeepsBounds(cfg: ConfigData, p: Player, it: Item)
    requires CanBuy(p, PurchaseCost(it)) && p.inventoryCap == BaseInventoryCap(cfg)
    ensures Bought(cfg, p, it).funds >= 0
    ensures |Bought(cfg, p, it).inventory| <= Bought(cfg, p, it).inventoryCap
    ensures Bought(cfg, p, it).inventory[|p.inventory|] == it
  {
  }

  /** Buying an item with a positive Value and selling it straight back (it
      sits in the last slot) restores the player's funds and inventory. */
  lemma BuyThenSellRestores(cfg: ConfigData, p: Player, it: Item)
    requires it.value > 0
    ensures Sold(cfg, Bought(cfg, p, it), |p.inventory|) == Recalculated(cfg, p)
  {
    var b := Bought(cfg, p, it);
    assert b.inventory[|p.inventory|] == it;
    assert RemoveSlot(b.inventory, |p.inventory|) == p.inventory;
  }

  /** Buying an item with a positive Value converts funds into the same
      payout, so the player's worth is unchanged. */
  lemma BuyPreservesNetWorth(cfg: ConfigData, p: Player, it: Item)
    requires it.value > 0
    ensures NetWorth(Bought(cfg, p, it)) == NetWorth(p)
  {
    LootValueAppend(p.inventory, [it]);
    assert LootValue([it]) == LootValue([]) + ExtractionValue(it);
  }

  /** The paid shop refresh: the configured MerchantRefreshCost, or 120 when
      it is not positive. */
  function RefreshCost(cfg: ConfigData): (c: int)
    ensures c > 0
  {
    if cfg.items.merchantRefreshCost > 0 then cfg.items.merchantRefreshCost else 120
  }

  /** HandleShopRefresh on a player standing by the merchant in phase `phase`:
      free if the free refresh of this phase is unused (it is then marked used),
      otherwise charged; refused (None) when the charge is not affordable.  On
      success the stock is replaced by `stock`. */
  function ShopRefreshed(cfg: ConfigData, p: Player, phase: int, stock: seq<string>): (r: Option<Player>)
    ensures r.None? <==> p.shopFreeRefreshUsedPhase == phase && p.funds < RefreshCost(cfg)
    ensures r.Some? ==> r.value.shopStock == stock && r.value.shopFreeRefreshUsedPhase == phase
    ensures r.Some? ==> r.value.funds == p.funds ||
                        (p.shopFreeRefreshUsedPhase == phase && r.value.funds == p.funds - RefreshCost(cfg))
    ensures r.Some? && p.funds >= 0 ==> r.value.funds >= 0
  {
    if p.shopFreeRefreshUsedPhase != phase then
      Some(p.(shopFreeRefreshUsedPhase := phase, shopStock := stock))
    else if p.funds < RefreshCost(cfg) then None
    else Some(p.(funds := p.funds - RefreshCost(cfg), shopStock := stock))
  }

  /** Only the first refresh of a phase is free: a second one in the same
      phase is charged, or refused without touching funds. */
  lemma SecondRefreshIsCharged(cfg: ConfigData, p: Player, phase: int, s1: seq<string>, s2: seq<string>)
    requires ShopRefreshed(cfg, p, phase, s1).Some?
    ensures var q := ShopRefreshed(cfg, p, phase, s1).value;
      ShopRefreshed(cfg, q, phase, s2) ==
        if q.funds < RefreshCost(cfg) then None
        else Some(q.(funds := q.funds - RefreshCost(cfg), shopStock := s2))
  {
  }

  // ---------------------------------------------------------------------------
  // Extraction

  /** ProcessExtraction on the player: paid the inventory's payout, inventory
      emptied, marked extracted and out of play, spectator view radius. */
  function Extracted(p: Player, loot: int): (q: Player)
    ensures LootValue(q.inventory) == 0 && q.funds == p.funds + loot
    ensures q.isExtracted && !q.isAlive
  {
    p.(funds := p.funds + loot, inventory := [], isExtracted := true, isAlive := false, viewRadius := 100.0)
  }

  /** Extraction cashes in the player's whole worth. */
  lemma ExtractionPaysNetWorth(p: Player)
    ensures Extracted(p, LootValue(p.inventory)).funds == NetWorth(p)
    ensures NetWorth(Extracted(p, LootValue(p.inventory))) == NetWorth(p)
  {
  }
}
