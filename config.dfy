/** Room configuration and its hard safety bounds
    (backend/logic/config_validation.go). */
module ConfigValidation {

  /** A Go float64 as the clamp sees it: a number or NaN.  Infinities are not
      modelled (JSON cannot carry them). */
  datatype Float = Num(value: real) | NaN

  /** clampInt: v pulled into [minV, maxV]; minV wins when the bounds cross. */
  function ClampInt(v: int, minV: int, maxV: int): (r: int)
    ensures minV <= maxV ==> minV <= r <= maxV
    ensures minV <= v <= maxV ==> r == v
    ensures v < minV ==> r == minV
  {
    if v < minV then minV
    else if v > maxV then maxV
    else v
  }

  /** clampFloat: as clampInt, and NaN (which fails every comparison) becomes
      minV. */
  function ClampFloat(v: Float, minV: real, maxV: real): (r: Float)
    ensures r.Num?
    ensures minV <= maxV ==> minV <= r.value <= maxV
    ensures v.NaN? ==> r.value == minV
    ensures v.Num? && minV <= v.value <= maxV ==> r == v
  {
    if v.NaN? then Num(minV)
    else if v.value < minV then Num(minV)
    else if v.value > maxV then Num(maxV)
    else v
  }

  predicate FloatIn(v: Float, minV: real, maxV: real) {
    v.Num? && minV <= v.value <= maxV
  }

  // The sections of GameConfig that ClampGameConfig touches, field for field.

  datatype ServerConfig = ServerConfig(
    tickRateMs: int, maxPlayers: int, waitForPlayersTimeoutSec: int, disconnectGraceSec: int)

  datatype MapConfig = MapConfig(width: int, height: int, aoiGridSize: int, wallDensity: Float)

  datatype GameplayConfig = GameplayConfig(
    inventorySize: int, safeSlotCount: int,
    baseMoveSpeed: Float, baseViewRadius: Float, hearRadius: Float, baseMaxHP: Float,
    baseMaxWeight: Float, weightThresholdNoiseDouble: Float, weightThresholdViewReduce: Float,
    weightThresholdImmobilize: Float)

  datatype PerPhaseInt = PerPhaseInt(phase1: int, phase2: int, phase3: int)
  datatype PerPhaseFloat = PerPhaseFloat(phase1: Float, phase2: Float, phase3: Float)
  datatype TierWeights = TierWeights(t1: Float, t2: Float, t3: Float)
  datatype TierWeightsByPhase = TierWeightsByPhase(phase1: TierWeights, phase2: TierWeights, phase3: TierWeights)

  datatype ItemsConfig = ItemsConfig(
    initialWorldItemCount: int, respawnIntervalSec: Float, merchantStockSize: int,
    merchantRefreshCost: int, maxWorldItemCount: PerPhaseInt, tierWeightsByPhase: TierWeightsByPhase,
    scavengeShareByPhase: PerPhaseFloat, tacticFocusShare: Float)

  datatype TacticMultipliers = TacticMultipliers(
    maxHPMult: Float, moveSpeedMult: Float, viewRadiusMult: Float, hearRadiusMult: Float,
    healEffectMult: Float, damageEffectMult: Float, reconEffectMult: Float)

  datatype TacticsConfig = TacticsConfig(recon: TacticMultipliers, defense: TacticMultipliers, trap: TacticMultipliers)

  datatype CombatConfig = CombatConfig(baseAttackDamage: Float, advancedReconDurationSec: Float)

  datatype Phase1Config = Phase1Config(duration: int)
  datatype Phase2Config = Phase2Config(
    duration: int, motorsSpawnCount: int, motorsRequiredToOpenExit: int, motorDecipherTimeSec: int)
  datatype Phase3Config = Phase3Config(
    extractionSlotsTotal: int, extractionCooldownSec: int, globalPulseIntervalSec: int,
    viewRadiusDecayRatePerSec: Float)
  datatype PhasesConfig = PhasesConfig(phase1: Phase1Config, phase2: Phase2Config, phase3: Phase3Config)

  /** The value of a GameConfig. */
  datatype ConfigData = ConfigData(
    server: ServerConfig, mapSection: MapConfig, gameplay: GameplayConfig, items: ItemsConfig,
    tactics: TacticsConfig, combat: CombatConfig, phases: PhasesConfig)

  /** Go's zero value, logic.GameConfig{}. */
  function ZeroConfig(): ConfigData {
    var z := Num(0.0);
    var tm := TacticMultipliers(z, z, z, z, z, z, z);
    var tw := TierWeights(z, z, z);
    ConfigData(
      ServerConfig(0, 0, 0, 0),
      MapConfig(0, 0, 0, z),
      GameplayConfig(0, 0, z, z, z, z, z, z, z, z),
      ItemsConfig(0, z, 0, 0, PerPhaseInt(0, 0, 0), TierWeightsByPhase(tw, tw, tw), PerPhaseFloat(z, z, z), z),
      TacticsConfig(tm, tm, tm),
      CombatConfig(z, z),
      PhasesConfig(Phase1Config(0), Phase2Config(0, 0, 0, 0), Phase3Config(0, 0, 0, z)))
  }

  // ---- the bounds ClampGameConfig guarantees ----

  predicate ServerInRange(s: ServerConfig) {
    10 <= s.tickRateMs <= 200 && 1 <= s.maxPlayers <= 16 &&
    5 <= s.waitForPlayersTimeoutSec <= 300 && 0 <= s.disconnectGraceSec <= 600
  }

  predicate MapInRange(m: MapConfig) {
    16 <= m.width <= 256 && 16 <= m.height <= 256 && 4 <= m.aoiGridSize <= 64 &&
    FloatIn(m.wallDensity, 0.0, 0.6)
  }

  predicate GameplayInRange(g: GameplayConfig) {
    1 <= g.inventorySize <= 12 && 0 <= g.safeSlotCount <= 4 &&
    g.safeSlotCount <= g.inventorySize &&
    FloatIn(g.baseMoveSpeed, 0.5, 10.0) && FloatIn(g.baseViewRadius, 1.0, 20.0) &&
    FloatIn(g.hearRadius, 1.0, 30.0) && FloatIn(g.baseMaxHP, 10.0, 300.0) &&
    FloatIn(g.baseMaxWeight, 1.0, 50.0) && FloatIn(g.weightThresholdNoiseDouble, 0.0, 1.0) &&
    FloatIn(g.weightThresholdViewReduce, 0.0, 1.0) && FloatIn(g.weightThresholdImmobilize, 0.0, 1.0)
  }

  predicate TierWeightsInRange(t: TierWeights) {
    FloatIn(t.t1, 0.0, 1.0) && FloatIn(t.t2, 0.0, 1.0) && FloatIn(t.t3, 0.0, 1.0)
  }

  predicate ItemsInRange(i: ItemsConfig) {
    0 <= i.initialWorldItemCount <= 500 && FloatIn(i.respawnIntervalSec, 0.5, 30.0) &&
    1 <= i.merchantStockSize <= 6 && 0 <= i.merchantRefreshCost <= 10000 &&
    0 <= i.maxWorldItemCount.phase1 <= 1000 && 0 <= i.maxWorldItemCount.phase2 <= 1000 &&
    0 <= i.maxWorldItemCount.phase3 <= 1000 &&
    TierWeightsInRange(i.tierWeightsByPhase.phase1) && TierWeightsInRange(i.tierWeightsByPhase.phase2) &&
    TierWeightsInRange(i.tierWeightsByPhase.phase3) &&
    FloatIn(i.scavengeShareByPhase.phase1, 0.0, 1.0) && FloatIn(i.scavengeShareByPhase.phase2, 0.0, 1.0) &&
    FloatIn(i.scavengeShareByPhase.phase3, 0.0, 1.0) && FloatIn(i.tacticFocusShare, 0.0, 1.0)
  }

  predicate MultipliersInRange(t: TacticMultipliers) {
    FloatIn(t.maxHPMult, 0.5, 2.0) && FloatIn(t.moveSpeedMult, 0.5, 2.0) &&
    FloatIn(t.viewRadiusMult, 0.5, 2.0) && FloatIn(t.hearRadiusMult, 0.5, 2.0) &&
    FloatIn(t.healEffectMult, 0.5, 2.0) && FloatIn(t.damageEffectMult, 0.5, 2.0) &&
    FloatIn(t.reconEffectMult, 0.5, 2.0)
  }

  predicate CombatInRange(c: CombatConfig) {
    FloatIn(c.baseAttackDamage, 1.0, 200.0) && FloatIn(c.advancedReconDurationSec, 1.0, 120.0)
  }

  predicate PhasesInRange(p: PhasesConfig) {
    10 <= p.phase1.duration <= 3600 && 10 <= p.phase2.duration <= 3600 &&
    0 <= p.phase2.motorsSpawnCount <= 50 && 0 <= p.phase2.motorsRequiredToOpenExit <= 50 &&
    p.phase2.motorsRequiredToOpenExit <= p.phase2.motorsSpawnCount &&
    1 <= p.phase2.motorDecipherTimeSec <= 120 &&
    0 <= p.phase3.extractionSlotsTotal <= 8 && 0 <= p.phase3.extractionCooldownSec <= 120 &&
    1 <= p.phase3.globalPulseIntervalSec <= 60 && FloatIn(p.phase3.viewRadiusDecayRatePerSec, 0.0, 2.0)
  }

  /** Every bound ClampGameConfig enforces, including the two cross-field
      rules. */
  predicate InRange(c: ConfigData) {
    ServerInRange(c.server) && MapInRange(c.mapSection) && GameplayInRange(c.gameplay) &&
    ItemsInRange(c.items) && MultipliersInRange(c.tactics.recon) &&
    MultipliersInRange(c.tactics.defense) && MultipliersInRange(c.tactics.trap) &&
    CombatInRange(c.combat) && PhasesInRange(c.phases)
  }

  // ---- the clamp, section by section ----

  function ClampServer(s: ServerConfig): ServerConfig {
    ServerConfig(ClampInt(s.tickRateMs, 10, 200), ClampInt(s.maxPlayers, 1, 16),
                 ClampInt(s.waitForPlayersTimeoutSec, 5, 300), ClampInt(s.disconnectGraceSec, 0, 600))
  }

  function ClampMap(m: MapConfig): MapConfig {
    MapConfig(ClampInt(m.width, 16, 256), ClampInt(m.height, 16, 256),
              ClampInt(m.aoiGridSize, 4, 64), ClampFloat(m.wallDensity, 0.0, 0.6))
  }

  /** The safe-slot count is clamped to [0, 4] and then lowered to the
      (already clamped) inventory size. */
  function ClampGameplay(g: GameplayConfig): GameplayConfig {
    var inv := ClampInt(g.inventorySize, 1, 12);
    var safe := ClampInt(g.safeSlotCount, 0, 4);
    GameplayConfig(
      inv, if safe > inv then inv else safe,
      ClampFloat(g.baseMoveSpeed, 0.5, 10.0), ClampFloat(g.baseViewRadius, 1.0, 20.0),
      ClampFloat(g.hearRadius, 1.0, 30.0), ClampFloat(g.baseMaxHP, 10.0, 300.0),
      ClampFloat(g.baseMaxWeight, 1.0, 50.0), ClampFloat(g.weightThresholdNoiseDouble, 0.0, 1.0),
      ClampFloat(g.weightThresholdViewReduce, 0.0, 1.0), ClampFloat(g.weightThresholdImmobilize, 0.0, 1.0))
  }

  function ClampTierWeights(t: TierWeights): TierWeights {
    TierWeights(ClampFloat(t.t1, 0.0, 1.0), ClampFloat(t.t2, 0.0, 1.0), ClampFloat(t.t3, 0.0, 1.0))
  }

  function ClampItems(i: ItemsConfig): ItemsConfig {
    ItemsConfig(
      ClampInt(i.initialWorldItemCount, 0, 500), ClampFloat(i.respawnIntervalSec, 0.5, 30.0),
      ClampInt(i.merchantStockSize, 1, 6), ClampInt(i.merchantRefreshCost, 0, 10000),
      PerPhaseInt(ClampInt(i.maxWorldItemCount.phase1, 0, 1000), ClampInt(i.maxWorldItemCount.phase2, 0, 1000),
                  ClampInt(i.maxWorldItemCount.phase3, 0, 1000)),
      TierWeightsByPhase(ClampTierWeights(i.tierWeightsByPhase.phase1), ClampTierWeights(i.tierWeightsByPhase.phase2),
                         ClampTierWeights(i.tierWeightsByPhase.phase3)),
      PerPhaseFloat(ClampFloat(i.scavengeShareByPhase.phase1, 0.0, 1.0), ClampFloat(i.scavengeShareByPhase.phase2, 0.0, 1.0),
                    ClampFloat(i.scavengeShareByPhase.phase3, 0.0, 1.0)),
      ClampFloat(i.tacticFocusShare, 0.0, 1.0))
  }

  function ClampMultipliers(t: TacticMultipliers): TacticMultipliers {
    TacticMultipliers(
      ClampFloat(t.maxHPMult, 0.5, 2.0), ClampFloat(t.moveSpeedMult, 0.5, 2.0),
      ClampFloat(t.viewRadiusMult, 0.5, 2.0), ClampFloat(t.hearRadiusMult, 0.5, 2.0),
      ClampFloat(t.healEffectMult, 0.5, 2.0), ClampFloat(t.damageEffectMult, 0.5, 2.0),
      ClampFloat(t.reconEffectMult, 0.5, 2.0))
  }

  function ClampCombat(c: CombatConfig): CombatConfig {
    CombatConfig(ClampFloat(c.baseAttackDamage, 1.0, 200.0), ClampFloat(c.advancedReconDurationSec, 1.0, 120.0))
  }

  /** The required motor count is clamped to [0, 50] and then lowered to the
      (already clamped) spawn count. */
  function ClampPhases(p: PhasesConfig): PhasesConfig {
    var spawn := ClampInt(p.phase2.motorsSpawnCount, 0, 50);
    var required := ClampInt(p.phase2.motorsRequiredToOpenExit, 0, 50);
    PhasesConfig(
      Phase1Config(ClampInt(p.phase1.duration, 10, 3600)),
      Phase2Config(ClampInt(p.phase2.duration, 10, 3600), spawn,
                   if required > spawn then spawn else required,
                   ClampInt(p.phase2.motorDecipherTimeSec, 1, 120)),
      Phase3Config(ClampInt(p.phase3.extractionSlotsTotal, 0, 8), ClampInt(p.phase3.extractionCooldownSec, 0, 120),
                   ClampInt(p.phase3.globalPulseIntervalSec, 1, 60),
                   ClampFloat(p.phase3.viewRadiusDecayRatePerSec, 0.0, 2.0)))
  }

  /** The value ClampGameConfig leaves behind.  The two rules that relate
      fields: the safe slots fit in the inventory, and no more motors are
      required than spawn. */
  function ClampConfig(c: ConfigData): (r: ConfigData)
    ensures r.gameplay.safeSlotCount <= r.gameplay.inventorySize
    ensures r.phases.phase2.motorsRequiredToOpenExit <= r.phases.phase2.motorsSpawnCount
  {
    ConfigData(ClampServer(c.server), ClampMap(c.mapSection), ClampGameplay(c.gameplay), ClampItems(c.items),
               TacticsConfig(ClampMultipliers(c.tactics.recon), ClampMultipliers(c.tactics.defense),
                             ClampMultipliers(c.tactics.trap)),
               ClampCombat(c.combat), ClampPhases(c.phases))
  }

  // ---- what the clamp guarantees ----

  lemma GameplayClampInRange(g: GameplayConfig)
    ensures GameplayInRange(ClampGameplay(g))
  {
  }

  lemma PhasesClampInRange(p: PhasesConfig)
    ensures PhasesInRange(ClampPhases(p))
  {
  }

  /** After clamping, every field lies in its bound, SafeSlotCount <=
      InventorySize and MotorsRequiredToOpenExit <= MotorsSpawnCount. */
  lemma ClampConfigInRange(c: ConfigData)
    ensures InRange(ClampConfig(c))
  {
    GameplayClampInRange(c.gameplay);
    PhasesClampInRange(c.phases);
  }

  /** A configuration already within every bound is left as it is. */
  lemma ClampConfigKeepsValid(c: ConfigData)
    requires InRange(c)
    ensures ClampConfig(c) == c
  {
    assert ClampServer(c.server) == c.server;
    assert ClampMap(c.mapSection) == c.mapSection;
    assert ClampGameplay(c.gameplay) == c.gameplay;
    assert ClampItems(c.items) == c.items;
    assert ClampMultipliers(c.tactics.recon) == c.tactics.recon;
    assert ClampMultipliers(c.tactics.defense) == c.tactics.defense;
    assert ClampMultipliers(c.tactics.trap) == c.tactics.trap;
    assert ClampCombat(c.combat) == c.combat;
    assert ClampPhases(c.phases) == c.phases;
  }

  /** Clamping twice (as handleCreateRoom does) is the same as clamping once. */
  lemma ClampConfigIdempotent(c: ConfigData)
    ensures ClampConfig(ClampConfig(c)) == ClampConfig(c)
  {
    ClampConfigInRange(c);
    ClampConfigKeepsValid(ClampConfig(c));
  }

  /** A GameConfig, updated in place by ClampGameConfig. */
  class GameConfig {
    var server: ServerConfig
    var mapSection: MapConfig
    var gameplay: GameplayConfig
    var items: ItemsConfig
    var tactics: TacticsConfig
    var combat: CombatConfig
    var phases: PhasesConfig

    function Data(): ConfigData
      reads this
    {
      ConfigData(server, mapSection, gameplay, items, tactics, combat, phases)
    }

    constructor (d: ConfigData)
      ensures Data() == d
    {
      server, mapSection, gameplay, items := d.server, d.mapSection, d.gameplay, d.items;
      tactics, combat, phases := d.tactics, d.combat, d.phases;
    }

    /** The struct copy `cfg := *p`: a fresh object with the same value. */
    method Clone() returns (c: GameConfig)
      ensures fresh(c) && c.Data() == Data()
    {
      c := new GameConfig(Data());
    }
  }

  /** ClampGameConfig: nil is left alone; otherwise every field is overwritten
      with its clamped value, in the source's order. */
  method ClampGameConfig(cfg: GameConfig?)
    modifies cfg
    ensures cfg != null ==> cfg.Data() == ClampConfig(old(cfg.Data()))
  {
    if cfg == null {
      return;
    }
    // server
    var server := cfg.server;
    server := server.(tickRateMs := ClampInt(server.tickRateMs, 10, 200));
    server := server.(maxPlayers := ClampInt(server.maxPlayers, 1, 16));
    server := server.(waitForPlayersTimeoutSec := ClampInt(server.waitForPlayersTimeoutSec, 5, 300));
    server := server.(disconnectGraceSec := ClampInt(server.disconnectGraceSec, 0, 600));
    assert server == ClampServer(cfg.server);
    cfg.server := server;
    // map
    var mapSection := cfg.mapSection;
    mapSection := mapSection.(width := ClampInt(mapSection.width, 16, 256));
    mapSection := mapSection.(height := ClampInt(mapSection.height, 16, 256));
    mapSection := mapSection.(aoiGridSize := ClampInt(mapSection.aoiGridSize, 4, 64));
    mapSection := mapSection.(wallDensity := ClampFloat(mapSection.wallDensity, 0.0, 0.6));
    assert mapSection == ClampMap(cfg.mapSection);
    cfg.mapSection := mapSection;
    // gameplay
    var gameplay := cfg.gameplay;
    gameplay := gameplay.(inventorySize := ClampInt(gameplay.inventorySize, 1, 12));
    gameplay := gameplay.(safeSlotCount := ClampInt(gameplay.safeSlotCount, 0, 4));
    if gameplay.safeSlotCount > gameplay.inventorySize {
      gameplay := gameplay.(safeSlotCount := gameplay.inventorySize);
    }
    gameplay := gameplay.(baseMoveSpeed := ClampFloat(gameplay.baseMoveSpeed, 0.5, 10.0));
    gameplay := gameplay.(baseViewRadius := ClampFloat(gameplay.baseViewRadius, 1.0, 20.0));
    gameplay := gameplay.(hearRadius := ClampFloat(gameplay.hearRadius, 1.0, 30.0));
    gameplay := gameplay.(baseMaxHP := ClampFloat(gameplay.baseMaxHP, 10.0, 300.0));
    gameplay := gameplay.(baseMaxWeight := ClampFloat(gameplay.baseMaxWeight, 1.0, 50.0));
    gameplay := gameplay.(weightThresholdNoiseDouble := ClampFloat(gameplay.weightThresholdNoiseDouble, 0.0, 1.0));
    gameplay := gameplay.(weightThresholdViewReduce := ClampFloat(gameplay.weightThresholdViewReduce, 0.0, 1.0));
    gameplay := gameplay.(weightThresholdImmobilize := ClampFloat(gameplay.weightThresholdImmobilize, 0.0, 1.0));
    assert gameplay == ClampGameplay(cfg.gameplay);
    cfg.gameplay := gameplay;
    // items
    var items := cfg.items;
    items := items.(initialWorldItemCount := ClampInt(items.initialWorldItemCount, 0, 500));
    items := items.(respawnIntervalSec := ClampFloat(items.respawnIntervalSec, 0.5, 30.0));
    items := items.(merchantStockSize := ClampInt(items.merchantStockSize, 1, 6));
    items := items.(merchantRefreshCost := ClampInt(items.merchantRefreshCost, 0, 10000));
    items := items.(maxWorldItemCount := items.maxWorldItemCount.(phase1 := ClampInt(items.maxWorldItemCount.phase1, 0, 1000)));
    items := items.(maxWorldItemCount := items.maxWorldItemCount.(phase2 := ClampInt(items.maxWorldItemCount.phase2, 0, 1000)));
    items := items.(maxWorldItemCount := items.maxWorldItemCount.(phase3 := ClampInt(items.maxWorldItemCount.phase3, 0, 1000)));
    var tw := items.tierWeightsByPhase;
    tw := tw.(phase1 := ClampTierWeights(tw.phase1));
    tw := tw.(phase2 := ClampTierWeights(tw.phase2));
    tw := tw.(phase3 := ClampTierWeights(tw.phase3));
    items := items.(tierWeightsByPhase := tw);
    items := items.(scavengeShareByPhase := items.scavengeShareByPhase.(phase1 := ClampFloat(items.scavengeShareByPhase.phase1, 0.0, 1.0)));
    items := items.(scavengeShareByPhase := items.scavengeShareByPhase.(phase2 := ClampFloat(items.scavengeShareByPhase.phase2, 0.0, 1.0)));
    items := items.(scavengeShareByPhase := items.scavengeShareByPhase.(phase3 := ClampFloat(items.scavengeShareByPhase.phase3, 0.0, 1.0)));
    items := items.(tacticFocusShare := ClampFloat(items.tacticFocusShare, 0.0, 1.0));
    assert items == ClampItems(cfg.items);
    cfg.items := items;
    // tactics multipliers
    var tactics := cfg.tactics;
    tactics := tactics.(recon := ClampMultipliers(tactics.recon));
    tactics := tactics.(defense := ClampMultipliers(tactics.defense));
    tactics := tactics.(trap := ClampMultipliers(tactics.trap));
    cfg.tactics := tactics;
    // combat
    var combat := cfg.combat;
    combat := combat.(baseAttackDamage := ClampFloat(combat.baseAttackDamage, 1.0, 200.0));
    combat := combat.(advancedReconDurationSec := ClampFloat(combat.advancedReconDurationSec, 1.0, 120.0));
    assert combat == ClampCombat(cfg.combat);
    cfg.combat := combat;
    // phases
    var phases := cfg.phases;
    phases := phases.(phase1 := phases.phase1.(duration := ClampInt(phases.phase1.duration, 10, 3600)));
    phases := phases.(phase2 := phases.phase2.(duration := ClampInt(phases.phase2.duration, 10, 3600)));
    phases := phases.(phase2 := phases.phase2.(motorsSpawnCount := ClampInt(phases.phase2.motorsSpawnCount, 0, 50)));
    phases := phases.(phase2 := phases.phase2.(motorsRequiredToOpenExit := ClampInt(phases.phase2.motorsRequiredToOpenExit, 0, 50)));
    if phases.phase2.motorsRequiredToOpenExit > phases.phase2.motorsSpawnCount {
      phases := phases.(phase2 := phases.phase2.(motorsRequiredToOpenExit := phases.phase2.motorsSpawnCount));
    }
    phases := phases.(phase2 := phases.phase2.(motorDecipherTimeSec := ClampInt(phases.phase2.motorDecipherTimeSec, 1, 120)));
    phases := phases.(phase3 := phases.phase3.(extractionSlotsTotal := ClampInt(phases.phase3.extractionSlotsTotal, 0, 8)));
    phases := phases.(phase3 := phases.phase3.(extractionCooldownSec := ClampInt(phases.phase3.extractionCooldownSec, 0, 120)));
    phases := phases.(phase3 := phases.phase3.(globalPulseIntervalSec := ClampInt(phases.phase3.globalPulseIntervalSec, 1, 60)));
    phases := phases.(phase3 := phases.phase3.(viewRadiusDecayRatePerSec := ClampFloat(phases.phase3.viewRadiusDecayRatePerSec, 0.0, 2.0)));
    assert phases == ClampPhases(cfg.phases);
    cfg.phases := phases;
  }
}
