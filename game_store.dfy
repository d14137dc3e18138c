/** The game store (src/store/useGameStore.ts:540-926): a class whose fields are the store's state
    and whose methods are its actions. Each action writes the fields it changes, and the frame of
    each method names exactly those fields and the storage keys it writes. Random draws and clock
    readings are parameters. */
module GameStore {
  import opened Wrappers
  import opened GameTypes
  import opened JsText
  import opened Progression
  import opened Items
  import opened QuestChain
  import opened SkillBook
  import opened Daily
  import opened QuestionGen
  import opened SaveGame

  /** The battle under way, or the last one. */
  datatype BattleContext = BattleContext(
    isActive: bool,
    enemyId: Option<string>,
    enemyType: Option<EnemyType>,
    subject: Option<Zone>,
    difficulty: int,
    currentQuestion: Option<Question>,
    zone: Zone,
    attempts: int,
    activeSkillEffect: Option<SkillEffect>,
    skillUsedThisBattle: bool)

  const NoBattle: BattleContext := BattleContext(false, None, None, None, 1, None, Math, 0, None, false)

  /** `DEFAULT_PLAYER`: a level-1 mage. */
  const DefaultPlayer: Player :=
    Player(None, "Маг-Ученик", 1, 0, 100, 0, 1, 1, 80, 80, Appearance(Mage, "light", "brown"), 1.2)

  /** The hit points lost per lost battle. */
  const LossDamage: int := 10
  /** The hit points a health potion restores, up to the maximum. */
  const PotionHeal: int := 30

  /** The level a question is generated for: the subject's own level, the overall one for geometry. */
  function RelLevel(p: Player, subject: Zone): (r: int)
    ensures subject == Math ==> r == p.mathLevel
    ensures subject == Russian ==> r == p.rusLevel
    ensures subject == Geometry ==> r == p.level
  {
    match subject
    case Math => p.mathLevel
    case Russian => p.rusLevel
    case Geometry => p.level
  }

  /** `enemyData.difficulty || 1`: a missing (zero) difficulty counts as 1. */
  function Difficulty(d: int): (r: int)
    ensures r != 0
    ensures d == 0 ==> r == 1
    ensures d != 0 ==> r == d
  {
    if d == 0 then 1 else d
  }

  /** The player after a won battle, before the daily-quest rewards. */
  function Victor(p: Player, reward: Reward, effect: Option<SkillEffect>, subject: Option<Zone>): Player
  {
    Credit(p, XpGain(reward.xp, effect, p.xpMult), GoldGain(reward.gold, effect), subject)
  }

  /** A victory raises xp by the scaled reward and gold by the doubled-or-not reward; the class
      multiplier scales xp and never gold; the level rises by at most one. */
  lemma VictorGains(p: Player, reward: Reward, effect: Option<SkillEffect>, subject: Option<Zone>)
    ensures var q := Victor(p, reward, effect, subject);
      && q.xp == p.xp + Round(reward.xp as real * XpFactor(effect) * p.xpMult)
      && q.gold == p.gold + reward.gold * GoldFactor(effect)
      && p.level <= q.level <= p.level + 1
      && (q.level == p.level + 1 <==> q.xp >= XpToNext(p.level))
      && Victor(p.(xpMult := 1.0), reward, effect, subject).gold == q.gold
  {
  }

  /** The loot of a won battle as `lastDrop` shows it. */
  function DropShown(drop: Option<ItemDef>): (r: Option<InventoryItem>)
    ensures drop.None? <==> r.None?
    ensures drop.Some? ==> r == Some(InventoryItem(drop.value.id, drop.value.kind, 1))
  {
    match drop
    case None => None
    case Some(d) => Some(InventoryItem(d.id, d.kind, 1))
  }

  /** The inventory with the loot, if any, merged in. */
  function WithDrop(inv: seq<InventoryItem>, drop: Option<ItemDef>): seq<InventoryItem>
  {
    if drop.Some? then Grant(inv, drop.value) else inv
  }

  /** The hit points after a potion: `health_potion` heals up to the maximum; any other item
      leaves them alone. */
  function AfterItem(p: Player, itemId: string): (q: Player)
    ensures itemId == HealthPotion.id ==> q == p.(hp := Min(p.hp + PotionHeal, p.maxHp))
    ensures itemId != HealthPotion.id ==> q == p
    ensures 0 <= p.hp <= p.maxHp ==> 0 <= q.hp <= q.maxHp
  {
    if itemId == HealthPotion.id then p.(hp := Min(p.hp + PotionHeal, p.maxHp)) else p
  }

  /** `claimDailyBonus` pays only for a day whose quests are all completed and whose bonus is
      still unclaimed. */
  predicate BonusAdmits(d: Option<DailyQuestData>)
  {
    d.Some? && !d.value.bonusClaimed && AllCompleted(d.value)
  }

  /** Claiming is idempotent: once the flag is set the bonus is refused. */
  lemma BonusOnce(d: Option<DailyQuestData>)
    requires d.Some?
    ensures !BonusAdmits(Some(d.value.(bonusClaimed := true)))
    ensures !BonusAdmits(d) <== d.value.bonusClaimed
  {
  }

  /** The skill `useSkill` arms: the first unlocked one with the id, unless a skill was used in
      this battle already. */
  function SkillToArm(battle: BattleContext, skills: seq<Skill>, id: string): (r: Option<Skill>)
    ensures battle.skillUsedThisBattle ==> r.None?
    ensures !battle.skillUsedThisBattle ==> r == FindUnlocked(skills, id)
  {
    if battle.skillUsedThisBattle then None else FindUnlocked(skills, id)
  }

  /** One skill per battle: after a skill is armed no skill can be armed until the flag is reset. */
  lemma OneSkillPerBattle(battle: BattleContext, skills: seq<Skill>, id: string, other: string)
    requires SkillToArm(battle, skills, id).Some?
    ensures var b := battle.(activeSkillEffect := Some(SkillToArm(battle, skills, id).value.effect),
                             skillUsedThisBattle := true);
      SkillToArm(b, skills, other).None?
  {
  }

  /** The store's invariant on its parts: the player is consistent with its level, every skill of
      that level is unlocked, the zones of that level are open, inventory ids are unique with
      positive quantities, and quest ids are unique. */
  ghost predicate ValidState(p: Player, skills: seq<Skill>, rus: bool, geo: bool, inv: seq<InventoryItem>, qs: seq<Quest>)
  {
    && PlayerConsistent(p)
    && (forall i :: 0 <= i < |skills| && skills[i].unlockLevel <= p.level ==> skills[i].unlocked)
    && (p.level >= RusZoneLevel ==> rus)
    && (p.level >= GeoZoneLevel ==> geo)
    && WellFormed(inv)
    && UniqueIds(qs)
  }

  /** The parts of the store that a win or a quest completion replace together. */
  datatype Progress = Progress(player: Player, skills: seq<Skill>, rusZoneUnlocked: bool, geoZoneUnlocked: bool,
                               inventory: seq<InventoryItem>, quests: seq<Quest>)
  {
    ghost predicate Valid()
    {
      ValidState(player, skills, rusZoneUnlocked, geoZoneUnlocked, inventory, quests)
    }
  }

  /** The parts `loadSave` rebuilds from a save blob: skills recomputed from the saved level, a
      missing zone flag read as closed and missing quests as the initial chain. */
  function Reloaded(s: SaveData): Progress
  {
    Progress(s.player, SkillsAtLevel(s.player.level), s.rusZoneUnlocked.GetOr(false),
             s.geoZoneUnlocked.GetOr(false), s.inventory, s.quests.GetOr(InitialQuests))
  }

  /** Saving a valid state and loading it back gives a valid state again. The save written after a
      lost battle records the geometry zone as closed; loading that one back is valid exactly
      when the player is below the geometry zone's level. */
  lemma ReloadKeepsValid(p: Player, skills: seq<Skill>, rus: bool, geo: bool, inv: seq<InventoryItem>,
                         qs: seq<Quest>, diagnosticDone: bool, now: int)
    requires ValidState(p, skills, rus, geo, inv, qs)
    ensures Reloaded(Snapshot(p, inv, qs, diagnosticDone, rus, geo, now)).Valid()
    ensures Reloaded(Snapshot(p, inv, qs, diagnosticDone, rus, false, now)).Valid() <==> p.level < GeoZoneLevel
  {
  }

  /** Crediting xp and gold, then opening the zones and skills of the level reached, with the
      given inventory and quests. */
  function Credited(s: Progress, xp: int, gold: int, subject: Option<Zone>,
                    inventory: seq<InventoryItem>, quests: seq<Quest>): (r: Progress)
    ensures s.player.level <= r.player.level <= s.player.level + 1
    ensures (s.rusZoneUnlocked ==> r.rusZoneUnlocked) && (s.geoZoneUnlocked ==> r.geoZoneUnlocked)
    ensures |r.skills| == |s.skills| && forall i :: 0 <= i < |s.skills| && s.skills[i].unlocked ==> r.skills[i].unlocked
  {
    var p := Credit(s.player, xp, gold, subject);
    Progress(p, UnlockSkills(s.skills, p.level), ZoneFlag(s.rusZoneUnlocked, p.level, RusZoneLevel),
             ZoneFlag(s.geoZoneUnlocked, p.level, GeoZoneLevel), inventory, quests)
  }

  /** Crediting keeps the invariant: the player stays consistent through the recomputed maxHp, and
      the zones and skills of the new level are open. */
  lemma CreditedKeepsValid(s: Progress, xp: int, gold: int, subject: Option<Zone>,
                           inventory: seq<InventoryItem>, quests: seq<Quest>)
    requires s.Valid() && WellFormed(inventory) && UniqueIds(quests)
    ensures Credited(s, xp, gold, subject, inventory, quests).Valid()
  {
    CreditKeepsConsistency(s.player, xp, gold, subject);
  }

  /** A won battle, up to the daily quests: the zone's kill quests advance and the chains open,
      the scaled reward is credited, and the loot is merged in. */
  function Win(s: Progress, battle: BattleContext, reward: Reward, drop: Option<ItemDef>): (r: Progress)
    ensures s.player.level <= r.player.level <= s.player.level + 1
  {
    var quests := Unlock(AdvanceKills(s.quests, battle.zone), true);
    var e := battle.activeSkillEffect;
    Credited(s, XpGain(reward.xp, e, s.player.xpMult), GoldGain(reward.gold, e), battle.subject,
             WithDrop(s.inventory, drop), quests)
  }

  /** A win keeps the invariant, and moves every quest along an edge of the state machine. */
  lemma WinKeepsValid(s: Progress, battle: BattleContext, reward: Reward, drop: Option<ItemDef>)
    ensures s.Valid() ==> Win(s, battle, reward, drop).Valid()
    ensures StepsOnly(s.quests, Win(s, battle, reward, drop).quests)
  {
    var advanced := AdvanceKills(s.quests, battle.zone);
    var quests := Unlock(advanced, true);
    WinStepsOnly(s.quests, battle.zone);
    if s.Valid() {
      WithDropKeepsWellFormed(s.inventory, drop);
      PassesKeepIds(s.quests, battle.zone, true, "");
      PassesKeepIds(advanced, battle.zone, true, "");
      SameIdsKeepUnique(s.quests, advanced);
      SameIdsKeepUnique(advanced, quests);
      var e := battle.activeSkillEffect;
      CreditedKeepsValid(s, XpGain(reward.xp, e, s.player.xpMult), GoldGain(reward.gold, e), battle.subject,
                         WithDrop(s.inventory, drop), quests);
    }
  }
  /** What a win amounts to, component by component: the zone's kill quests advance and the
      chains open; the reward, scaled by the armed skill and, for xp, the class multiplier, is
      credited with a single-step level-up; the zones and skills of the level reached open; the
      loot is merged. */
  lemma WinComponents(s: Progress, battle: BattleContext, reward: Reward, drop: Option<ItemDef>)
    ensures var r := Win(s, battle, reward, drop);
      var won := Victor(s.player, reward, battle.activeSkillEffect, battle.subject);
      && r.player == won
      && r.quests == Unlock(AdvanceKills(s.quests, battle.zone), true)
      && r.rusZoneUnlocked == ZoneFlag(s.rusZoneUnlocked, won.level, RusZoneLevel)
      && r.geoZoneUnlocked == ZoneFlag(s.geoZoneUnlocked, won.level, GeoZoneLevel)
      && r.skills == UnlockSkills(s.skills, won.level)
      && r.inventory == WithDrop(s.inventory, drop)
  {
  }


  /** A completed quest, once the guard has passed: its xp and gold credited without the class
      multiplier, its item granted, the quest marked completed and its successor opened. */
  function Complete(s: Progress, q: Quest, id: string): (r: Progress)
    ensures s.player.level <= r.player.level <= s.player.level + 1
  {
    Credited(s, q.reward.xp, q.reward.gold, None, WithDrop(s.inventory, q.reward.item), CompleteQuests(s.quests, id))
  }

  /** Completing keeps the invariant, and a ready quest moves to completed along an edge of the
      state machine. */
  lemma CompleteKeepsValid(s: Progress, q: Quest, id: string)
    requires s.Valid()
    ensures Complete(s, q, id).Valid()
    ensures FindQuest(s.quests, id) == Some(q) && q.status == Ready ==> StepsOnly(s.quests, Complete(s, q, id).quests)
  {
    var marked := MarkCompleted(s.quests, id);
    var quests := CompleteQuests(s.quests, id);
    WithDropKeepsWellFormed(s.inventory, q.reward.item);
    PassesKeepIds(s.quests, q.goal.zone, false, id);
    PassesKeepIds(marked, q.goal.zone, false, id);
    SameIdsKeepUnique(s.quests, marked);
    SameIdsKeepUnique(marked, quests);
    if FindQuest(s.quests, id) == Some(q) && q.status == Ready {
      CompleteStepsOnly(s.quests, id);
    }
    CreditedKeepsValid(s, q.reward.xp, q.reward.gold, None, WithDrop(s.inventory, q.reward.item), quests);
  }

  /** Xp and gold play no part in the invariant. */
  lemma PurseKeepsValid(p: Player, skills: seq<Skill>, rus: bool, geo: bool, inv: seq<InventoryItem>, qs: seq<Quest>,
                        xp: int, gold: int)
    requires ValidState(p, skills, rus, geo, inv, qs)
    ensures ValidState(p.(xp := xp, gold := gold), skills, rus, geo, inv, qs)
  {
  }

  /** Using an owned item keeps the invariant. */
  lemma UseKeepsValid(p: Player, skills: seq<Skill>, rus: bool, geo: bool, inv: seq<InventoryItem>, qs: seq<Quest>,
                      itemId: string)
    requires ValidState(p, skills, rus, geo, inv, qs) && HasItem(inv, itemId)
    ensures ValidState(AfterItem(p, itemId), skills, rus, geo, Consume(inv, itemId), qs)
  {
    ConsumeRemovesOne(inv, itemId, itemId);
  }

  lemma WithDropKeepsWellFormed(inv: seq<InventoryItem>, drop: Option<ItemDef>)
    requires WellFormed(inv)
    ensures WellFormed(WithDrop(inv, drop))
  {
    if drop.Some? {
      GrantAddsOne(inv, drop.value, drop.value.id);
    }
  }

  /** The kit of a new character: the starter items, and a shield rune for an archer. */
  function StartingKit(cls: CharacterClass): (inv: seq<InventoryItem>)
    ensures WellFormed(inv)
    ensures forall x :: Quantity(inv, x) == Quantity(StarterItems, x) + (if cls == Archer && x == ShieldRune.id then 1 else 0)
  {
    if cls == Archer then
      QuantityAppend(StarterItems, InventoryItem(ShieldRune.id, ShieldRune.kind, 1), ShieldRune.id);
      forall x ensures Quantity(StarterItems + [InventoryItem(ShieldRune.id, ShieldRune.kind, 1)], x)
                       == Quantity(StarterItems, x) + (if x == ShieldRune.id then 1 else 0) {
        QuantityAppend(StarterItems, InventoryItem(ShieldRune.id, ShieldRune.kind, 1), x);
      }
      StarterItems + [InventoryItem(ShieldRune.id, ShieldRune.kind, 1)]
    else
      StarterItems
  }

  /** The character `initPlayer` creates: the default player renamed (unless the trimmed name is
      empty), of the chosen looks and class, with that class's multiplier and full base hp. */
  function NewCharacter(name: string, appearance: Appearance): Player
  {
    var trimmed := Trim(name);
    var baseHp := BaseHp(appearance.cls);
    DefaultPlayer.(name := if trimmed == "" then DefaultPlayer.name else trimmed,
                   appearance := appearance, xpMult := ClassXpMult(appearance.cls),
                   hp := baseHp, maxHp := baseHp)
  }

  /** A new character starts in a state that satisfies the invariant. */
  lemma NewCharacterValid(name: string, appearance: Appearance)
    ensures ValidState(NewCharacter(name, appearance), SkillsAtLevel(1), false, false,
                       StartingKit(appearance.cls), InitialQuests)
  {
    InitialQuestsUnique();
  }

  /** The observable state of the store together with the storage keys a battle's end writes. */
  datatype StoreState = StoreState(
    gameState: GameState, player: Player, battle: BattleContext, inventory: seq<InventoryItem>,
    lastDrop: Option<InventoryItem>, quests: seq<Quest>, diagnosticDone: bool,
    rusZoneUnlocked: bool, geoZoneUnlocked: bool, skills: seq<Skill>,
    dailyQuests: Option<DailyQuestData>, wins: int,
    writable: bool, save: Stored<SaveData>, daily: Stored<DailyQuestData>, board: Stored<seq<LeaderboardEntry>>)

  function ProgressOf(s: StoreState): Progress
  {
    Progress(s.player, s.skills, s.rusZoneUnlocked, s.geoZoneUnlocked, s.inventory, s.quests)
  }

  /** The entries `loadLeaderboard` reads from the stored board. */
  function BoardOf(s: StoreState): seq<LeaderboardEntry>
  {
    if s.board.Present? then s.board.value else []
  }

  /** The lost battle of `finishBattle`: ten hit points lost, never below zero; death exactly when
      none remain; a survivor is saved with the geometry flag written as false (the call passes
      five arguments and the sixth defaults); the battle is closed but the armed skill stays
      armed and marked used. Nothing else changes. */
  predicate LossOutcome(s: StoreState, now: int, e: StoreState)
  {
    var p := s.player.(hp := Max(0, s.player.hp - LossDamage));
    e == s.(player := p,
            gameState := if p.hp == 0 then Death else Playing,
            battle := s.battle.(isActive := false, enemyId := None, currentQuestion := None),
            save := if p.hp > 0 && s.writable
                    then Present(Snapshot(p, s.inventory, s.quests, s.diagnosticDone, s.rusZoneUnlocked, false, now))
                    else s.save)
  }

  /** The progress step of a won battle: the battle's outcome credited (see Win), the loot shown,
      and the state saved. */
  predicate CreditStep(s: StoreState, reward: Reward, roll: int, now: int, m: StoreState)
  {
    var w := Win(ProgressOf(s), s.battle, reward, DropFor(roll));
    m == s.(player := w.player, skills := w.skills, rusZoneUnlocked := w.rusZoneUnlocked,
            geoZoneUnlocked := w.geoZoneUnlocked, inventory := w.inventory, quests := w.quests,
            lastDrop := DropShown(DropFor(roll)),
            save := if s.writable
                    then Present(Snapshot(w.player, w.inventory, w.quests, s.diagnosticDone,
                                          w.rusZoneUnlocked, w.geoZoneUnlocked, now))
                    else s.save)
  }

  /** The closing step of a won battle: the day's entries of the zone advance and the rewards of
      those completed are paid, the day is saved, the leaderboard gets the paid player and one
      more win, and the battle is closed with the armed skill cleared. */
  predicate CloseStep(m: StoreState, now: int, e: StoreState)
  {
    var zone := m.battle.zone;
    var dq := if m.dailyQuests.Some? then Some(m.dailyQuests.value.(quests := AdvanceAll(m.dailyQuests.value.quests, zone)))
              else None;
    var paid := if m.dailyQuests.Some?
                then m.player.(xp := m.player.xp + Paid(m.dailyQuests.value.quests, zone, false),
                               gold := m.player.gold + Paid(m.dailyQuests.value.quests, zone, true))
                else m.player;
    e == m.(player := paid, dailyQuests := dq,
            daily := if m.writable && dq.Some? then Present(dq.value) else m.daily,
            wins := m.wins + 1,
            board := if m.writable then Present(RankedBoard(BoardOf(m), EntryFor(paid, m.wins + 1, now))) else m.board,
            gameState := Playing,
            battle := m.battle.(isActive := false, enemyId := None, currentQuestion := None,
                                activeSkillEffect := None, skillUsedThisBattle := false))
  }

  /** The won battle of `finishBattle`: the zone's kill quests advance and the chains open (a
      ready predecessor counts); the reward, scaled by the armed skill and, for xp, the class
      multiplier, is credited with a single-step level-up; zones and skills of the new level
      open; the loot is merged and shown; the state is saved; then the daily quests of the zone
      advance and pay, the daily data is saved, and the leaderboard gets the paid player and one
      more win. The battle is closed and the armed skill cleared. */
  predicate WinOutcome(s: StoreState, reward: Reward, roll: int, now: int, e: StoreState)
  {
    var w := Win(ProgressOf(s), s.battle, reward, DropFor(roll));
    var zone := s.battle.zone;
    var dq := if s.dailyQuests.Some? then Some(s.dailyQuests.value.(quests := AdvanceAll(s.dailyQuests.value.quests, zone)))
              else None;
    var paid := if s.dailyQuests.Some?
                then w.player.(xp := w.player.xp + Paid(s.dailyQuests.value.quests, zone, false),
                               gold := w.player.gold + Paid(s.dailyQuests.value.quests, zone, true))
                else w.player;
    e == s.(player := paid, skills := w.skills, rusZoneUnlocked := w.rusZoneUnlocked,
            geoZoneUnlocked := w.geoZoneUnlocked, inventory := w.inventory, quests := w.quests,
            lastDrop := DropShown(DropFor(roll)),
            save := if s.writable
                    then Present(Snapshot(w.player, w.inventory, w.quests, s.diagnosticDone,
                                          w.rusZoneUnlocked, w.geoZoneUnlocked, now))
                    else s.save,
            dailyQuests := dq,
            daily := if s.writable && dq.Some? then Present(dq.value) else s.daily,
            wins := s.wins + 1,
            board := if s.writable then Present(RankedBoard(BoardOf(s), EntryFor(paid, s.wins + 1, now))) else s.board,
            gameState := Playing,
            battle := s.battle.(isActive := false, enemyId := None, currentQuestion := None,
                                activeSkillEffect := None, skillUsedThisBattle := false))
  }

  /** The daily-quest part of the closing step: the day's entries of the zone advance and the day
      is saved; `q` is `p` paid for the entries completed. Without daily data nothing happens. */
  predicate DailyStep(m: StoreState, zone: Zone, p: Player, q: Player, e: StoreState)
  {
    if m.dailyQuests.None? then q == p && e == m
    else
      var d := m.dailyQuests.value;
      var dq := d.(quests := AdvanceAll(d.quests, zone));
      && q == p.(xp := p.xp + Paid(d.quests, zone, false), gold := p.gold + Paid(d.quests, zone, true))
      && e == m.(dailyQuests := Some(dq), daily := if m.writable then Present(dq) else m.daily)
  }

  /** The leaderboard part of the closing step: the paid player `p` takes the credited one's
      place, the leaderboard gets it with one more win, and the battle is closed with the armed
      skill cleared. */
  predicate RecordStep(m: StoreState, p: Player, now: int, e: StoreState)
  {
    e == m.(player := p, wins := m.wins + 1,
            board := if m.writable then Present(RankedBoard(BoardOf(m), EntryFor(p, m.wins + 1, now))) else m.board,
            gameState := Playing,
            battle := m.battle.(isActive := false, enemyId := None, currentQuestion := None,
                                activeSkillEffect := None, skillUsedThisBattle := false))
  }

  /** The closing step is its daily-quest part followed by its leaderboard part. */
  lemma CloseBySteps(m: StoreState, now: int, q: Player, m1: StoreState, e: StoreState)
    requires DailyStep(m, m.battle.zone, m.player, q, m1) && RecordStep(m1, q, now, e)
    ensures CloseStep(m, now, e)
  {
    if m.dailyQuests.Some? {
      CloseWithDaily(m, now, q, m1, e);
    } else {
      assert m1 == m && q == m.player;
    }
  }

  /** CloseBySteps with daily data. */
  lemma CloseWithDaily(m: StoreState, now: int, q: Player, m1: StoreState, e: StoreState)
    requires m.dailyQuests.Some?
    requires DailyStep(m, m.battle.zone, m.player, q, m1) && RecordStep(m1, q, now, e)
    ensures CloseStep(m, now, e)
  {
    var d := m.dailyQuests.value;
    var dq := d.(quests := AdvanceAll(d.quests, m.battle.zone));
    assert m1 == m.(dailyQuests := Some(dq), daily := if m.writable then Present(dq) else m.daily);
    assert BoardOf(m1) == BoardOf(m);
  }

  /** The progress step keeps the invariant (see WinKeepsValid). */
  lemma CreditKeepsValid(s: StoreState, reward: Reward, roll: int, now: int, m: StoreState)
    requires CreditStep(s, reward, roll, now, m) && ProgressOf(s).Valid()
    ensures ProgressOf(m).Valid()
  {
    WinKeepsValid(ProgressOf(s), s.battle, reward, DropFor(roll));
  }

  /** The closing step keeps the invariant: it changes only the player's xp and gold. */
  lemma CloseKeepsValid(m: StoreState, now: int, e: StoreState)
    requires CloseStep(m, now, e) && ProgressOf(m).Valid()
    ensures ProgressOf(e).Valid()
  {
    var p := m.player;
    PurseKeepsValid(p, m.skills, m.rusZoneUnlocked, m.geoZoneUnlocked, m.inventory, m.quests, e.player.xp, e.player.gold);
  }

  /** A win is its progress step followed by its closing step. */
  lemma WinBySteps(s: StoreState, reward: Reward, roll: int, now: int, m: StoreState, e: StoreState)
    requires CreditStep(s, reward, roll, now, m) && CloseStep(m, now, e)
    ensures WinOutcome(s, reward, roll, now, e)
  {
  }

  /** What a lost battle amounts to: ten hit points lost, never below zero; death exactly when
      at most ten remained, and then no save; the battle closed with the armed skill and its
      used flag kept; no reward, quest, inventory, daily or leaderboard change. */
  lemma LossEffects(s: StoreState, now: int, e: StoreState)
    requires LossOutcome(s, now, e)
    ensures e.player == s.player.(hp := Max(0, s.player.hp - LossDamage))
    ensures e.gameState == Death <==> s.player.hp <= LossDamage
    ensures e.gameState != Death ==> e.gameState == Playing
    ensures e.gameState == Death ==> e.save == s.save
    ensures !e.battle.isActive && e.battle.enemyId.None? && e.battle.currentQuestion.None?
    ensures e.battle.activeSkillEffect == s.battle.activeSkillEffect
    ensures e.battle.skillUsedThisBattle == s.battle.skillUsedThisBattle
    ensures e.inventory == s.inventory && e.quests == s.quests && e.skills == s.skills && e.wins == s.wins
    ensures e.dailyQuests == s.dailyQuests && e.daily == s.daily && e.board == s.board
  {
  }

  /** What a won battle amounts to: the level rises by at most one and only through the
      battle's reward (the daily rewards come after the level-up check); the save holds the
      player before the daily rewards; hp stays within [0, maxHp]; zones and skills never close;
      one more win; the armed skill and its used flag are reset. */
  lemma WinEffects(s: StoreState, reward: Reward, roll: int, now: int, e: StoreState)
    requires WinOutcome(s, reward, roll, now, e)
    ensures var won := Victor(s.player, reward, s.battle.activeSkillEffect, s.battle.subject);
      && e.player.level == won.level
      && s.player.level <= e.player.level <= s.player.level + 1
      && (e.player.level == s.player.level + 1 <==> won.xp >= XpToNext(s.player.level))
      && e.player.xp == won.xp + (if s.dailyQuests.Some? then Paid(s.dailyQuests.value.quests, s.battle.zone, false) else 0)
      && e.player.gold == won.gold + (if s.dailyQuests.Some? then Paid(s.dailyQuests.value.quests, s.battle.zone, true) else 0)
      && (s.writable ==> e.save.Present? && e.save.value.player == won)
    ensures PlayerConsistent(s.player) ==> PlayerConsistent(e.player)
    ensures (s.rusZoneUnlocked ==> e.rusZoneUnlocked) && (s.geoZoneUnlocked ==> e.geoZoneUnlocked)
    ensures e.wins == s.wins + 1 && e.gameState == Playing
    ensures e.battle.activeSkillEffect.None? && !e.battle.skillUsedThisBattle && !e.battle.isActive
  {
    var won := Victor(s.player, reward, s.battle.activeSkillEffect, s.battle.subject);
    WinComponents(ProgressOf(s), s.battle, reward, DropFor(roll));
    VictorGains(s.player, reward, s.battle.activeSkillEffect, s.battle.subject);
    if PlayerConsistent(s.player) {
      CreditKeepsConsistency(s.player, XpGain(reward.xp, s.battle.activeSkillEffect, s.player.xpMult),
                             GoldGain(reward.gold, s.battle.activeSkillEffect), s.battle.subject);
    }
  }

  class Store {
    var gameState: GameState
    var player: Player
    var battle: BattleContext
    var inventory: seq<InventoryItem>
    var lastDrop: Option<InventoryItem>
    var quests: seq<Quest>
    var diagnosticDone: bool
    var rusZoneUnlocked: bool
    var geoZoneUnlocked: bool
    var skills: seq<Skill>
    var dailyQuests: Option<DailyQuestData>
    var wins: int
    /** The browser's `localStorage`. */
    const storage: Storage

    /** The store's invariant (see ValidState). */
    ghost predicate Valid()
      reads this`player, this`skills, this`rusZoneUnlocked, this`geoZoneUnlocked, this`inventory, this`quests
    {
      Parts().Valid()
    }

    function Parts(): Progress
      reads this`player, this`skills, this`rusZoneUnlocked, this`geoZoneUnlocked, this`inventory, this`quests
    {
      Progress(player, skills, rusZoneUnlocked, geoZoneUnlocked, inventory, quests)
    }

    /** The blob a `saveGame` call with the current state would write. */
    function Current(now: int): SaveData
      reads this`player, this`inventory, this`quests, this`diagnosticDone, this`rusZoneUnlocked, this`geoZoneUnlocked
    {
      Snapshot(player, inventory, quests, diagnosticDone, rusZoneUnlocked, geoZoneUnlocked, now)
    }

    /** The battle gate of the map (src/game/scenes/MainMap.ts:1114-1121): no battle while one is
        under way or outside free play, and none in a zone still locked. */
    predicate BattleGateOpen(zone: Zone)
      reads this`gameState, this`battle, this`rusZoneUnlocked, this`geoZoneUnlocked
    {
      && gameState == Playing
      && !battle.isActive
      && (zone == Russian ==> rusZoneUnlocked)
      && (zone == Geometry ==> geoZoneUnlocked)
    }

    /** The store as created: the menu, the default player, the starter kit, the initial quests. */
    constructor(storage: Storage)
      ensures gameState == Menu && player == DefaultPlayer && battle == NoBattle
      ensures inventory == StarterItems && lastDrop.None? && quests == InitialQuests
      ensures !diagnosticDone && !rusZoneUnlocked && !geoZoneUnlocked
      ensures skills == Catalog && dailyQuests.None? && wins == 0
      ensures this.storage == storage
      ensures Valid()
    {
      gameState := Menu;
      player := DefaultPlayer;
      battle := NoBattle;
      inventory := StarterItems;
      lastDrop := None;
      quests := InitialQuests;
      diagnosticDone := false;
      rusZoneUnlocked := false;
      geoZoneUnlocked := false;
      skills := Catalog;
      dailyQuests := None;
      wins := 0;
      this.storage := storage;
      new;
      InitialQuestsUnique();
    }

    /** `triggerBattle`: opens a fresh battle against the enemy, with a question for the subject at
        the player's level in it. The store does not check the gate itself; its only caller does. */
    method TriggerBattle(enemy: EnemyData, subject: Zone, zone: Zone, draws: seq<real>)
      requires ValidDraws(draws)
      requires BattleGateOpen(zone)
      modifies this`gameState, this`battle
      ensures gameState == Battle
      ensures battle == BattleContext(true, Some(enemy.id), Some(enemy.kind), Some(subject), Difficulty(enemy.difficulty),
                                      Some(Generate(subject, RelLevel(player, subject), draws)), zone, 0, None, false)
      ensures old(Valid()) ==> Valid()
    {
      var question := Generate(subject, RelLevel(player, subject), draws);
      OpenBattle(enemy, subject, zone, question);
    }

    /** The battle context `triggerBattle` installs, around an already generated question. */
    method OpenBattle(enemy: EnemyData, subject: Zone, zone: Zone, question: Question)
      modifies this`gameState, this`battle
      ensures gameState == Battle
      ensures battle == BattleContext(true, Some(enemy.id), Some(enemy.kind), Some(subject), Difficulty(enemy.difficulty),
                                      Some(question), zone, 0, None, false)
      ensures unchanged(this`player, this`skills, this`rusZoneUnlocked, this`geoZoneUnlocked, this`inventory, this`quests)
    {
      gameState := Battle;
      battle := BattleContext(true, Some(enemy.id), Some(enemy.kind), Some(subject), Difficulty(enemy.difficulty),
                              Some(question), zone, 0, None, false);
    }

    /** The store's state as a value, with the storage keys a battle's end writes. */
    function State(): StoreState
      reads this`gameState, this`player, this`battle, this`inventory, this`lastDrop, this`quests
      reads this`diagnosticDone, this`rusZoneUnlocked, this`geoZoneUnlocked, this`skills, this`dailyQuests, this`wins
      reads storage`writable, storage`save, storage`daily, storage`board
    {
      StoreState(gameState, player, battle, inventory, lastDrop, quests, diagnosticDone, rusZoneUnlocked,
                 geoZoneUnlocked, skills, dailyQuests, wins, storage.writable, storage.save, storage.daily, storage.board)
    }

    /** `finishBattle` lost (see LossOutcome). */
    twostate predicate Lost(now: int)
      reads this, storage
    {
      LossOutcome(old(State()), now, State())
    }

    /** `finishBattle` won (see WinOutcome). */
    twostate predicate Won(reward: Reward, roll: int, now: int)
      reads this, storage
    {
      WinOutcome(old(State()), reward, roll, now, State())
    }

    /** `finishBattle`: a loss or a win, as `Lost` and `Won` describe them. */
    method FinishBattle(isVictory: bool, reward: Reward, roll: int, now: int)
      modifies this`gameState, this`battle, this`player, this`inventory, this`lastDrop, this`quests
      modifies this`rusZoneUnlocked, this`geoZoneUnlocked, this`skills, this`dailyQuests, this`wins
      modifies storage`save, storage`daily, storage`board
      ensures !isVictory ==> Lost(now)
      ensures isVictory ==> Won(reward, roll, now)
      ensures old(Valid()) ==> Valid()
    {
      if !isVictory {
        LoseBattle(now);
        return;
      }
      WinBattle(reward, roll, now);
    }

    method LoseBattle(now: int)
      modifies this`gameState, this`battle, this`player, storage`save
      ensures LossOutcome(old(State()), now, State())
      ensures old(Valid()) ==> Valid()
    {
      ghost var s := State();
      var newHp := Max(0, player.hp - LossDamage);
      var newPlayer := player.(hp := newHp);
      var isDead := newHp <= 0;
      if !isDead {
        storage.SaveGame(newPlayer, inventory, quests, diagnosticDone, rusZoneUnlocked, false, now);
      }
      ghost var saved := storage.save;
      gameState := if isDead then Death else Playing;
      battle := battle.(isActive := false, enemyId := None, currentQuestion := None);
      player := newPlayer;
      assert State() == s.(player := newPlayer, gameState := gameState, battle := battle, save := saved);
    }

    method WinBattle(reward: Reward, roll: int, now: int)
      modifies this`gameState, this`battle, this`player, this`inventory, this`lastDrop, this`quests
      modifies this`rusZoneUnlocked, this`geoZoneUnlocked, this`skills, this`dailyQuests, this`wins
      modifies storage`save, storage`daily, storage`board
      ensures WinOutcome(old(State()), reward, roll, now, State())
      ensures old(Valid()) ==> Valid()
    {
      ghost var s := State();
      CreditWin(reward, roll, now);
      ghost var m := State();
      CloseWin(now);
      ghost var e := State();
      WinBySteps(s, reward, roll, now, m, e);
      if ProgressOf(s).Valid() {
        CreditKeepsValid(s, reward, roll, now, m);
        CloseKeepsValid(m, now, e);
      }
    }

    /** The progress step of a win (see CreditStep). */
    method CreditWin(reward: Reward, roll: int, now: int)
      modifies this`player, this`inventory, this`lastDrop, this`quests
      modifies this`rusZoneUnlocked, this`geoZoneUnlocked, this`skills, storage`save
      ensures CreditStep(old(State()), reward, roll, now, State())
    {
      ghost var s := State();
      var dropped := RollDrop(roll);
      var won := Win(Parts(), battle, reward, dropped);
      storage.SaveGame(won.player, won.inventory, won.quests, diagnosticDone, won.rusZoneUnlocked, won.geoZoneUnlocked, now);
      lastDrop := DropShown(dropped);
      ghost var shown := State();
      assert shown == s.(save := storage.save, lastDrop := lastDrop);
      Adopt(won);
    }

    /** The store takes over a computed progress. */
    method Adopt(w: Progress)
      modifies this`player, this`inventory, this`quests
      modifies this`rusZoneUnlocked, this`geoZoneUnlocked, this`skills
      ensures State() == old(State()).(player := w.player, skills := w.skills, rusZoneUnlocked := w.rusZoneUnlocked,
                                       geoZoneUnlocked := w.geoZoneUnlocked, inventory := w.inventory,
                                       quests := w.quests)
      ensures Parts() == w
    {
      player, inventory, quests := w.player, w.inventory, w.quests;
      rusZoneUnlocked, geoZoneUnlocked, skills := w.rusZoneUnlocked, w.geoZoneUnlocked, w.skills;
    }

    /** The closing step of a win (see CloseStep). */
    method CloseWin(now: int)
      modifies this`gameState, this`battle, this`player, this`dailyQuests, this`wins
      modifies storage`daily, storage`board
      ensures CloseStep(old(State()), now, State())
    {
      ghost var m := State();
      var newPlayer := SettleDaily(player, battle.zone);
      ghost var m1 := State();
      RecordWin(newPlayer, now);
      ghost var e := State();
      CloseBySteps(m, now, newPlayer, m1, e);
    }

    /** The leaderboard part of a win (see RecordStep). */
    method RecordWin(newPlayer: Player, now: int)
      modifies this`gameState, this`battle, this`player, this`wins, storage`board
      ensures RecordStep(old(State()), newPlayer, now, State())
    {
      ghost var s := State();
      var newWins := wins + 1;
      storage.UpdateLeaderboard(newPlayer, newWins, now);
      ghost var board := storage.board;
      assert board == if s.writable then Present(RankedBoard(BoardOf(s), EntryFor(newPlayer, s.wins + 1, now))) else s.board;
      gameState := Playing;
      battle := battle.(isActive := false, enemyId := None, currentQuestion := None,
                        activeSkillEffect := None, skillUsedThisBattle := false);
      player := newPlayer;
      wins := newWins;
      assert State() == s.(player := newPlayer, wins := s.wins + 1, board := board, gameState := Playing, battle := battle);
    }

    /** The daily-quest part of a win (see DailyStep). */
    method SettleDaily(p: Player, zone: Zone) returns (q: Player)
      modifies this`dailyQuests, storage`daily
      ensures DailyStep(old(State()), zone, p, q, State())
    {
      q := p;
      if dailyQuests.Some? {
        var dqs, paid := AdvanceDailyQuests(dailyQuests.value.quests, zone, p);
        q := paid;
        dailyQuests := Some(dailyQuests.value.(quests := dqs));
        storage.SaveDailyQuests(dailyQuests.value);
      }
    }

    /** `initPlayer`: a level-1 character of the chosen class named by the trimmed name (or the
        default name when that is empty), with the starter kit (and a shield rune for an archer),
        the initial quests, the level-1 skills, and everything saved before the diagnostic. */
    method InitPlayer(name: string, appearance: Appearance, now: int)
      modifies this`player, this`inventory, this`quests, this`diagnosticDone, this`rusZoneUnlocked
      modifies this`geoZoneUnlocked, this`skills, this`gameState, storage`save
      ensures player == NewCharacter(name, appearance)
      ensures inventory == StartingKit(appearance.cls)
      ensures quests == InitialQuests && !diagnosticDone && !rusZoneUnlocked && !geoZoneUnlocked
      ensures skills == SkillsAtLevel(1) && gameState == Diagnostic
      ensures storage.save == if storage.writable then Present(Current(now)) else old(storage.save)
      ensures Valid()
    {
      var p := NewCharacter(name, appearance);
      var inv := StartingKit(appearance.cls);
      storage.SaveGame(p, inv, InitialQuests, false, false, false, now);
      NewCharacterValid(name, appearance);
      player := p;
      inventory := inv;
      quests := InitialQuests;
      diagnosticDone := false;
      rusZoneUnlocked := false;
      geoZoneUnlocked := false;
      skills := SkillsAtLevel(1);
      gameState := Diagnostic;
    }

    /** `finishDiagnostic`: the starting level from the two scores, hit points full at that level,
        the zone flags set by that level alone (not kept from before), skills unlocked up to it. */
    method FinishDiagnostic(mathLvl: int, rusLvl: int, now: int)
      modifies this`player, this`diagnosticDone, this`rusZoneUnlocked, this`geoZoneUnlocked
      modifies this`skills, this`gameState, storage`save
      ensures var level := StartLevel(mathLvl, rusLvl);
        && player == old(player).(mathLevel := mathLvl, rusLevel := rusLvl, level := level,
                                  xpToNextLevel := XpToNext(level),
                                  maxHp := MaxHpFor(old(player.appearance.cls), level),
                                  hp := MaxHpFor(old(player.appearance.cls), level))
        && rusZoneUnlocked == (level >= RusZoneLevel) && geoZoneUnlocked == (level >= GeoZoneLevel)
        && skills == UnlockSkills(old(skills), level)
      ensures diagnosticDone && gameState == Playing
      ensures storage.save == if storage.writable then Present(Current(now)) else old(storage.save)
      ensures old(WellFormed(inventory) && UniqueIds(quests)) ==> Valid()
    {
      var newLevel := StartLevel(mathLvl, rusLvl);
      var newMaxHp := MaxHpFor(player.appearance.cls, newLevel);
      var rus := newLevel >= RusZoneLevel;
      var geo := newLevel >= GeoZoneLevel;
      var updatedSkills := UnlockSkills(skills, newLevel);
      var newPlayer := player.(mathLevel := mathLvl, rusLevel := rusLvl, level := newLevel,
                               xpToNextLevel := XpToNext(newLevel), maxHp := newMaxHp, hp := newMaxHp);
      storage.SaveGame(newPlayer, inventory, quests, true, rus, geo, now);
      player := newPlayer;
      diagnosticDone := true;
      rusZoneUnlocked := rus;
      geoZoneUnlocked := geo;
      skills := updatedSkills;
      gameState := Playing;
    }

    /** `loadSave`: without a readable save nothing changes and the result is false; otherwise the
        saved state is taken over, a missing field filled with its default, and the skills rebuilt
        from the catalogue for the saved level. */
    method LoadSave() returns (loaded: bool)
      modifies this`player, this`inventory, this`quests, this`diagnosticDone, this`rusZoneUnlocked
      modifies this`geoZoneUnlocked, this`skills, this`gameState
      ensures loaded <==> storage.save.Present?
      ensures !loaded ==> unchanged(this)
      ensures loaded ==>
        var s := storage.save.value;
        && player == s.player && inventory == s.inventory
        && quests == s.quests.GetOr(InitialQuests) && diagnosticDone == s.diagnosticDone.GetOr(true)
        && rusZoneUnlocked == s.rusZoneUnlocked.GetOr(false) && geoZoneUnlocked == s.geoZoneUnlocked.GetOr(false)
        && skills == SkillsAtLevel(s.player.level) && gameState == Playing
      ensures loaded ==> Parts() == Reloaded(storage.save.value)
    {
      var save := storage.LoadGame();
      if save.None? {
        return false;
      }
      var s := save.value;
      player := s.player;
      inventory := s.inventory;
      quests := s.quests.GetOr(InitialQuests);
      diagnosticDone := s.diagnosticDone.GetOr(true);
      rusZoneUnlocked := s.rusZoneUnlocked.GetOr(false);
      geoZoneUnlocked := s.geoZoneUnlocked.GetOr(false);
      skills := SkillsAtLevel(s.player.level);
      gameState := Playing;
      return true;
    }

    /** `acceptQuest`: an available quest with the id becomes active; the state is saved even when
        nothing changed. */
    method AcceptQuest(id: string, now: int)
      modifies this`quests, storage`save
      ensures quests == Accept(old(quests), id)
      ensures storage.save == if storage.writable then Present(Current(now)) else old(storage.save)
      ensures old(Valid()) ==> Valid()
    {
      quests := Accept(quests, id);
      storage.SaveGame(player, inventory, quests, diagnosticDone, rusZoneUnlocked, geoZoneUnlocked, now);
    }

    /** `completeQuest`: nothing happens unless the first quest with the id is ready. Then its xp
        and gold are credited without the class multiplier, with a single-step level-up, its item
        is granted once, it is marked completed, and a locked successor of a completed quest opens. */
    method CompleteQuest(id: string, now: int)
      modifies this`player, this`inventory, this`quests, this`rusZoneUnlocked, this`geoZoneUnlocked
      modifies this`skills, storage`save
      ensures var q := FindQuest(old(quests), id);
        if q.None? || q.value.status != Ready then
          unchanged(this) && storage.save == old(storage.save)
        else
          && player == Credit(old(player), q.value.reward.xp, q.value.reward.gold, None)
          && inventory == WithDrop(old(inventory), q.value.reward.item)
          && quests == CompleteQuests(old(quests), id)
          && rusZoneUnlocked == ZoneFlag(old(rusZoneUnlocked), player.level, RusZoneLevel)
          && geoZoneUnlocked == ZoneFlag(old(geoZoneUnlocked), player.level, GeoZoneLevel)
          && skills == UnlockSkills(old(skills), player.level)
          && storage.save == (if storage.writable then Present(Current(now)) else old(storage.save))
      ensures old(Valid()) ==> Valid()
    {
      var quest := FindQuest(quests, id);
      if quest.None? || quest.value.status != Ready {
        return;
      }
      var done := Complete(Parts(), quest.value, id);
      if Valid() {
        CompleteKeepsValid(Parts(), quest.value, id);
      }
      storage.SaveGame(done.player, done.inventory, done.quests, diagnosticDone, done.rusZoneUnlocked, done.geoZoneUnlocked, now);
      Adopt(done);
    }

    /** `useSkill`: arms the effect of the first unlocked skill with the id and marks the battle's
        skill as used; refused when a skill was used already or no such skill is unlocked. */
    method UseSkill(id: string)
      modifies this`battle
      ensures var s := SkillToArm(old(battle), skills, id);
        && (s.None? ==> battle == old(battle))
        && (s.Some? ==> battle == old(battle).(activeSkillEffect := Some(s.value.effect), skillUsedThisBattle := true))
      ensures old(Valid()) ==> Valid()
    {
      if battle.skillUsedThisBattle {
        return;
      }
      var skill := FindUnlocked(skills, id);
      if skill.None? {
        return;
      }
      battle := battle.(activeSkillEffect := Some(skill.value.effect), skillUsedThisBattle := true);
    }

    /** `resetSkillEffect`: disarms the effect; the used flag stays. */
    method ResetSkillEffect()
      modifies this`battle
      ensures battle == old(battle).(activeSkillEffect := None)
      ensures old(Valid()) ==> Valid()
    {
      battle := battle.(activeSkillEffect := None);
    }

    /** `addItem`: one more of the item, merged into its entry or appended; then saved. */
    method AddItem(item: ItemDef, now: int)
      modifies this`inventory, storage`save
      ensures inventory == Grant(old(inventory), item)
      ensures storage.save == if storage.writable then Present(Current(now)) else old(storage.save)
      ensures old(Valid()) ==> Valid()
    {
      inventory := Grant(inventory, item);
      storage.SaveGame(player, inventory, quests, diagnosticDone, rusZoneUnlocked, geoZoneUnlocked, now);
    }

    /** `useItem`: a no-op (and no save) when the first entry with the id is missing or empty;
        otherwise a health potion heals, one of the item is used up and empty entries are dropped. */
    method UseItem(itemId: string, now: int)
      modifies this`player, this`inventory, storage`save
      ensures var item := Find(old(inventory), itemId);
        if item.None? || item.value.quantity <= 0 then
          unchanged(this) && storage.save == old(storage.save)
        else
          && player == AfterItem(old(player), itemId)
          && inventory == Consume(old(inventory), itemId)
          && storage.save == (if storage.writable then Present(Current(now)) else old(storage.save))
      ensures old(Valid()) ==> Valid()
    {
      var item := Find(inventory, itemId);
      if item.None? || item.value.quantity <= 0 {
        return;
      }
      var newPlayer := AfterItem(player, itemId);
      var newInventory := Consume(inventory, itemId);
      if Valid() {
        UseKeepsValid(player, skills, rusZoneUnlocked, geoZoneUnlocked, inventory, quests, itemId);
      }
      storage.SaveGame(newPlayer, newInventory, quests, diagnosticDone, rusZoneUnlocked, geoZoneUnlocked, now);
      player := newPlayer;
      inventory := newInventory;
    }

    /** `setGold`: the gold becomes the given amount; then saved. */
    method SetGold(gold: int, now: int)
      modifies this`player, storage`save
      ensures player == old(player).(gold := gold)
      ensures storage.save == if storage.writable then Present(Current(now)) else old(storage.save)
      ensures old(Valid()) ==> Valid()
    {
      var newPlayer := player.(gold := gold);
      storage.SaveGame(newPlayer, inventory, quests, diagnosticDone, rusZoneUnlocked, geoZoneUnlocked, now);
      player := newPlayer;
    }

    /** `takeDamage`: hit points fall by the amount, never below zero, and at zero the player dies;
        nothing is saved. */
    method TakeDamage(amount: int)
      modifies this`player, this`gameState
      ensures player == old(player).(hp := Max(0, old(player.hp) - amount))
      ensures gameState == if player.hp == 0 then Death else old(gameState)
      ensures old(Valid()) && amount >= 0 ==> Valid()
    {
      var newHp := Max(0, player.hp - amount);
      player := player.(hp := newHp);
      if newHp <= 0 {
        gameState := Death;
      }
    }

    /** `respawn`: back to play with half the maximum hit points, rounded down; then saved. */
    method Respawn(now: int)
      modifies this`player, this`gameState, storage`save
      ensures player == old(player).(hp := old(player.maxHp) / 2)
      ensures gameState == Playing
      ensures storage.save == if storage.writable then Present(Current(now)) else old(storage.save)
      ensures old(Valid()) ==> Valid()
    {
      var newPlayer := player.(hp := player.maxHp / 2);
      storage.SaveGame(newPlayer, inventory, quests, diagnosticDone, rusZoneUnlocked, geoZoneUnlocked, now);
      player := newPlayer;
      gameState := Playing;
    }

    /** `initDailyQuests`: today's stored quests when there are any, otherwise a fresh day, stored. */
    method InitDailyQuests(today: string)
      modifies this`dailyQuests, storage`daily
      ensures var existing := old(storage.LoadDailyQuests(today));
        && (existing.Some? ==> dailyQuests == existing && storage.daily == old(storage.daily))
        && (existing.None? ==> dailyQuests == Some(NewDay(today))
                               && storage.daily == if storage.writable then Present(NewDay(today)) else old(storage.daily))
      ensures old(Valid()) ==> Valid()
    {
      var existing := storage.LoadDailyQuests(today);
      if existing.Some? {
        dailyQuests := existing;
        return;
      }
      var data := NewDay(today);
      storage.SaveDailyQuests(data);
      dailyQuests := Some(data);
    }

    /** `claimDailyBonus`: for a completed, unclaimed day, 150 xp and 80 gold (with no level-up
        check), a big health potion and the claimed flag, all saved; otherwise nothing. */
    method ClaimDailyBonus(now: int)
      modifies this`player, this`inventory, this`dailyQuests, storage`save, storage`daily
      ensures !BonusAdmits(old(dailyQuests)) ==>
        unchanged(this) && storage.save == old(storage.save) && storage.daily == old(storage.daily)
      ensures BonusAdmits(old(dailyQuests)) ==>
        && player == old(player).(xp := old(player.xp) + BonusXp, gold := old(player.gold) + BonusGold)
        && inventory == Grant(old(inventory), BigHealthPotion)
        && dailyQuests == Some(old(dailyQuests.value).(bonusClaimed := true))
        && !BonusAdmits(dailyQuests)
        && storage.daily == (if storage.writable then Present(dailyQuests.value) else old(storage.daily))
        && storage.save == (if storage.writable then Present(Current(now)) else old(storage.save))
      ensures old(Valid()) ==> Valid()
    {
      if dailyQuests.None? || dailyQuests.value.bonusClaimed {
        return;
      }
      if !AllCompleted(dailyQuests.value) {
        return;
      }
      ghost var wasValid := Valid();
      var newPlayer := player.(xp := player.xp + BonusXp, gold := player.gold + BonusGold);
      var newInventory := Grant(inventory, BigHealthPotion);
      if wasValid {
        GrantAddsOne(inventory, BigHealthPotion, BigHealthPotion.id);
      }
      var newDaily := dailyQuests.value.(bonusClaimed := true);
      storage.SaveDailyQuests(newDaily);
      storage.SaveGame(newPlayer, newInventory, quests, diagnosticDone, rusZoneUnlocked, geoZoneUnlocked, now);
      player := newPlayer;
      inventory := newInventory;
      dailyQuests := Some(newDaily);
    }
  }
}
