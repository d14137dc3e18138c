/** The records of the game store (src/store/useGameStore.ts:5-124) and of its persisted data
    (src/utils/saveGame.ts:87-103), reduced to the fields any rule reads. Display-only fields
    (titles, descriptions, emoji) are left out. */
module GameTypes {
  import opened Wrappers

  /** A subject, which is also the zone the battle takes place in. */
  datatype Zone = Math | Russian | Geometry

  datatype CharacterClass = Mage | Knight | Archer

  /** Skin tone and hair colour only choose sprite colours, so they are kept as their names. */
  datatype Appearance = Appearance(cls: CharacterClass, skinTone: string, hairColor: string)

  datatype Player = Player(
    id: Option<string>,
    name: string,
    level: nat,
    xp: int,
    xpToNextLevel: int,
    gold: int,
    mathLevel: int,
    rusLevel: int,
    hp: int,
    maxHp: int,
    appearance: Appearance,
    xpMult: real)

  datatype ItemKind = Potion | Scroll | Artifact

  /** An item without its quantity (`Omit<InventoryItem, 'quantity'>`). */
  datatype ItemDef = ItemDef(id: string, kind: ItemKind)

  datatype InventoryItem = InventoryItem(id: string, kind: ItemKind, quantity: int)

  datatype QuestStatus = Locked | Available | Active | Ready | Completed

  datatype GoalKind = Kill | Solve

  datatype QuestGoal = QuestGoal(kind: GoalKind, zone: Zone, target: int, current: int)

  datatype QuestReward = QuestReward(xp: int, gold: int, item: Option<ItemDef>)

  datatype Quest = Quest(id: string, npcId: string, goal: QuestGoal, reward: QuestReward, status: QuestStatus)

  datatype SkillEffect = XpBoost | ShowHint | SkipQuestion | ExtraAttempts | DamageShield | GoldBoost

  datatype Skill = Skill(id: string, effect: SkillEffect, unlockLevel: int, unlocked: bool)

  datatype EnemyType = Goblin | Slime | Troll | Witch | Dragon | Phoenix

  /** What the map hands to `triggerBattle` about the enemy that was touched. */
  datatype EnemyData = EnemyData(id: string, kind: EnemyType, difficulty: int)

  /** The `{ xp, gold }` reward passed to `finishBattle`. */
  datatype Reward = Reward(xp: int, gold: int)

  datatype DailyQuestEntry = DailyQuestEntry(
    id: string, target: int, current: int, zone: Zone, xpReward: int, goldReward: int, completed: bool)

  datatype DailyQuestData = DailyQuestData(date: string, quests: seq<DailyQuestEntry>, bonusClaimed: bool)

  datatype GameState = Loading | Menu | NameEntry | Diagnostic | Playing | Battle | Inventory | Shop | Death
}
