# School of Magic: the game store, modelled and proved in Dafny

A Dafny model of the core of an educational role-playing game for school children. The player
fights monsters by answering questions in arithmetic, Russian spelling and geometry. The model
covers:

- **The game store** (`GameStore.Store`): one class whose fields are the store's state, with one
  method per store action. The actions are `triggerBattle`, `finishBattle`, `initPlayer`,
  `finishDiagnostic`, `loadSave`, `acceptQuest`, `completeQuest`, `useSkill`,
  `resetSkillEffect`, `addItem`, `useItem`, `setGold`, `takeDamage`, `respawn`,
  `initDailyQuests` and `claimDailyBonus`.
- **The store's pure helpers**, each in its module:
  - the XP table and level-up rule (`Progression`);
  - the loot table and inventory merging (`Items`);
  - the quest state machine and its chain unlock (`QuestChain`);
  - the skill catalogue (`SkillBook`);
  - the daily quests (`Daily`);
  - the question generator (`QuestionGen`).
- **Browser persistence** (`SaveGame.Storage`): a class with one field per `localStorage` key.
  Its methods save and load the game, the level/gold leaderboard, the daily quests and the
  admin's custom questions.
- **The xp leaderboard** (`Leaderboard`).
- **Shared pieces**: the sort-and-trim the two boards share (`Boards`) and the few JavaScript
  string primitives the game relies on (`JsText`: `trim` and `String(n)`).
- **The event handlers of three windows**, each a class over the component's React state:
  - the battle window (`BattleModal.BattleView`);
  - the placement test (`DiagnosticTest.DiagnosticView`);
  - the shop (`ShopPanel.ShopView`).

## Conventions

**The store as a value.** `GameStore.StoreState` is the store's state together with the
storage keys a battle's end writes. A battle's end is specified by two predicates on such values:

- `LossOutcome` for a lost battle;
- `WinOutcome` for a won one, which is split into `CreditStep`, `DailyStep` and `RecordStep`.

The store's methods establish these predicates, and lemmas about the predicates state what the
source promises.

**The invariant** `GameStore.ValidState` says that:

- the player record matches its level;
- every skill of that level is unlocked;
- the zones of that level are open;
- inventory ids are unique with positive quantities;
- quest ids are unique.

Every action keeps it.

**Inputs of the outside world.** These become parameters:

- random draws: a `seq<real>` of values in [0, 1), or an integer percent roll for the loot;
- clock readings: `now`, the day string `today`;
- `toLowerCase`: a function parameter `lower`;
- whether `localStorage.setItem` throws: the `Storage.writable` flag.

JSON encoding is the identity: a stored key holds the value itself, or is `Missing` or
`Unparsable`.

## Behaviour kept as written

These behaviours of the source look accidental. The model keeps them and the contracts state
them:

- **Loss saves geometry as locked.** A lost battle that the player survives saves with the
  geometry flag `false`. `saveGame` is called with five arguments (src/store/useGameStore.ts:594,
  src/utils/saveGame.ts:26), so a reload closes the geometry zone again (`GameStore.LossOutcome`).
  From level 5 on, the reloaded state then breaks the store's invariant
  (`GameStore.ReloadKeepsValid`).
- **A loss keeps the armed skill.** A lost battle leaves the skill effect armed and marked used
  (`GameStore.LossEffects`).
- **The shield does nothing.** Both branches of the `damageShield` check in the battle window
  make the same call (`BattleModal.ShieldChangesNothing`).
- **Daily rewards bypass the level-up check and the save.** They are added after the level-up
  check and after `saveGame`. The save therefore holds the player without them, while the store
  and the leaderboard hold the paid player (`GameStore.WinEffects`). Likewise `claimDailyBonus`
  adds 150 xp with no level-up check.
- **The "any zone" quest counts math wins only.** The daily quest `dq_any` has zone `math`
  (`Daily.NewDayCompletion`).
- **Two unlock rules for quest chains.** After a won battle, a locked quest opens when its
  predecessor is `ready` or `completed`. After `completeQuest`, only a `completed` predecessor
  counts (the `readyCounts` flag of `QuestChain.Unlock`).
- **Only the small potion heals.** `useItem` heals only for `health_potion`. The big potion of
  the shop and of the daily bonus heals nothing (`GameStore.AfterItem`).
- **`triggerBattle` checks no gate.** Its caller on the map does (src/game/scenes/MainMap.ts:1114-1121),
  so `GameStore.Store.TriggerBattle` requires that gate.

## Model

| member | source | states |
|---|---|---|
| Progression.XpTableStrictlyAscending | src/store/useGameStore.ts:184 | every threshold of the XP table is larger than the one before it |
| Progression.XpToNextMonotone | src/store/useGameStore.ts:184-185 | the threshold `xpToNext` gives never falls as the level rises, and rises strictly below the cap of level 10 |
| Progression.MaxHpFor | src/store/useGameStore.ts:637 | from level 1 on, maximum hp is at least the class base |
| Progression.MaxHpGrowsWithLevel | src/store/useGameStore.ts:637 | every level adds exactly 20 maximum hp |
| Progression.BaseHp | src/store/useGameStore.ts:28-30 | no class starts below 80 hp |
| Progression.Round | src/store/useGameStore.ts:630-631 | `Math.round` gives the integer within a half of x, with halves rounded up |
| Progression.RoundFraction | src/store/useGameStore.ts:630 | rounding p/q is the integer division (2p + q) div 2q |
| Progression.GoldGain | src/store/useGameStore.ts:628-631 | the gold credited is the reward, doubled under `goldBoost`; the class multiplier plays no part |
| Progression.XpGainFormulas | src/store/useGameStore.ts:627-630 | the xp credited for each class multiplier and boost, as exact integer formulas (e.g. a mage gets (12x + 5) div 10) |
| Progression.XpGainIgnoresOtherEffects | src/store/useGameStore.ts:627 | no skill other than `xpBoost` changes the xp credited |
| Progression.NextLevelSingleStep | src/store/useGameStore.ts:632-634 | the level-up check raises the level by one at most: xp past two thresholds still yields one level, leaving the player over the next threshold |
| Progression.CreditFrame | src/store/useGameStore.ts:630-662 | for a consistent player, the level stays exactly when the new xp is below the player's threshold, and then only xp and gold change, because the recomputed maxHp and threshold come out as before and hp is kept; otherwise the level rises by one, maxHp by 20, and hp is full |
| Progression.CreditKeepsConsistency | src/store/useGameStore.ts:630-662 | crediting keeps the player consistent with its level and never lowers the level |
| Progression.SubjectLevelsFollowLevelUp | src/store/useGameStore.ts:635-636 | a subject level changes exactly when a level-up is won in that subject |
| Progression.StartLevel | src/store/useGameStore.ts:727 | the starting level is half the two scores' sum rounded down, and at least 1 |
| Progression.MageLevelsUpToThree | src/store/useGameStore.ts:627-662 | worked example: a level-2 mage at 240 xp who wins 50 xp reaches 300 xp and level 3, with its math level raised and hp full at 120 |
| Items.RollDrop | src/store/useGameStore.ts:435-443 | the loop over the cumulative chances yields the table's drop for the roll |
| Items.DropBands | src/store/useGameStore.ts:428-443 | a roll below 30 drops a health potion; below 45 a counting scroll; below 55 a word scroll; below 60 an amulet; otherwise nothing |
| Items.NoDropExactlyFromSixty | src/store/useGameStore.ts:435-443 | for a roll in [0, 100) nothing drops exactly when the roll is 60 or more |
| Items.Prune | src/store/useGameStore.ts:865 | exactly the entries with a positive quantity are kept, and no more |
| Items.Consume | src/store/useGameStore.ts:863-865 | after use no entry has a zero or negative quantity |
| Items.Find | src/store/useGameStore.ts:847 | the lookup fails exactly when no entry has the id; otherwise it returns an entry with the id, the first one by `Items.FindIsFirst` |
| Items.FindIsFirst | src/store/useGameStore.ts:847 | the entry the lookup returns is the first entry with the id: every entry before it has another id |
| Items.StarterItemsWellFormed | src/store/useGameStore.ts:446-449 | the starter kit has unique ids and positive quantities |
| Items.QuantityPrune | src/store/useGameStore.ts:865 | dropping empty entries changes no owned quantity |
| Items.GrantAddsOne | src/store/useGameStore.ts:646-653 | an item grant keeps ids unique and quantities positive, and adds exactly one of the granted id and nothing of any other |
| Items.ConsumeRemovesOne | src/store/useGameStore.ts:855-865 | using an owned item keeps the inventory well formed and removes exactly one of it and nothing else |
| Items.PruneKeepsUnique | src/store/useGameStore.ts:865 | the filter never makes two entries share an id |
| QuestChain.InitialQuestsUnique | src/store/useGameStore.ts:465-538 | the nine initial quests have distinct ids |
| QuestChain.StepIsForward | src/store/useGameStore.ts:82 | an allowed transition moves a quest forward in `locked < available < active < ready < completed`, by at most one place |
| QuestChain.AdvanceKills | src/store/useGameStore.ts:605-613 | an active kill quest of the battle's zone gains one and turns ready when it reaches its target; no other quest changes; each move is an allowed step |
| QuestChain.Unlock | src/store/useGameStore.ts:616-623 | a locked quest becomes available exactly when its array predecessor is the same teacher's and is done far enough; nothing else changes |
| QuestChain.UnlockDoesNotCascade | src/store/useGameStore.ts:616-623 | the quest after a locked one is not opened in the same pass |
| QuestChain.UnlockOpensOnlyAfterDone | src/store/useGameStore.ts:617-620 | a locked quest at the head of a chain never opens |
| QuestChain.WinStepsOnly | src/store/useGameStore.ts:605-623 | the kill pass and the unlock pass of a win together move each quest along at most one edge |
| QuestChain.Accept | src/store/useGameStore.ts:762-764 | available quests with the id become active; all others are unchanged; each move is an allowed step |
| QuestChain.AcceptOnlyAvailable | src/store/useGameStore.ts:762-764 | accepting a quest that is not available, or is absent, changes nothing |
| QuestChain.FindQuest | src/store/useGameStore.ts:770 | the lookup fails exactly when no quest has the id; otherwise it gives the first quest with the id |
| QuestChain.PassesKeepIds | src/store/useGameStore.ts:605-623 | no pass over the quests changes an id or its position |
| QuestChain.CompleteStepsOnly | src/store/useGameStore.ts:801-810 | with unique ids, completing a ready quest moves it to completed and every quest along at most one edge |
| QuestChain.CompleteOpensSuccessor | src/store/useGameStore.ts:802-810 | the same teacher's locked quest right after the completed one opens |
| QuestChain.CompleteTwiceRefused | src/store/useGameStore.ts:771-801 | once completed a quest is found completed, so a second `completeQuest` is refused |
| SkillBook.UnlockSkills | src/store/useGameStore.ts:642 | only the unlocked flags change; a skill ends unlocked exactly when it was unlocked or its level is reached |
| SkillBook.SkillsAtLevel | src/store/useGameStore.ts:747 | the rebuilt catalogue is unlocked exactly up to the level |
| SkillBook.UnlockSkillsRaisesLevel | src/store/useGameStore.ts:642 | skills unlocked exactly up to a level stay so at any higher level |
| SkillBook.UnlockSkillsIdempotent | src/store/useGameStore.ts:642 | unlocking twice at a level is unlocking once |
| SkillBook.CatalogUnlocks | src/store/useGameStore.ts:98-105 | at level 1 only the fireball is unlocked; at level 9 every skill is |
| SkillBook.FindUnlocked | src/store/useGameStore.ts:823 | the lookup fails exactly when no unlocked skill has the id; otherwise it returns an unlocked skill with the id, the first one by `SkillBook.FindUnlockedIsFirst` |
| SkillBook.FindUnlockedIsFirst | src/store/useGameStore.ts:823 | the skill the lookup returns is the first unlocked one with the id: no skill before it is both unlocked and of that id |
| Daily.NewDay | src/store/useGameStore.ts:899-904 | a new day carries today's date, no claimed bonus, and the three default quests, none begun |
| Daily.PaidIsUnpaidDrop | src/store/useGameStore.ts:675-679 | the reward a win pays is exactly the drop in the rewards still to be earned |
| Daily.AdvanceNeverUndoes | src/store/useGameStore.ts:671-681 | a win never undoes daily progress: ids, zones, targets and rewards stay; a count rises by at most one; a completed entry stays as it was; an entry is completed afterwards exactly when it was before or this win completes it |
| Daily.CompletedPaysNothing | src/store/useGameStore.ts:672 | once every entry is completed, a win pays nothing and changes nothing |
| Daily.AdvanceDailyQuests | src/store/useGameStore.ts:666-684 | the loop produces the advanced entries and the player paid the rewards of the entries just completed |
| Daily.NewDayNeedsFiveWins | src/store/useGameStore.ts:899-903 | a new day's bonus is out of reach, and three math wins then two Russian wins complete every entry |
| Daily.NewDayCompletion | src/store/useGameStore.ts:899-903 | after any run of wins, in any order, a new day's entries are all completed exactly when at least three were math wins and two Russian wins, so at least five wins are needed |
| Daily.CompletedAfterWins | src/store/useGameStore.ts:667-683 | after any run of wins an entry that was open below its target is completed exactly when its count plus the wins in its zone reaches the target; a completed entry stays completed |
| QuestionGen.Rnd | src/store/useGameStore.ts:190-192 | `rnd(max, min)` lies in [min, max] |
| QuestionGen.Pick | src/store/useGameStore.ts:193-195 | `pick` returns an element of the array |
| QuestionGen.ProportionCancels | src/store/useGameStore.ts:231 | over exact rationals `a * c / b * b` is `a * c`, so the rounded answer is a*a*c/b rounded |
| QuestionGen.SolutionSolves | src/store/useGameStore.ts:198-323 | the number the source prints solves the prompt the player sees |
| QuestionGen.SolutionUnique | src/store/useGameStore.ts:198-323 | each prompt has only one solution |
| QuestionGen.AnswerIsSolution | src/store/useGameStore.ts:198-323 | the expected answer is `String` of the solution, a whole number or a half |
| QuestionGen.AnswerAcceptsExactly | src/store/useGameStore.ts:198-323 | a number's string is the expected answer exactly when the number solves the prompt |
| QuestionGen.FractionAnswer | src/store/useGameStore.ts:284-289 | a fraction of a multiple of its denominator prints a whole number |
| QuestionGen.ProportionAnswer | src/store/useGameStore.ts:229-232 | the proportion's answer is the exact solution, rounded |
| QuestionGen.MathOps | src/store/useGameStore.ts:252-259 | addition is always offered, and any other kind exactly from its level |
| QuestionGen.PercentIsHalf | src/store/useGameStore.ts:298-301 | a percent of a multiple of ten is a whole number or a half |
| QuestionGen.FractionIsWhole | src/store/useGameStore.ts:284-289 | a fraction question's value is a whole number or a half, so it has a printable answer |
| QuestionGen.ChooseMath | src/store/useGameStore.ts:251-323 | each math kind comes only from its level on, with operands in the source's ranges |
| QuestionGen.MathAnswerSigns | src/store/useGameStore.ts:268-293 | subtraction never goes below zero; the negative-number kind always does; fractions are whole |
| QuestionGen.GeoOps | src/store/useGameStore.ts:199-203 | perimeter, area and angle are always offered, the others exactly from their levels |
| QuestionGen.ChooseGeometry | src/store/useGameStore.ts:198-246 | each geometry kind comes only from its level on, with operands in the source's ranges |
| QuestionGen.ThirdAngleIsPositive | src/store/useGameStore.ts:225-228 | the third angle of a generated triangle is at least 10 degrees |
| QuestionGen.Eligible | src/store/useGameStore.ts:421 | the filter keeps exactly the pool entries up to the level |
| QuestionGen.ChooseFrom | src/store/useGameStore.ts:421-422 | the drawn word is from the pool, at or below the level (counted as at least 1) |
| QuestionGen.ChooseRussian | src/store/useGameStore.ts:325-423 | a Russian question is a pool entry whose level is at most the player's, where a level below 1 counts as 1 |
| QuestionGen.Choose | src/store/useGameStore.ts:248-251 | the generator only produces well-posed problems |
| QuestionGen.GeneratedAnswerIsExact | src/store/useGameStore.ts:248-323 | a generated arithmetic or geometry question accepts exactly the numbers that solve it |
| QuestionGen.PercentCanBeHalf | src/store/useGameStore.ts:298-301 | worked example: 25% of 10 prints "2.5" |
| QuestionGen.PercentWholeExactly | src/store/useGameStore.ts:298-301 | for the percentages 10, 20, 25 and 50, the answer is a whole number unless the percentage is 25 and the base is an odd multiple of ten |
| JsText.TrimShape | src/components/battle/BattleModal.tsx:94 | `trim` gives an infix of s that neither starts nor ends with white space, and everything it cuts off at either end is white space |
| JsText.TrimIdempotent | src/store/useGameStore.ts:710 | trimming twice changes nothing more |
| JsText.NatString | src/utils/saveGame.ts:151 | the digits of n: at least one, no leading zero, "0" only for 0 |
| JsText.ParseNatString | src/utils/saveGame.ts:151 | reading the digits back gives n |
| JsText.IntStringInjective | src/store/useGameStore.ts:266 | `String(n)` of integers is injective |
| JsText.HalfStringInjective | src/store/useGameStore.ts:301 | `String(x)` of halves is injective |
| JsText.NumberStringInjective | src/store/useGameStore.ts:288-301 | two numbers print alike only when they are equal |
| JsText.NumberStringOfInt | src/store/useGameStore.ts:266 | a whole number prints as its integer string |
| Boards.FirstIndex | src/utils/saveGame.ts:70 | `findIndex` gives the first matching index, or -1 exactly when none matches |
| Boards.InsertCounts | src/utils/saveGame.ts:81 | an insertion adds exactly the new element |
| Boards.InsertSorted | src/utils/saveGame.ts:81 | insertion into a descending board keeps it descending |
| Boards.SortByRankProperties | src/utils/saveGame.ts:81 | the sort is a permutation in descending order |
| Boards.Top | src/utils/saveGame.ts:82 | `slice(0, n)` keeps exactly the first min(n, length) entries |
| Boards.TopKeepsBest | src/utils/saveGame.ts:81-82 | after sorting, every kept entry outranks every dropped one |
| Boards.SortKeepsDistinct | src/utils/saveGame.ts:81 | sorting never makes two entries share a name |
| Boards.TopKeepsSorted | src/utils/saveGame.ts:82 | the trimmed board stays sorted |
| SaveGame.UpsertProperties | src/utils/saveGame.ts:69-80 | the player's entry is on the board; it replaces the same-name entry or is appended; every other entry stays and nothing else comes in |
| SaveGame.UpsertKeepsNamesDistinct | src/utils/saveGame.ts:70-80 | with unique names the upsert keeps them unique |
| SaveGame.RankedBoardProperties | src/utils/saveGame.ts:67-84 | the written board holds min(10, n) entries, where n is the board length after the upsert (the old length or one more); they are the best by level then gold, in descending order, with names kept unique, and hold only old entries and the player's |
| SaveGame.Without | src/utils/saveGame.ts:158 | exactly the questions without the id remain |
| SaveGame.WithoutAppend | src/utils/saveGame.ts:158 | the filter works piecewise, so it keeps the order |
| SaveGame.AddThenDelete | src/utils/saveGame.ts:149-158 | deleting after adding a question gives what deleting before adding gives; when no stored question had the new id, deleting the id undoes the addition |
| SaveGame.Digits | src/utils/saveGame.ts:106 | a zero-padded field has exactly w decimal digits |
| SaveGame.TodayStr | src/utils/saveGame.ts:105-107 | the day string is the first ten characters of the timestamp |
| SaveGame.TodayIsCalendarDate | src/utils/saveGame.ts:105-107 | the day string is `YYYY-MM-DD` of the UTC instant, whatever the time of day |
| SaveGame.SameDaySameString | src/utils/saveGame.ts:105-114 | two instants of the same UTC day give the same day string, so the day's quests are reused |
| SaveGame.Storage.constructor | src/utils/saveGame.ts:5-8 | every key starts empty |
| SaveGame.Storage.SaveGame | src/utils/saveGame.ts:20-45 | a successful save stores the blob, and `loadGame` then returns it unchanged; a failed write changes nothing |
| SaveGame.Storage.UpdateLeaderboard | src/utils/saveGame.ts:60-84 | the stored board becomes the ranked board with the player's new entry, and `loadLeaderboard` then returns it; a failed write changes nothing |
| SaveGame.Storage.SaveDailyQuests | src/utils/saveGame.ts:109-123 | after a successful save, `loadDailyQuests` on the saved date returns the data; a failed write changes nothing |
| SaveGame.Storage.AddCustomQuestion | src/utils/saveGame.ts:136-155 | the draft gets the id `cq_<time>` and its creation time, and `loadCustomQuestions` then returns the old questions with it appended |
| SaveGame.Storage.DeleteCustomQuestion | src/utils/saveGame.ts:157-159 | `loadCustomQuestions` then returns the old questions without exactly those with the id, so none with the id is left |
| Leaderboard.MergeKeepsBest | src/utils/leaderboard.ts:25-34 | after the merge the name's entry holds the larger of the old and new xp |
| Leaderboard.MergeKeepsNames | src/utils/leaderboard.ts:25-34 | the merge keeps every old entry's name in its place, brings in nothing but the stamped submission, and grows the board exactly when the name was new |
| Leaderboard.MergeKeepsNamesDistinct | src/utils/leaderboard.ts:25-34 | a name listed once stays listed once |
| Leaderboard.RankedProperties | src/utils/leaderboard.ts:35-37 | the stored board holds min(10, n) entries of the n merged ones, by xp descending, with names kept unique |
| Leaderboard.SubmitScore | src/utils/leaderboard.ts:13-42 | the result is the ranked board, which is stored, and `getLeaderboard` then returns it; when storage throws the result is empty and nothing is stored |
| GameStore.Difficulty | src/store/useGameStore.ts:579 | a zero difficulty counts as 1; any other is kept |
| GameStore.VictorGains | src/store/useGameStore.ts:626-634 | a win adds the rounded scaled xp and the doubled-or-not gold; the class multiplier never touches gold; the level rises by at most one, exactly at the threshold |
| GameStore.AfterItem | src/store/useGameStore.ts:858-862 | a health potion heals 30 up to the maximum; any other item leaves the player alone; hp stays in [0, maxHp] |
| GameStore.BonusOnce | src/store/useGameStore.ts:910-922 | once claimed, the daily bonus is refused |
| GameStore.OneSkillPerBattle | src/store/useGameStore.ts:822-835 | after a skill is armed no other can be armed in the battle |
| GameStore.Credited | src/store/useGameStore.ts:630-642 | crediting raises the level by at most one and never closes a zone or locks a skill |
| GameStore.CreditedKeepsValid | src/store/useGameStore.ts:630-642 | crediting keeps the store invariant |
| GameStore.Win | src/store/useGameStore.ts:602-662 | a win raises the level by at most one |
| GameStore.WinKeepsValid | src/store/useGameStore.ts:602-662 | a win keeps the store invariant and moves every quest along an allowed edge |
| GameStore.WinComponents | src/store/useGameStore.ts:602-662 | a win advances the kill quests and opens the chains, credits the scaled reward, opens the zones and skills of the level reached, and merges the loot |
| GameStore.Complete | src/store/useGameStore.ts:773-810 | completing a quest raises the level by at most one |
| GameStore.CompleteKeepsValid | src/store/useGameStore.ts:773-810 | completing keeps the invariant, and a found ready quest moves to completed along an allowed edge |
| GameStore.PurseKeepsValid | src/store/useGameStore.ts:676-679 | xp and gold alone never break the invariant |
| GameStore.UseKeepsValid | src/store/useGameStore.ts:855-867 | using an owned item keeps the invariant |
| GameStore.WithDropKeepsWellFormed | src/store/useGameStore.ts:644-653 | merging loot keeps the inventory well formed |
| GameStore.StartingKit | src/store/useGameStore.ts:715-718 | a new character owns the starter items, plus one shield rune for an archer, in a well-formed inventory |
| GameStore.NewCharacterValid | src/store/useGameStore.ts:705-723 | a new character starts in a state that satisfies the invariant |
| GameStore.CloseBySteps | src/store/useGameStore.ts:666-702 | the closing of a win is its daily-quest part followed by its leaderboard part |
| GameStore.CloseKeepsValid | src/store/useGameStore.ts:666-702 | the closing of a win keeps the invariant |
| GameStore.CreditKeepsValid | src/store/useGameStore.ts:602-664 | the progress step of a win keeps the invariant |
| GameStore.WinBySteps | src/store/useGameStore.ts:602-702 | a win is its progress step followed by its closing step |
| GameStore.LossEffects | src/store/useGameStore.ts:590-599 | a loss costs 10 hp, never below 0; death exactly when at most 10 remained, with no save then; the battle closes with the skill still armed; nothing else changes |
| GameStore.WinEffects | src/store/useGameStore.ts:602-702 | a win changes the level by at most one, through the battle reward alone; xp and gold get the reward plus any daily payouts; the save holds the player without them; consistency kept; zones never close; one more win; the skill is disarmed |
| GameStore.Store.constructor | src/store/useGameStore.ts:541-563 | the store starts in the menu with the default player, the starter kit and the initial quests, and satisfies the invariant |
| GameStore.Store.TriggerBattle | src/store/useGameStore.ts:567-587 | a fresh battle against the enemy with a question for the subject's own level (the overall level for geometry), no tries and no armed skill; a zero difficulty counts as 1; the invariant is kept |
| GameStore.Store.OpenBattle | src/store/useGameStore.ts:572-586 | the battle context is installed and the player's progress is untouched |
| GameStore.Store.FinishBattle | src/store/useGameStore.ts:589-703 | a loss satisfies `LossOutcome` and a win `WinOutcome`; the invariant is kept |
| GameStore.Store.LoseBattle | src/store/useGameStore.ts:590-600 | the new state is the loss outcome of the old one |
| GameStore.Store.WinBattle | src/store/useGameStore.ts:602-702 | the new state is the win outcome of the old one, and the invariant is kept |
| GameStore.Store.CreditWin | src/store/useGameStore.ts:602-664 | the progress step of a win, loot and save included |
| GameStore.Store.Adopt | src/store/useGameStore.ts:690-699 | the store takes over a computed progress and nothing else |
| GameStore.Store.CloseWin | src/store/useGameStore.ts:666-702 | the closing step of a win |
| GameStore.Store.RecordWin | src/store/useGameStore.ts:686-692 | one more win is recorded on the leaderboard with the paid player, and the battle closes |
| GameStore.Store.SettleDaily | src/store/useGameStore.ts:666-684 | the day's entries advance and are saved, and the player is paid for those completed |
| GameStore.Store.InitPlayer | src/store/useGameStore.ts:705-724 | a level-1 character with the trimmed name or the default one, the kit, the initial quests and the level-1 skills, saved, in the diagnostic |
| GameStore.Store.FinishDiagnostic | src/store/useGameStore.ts:726-741 | the starting level from the two scores, full hp, zone flags from that level alone, skills up to it, saved, in play |
| GameStore.Store.LoadSave | src/store/useGameStore.ts:743-759 | true exactly when a save is readable; the save is then taken over with its missing fields defaulted and the skills rebuilt (the parts are `Reloaded` of the save); otherwise nothing changes |
| GameStore.ReloadKeepsValid | src/store/useGameStore.ts:743-759 | loading back the save of a valid state gives a valid state; loading back the loss path's save, whose geometry flag is false, is valid exactly when the player is below the geometry zone's level |
| GameStore.Store.AcceptQuest | src/store/useGameStore.ts:761-767 | the available quest with the id becomes active, saved even when nothing changed |
| GameStore.Store.CompleteQuest | src/store/useGameStore.ts:769-814 | nothing unless the first quest with the id is ready; then its reward is credited without the class multiplier, its item granted, it is completed and its successor opened; saved |
| GameStore.Store.UseSkill | src/store/useGameStore.ts:821-838 | the found skill's effect is armed and marked used; refused after a use or for a skill not unlocked |
| GameStore.Store.ResetSkillEffect | src/store/useGameStore.ts:840-842 | the effect is disarmed while the used flag stays |
| GameStore.Store.AddItem | src/store/useGameStore.ts:846-853 | one more of the item, merged or appended, saved |
| GameStore.Store.UseItem | src/store/useGameStore.ts:855-868 | nothing for an item missing or at zero; otherwise the potion heals, one is used up, empty entries drop, saved |
| GameStore.Store.SetGold | src/store/useGameStore.ts:872-876 | the gold becomes the amount, saved |
| GameStore.Store.TakeDamage | src/store/useGameStore.ts:878-883 | hp falls by the amount, never below 0, and at 0 the player dies; no save |
| GameStore.Store.Respawn | src/store/useGameStore.ts:885-889 | back in play with half the maximum hp, rounded down, saved |
| GameStore.Store.InitDailyQuests | src/store/useGameStore.ts:895-907 | today's stored quests are reused; otherwise a fresh day is created and stored |
| GameStore.Store.ClaimDailyBonus | src/store/useGameStore.ts:909-926 | a completed, unclaimed day pays 150 xp, 80 gold and a big potion and becomes claimed, all saved; otherwise nothing changes |
| BattleModal.RewardFloors | src/components/battle/BattleModal.tsx:86-87 | rewards never fall below 5 xp and 2 gold, and sit at the floor exactly when the formula reaches it |
| BattleModal.RewardsDecay | src/components/battle/BattleModal.tsx:86-87 | more failed tries never raise a reward |
| BattleModal.SkipPaysFirstTry | src/components/battle/BattleModal.tsx:72-87 | the automatic win pays what a first-try answer pays |
| BattleModal.SurroundingSpaceIgnored | src/components/battle/BattleModal.tsx:94 | white space around the typed answer never matters |
| BattleModal.ExactAnswerAccepted | src/components/battle/BattleModal.tsx:94 | the expected answer, up to surrounding white space, is accepted |
| BattleModal.CaseIgnored | src/components/battle/BattleModal.tsx:94 | two answers that lower-case alike after trimming are judged alike |
| BattleModal.LossCall | src/components/battle/BattleModal.tsx:117-121 | a loss schedules a lost `finishBattle` with no reward and the level shown before, clearing the answer afterwards |
| BattleModal.ShieldChangesNothing | src/components/battle/BattleModal.tsx:117-121 | the call scheduled with the shield armed equals the one scheduled without it |
| BattleModal.BattleView.constructor | src/components/battle/BattleModal.tsx:54-58 | blank answer, no feedback, no banner, no tries, no hint |
| BattleModal.BattleView.Type | src/components/battle/BattleModal.tsx:221 | the answer becomes the typed text |
| BattleModal.BattleView.OnBattleStart | src/components/battle/BattleModal.tsx:65-67 | entering a battle clears the answer, feedback, tries and hint; any other state changes nothing |
| BattleModal.BattleView.OnSkillEffect | src/components/battle/BattleModal.tsx:69-81 | `skipQuestion` in a battle schedules a win with the skip reward; nothing else schedules anything |
| BattleModal.BattleView.HandleSubmit | src/components/battle/BattleModal.tsx:89-131 | ignored while feedback shows; a right answer schedules a win with the reward for the tries so far; a wrong one counts a try and schedules the loss exactly at the limit; `showHint` reveals the hint |
| BattleModal.BattleView.Fire | src/components/battle/BattleModal.tsx:74-128 | a scheduled call runs `finishBattle` and then clears the answer (but not after the automatic win); a level-up shows the banner with the new level; a clearing callback clears only the answer and feedback |
| DiagnosticTest.ScoreIsBestLevel | src/components/ui/DiagnosticTest.tsx:61-68 | a subject's score is the maximum of 1 and the levels of its questions answered right |
| DiagnosticTest.BestLevelUnique | src/components/ui/DiagnosticTest.tsx:61-68 | that characterisation has a single solution |
| DiagnosticTest.ScoreIgnoresOrder | src/components/ui/DiagnosticTest.tsx:62-68 | the order of the questions does not affect the score |
| DiagnosticTest.MoreRightNeverLower | src/components/ui/DiagnosticTest.tsx:62-68 | getting more questions right never lowers a score |
| DiagnosticTest.ScoreBounded | src/components/ui/DiagnosticTest.tsx:61-68 | a score stays within 1 and the subject's hardest level |
| DiagnosticTest.TableScoreBounds | src/components/ui/DiagnosticTest.tsx:16-68 | with the game's questions the math score is in [1, 4] and the Russian score in [1, 5] |
| DiagnosticTest.AllRightScoresTop | src/components/ui/DiagnosticTest.tsx:16-68 | all answers right gives 4 and 5 |
| DiagnosticTest.ShownLevelIsStartLevel | src/components/ui/DiagnosticTest.tsx:127 | the level on the result screen is the level `finishDiagnostic` gives |
| DiagnosticTest.Tally | src/components/ui/DiagnosticTest.tsx:61-68 | the loop computes both scores over the recorded answers plus the current choice |
| DiagnosticTest.DiagnosticView.constructor | src/components/ui/DiagnosticTest.tsx:38-45 | the first question, no answers, the intro shown |
| DiagnosticTest.DiagnosticView.Start | src/components/ui/DiagnosticTest.tsx:118 | the intro closes |
| DiagnosticTest.DiagnosticView.HandleSelect | src/components/ui/DiagnosticTest.tsx:51-78 | ignored while feedback shows; otherwise the choice is recorded and judged exactly. After the last question both scores are tallied and the result shown; before it the next question comes |
| DiagnosticTest.DiagnosticView.HandleFinish | src/components/ui/DiagnosticTest.tsx:80-82 | the character starts at the level shown, with the two scores as its subject levels, in play |
| ShopPanel.AdmitExactly | src/components/ui/ShopPanel.tsx:100-109 | a purchase is made exactly when the gold covers the price and the item is unlimited or below its stock |
| ShopPanel.GoldCheckedFirst | src/components/ui/ShopPanel.tsx:102 | lacking gold is reported first, even for a sold-out item |
| ShopPanel.CatalogueIdsDistinct | src/components/ui/ShopPanel.tsx:17-72 | the catalogue's ids are distinct |
| ShopPanel.CatalogueWellFormed | src/components/ui/ShopPanel.tsx:17-72 | every price is positive and every stock at least one |
| ShopPanel.PurchaseKeepsBounds | src/components/ui/ShopPanel.tsx:100-113 | a purchase keeps gold non-negative and every limited item within its stock |
| ShopPanel.SoldOutAtStock | src/components/ui/ShopPanel.tsx:104-108 | at its stock a limited item, however affordable, is sold out |
| ShopPanel.ShopView.constructor | src/components/ui/ShopPanel.tsx:90-91 | no purchases, no notification |
| ShopPanel.ShopView.HandleBuy | src/components/ui/ShopPanel.tsx:100-115 | the verdict is notified; a refusal changes nothing; a purchase takes the price, adds the item, counts it and saves; gold stays non-negative and stock is respected |
| ShopPanel.ShopView.ClearNotice | src/components/ui/ShopPanel.tsx:97 | the notification disappears |

## Left out

- I/O. `localStorage` is the `Storage` class, and `JSON.stringify`/`JSON.parse` are the identity on stored values. A failing parse is the `Unparsable` content of a key. `console.warn` is not modelled.
- Randomness and time. `Math.random()`, `Date.now()` and `new Date()` are parameters: random draws in [0, 1), a percent roll, a clock value and the day string.
- One clock value per action. `GameStore.Store.FinishBattle` takes one `now` for both the `savedAt` stamp of `saveGame` (src/utils/saveGame.ts:29) and the leaderboard stamp of `updateLeaderboard` (src/utils/saveGame.ts:77), which read `Date.now()` separately. `GameStore.Store.InitDailyQuests` takes one `today` for the date check of `loadDailyQuests` (src/utils/saveGame.ts:114) and the date of the new day (src/store/useGameStore.ts:904). Two readings that differ, as across midnight, are not modelled.
- `toLowerCase` is a function parameter: Unicode case tables are not modelled.
- Floating point. Numbers are exact integers or rationals. `rollDrop`'s cumulative sums (0.3 + 0.15 + …) are integer percents, so rounding at a band's edge is not modelled.
- `setTimeout` delays, `window.dispatchEvent('enemyDefeated')` and rendering are left out. A delayed callback is a value (`BattleModal.Scheduled`) passed to a separate method. In the placement test, the delayed step is folded into `HandleSelect`.
- The store setters that only open or close panels or dialogs are not modelled: `setGameState`, `clearLastDrop`, `setQuestLogOpen`, `openNpcDialog`, `closeNpcDialog`, `setSkillsPanelOpen`, `setLeaderboardOpen` and `setDailyPanelOpen`. Neither are their fields. Each only assigns its argument.
- `clearSave`, `hasSave` and `saveCustomQuestions` are not separate operations. The last is the write inside `AddCustomQuestion` and `DeleteCustomQuestion`.
- Display-only data is not modelled: names, emoji, descriptions, skin and hair colours, the texts of feedback and notifications, and the level-up banner's close button.
- The notification's timer is `ShopPanel.ShopView.ClearNotice`.
- `GameStore.Store.LoadSave`: `save.player.level ?? 1` is not modelled. The level is a natural number in a stored player, so a save without a level cannot be represented.
- `SaveGame.Storage.UpdateLeaderboard`: the `class ?? 'mage'` default is not modelled, because a stored player always has an appearance.
- Sorting is a stable insertion sort on sequences, not the browser's in-place `Array.prototype.sort`. Proved: it is a permutation, and it sorts. Stability is not stated as a separate property.
- `ShopPanel.ShopView.HandleBuy`: the window is shown only in the shop state (src/components/ui/ShopPanel.tsx:93). The handler does not require it, because the gate is in rendering, not in the handler.
- The map scene (src/game/scenes/MainMap.ts) is not part of this model. Its battle gate is stated as `GameStore.Store.BattleGateOpen`, the precondition of `TriggerBattle`.
- `GameStore.Store.TakeDamage`: keeping the invariant is proved for a non-negative amount only. A negative amount could lift hp above the maximum, and the source never passes one.
