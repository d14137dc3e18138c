/** The battle window's event handlers: the attempt limit, the decaying reward, the answer check,
    the attempt counting of a submission, the delayed calls into the store, and the automatic win
    of the `skipQuestion` skill. Rendering is not modelled. */
module BattleModal {
  import opened Wrappers
  import opened GameTypes
  import opened JsText
  import opened Progression
  import opened GameStore

  /** `maxAttempts`: six tries under `extraAttempts`, three otherwise. */
  function MaxAttempts(effect: Option<SkillEffect>): (n: int)
    ensures n == 3 || n == 6
    ensures n == 6 <==> effect == Some(ExtraAttempts)
  {
    if effect == Some(ExtraAttempts) then 6 else 3
  }

  /** `xpReward`: twenty per difficulty step, five less per failed try, never below five. */
  function XpReward(difficulty: int, attempts: int): int
  {
    Max(5, 20 * difficulty - 5 * attempts)
  }

  /** `goldReward`: ten per difficulty step, two less per failed try, never below two. */
  function GoldReward(difficulty: int, attempts: int): int
  {
    Max(2, 10 * difficulty - 2 * attempts)
  }

  /** The reward of `skipQuestion`'s automatic win. */
  function SkipReward(difficulty: int): Reward
  {
    Reward(Max(5, 20 * difficulty), Max(2, 10 * difficulty))
  }

  /** The rewards are bounded below by five xp and two gold. */
  lemma RewardFloors(difficulty: int, attempts: int)
    ensures XpReward(difficulty, attempts) >= 5 && GoldReward(difficulty, attempts) >= 2
    ensures XpReward(difficulty, attempts) == 5 <==> 20 * difficulty - 5 * attempts <= 5
    ensures GoldReward(difficulty, attempts) == 2 <==> 10 * difficulty - 2 * attempts <= 2
  {
  }

  /** Every failed try lowers the reward or leaves it at its floor: both are non-increasing in
      the number of tries. */
  lemma RewardsDecay(difficulty: int, a: int, b: int)
    requires a <= b
    ensures XpReward(difficulty, b) <= XpReward(difficulty, a)
    ensures GoldReward(difficulty, b) <= GoldReward(difficulty, a)
  {
  }

  /** The skip reward is the reward of an answer right at the first try, whatever the tries. */
  lemma SkipPaysFirstTry(difficulty: int)
    ensures SkipReward(difficulty) == Reward(XpReward(difficulty, 0), GoldReward(difficulty, 0))
  {
  }

  /** The answer check: the typed answer trimmed and lower-cased against the lower-cased expected
      answer. `lower` stands for `toLowerCase`, whose Unicode tables are not modelled. */
  predicate AnswerCorrect(lower: string -> string, answer: string, expected: string)
  {
    lower(Trim(answer)) == lower(expected)
  }

  /** White space around the typed answer never matters, whatever `lower` does. */
  lemma SurroundingSpaceIgnored(lower: string -> string, answer: string, expected: string)
    ensures AnswerCorrect(lower, Trim(answer), expected) <==> AnswerCorrect(lower, answer, expected)
  {
    TrimIdempotent(answer);
  }

  /** An answer that is the expected one up to surrounding white space is accepted, whatever
      `lower` does. */
  lemma ExactAnswerAccepted(lower: string -> string, answer: string, expected: string)
    requires Trim(answer) == expected
    ensures AnswerCorrect(lower, answer, expected)
  {
  }

  /** The outcome of two answers whose trimmed forms lower-case alike is the same. */
  lemma CaseIgnored(lower: string -> string, a: string, b: string, expected: string)
    requires lower(Trim(a)) == lower(Trim(b))
    ensures AnswerCorrect(lower, a, expected) <==> AnswerCorrect(lower, b, expected)
  {
  }

  /** What a handler leaves for its `setTimeout` callback: nothing, clearing the feedback of a
      wrong answer, or a `finishBattle` call (with the level shown before, for the level-up
      banner, and whether the answer and feedback are cleared afterwards, which the automatic
      win of `skipQuestion` does not do). */
  datatype Scheduled = Nothing | ClearFeedback | Finish(isVictory: bool, reward: Reward, prevLevel: int, clears: bool)

  /** The lost battle's call, with and without `damageShield`: both branches of the source make
      the same call, so the shield changes nothing here. */
  function LossCall(shieldActive: bool, prevLevel: int): (s: Scheduled)
    ensures s == Finish(false, Reward(0, 0), prevLevel, true)
  {
    if shieldActive then Finish(false, Reward(0, 0), prevLevel, true) else Finish(false, Reward(0, 0), prevLevel, true)
  }

  /** `damageShield` has no effect on how a battle is lost: the call scheduled with the shield
      armed is the one scheduled without it, whatever the level. */
  lemma ShieldChangesNothing(prevLevel: int)
    ensures LossCall(true, prevLevel) == LossCall(false, prevLevel)
    ensures forall l :: LossCall(true, l).prevLevel == l && !LossCall(true, l).isVictory
  {
  }

  class BattleView {
    var answer: string
    /** The feedback shown, by whether it reports a right answer; None when none is shown. */
    var feedback: Option<bool>
    var levelUp: Option<int>
    var attempts: int
    var hintVisible: bool
    const store: Store

    constructor(store: Store)
      ensures this.store == store
      ensures answer == "" && feedback == None && levelUp == None && attempts == 0 && !hintVisible
    {
      this.store := store;
      answer := "";
      feedback := None;
      levelUp := None;
      attempts := 0;
      hintVisible := false;
    }

    /** The input field's `onChange`. */
    method Type(text: string)
      modifies this`answer
      ensures answer == text
    {
      answer := text;
    }

    /** The effect on entering a battle: a blank answer, no feedback, no tries, no hint. */
    method OnBattleStart()
      modifies this`answer, this`feedback, this`attempts, this`hintVisible
      ensures store.gameState == Battle ==> answer == "" && feedback == None && attempts == 0 && !hintVisible
      ensures store.gameState != Battle ==>
        answer == old(answer) && feedback == old(feedback) && attempts == old(attempts) && hintVisible == old(hintVisible)
    {
      if store.gameState == Battle {
        answer, feedback, attempts, hintVisible := "", None, 0, false;
      }
    }

    /** The effect on a new armed skill: `skipQuestion` during a battle schedules a win with the
        skip reward; nothing else does anything. */
    method OnSkillEffect() returns (s: Scheduled)
      ensures s == if store.gameState == Battle && store.battle.activeSkillEffect == Some(SkipQuestion)
                   then Finish(true, SkipReward(store.battle.difficulty), store.player.level, false)
                   else Nothing
    {
      s := Nothing;
      if store.gameState == Battle && store.battle.activeSkillEffect == Some(SkipQuestion) {
        s := Finish(true, SkipReward(store.battle.difficulty), store.player.level, false);
      }
    }

    /** `handleSubmit`, while the window is shown (a battle with a question). Ignored while
        feedback is shown. Otherwise `showHint` reveals the hint; a right answer schedules a win
        with the reward for the tries so far; a wrong one counts a try, and schedules the loss
        exactly when the tries reach the limit, or else the clearing of its feedback. */
    method HandleSubmit(lower: string -> string) returns (s: Scheduled)
      requires store.gameState == Battle && store.battle.currentQuestion.Some?
      modifies this`feedback, this`attempts, this`hintVisible
      ensures old(feedback).Some? ==> s == Nothing && unchanged(this)
      ensures old(feedback).None? ==>
        var effect := store.battle.activeSkillEffect;
        var d := store.battle.difficulty;
        var correct := AnswerCorrect(lower, answer, store.battle.currentQuestion.value.correctAnswer);
        && hintVisible == (old(hintVisible) || effect == Some(ShowHint))
        && feedback == Some(correct)
        && (correct ==> attempts == old(attempts)
                        && s == Finish(true, Reward(XpReward(d, old(attempts)), GoldReward(d, old(attempts))), store.player.level, true))
        && (!correct ==> attempts == old(attempts) + 1
                         && s == (if attempts >= MaxAttempts(effect) then Finish(false, Reward(0, 0), store.player.level, true)
                                  else ClearFeedback))
    {
      if feedback.Some? {
        return Nothing;
      }
      var effect := store.battle.activeSkillEffect;
      if effect == Some(ShowHint) {
        hintVisible := true;
      }
      var isCorrect := AnswerCorrect(lower, answer, store.battle.currentQuestion.value.correctAnswer);
      var d := store.battle.difficulty;
      if isCorrect {
        feedback := Some(true);
        s := Finish(true, Reward(XpReward(d, attempts), GoldReward(d, attempts)), store.player.level, true);
      } else {
        var newAttempts := attempts + 1;
        attempts := newAttempts;
        if newAttempts >= MaxAttempts(effect) {
          feedback := Some(false);
          s := LossCall(effect == Some(DamageShield), store.player.level);
        } else {
          feedback := Some(false);
          if effect == Some(ShowHint) {
            hintVisible := true;
          }
          s := ClearFeedback;
        }
      }
    }

    /** A `setTimeout` callback: the scheduled `finishBattle` call, after which the answer and
        feedback are cleared (except after the automatic win) and, after a win that raised the
        level, the banner shows the new level; or the clearing of a wrong answer's feedback. */
    method Fire(s: Scheduled, roll: int, now: int)
      modifies this`answer, this`feedback, this`levelUp
      modifies store`gameState, store`battle, store`player, store`inventory, store`lastDrop, store`quests
      modifies store`rusZoneUnlocked, store`geoZoneUnlocked, store`skills, store`dailyQuests, store`wins
      modifies store.storage`save, store.storage`daily, store.storage`board
      ensures s.Nothing? ==> unchanged(this, store, store.storage)
      ensures s.ClearFeedback? ==> answer == "" && feedback == None && levelUp == old(levelUp) && unchanged(store, store.storage)
      ensures s.Finish? && s.clears ==> answer == "" && feedback == None
      ensures s.Finish? && !s.clears ==> answer == old(answer) && feedback == old(feedback)
      ensures s.Finish? && !s.isVictory ==> store.Lost(now) && levelUp == old(levelUp)
      ensures s.Finish? && s.isVictory ==> store.Won(s.reward, roll, now)
      ensures s.Finish? && s.isVictory ==>
        levelUp == if store.player.level > s.prevLevel then Some(store.player.level) else old(levelUp)
      ensures s.Finish? ==> (old(store.Valid()) ==> store.Valid())
    {
      match s
      case Nothing =>
      case ClearFeedback =>
        feedback := None;
        answer := "";
      case Finish(isVictory, reward, prevLevel, clears) =>
        store.FinishBattle(isVictory, reward, roll, now);
        if clears {
          answer := "";
          feedback := None;
        }
        if isVictory && store.player.level > prevLevel {
          levelUp := Some(store.player.level);
        }
    }
  }
}
