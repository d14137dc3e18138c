/** The arithmetic of progression: the XP table and single-step level-up, class hit points and the
    XP multiplier, reward scaling by skill effects, and the level thresholds of the zones
    (src/store/useGameStore.ts:24-31, 183-185, 625-642, 774-782). */
module Progression {
  import opened Wrappers
  import opened GameTypes

  /** `XP_TABLE`: the xp a player must reach at each level to advance; the last entry is a cap. */
  const XpTable: seq<int> := [0, 100, 250, 450, 700, 1000, 1400, 1900, 2500, 3200, 999999]

  const RusZoneLevel: int := 3
  const GeoZoneLevel: int := 5

  lemma XpTableStrictlyAscending()
    ensures forall i, j :: 0 <= i < j < |XpTable| ==> XpTable[i] < XpTable[j]
  {
  }

  /** `xpToNext`: the table entry at `min(level, 10)`. */
  function XpToNext(level: nat): (r: int)
    ensures r in XpTable
    ensures level < |XpTable| ==> r == XpTable[level]
    ensures level >= |XpTable| - 1 ==> r == XpTable[|XpTable| - 1]
  {
    XpTable[if level < |XpTable| - 1 then level else |XpTable| - 1]
  }

  /** Thresholds never fall as the level rises, and rise strictly up to the cap. */
  lemma XpToNextMonotone(a: nat, b: nat)
    requires a <= b
    ensures XpToNext(a) <= XpToNext(b)
    ensures b < |XpTable| && a < b ==> XpToNext(a) < XpToNext(b)
  {
    XpTableStrictlyAscending();
  }

  /** `CLASS_INFO[c].baseHp`. */
  function BaseHp(c: CharacterClass): (hp: int)
    ensures hp >= 80
  {
    match c
    case Mage => 80
    case Knight => 140
    case Archer => 100
  }

  /** `CLASS_INFO[c].xpMult`, an exact rational. */
  function ClassXpMult(c: CharacterClass): real
  {
    match c
    case Mage => 1.2
    case Knight => 1.0
    case Archer => 1.0
  }

  /** Maximum hit points at a level: the class base plus 20 for every level above the first. */
  function MaxHpFor(c: CharacterClass, level: int): (hp: int)
    ensures level >= 1 ==> hp >= BaseHp(c)
  {
    BaseHp(c) + (level - 1) * 20
  }

  lemma MaxHpGrowsWithLevel(c: CharacterClass, level: int)
    ensures MaxHpFor(c, level + 1) == MaxHpFor(c, level) + 20
  {
  }

  /** `Math.max` and `Math.min` on integers. */
  function Max(a: int, b: int): (r: int)
    ensures r >= a && r >= b && (r == a || r == b)
  {
    if a > b then a else b
  }

  function Min(a: int, b: int): (r: int)
    ensures r <= a && r <= b && (r == a || r == b)
  {
    if a < b then a else b
  }

  /** JavaScript's `Math.round`: the nearest integer, a half rounded up. */
  function Round(x: real): (r: int)
    ensures x - 0.5 < r as real <= x + 0.5
  {
    (x + 0.5).Floor
  }

  /** Rounding a whole number gives it back. */
  lemma RoundOfInteger(n: int)
    ensures Round(n as real) == n
  {
  }

  /** Rounding a fraction p/q is integer arithmetic: `(2p + q) div 2q` (a floor division). */
  lemma RoundFraction(p: int, q: int)
    requires q > 0
    ensures Round(p as real / q as real) == (2 * p + q) / (2 * q)
  {
    HalfShift(p, q);
    FloorOfFraction(2 * p + q, 2 * q);
  }

  lemma HalfShift(p: int, q: int)
    requires q > 0
    ensures p as real / q as real + 0.5 == (2 * p + q) as real / (2 * q) as real
  {
    var x := p as real / q as real;
    var y := (2 * p + q) as real / (2 * q) as real;
    assert x * q as real == p as real;
    assert y * (2 * q) as real == (2 * p + q) as real;
    assert (x + 0.5) * (2 * q) as real == (2 * p + q) as real;
    Cancel(x + 0.5, y, (2 * q) as real);
  }

  lemma Cancel(a: real, b: real, d: real)
    requires d > 0.0 && a * d == b * d
    ensures a == b
  {
    assert (a - b) * d == 0.0;
  }

  /** The floor of a/b is Dafny's division, which rounds down for a positive divisor. */
  lemma FloorOfFraction(a: int, b: int)
    requires b > 0
    ensures (a as real / b as real).Floor == a / b
  {
    var k, m := a / b, a % b;
    assert a == k * b + m && 0 <= m < b;
    assert a as real == (k * b) as real + m as real;
    ProductCast(k, b);
    var f := m as real / b as real;
    assert 0.0 <= f < 1.0;
    assert a as real / b as real == k as real + f;
  }

  lemma ProductCast(k: int, b: int)
    ensures (k * b) as real == k as real * b as real
  {
  }

  /** The xp factor of the armed skill: 3/2 for `xpBoost`, 1 otherwise. */
  function XpFactor(effect: Option<SkillEffect>): real
  {
    if effect == Some(XpBoost) then 1.5 else 1.0
  }

  /** The gold factor of the armed skill: 2 for `goldBoost`, 1 otherwise. */
  function GoldFactor(effect: Option<SkillEffect>): int
  {
    if effect == Some(GoldBoost) then 2 else 1
  }

  /** Xp credited for a victory: the reward scaled by the skill factor and the class multiplier, rounded. */
  function XpGain(rewardXp: int, effect: Option<SkillEffect>, xpMult: real): int
  {
    Round(rewardXp as real * XpFactor(effect) * xpMult)
  }

  /** Gold credited for a victory: the reward, doubled by `goldBoost`; the class multiplier
      plays no part, and the rounding changes nothing since the product is whole. */
  function GoldGain(rewardGold: int, effect: Option<SkillEffect>): (g: int)
    ensures g == rewardGold * GoldFactor(effect)
  {
    RoundOfInteger(rewardGold * GoldFactor(effect));
    Round(rewardGold as real * GoldFactor(effect) as real)
  }

  /** The xp credited for each of the game's multipliers, as integer formulas: a knight or archer
      without a boost gets the reward itself, `xpBoost` gives 3/2 rounded half up, a mage gets
      6/5 (9/5 with `xpBoost`) rounded. */
  lemma XpGainFormulas(x: int)
    ensures XpGain(x, None, 1.0) == x
    ensures XpGain(x, Some(XpBoost), 1.0) == (3 * x + 1) / 2
    ensures XpGain(x, None, 1.2) == (12 * x + 5) / 10
    ensures XpGain(x, Some(XpBoost), 1.2) == (18 * x + 5) / 10
  {
    RoundOfInteger(x);
    assert x as real * 1.5 * 1.0 == (3 * x) as real / 2 as real;
    RoundFraction(3 * x, 2);
    assert x as real * 1.0 * 1.2 == (6 * x) as real / 5 as real;
    RoundFraction(6 * x, 5);
    assert x as real * 1.5 * 1.2 == (9 * x) as real / 5 as real;
    RoundFraction(9 * x, 5);
  }

  /** No skill effect other than `xpBoost` changes the xp gained. */
  lemma XpGainIgnoresOtherEffects(x: int, e: SkillEffect, m: real)
    requires e != XpBoost
    ensures XpGain(x, Some(e), m) == XpGain(x, None, m)
  {
  }

  /** The level after crediting xp: one level up exactly when the new xp reaches the threshold of
      the current level, never more, however far the threshold is passed. */
  function NextLevel(level: nat, newXp: int): (r: nat)
    ensures level <= r <= level + 1
    ensures r == level + 1 <==> newXp >= XpToNext(level)
  {
    if newXp >= XpToNext(level) then level + 1 else level
  }

  /** The level-up is single-step: an xp total past two thresholds still gains one level only,
      leaving the player above the next threshold. */
  lemma NextLevelSingleStep(level: nat, newXp: int)
    requires newXp >= XpToNext(level + 1)
    ensures NextLevel(level, newXp) == level + 1
    ensures newXp >= XpToNext(NextLevel(level, newXp))
  {
    XpToNextMonotone(level, level + 1);
  }

  /** A zone flag after a level change: once set it stays set, and it is set once the level
      reaches the zone's threshold. */
  function ZoneFlag(flag: bool, level: int, threshold: int): (r: bool)
    ensures flag ==> r
    ensures level >= threshold ==> r
    ensures r ==> flag || level >= threshold
  {
    flag || level >= threshold
  }

  /** The player record is consistent with its level: at least level 1, xpToNextLevel looked
      up, maxHp computed from class and level, and 0 <= hp <= maxHp. */
  ghost predicate PlayerConsistent(p: Player)
  {
    && p.level >= 1
    && p.xpToNextLevel == XpToNext(p.level)
    && p.maxHp == MaxHpFor(p.appearance.cls, p.level)
    && 0 <= p.hp <= p.maxHp
  }

  /** Crediting xp and gold after a victory (`subject` is the battle's) or a quest completion
      (`subject` is None): single-step level-up, maxHp recomputed, hp refilled on a level-up and
      kept otherwise, and the subject level raised with the overall level. */
  function Credit(p: Player, xpGain: int, goldGain: int, subject: Option<Zone>): (q: Player)
  {
    var newXp := p.xp + xpGain;
    var levelUp := newXp >= XpToNext(p.level);
    var newLevel := if levelUp then p.level + 1 else p.level;
    var newMaxHp := BaseHp(p.appearance.cls) + (newLevel - 1) * 20;
    p.(xp := newXp, gold := p.gold + goldGain,
       level := newLevel, xpToNextLevel := XpToNext(newLevel),
       mathLevel := if subject == Some(Math) && levelUp then p.mathLevel + 1 else p.mathLevel,
       rusLevel := if subject == Some(Russian) && levelUp then p.rusLevel + 1 else p.rusLevel,
       maxHp := newMaxHp,
       hp := if levelUp then newMaxHp else p.hp)
  }

  /** What crediting does, field by field (the worked out form of `Credit`): xp and gold grow by
      the gains, the level rises by one exactly when the new xp reaches the threshold of the old
      level, xpToNextLevel and maxHp follow the new level, hp is refilled on a level-up, the
      subject level rises with the overall level, and nothing else changes. */
  lemma CreditEffects(p: Player, xpGain: int, goldGain: int, subject: Option<Zone>)
    ensures var q := Credit(p, xpGain, goldGain, subject);
      && q.xp == p.xp + xpGain && q.gold == p.gold + goldGain
      && q.level == NextLevel(p.level, q.xp)
      && q.xpToNextLevel == XpToNext(q.level)
      && q.maxHp == MaxHpFor(p.appearance.cls, q.level)
      && q.hp == (if q.level > p.level then q.maxHp else p.hp)
      && q.mathLevel == (if subject == Some(Math) && q.level > p.level then p.mathLevel + 1 else p.mathLevel)
      && q.rusLevel == (if subject == Some(Russian) && q.level > p.level then p.rusLevel + 1 else p.rusLevel)
      && q == p.(xp := q.xp, gold := q.gold, level := q.level, xpToNextLevel := q.xpToNextLevel,
                      mathLevel := q.mathLevel, rusLevel := q.rusLevel, maxHp := q.maxHp, hp := q.hp)
  {
  }

  /** On a consistent player a credit that does not reach the threshold is a pure xp and gold
      change: the recomputed maxHp and xpToNextLevel come out as they were, and hp is kept. A
      credit that does reach it raises the level by exactly one, adds 20 to maxHp and fills hp. */
  lemma CreditFrame(p: Player, xpGain: int, goldGain: int, subject: Option<Zone>)
    requires PlayerConsistent(p)
    ensures var q := Credit(p, xpGain, goldGain, subject);
      && (p.xp + xpGain < p.xpToNextLevel <==> q.level == p.level)
      && (q.level == p.level ==> q == p.(xp := p.xp + xpGain, gold := p.gold + goldGain))
      && (q.level != p.level ==>
            && q.level == p.level + 1
            && q.maxHp == p.maxHp + 20 && q.hp == q.maxHp)
  {
  }

  /** Crediting keeps the player consistent: the level never falls, and 0 <= hp <= maxHp survives
      the maxHp recomputation. */
  lemma CreditKeepsConsistency(p: Player, xpGain: int, goldGain: int, subject: Option<Zone>)
    requires PlayerConsistent(p)
    ensures PlayerConsistent(Credit(p, xpGain, goldGain, subject))
    ensures p.level <= Credit(p, xpGain, goldGain, subject).level
  {
  }

  /** A subject level rises only with a level-up won in that subject. */
  lemma SubjectLevelsFollowLevelUp(p: Player, xpGain: int, goldGain: int, subject: Option<Zone>)
    ensures var q := Credit(p, xpGain, goldGain, subject);
      && (q.mathLevel != p.mathLevel <==> subject == Some(Math) && q.level == p.level + 1)
      && (q.rusLevel != p.rusLevel <==> subject == Some(Russian) && q.level == p.level + 1)
  {
  }

  /** The starting level from the two diagnostic scores: half their sum, rounded down, at least 1. */
  function StartLevel(mathLvl: int, rusLvl: int): (r: nat)
    ensures r >= 1
    ensures r == 1 || r == (mathLvl + rusLvl) / 2
    ensures r >= (mathLvl + rusLvl) / 2
  {
    var half := (mathLvl + rusLvl) / 2;
    if half >= 1 then half else 1
  }

  /** The worked example: a level-2 mage at 240 xp winning 50 xp reaches 300 and level 3. */
  lemma MageLevelsUpToThree(p: Player)
    requires p.level == 2 && p.xp == 240 && p.appearance.cls == Mage && p.xpMult == 1.2
    ensures var q := Credit(p, XpGain(50, None, p.xpMult), 20, Some(Math));
      && q.xp == 300 && q.level == 3 && q.mathLevel == p.mathLevel + 1
      && q.hp == q.maxHp == 120
      && ZoneFlag(false, q.level, RusZoneLevel)
  {
    XpGainFormulas(50);
  }
}
