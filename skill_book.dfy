/** The skill catalogue and the rules that unlock and look up skills
    (src/store/useGameStore.ts:98-105, 642, 722, 747, 823). */
module SkillBook {
  import opened Wrappers
  import opened GameTypes

  /** `SKILLS_CATALOG`: one skill per effect, the first unlocked from the start. */
  const Catalog: seq<Skill> := [
    Skill("fireball", XpBoost, 1, true),
    Skill("scroll", ShowHint, 2, false),
    Skill("iceray", SkipQuestion, 3, false),
    Skill("thunder", ExtraAttempts, 5, false),
    Skill("shield", DamageShield, 7, false),
    Skill("greatspell", GoldBoost, 9, false)
  ]

  /** The unlock map run after a level change: every skill whose unlock level has been reached
      becomes unlocked, an unlocked skill stays unlocked, and nothing else about a skill changes. */
  function UnlockSkills(skills: seq<Skill>, level: int): (r: seq<Skill>)
    ensures |r| == |skills|
    ensures forall i :: 0 <= i < |skills| ==> r[i] == skills[i].(unlocked := r[i].unlocked)
    ensures forall i :: 0 <= i < |skills| ==>
      (r[i].unlocked <==> skills[i].unlocked || skills[i].unlockLevel <= level)
  {
    seq(|skills|, i requires 0 <= i < |skills| =>
      if skills[i].unlockLevel <= level then skills[i].(unlocked := true) else skills[i])
  }

  /** The catalogue as rebuilt by `initPlayer` and `loadSave`: unlocked exactly up to the level. */
  function SkillsAtLevel(level: int): (r: seq<Skill>)
    ensures |r| == |Catalog|
    ensures forall i :: 0 <= i < |Catalog| ==>
      r[i] == Catalog[i].(unlocked := r[i].unlocked) && (r[i].unlocked <==> Catalog[i].unlockLevel <= level)
  {
    seq(|Catalog|, i requires 0 <= i < |Catalog| => Catalog[i].(unlocked := Catalog[i].unlockLevel <= level))
  }

  /** The skills are unlocked exactly up to some level (the state kept by the store). */
  ghost predicate UnlockedUpTo(skills: seq<Skill>, level: int)
  {
    forall i :: 0 <= i < |skills| ==> (skills[i].unlocked <==> skills[i].unlockLevel <= level)
  }

  /** Unlocking is monotone in the level, and raising the level keeps the skills unlocked exactly
      up to the new level. */
  lemma UnlockSkillsRaisesLevel(skills: seq<Skill>, level: int, newLevel: int)
    requires UnlockedUpTo(skills, level) && level <= newLevel
    ensures UnlockedUpTo(UnlockSkills(skills, newLevel), newLevel)
  {
  }

  /** Unlocking twice at the same level is unlocking once. */
  lemma UnlockSkillsIdempotent(skills: seq<Skill>, level: int)
    ensures UnlockSkills(UnlockSkills(skills, level), level) == UnlockSkills(skills, level)
  {
  }

  /** At level 1 only the fireball is available; from level 9 on every skill is. */
  lemma CatalogUnlocks()
    ensures SkillsAtLevel(1) == Catalog
    ensures forall i :: 0 <= i < |Catalog| ==> SkillsAtLevel(9)[i].unlocked
  {
  }

  /** The first unlocked skill with the id (`skills.find(s => s.id === id && s.unlocked)`). */
  function FindUnlocked(skills: seq<Skill>, id: string): (r: Option<Skill>)
    ensures r.None? <==> forall i :: 0 <= i < |skills| ==> !(skills[i].id == id && skills[i].unlocked)
    ensures r.Some? ==> r.value in skills && r.value.id == id && r.value.unlocked
  {
    if skills == [] then None
    else if skills[0].id == id && skills[0].unlocked then Some(skills[0])
    else
      var r := FindUnlocked(skills[1..], id);
      assert r.Some? ==> r.value in skills;
      r
  }

  /** The skill `FindUnlocked` returns is the first unlocked one with the id: no skill before it
      is both unlocked and of that id. */
  lemma {:induction false} FindUnlockedIsFirst(skills: seq<Skill>, id: string)
    requires FindUnlocked(skills, id).Some?
    ensures exists k :: 0 <= k < |skills| && skills[k] == FindUnlocked(skills, id).value
                        && forall j :: 0 <= j < k ==> !(skills[j].id == id && skills[j].unlocked)
  {
    var r := FindUnlocked(skills, id).value;
    if !(skills[0].id == id && skills[0].unlocked) {
      FindUnlockedIsFirst(skills[1..], id);
      var k :| 0 <= k < |skills[1..]| && skills[1..][k] == r
               && forall j :: 0 <= j < k ==> !(skills[1..][j].id == id && skills[1..][j].unlocked);
      assert skills[k + 1] == r;
      forall j | 0 <= j < k + 1
        ensures !(skills[j].id == id && skills[j].unlocked)
      {
        if j > 0 { assert skills[j] == skills[1..][j - 1]; }
      }
    } else {
      assert skills[0] == r;
    }
  }
}
