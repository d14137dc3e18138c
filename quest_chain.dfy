/** The quest state machine `locked -> available -> active -> ready -> completed` and its
    positional chain unlock (src/store/useGameStore.ts:464-538, 604-623, 761-814). */
module QuestChain {
  import opened Wrappers
  import opened GameTypes
  import Items

  function KillQuest(id: string, npc: string, zone: Zone, target: int, xp: int, gold: int,
                     item: Option<ItemDef>, status: QuestStatus): Quest
  {
    Quest(id, npc, QuestGoal(Kill, zone, target, 0), QuestReward(xp, gold, item), status)
  }

  /** `INITIAL_QUESTS`: three chains of three, one per teacher, the first of each available. */
  const InitialQuests: seq<Quest> := [
    KillQuest("q_math_1", "npc_mathius", Math, 1, 50, 20, None, Available),
    KillQuest("q_math_2", "npc_mathius", Math, 3, 120, 50, None, Locked),
    KillQuest("q_math_3", "npc_mathius", Math, 5, 200, 80, Some(Items.MathScroll), Locked),
    KillQuest("q_rus_1", "npc_wordkeeper", Russian, 1, 50, 20, None, Available),
    KillQuest("q_rus_2", "npc_wordkeeper", Russian, 3, 120, 50, None, Locked),
    KillQuest("q_rus_3", "npc_wordkeeper", Russian, 5, 200, 80, Some(Items.RusScroll), Locked),
    KillQuest("q_geo_1", "npc_geomancer", Geometry, 1, 80, 40, None, Available),
    KillQuest("q_geo_2", "npc_geomancer", Geometry, 3, 180, 80, None, Locked),
    KillQuest("q_geo_3", "npc_geomancer", Geometry, 5, 300, 120, Some(Items.GeoCrystal), Locked)
  ]

  ghost predicate UniqueIds(qs: seq<Quest>)
  {
    forall i, j :: 0 <= i < j < |qs| ==> qs[i].id != qs[j].id
  }

  lemma InitialQuestsUnique()
    ensures UniqueIds(InitialQuests)
  {
  }

  /** r is qs with the same ids at the same places. */
  ghost predicate SameIds(qs: seq<Quest>, r: seq<Quest>)
  {
    |r| == |qs| && forall i :: 0 <= i < |qs| ==> r[i].id == qs[i].id
  }

  lemma SameIdsKeepUnique(qs: seq<Quest>, r: seq<Quest>)
    requires UniqueIds(qs) && SameIds(qs, r)
    ensures UniqueIds(r)
  {
  }

  /** The transitions the state machine allows in one step (or none). */
  predicate Step(a: QuestStatus, b: QuestStatus)
  {
    || a == b
    || (a == Locked && b == Available)
    || (a == Available && b == Active)
    || (a == Active && b == Ready)
    || (a == Ready && b == Completed)
  }

  /** Position in the status order; no operation moves a quest backward in it. */
  function Rank(s: QuestStatus): int
  {
    match s
    case Locked => 0
    case Available => 1
    case Active => 2
    case Ready => 3
    case Completed => 4
  }

  lemma StepIsForward(a: QuestStatus, b: QuestStatus)
    requires Step(a, b)
    ensures Rank(a) <= Rank(b) <= Rank(a) + 1
  {
  }

  /** Every quest moved along an allowed edge of the state machine, or not at all. */
  ghost predicate StepsOnly(qs: seq<Quest>, r: seq<Quest>)
  {
    |r| == |qs| && forall i :: 0 <= i < |qs| ==> Step(qs[i].status, r[i].status)
  }

  // ---------------------------------------------------------------- progress after a win

  /** Whether a won battle in `zone` counts toward quest q. */
  predicate Counts(q: Quest, zone: Zone)
  {
    q.status == Active && q.goal.kind == Kill && q.goal.zone == zone
  }

  function AdvanceOne(q: Quest, zone: Zone): Quest
  {
    if !Counts(q, zone) then q
    else
      var current := q.goal.current + 1;
      q.(goal := q.goal.(current := current), status := if current >= q.goal.target then Ready else Active)
  }

  /** The progress map of `finishBattle`: an active kill quest of the battle's zone gains one
      kill and is ready once it has reached its target; every other quest is untouched. */
  function AdvanceKills(qs: seq<Quest>, zone: Zone): (r: seq<Quest>)
    ensures |r| == |qs|
    ensures forall i :: 0 <= i < |qs| && !Counts(qs[i], zone) ==> r[i] == qs[i]
    ensures forall i :: 0 <= i < |qs| && Counts(qs[i], zone) ==>
      && r[i].goal == qs[i].goal.(current := qs[i].goal.current + 1)
      && r[i].status == (if r[i].goal.current >= r[i].goal.target then Ready else Active)
      && r[i] == qs[i].(goal := r[i].goal, status := r[i].status)
    ensures StepsOnly(qs, r)
  {
    seq(|qs|, i requires 0 <= i < |qs| => AdvanceOne(qs[i], zone))
  }

  // ---------------------------------------------------------------- chain unlock

  /** Whether the array predecessor of quest i belongs to the same teacher and is far enough on:
      `completed`, or also `ready` when `readyCounts` (finishBattle counts it, completeQuest not). */
  predicate PredecessorDone(qs: seq<Quest>, i: int, readyCounts: bool)
    requires 0 <= i < |qs|
  {
    && i > 0
    && qs[i - 1].npcId == qs[i].npcId
    && (qs[i - 1].status == Completed || (readyCounts && qs[i - 1].status == Ready))
  }

  function UnlockOne(qs: seq<Quest>, i: int, readyCounts: bool): Quest
    requires 0 <= i < |qs|
  {
    if qs[i].status == Locked && PredecessorDone(qs, i, readyCounts) then qs[i].(status := Available)
    else qs[i]
  }

  /** One pass of positional chain unlock: a locked quest becomes available exactly when its
      predecessor in the array is the same teacher's and done; nothing else changes. */
  function Unlock(qs: seq<Quest>, readyCounts: bool): (r: seq<Quest>)
    ensures |r| == |qs|
    ensures forall i :: 0 <= i < |qs| ==>
      (r[i].status == Available && qs[i].status == Locked <==> qs[i].status == Locked && PredecessorDone(qs, i, readyCounts))
    ensures forall i :: 0 <= i < |qs| ==> r[i] == qs[i] || r[i] == qs[i].(status := Available)
    ensures StepsOnly(qs, r)
  {
    seq(|qs|, i requires 0 <= i < |qs| => UnlockOne(qs, i, readyCounts))
  }

  /** The pass does not cascade: the quest after one it unlocks stays locked. */
  lemma UnlockDoesNotCascade(qs: seq<Quest>, readyCounts: bool, i: int)
    requires 0 < i < |qs| && qs[i - 1].status == Locked
    ensures Unlock(qs, readyCounts)[i] == qs[i]
  {
  }

  /** Only a predecessor opens a quest: a locked quest at the head of its chain (first in the
      list, or after another teacher's quest) stays locked. */
  lemma UnlockOpensOnlyAfterDone(qs: seq<Quest>, readyCounts: bool, i: int)
    requires 0 <= i < |qs| && qs[i].status == Locked
    requires i == 0 || qs[i - 1].npcId != qs[i].npcId
    ensures Unlock(qs, readyCounts)[i].status == Locked
  {
  }

  /** The two passes of a win together still move each quest along one edge at most: the kill
      pass only touches active quests and the unlock pass only locked ones. */
  lemma WinStepsOnly(qs: seq<Quest>, zone: Zone)
    ensures StepsOnly(qs, Unlock(AdvanceKills(qs, zone), true))
  {
    var a := AdvanceKills(qs, zone);
    var r := Unlock(a, true);
    forall i | 0 <= i < |qs|
      ensures Step(qs[i].status, r[i].status)
    {
      if Counts(qs[i], zone) {
        assert r[i] == a[i];
      }
    }
  }

  // ---------------------------------------------------------------- accept / complete

  /** `acceptQuest`: the available quests with the id become active; no other quest changes. */
  function Accept(qs: seq<Quest>, id: string): (r: seq<Quest>)
    ensures |r| == |qs|
    ensures forall i :: 0 <= i < |qs| ==>
      r[i] == if qs[i].id == id && qs[i].status == Available then qs[i].(status := Active) else qs[i]
    ensures StepsOnly(qs, r)
  {
    seq(|qs|, i requires 0 <= i < |qs| =>
      if qs[i].id == id && qs[i].status == Available then qs[i].(status := Active) else qs[i])
  }

  /** Accepting a quest that is not available (or absent) changes nothing. */
  lemma AcceptOnlyAvailable(qs: seq<Quest>, id: string)
    requires forall i :: 0 <= i < |qs| && qs[i].id == id ==> qs[i].status != Available
    ensures Accept(qs, id) == qs
  {
  }

  /** The index of the first quest with the id, or -1 (`quests.findIndex`). */
  function FindIndex(qs: seq<Quest>, id: string): (k: int)
    ensures -1 <= k < |qs|
    ensures k == -1 <==> forall i :: 0 <= i < |qs| ==> qs[i].id != id
    ensures k >= 0 ==> qs[k].id == id && forall j :: 0 <= j < k ==> qs[j].id != id
  {
    if qs == [] then -1
    else if qs[0].id == id then 0
    else
      var k := FindIndex(qs[1..], id);
      if k == -1 then -1 else k + 1
  }

  /** The first quest with the id (`quests.find`). */
  function FindQuest(qs: seq<Quest>, id: string): (r: Option<Quest>)
    ensures r.None? <==> forall i :: 0 <= i < |qs| ==> qs[i].id != id
    ensures r.Some? ==> r.value.id == id && r.value == qs[FindIndex(qs, id)]
  {
    var k := FindIndex(qs, id);
    if k == -1 then None else Some(qs[k])
  }

  /** The status change of `completeQuest`: every quest with the id is marked completed. */
  function MarkCompleted(qs: seq<Quest>, id: string): (r: seq<Quest>)
    ensures |r| == |qs|
    ensures forall i :: 0 <= i < |qs| ==>
      r[i] == if qs[i].id == id then qs[i].(status := Completed) else qs[i]
  {
    seq(|qs|, i requires 0 <= i < |qs| => if qs[i].id == id then qs[i].(status := Completed) else qs[i])
  }

  /** None of the passes over the quest list touches an id. */
  lemma PassesKeepIds(qs: seq<Quest>, zone: Zone, readyCounts: bool, id: string)
    ensures SameIds(qs, AdvanceKills(qs, zone))
    ensures SameIds(qs, Unlock(qs, readyCounts))
    ensures SameIds(qs, Accept(qs, id))
    ensures SameIds(qs, MarkCompleted(qs, id))
  {
  }

  /** The quests after `completeQuest` has passed its guard. */
  function CompleteQuests(qs: seq<Quest>, id: string): seq<Quest>
  {
    Unlock(MarkCompleted(qs, id), false)
  }

  /** Completion moves the ready quest to completed and may open the quest after it; with unique
      ids nothing moves off the state machine's edges. */
  lemma CompleteStepsOnly(qs: seq<Quest>, id: string)
    requires UniqueIds(qs)
    requires FindQuest(qs, id).Some? && FindQuest(qs, id).value.status == Ready
    ensures StepsOnly(qs, CompleteQuests(qs, id))
    ensures forall i :: 0 <= i < |qs| && qs[i].id == id ==> CompleteQuests(qs, id)[i].status == Completed
  {
    var m := MarkCompleted(qs, id);
    var r := Unlock(m, false);
    forall i | 0 <= i < |qs| ensures Step(qs[i].status, r[i].status) {
      if qs[i].id == id {
        assert qs[i] == FindQuest(qs, id).value;
      } else {
        assert m[i] == qs[i];
      }
    }
  }

  /** The quest after the completed one opens when it is locked and the same teacher's. */
  lemma CompleteOpensSuccessor(qs: seq<Quest>, id: string, i: int)
    requires 0 < i < |qs| && qs[i - 1].id == id && qs[i].id != id
    requires qs[i].status == Locked && qs[i].npcId == qs[i - 1].npcId
    ensures CompleteQuests(qs, id)[i].status == Available
  {
  }

  /** Once completed, a quest is no longer ready, so a second `completeQuest` is turned away. */
  lemma CompleteTwiceRefused(qs: seq<Quest>, id: string)
    requires FindQuest(qs, id).Some?
    ensures FindQuest(CompleteQuests(qs, id), id).Some?
    ensures FindQuest(CompleteQuests(qs, id), id).value.status == Completed
  {
    var r := CompleteQuests(qs, id);
    var k := FindIndex(qs, id);
    assert r[k].id == id;
  }
}
