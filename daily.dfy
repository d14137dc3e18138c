/** Daily quests: the three defaults of a new day, their progress after a win with the per-quest
    reward paid on completion, and the admission rule of the daily bonus
    (src/store/useGameStore.ts:666-684, 895-926). */
module Daily {
  import opened GameTypes

  /** The three quests `initDailyQuests` creates; the "any zone" quest counts math wins only. */
  const DefaultQuests: seq<DailyQuestEntry> := [
    DailyQuestEntry("dq_math", 3, 0, Math, 60, 30, false),
    DailyQuestEntry("dq_russian", 2, 0, Russian, 50, 25, false),
    DailyQuestEntry("dq_any", 1, 0, Math, 40, 20, false)
  ]

  function NewDay(today: string): (d: DailyQuestData)
    ensures d.date == today && !d.bonusClaimed && d.quests == DefaultQuests
    ensures forall i :: 0 <= i < |d.quests| ==> !d.quests[i].completed && d.quests[i].current == 0
  {
    DailyQuestData(today, DefaultQuests, false)
  }

  /** The bonus of `claimDailyBonus`. */
  const BonusXp: int := 150
  const BonusGold: int := 80

  /** Whether a win in `zone` moves entry e on. */
  predicate Counts(e: DailyQuestEntry, zone: Zone)
  {
    !e.completed && e.zone == zone
  }

  /** Whether a win in `zone` completes entry e, which is when its reward is paid. */
  predicate Completes(e: DailyQuestEntry, zone: Zone)
  {
    Counts(e, zone) && e.current + 1 >= e.target
  }

  function AdvanceOne(e: DailyQuestEntry, zone: Zone): (r: DailyQuestEntry)
    ensures !Counts(e, zone) ==> r == e
    ensures Counts(e, zone) ==> r == e.(current := e.current + 1, completed := Completes(e, zone))
  {
    if !Counts(e, zone) then e else e.(current := e.current + 1, completed := e.current + 1 >= e.target)
  }

  /** The progress map: the open entries of the zone gain one, and are completed once they reach
      their target; completed entries and other zones' entries are untouched. */
  function AdvanceAll(dqs: seq<DailyQuestEntry>, zone: Zone): (r: seq<DailyQuestEntry>)
    ensures |r| == |dqs|
    ensures forall i :: 0 <= i < |dqs| ==> r[i] == AdvanceOne(dqs[i], zone)
  {
    seq(|dqs|, i requires 0 <= i < |dqs| => AdvanceOne(dqs[i], zone))
  }

  function RewardOf(e: DailyQuestEntry, gold: bool): int
  {
    if gold then e.goldReward else e.xpReward
  }

  /** The xp (or gold) a win in `zone` pays: the rewards of the entries it completes. */
  function Paid(dqs: seq<DailyQuestEntry>, zone: Zone, gold: bool): int
  {
    if dqs == [] then 0
    else
      var last := dqs[|dqs| - 1];
      Paid(dqs[..|dqs| - 1], zone, gold) + (if Completes(last, zone) then RewardOf(last, gold) else 0)
  }

  /** The xp (or gold) still to be earned: the rewards of the entries not yet completed. */
  function Unpaid(dqs: seq<DailyQuestEntry>, gold: bool): int
  {
    if dqs == [] then 0
    else
      var last := dqs[|dqs| - 1];
      Unpaid(dqs[..|dqs| - 1], gold) + (if last.completed then 0 else RewardOf(last, gold))
  }

  /** A win never undoes daily progress: every entry keeps its id, zone, target and rewards; its
      count rises by at most one; a completed entry stays as it was; and an entry is completed
      afterwards exactly when it was before or this win completes it. */
  lemma AdvanceNeverUndoes(dqs: seq<DailyQuestEntry>, zone: Zone)
    ensures var r := AdvanceAll(dqs, zone);
      forall i :: 0 <= i < |dqs| ==>
        && r[i].id == dqs[i].id && r[i].zone == dqs[i].zone && r[i].target == dqs[i].target
        && r[i].xpReward == dqs[i].xpReward && r[i].goldReward == dqs[i].goldReward
        && dqs[i].current <= r[i].current <= dqs[i].current + 1
        && (dqs[i].completed ==> r[i] == dqs[i])
        && (r[i].completed <==> dqs[i].completed || Completes(dqs[i], zone))
  {
  }

  lemma AdvancePrefix(dqs: seq<DailyQuestEntry>, zone: Zone, n: nat)
    requires n <= |dqs|
    ensures AdvanceAll(dqs, zone)[..n] == AdvanceAll(dqs[..n], zone)
  {
  }

  /** Reward conservation: what a win pays is exactly what it removes from the rewards still to
      be earned, so each entry's reward is paid once over any run of wins, on its completion. */
  lemma {:induction false} PaidIsUnpaidDrop(dqs: seq<DailyQuestEntry>, zone: Zone, gold: bool)
    ensures Paid(dqs, zone, gold) + Unpaid(AdvanceAll(dqs, zone), gold) == Unpaid(dqs, gold)
  {
    if dqs != [] {
      var n := |dqs| - 1;
      PaidIsUnpaidDrop(dqs[..n], zone, gold);
      AdvancePrefix(dqs, zone, n);
      assert AdvanceAll(dqs, zone)[..n] == AdvanceAll(dqs[..n], zone);
    }
  }

  /** With every entry completed a win pays nothing and changes nothing. */
  lemma {:induction false} CompletedPaysNothing(dqs: seq<DailyQuestEntry>, zone: Zone, gold: bool)
    requires forall i :: 0 <= i < |dqs| ==> dqs[i].completed
    ensures Paid(dqs, zone, gold) == 0
    ensures AdvanceAll(dqs, zone) == dqs
  {
    if dqs != [] {
      CompletedPaysNothing(dqs[..|dqs| - 1], zone, gold);
    }
  }

  /** The daily-quest pass of a won battle: walks the entries, advancing each and adding the
      reward of each entry it completes to the player's xp and gold. */
  method AdvanceDailyQuests(dqs: seq<DailyQuestEntry>, zone: Zone, p: Player)
    returns (r: seq<DailyQuestEntry>, q: Player)
    ensures r == AdvanceAll(dqs, zone)
    ensures q == p.(xp := p.xp + Paid(dqs, zone, false), gold := p.gold + Paid(dqs, zone, true))
  {
    r := [];
    q := p;
    var i := 0;
    while i < |dqs|
      invariant 0 <= i <= |dqs|
      invariant r == AdvanceAll(dqs[..i], zone)
      invariant q == p.(xp := p.xp + Paid(dqs[..i], zone, false), gold := p.gold + Paid(dqs[..i], zone, true))
    {
      var dq := dqs[i];
      var next := dq;
      if !dq.completed && dq.zone == zone {
        var newCurrent := dq.current + 1;
        var completed := newCurrent >= dq.target;
        if completed && !dq.completed {
          q := q.(xp := q.xp + dq.xpReward, gold := q.gold + dq.goldReward);
        }
        next := dq.(current := newCurrent, completed := completed);
      }
      assert dqs[..i + 1][..i] == dqs[..i];
      r := r + [next];
      i := i + 1;
    }
    assert dqs[..i] == dqs;
  }

  /** `claimDailyBonus` admits only when every daily quest is completed. */
  predicate AllCompleted(d: DailyQuestData)
  {
    forall i :: 0 <= i < |d.quests| ==> d.quests[i].completed
  }

  /** The entries after a run of wins, in order, in the zones `zs`. */
  function AfterWins(dqs: seq<DailyQuestEntry>, zs: seq<Zone>): (r: seq<DailyQuestEntry>)
    ensures |r| == |dqs|
    decreases |zs|
  {
    if zs == [] then dqs else AfterWins(AdvanceAll(dqs, zs[0]), zs[1..])
  }

  /** The number of wins in `zone` among `zs`. */
  function WinsIn(zs: seq<Zone>, zone: Zone): (n: nat)
    ensures n <= |zs|
  {
    if zs == [] then 0 else (if zs[0] == zone then 1 else 0) + WinsIn(zs[1..], zone)
  }

  /** An entry is completed after a run of wins exactly when it was before, or when its count
      plus the wins of its zone reaches its target (for an entry that, if still open, is below its
      target, as every entry of a new day is and every win keeps). */
  lemma {:induction false} CompletedAfterWins(dqs: seq<DailyQuestEntry>, zs: seq<Zone>, i: int)
    requires 0 <= i < |dqs|
    requires dqs[i].completed || dqs[i].current < dqs[i].target
    ensures AfterWins(dqs, zs)[i].completed <==>
      dqs[i].completed || dqs[i].current + WinsIn(zs, dqs[i].zone) >= dqs[i].target
    decreases |zs|
  {
    if zs != [] {
      var e := AdvanceAll(dqs, zs[0])[i];
      CompletedAfterWins(AdvanceAll(dqs, zs[0]), zs[1..], i);
      assert e == AdvanceOne(dqs[i], zs[0]);
      assert AfterWins(dqs, zs) == AfterWins(AdvanceAll(dqs, zs[0]), zs[1..]);
      assert WinsIn(zs, e.zone) == (if zs[0] == e.zone then 1 else 0) + WinsIn(zs[1..], e.zone);
      if Counts(dqs[i], zs[0]) {
        assert e.current == dqs[i].current + 1 && (e.completed <==> dqs[i].current + 1 >= dqs[i].target);
      } else {
        assert e == dqs[i];
      }
    }
  }

  lemma {:induction false} WinsInTwoZones(zs: seq<Zone>, a: Zone, b: Zone)
    requires a != b
    ensures WinsIn(zs, a) + WinsIn(zs, b) <= |zs|
  {
    if zs != [] {
      WinsInTwoZones(zs[1..], a, b);
    }
  }

  /** Whatever the order of the wins, a new day's entries are all completed exactly when at
      least three math wins and two russian wins have been counted (a math win also counts for
      `dq_any`), so at least five wins are needed. */
  lemma NewDayCompletion(today: string, zs: seq<Zone>)
    ensures var r := AfterWins(NewDay(today).quests, zs);
      (forall i :: 0 <= i < |r| ==> r[i].completed) <==> WinsIn(zs, Math) >= 3 && WinsIn(zs, Russian) >= 2
    ensures var r := AfterWins(NewDay(today).quests, zs);
      (forall i :: 0 <= i < |r| ==> r[i].completed) ==> |zs| >= 5
  {
    var d := NewDay(today).quests;
    var r := AfterWins(d, zs);
    CompletedAfterWins(d, zs, 0);
    CompletedAfterWins(d, zs, 1);
    CompletedAfterWins(d, zs, 2);
    WinsInTwoZones(zs, Math, Russian);
    if WinsIn(zs, Math) >= 3 && WinsIn(zs, Russian) >= 2 {
      forall i | 0 <= i < |r|
        ensures r[i].completed
      {
        CompletedAfterWins(d, zs, i);
      }
    }
  }

  /** The bonus of a new day is out of reach until its quests are done, and three math wins
      followed by two russian wins are enough to do them all. */
  lemma NewDayNeedsFiveWins(today: string)
    ensures !AllCompleted(NewDay(today))
    ensures var d := NewDay(today).quests;
      var m := AdvanceAll(AdvanceAll(AdvanceAll(d, Math), Math), Math);
      forall i :: 0 <= i < |d| ==> AdvanceAll(AdvanceAll(m, Russian), Russian)[i].completed
  {
    assert !NewDay(today).quests[0].completed;
  }
}
