/** The second, xp-ranked board (src/utils/leaderboard.ts), kept under its own storage key. */
module Leaderboard {
  import opened Boards
  import opened SaveGame

  /** A score as the caller submits it, before it is stamped. */
  datatype Score = Score(name: string, level: int, xp: int, gold: int)

  /** The board order: xp descending. */
  function ByXp(e: ScoreEntry): Rank
  {
    Rank(e.xp, 0)
  }

  function ScoreName(e: ScoreEntry): string
  {
    e.name
  }

  function Stamp(s: Score, now: int): ScoreEntry
  {
    ScoreEntry(s.name, s.level, s.xp, s.gold, now)
  }

  /** `getLeaderboard`: the stored board, or an empty one when it is absent or does not parse. */
  function GetLeaderboard(st: Storage): (r: seq<ScoreEntry>)
    reads st`scores
    ensures st.scores.Present? ==> r == st.scores.value
    ensures !st.scores.Present? ==> r == []
  {
    if st.scores.Present? then st.scores.value else []
  }

  /** The board after the submission, before sorting: a new name is appended, a known one is
      overwritten only by a strictly higher xp. */
  function Merge(board: seq<ScoreEntry>, s: Score, now: int): (r: seq<ScoreEntry>)
    ensures var k := FirstIndex(board, (e: ScoreEntry) => e.name == s.name);
      && (k == -1 ==> r == board + [Stamp(s, now)])
      && (k >= 0 && s.xp > board[k].xp ==> r == board[k := Stamp(s, now)])
      && (k >= 0 && s.xp <= board[k].xp ==> r == board)
  {
    var k := FirstIndex(board, (e: ScoreEntry) => e.name == s.name);
    if k >= 0 then
      if s.xp > board[k].xp then board[k := Stamp(s, now)] else board
    else board + [Stamp(s, now)]
  }

  /** After a merge the first entry under the submitted name holds the larger of the old and the new
      xp: a submission never lowers a player's best score. */
  lemma MergeKeepsBest(board: seq<ScoreEntry>, s: Score, now: int)
    ensures var k := FirstIndex(board, (e: ScoreEntry) => e.name == s.name);
      var r := Merge(board, s, now);
      && (k >= 0 ==> r[k].name == s.name && r[k].xp == if s.xp > board[k].xp then s.xp else board[k].xp)
      && (k == -1 ==> r[|board|] == Stamp(s, now))
  {
  }

  /** The merge keeps every old entry's name in its place, adds at most the stamped submission,
      and grows the board by one exactly when the name was new. */
  lemma MergeKeepsNames(board: seq<ScoreEntry>, s: Score, now: int)
    ensures var r := Merge(board, s, now);
      && |r| == (if FirstIndex(board, (e: ScoreEntry) => e.name == s.name) == -1 then |board| + 1 else |board|)
      && (forall i :: 0 <= i < |board| ==> r[i].name == board[i].name)
      && (forall x :: x in r ==> x in board || x == Stamp(s, now))
  {
    var r := Merge(board, s, now);
    var k := FirstIndex(board, (e: ScoreEntry) => e.name == s.name);
    if k >= 0 {
      if s.xp > board[k].xp {
        assert r[k] == Stamp(s, now);
      }
    } else {
      assert r[|board|] == Stamp(s, now);
    }
  }

  /** A name that was listed once stays listed once. */
  lemma MergeKeepsNamesDistinct(board: seq<ScoreEntry>, s: Score, now: int)
    requires Distinct(board, ScoreName)
    ensures Distinct(Merge(board, s, now), ScoreName)
  {
    var r := Merge(board, s, now);
    var k := FirstIndex(board, (e: ScoreEntry) => e.name == s.name);
    forall i, j | 0 <= i < j < |r|
      ensures ScoreName(r[i]) != ScoreName(r[j])
    {
      if k == -1 && j == |board| {
        assert r[i] == board[i];
      }
    }
  }

  /** The stored and returned board: merged, sorted by xp and trimmed to ten. */
  function Ranked(board: seq<ScoreEntry>, s: Score, now: int): seq<ScoreEntry>
  {
    Top(SortByRank(Merge(board, s, now), ByXp), 10)
  }

  /** The stored board holds the ten best entries (all of them when there are fewer), by xp,
      with names kept unique. */
  lemma RankedProperties(board: seq<ScoreEntry>, s: Score, now: int)
    ensures |Ranked(board, s, now)| == if |Merge(board, s, now)| <= 10 then |Merge(board, s, now)| else 10
    ensures SortedDesc(Ranked(board, s, now), ByXp)
    ensures Distinct(board, ScoreName) ==> Distinct(Ranked(board, s, now), ScoreName)
  {
    var m := Merge(board, s, now);
    var sorted := SortByRank(m, ByXp);
    SortByRankProperties(m, ByXp);
    TopKeepsSorted(sorted, 10, ByXp);
    if Distinct(board, ScoreName) {
      MergeKeepsNamesDistinct(board, s, now);
      SortKeepsDistinct(m, ByXp, ScoreName);
      TopKeepsDistinct(sorted, 10, ScoreName);
    }
  }

  /** `submitScore`: overwrites or appends in place, sorts, trims, stores and returns the trimmed
      board; when storage refuses the write it returns an empty list. */
  method SubmitScore(st: Storage, s: Score, now: int) returns (r: seq<ScoreEntry>)
    modifies st`scores
    ensures st.writable ==> r == Ranked(old(GetLeaderboard(st)), s, now) && st.scores == Present(r)
    ensures st.writable ==> GetLeaderboard(st) == r
    ensures !st.writable ==> r == [] && st.scores == old(st.scores)
  {
    var board := GetLeaderboard(st);
    var existing := FirstIndex(board, (e: ScoreEntry) => e.name == s.name);
    if existing >= 0 {
      if s.xp > board[existing].xp {
        board := board[existing := Stamp(s, now)];
      }
    } else {
      board := board + [Stamp(s, now)];
    }
    board := SortByRank(board, ByXp);
    var trimmed := Top(board, 10);
    if st.writable {
      st.scores := Present(trimmed);
      r := trimmed;
    } else {
      r := [];
    }
  }
}
