/** Browser persistence (src/utils/saveGame.ts, src/utils/leaderboard.ts:13-21). `localStorage`
    becomes the class `Storage`, one field per key; JSON serialisation is the identity, a value
    that does not parse is `Unparsable`, and `writable` says whether `setItem` succeeds (when it
    throws, the source catches the error and stores nothing). The clock is a parameter. */
module SaveGame {
  import opened Wrappers
  import opened GameTypes
  import opened JsText
  import opened Boards

  /** The content of one storage key. */
  datatype Stored<T> = Missing | Unparsable | Present(value: T)

  /** The save blob. Fields an older save may lack are options, as `loadSave` fills them in. */
  datatype SaveData = SaveData(
    player: Player,
    inventory: seq<InventoryItem>,
    quests: Option<seq<Quest>>,
    diagnosticDone: Option<bool>,
    rusZoneUnlocked: Option<bool>,
    geoZoneUnlocked: Option<bool>,
    savedAt: int)

  datatype LeaderboardEntry = LeaderboardEntry(name: string, level: int, gold: int, wins: int, cls: string, savedAt: int)

  /** An entry of the second board (src/utils/leaderboard.ts:3-9). */
  datatype ScoreEntry = ScoreEntry(name: string, level: int, xp: int, gold: int, savedAt: int)

  datatype CustomQuestion = CustomQuestion(
    id: string, subject: Zone, text: string, correctAnswer: string, hint: Option<string>, level: int, createdAt: int)

  /** A question as the admin form submits it, before it gets an id and a time. */
  datatype QuestionDraft = QuestionDraft(subject: Zone, text: string, correctAnswer: string, hint: Option<string>, level: int)

  /** The blob `saveGame` writes; every field is present, so nothing is defaulted on reload. */
  function Snapshot(player: Player, inventory: seq<InventoryItem>, quests: seq<Quest>,
                    diagnosticDone: bool, rusZoneUnlocked: bool, geoZoneUnlocked: bool, now: int): SaveData
  {
    SaveData(player, inventory, Some(quests), Some(diagnosticDone), Some(rusZoneUnlocked), Some(geoZoneUnlocked), now)
  }

  /** The entry `updateLeaderboard` writes for the player. */
  function EntryFor(player: Player, wins: int, now: int): LeaderboardEntry
  {
    LeaderboardEntry(player.name, player.level, player.gold, wins, ClassName(player.appearance.cls), now)
  }

  function ClassName(c: CharacterClass): string
  {
    match c
    case Mage => "mage"
    case Knight => "knight"
    case Archer => "archer"
  }

  /** The leaderboard order: level descending, then gold descending. */
  function LevelGold(e: LeaderboardEntry): Rank
  {
    Rank(e.level, e.gold)
  }

  /** The board after the player's entry went in: it replaces the first entry with the player's
      name, or is appended when there is none. */
  function Upsert(entries: seq<LeaderboardEntry>, e: LeaderboardEntry): seq<LeaderboardEntry>
  {
    var idx := FirstIndex(entries, (x: LeaderboardEntry) => x.name == e.name);
    if idx >= 0 then entries[idx := e] else entries + [e]
  }

  /** The upsert holds the player's entry, keeps every entry of another name, adds nothing else,
      keeps the board's length when the name was there, and appends when it was not. */
  lemma UpsertProperties(entries: seq<LeaderboardEntry>, e: LeaderboardEntry)
    ensures e in Upsert(entries, e)
    ensures forall x :: x in Upsert(entries, e) ==> x == e || x in entries
    ensures forall x :: x in entries && x.name != e.name ==> x in Upsert(entries, e)
    ensures (exists x :: x in entries && x.name == e.name) ==> |Upsert(entries, e)| == |entries|
    ensures (forall x :: x in entries ==> x.name != e.name) ==> Upsert(entries, e) == entries + [e]
  {
    var r := Upsert(entries, e);
    var idx := FirstIndex(entries, (x: LeaderboardEntry) => x.name == e.name);
    if idx >= 0 {
      assert r == entries[idx := e];
      assert r[idx] == e;
      assert forall i :: 0 <= i < |entries| && entries[i].name != e.name ==> r[i] == entries[i];
      forall x | x in r
        ensures x == e || x in entries
      {
        var i :| 0 <= i < |r| && r[i] == x;
        if i != idx {
          assert r[i] == entries[i];
        }
      }
    }
  }

  function Name(e: LeaderboardEntry): string
  {
    e.name
  }

  /** With names unique on the board, the upsert keeps them unique: a player is never listed
      twice. */
  lemma UpsertKeepsNamesDistinct(entries: seq<LeaderboardEntry>, e: LeaderboardEntry)
    requires Distinct(entries, Name)
    ensures Distinct(Upsert(entries, e), Name)
  {
    var r := Upsert(entries, e);
    var idx := FirstIndex(entries, (x: LeaderboardEntry) => x.name == e.name);
    forall i, j | 0 <= i < j < |r|
      ensures Name(r[i]) != Name(r[j])
    {
      if idx >= 0 {
        assert r == entries[idx := e];
      } else {
        assert r == entries + [e];
        if j == |entries| {
          assert r[i] == entries[i];
        }
      }
    }
  }

  /** The written board: upserted, sorted, trimmed to ten. */
  function RankedBoard(entries: seq<LeaderboardEntry>, e: LeaderboardEntry): seq<LeaderboardEntry>
  {
    Top(SortByRank(Upsert(entries, e), LevelGold), 10)
  }

  /** The written board holds the ten best entries (all of them when there are fewer) in
      leaderboard order, a name at most once when it held each name once before, and every entry
      either the new one or an old one. */
  lemma RankedBoardProperties(entries: seq<LeaderboardEntry>, e: LeaderboardEntry)
    ensures |RankedBoard(entries, e)| == if |Upsert(entries, e)| <= 10 then |Upsert(entries, e)| else 10
    ensures |Upsert(entries, e)| == |entries| || |Upsert(entries, e)| == |entries| + 1
    ensures SortedDesc(RankedBoard(entries, e), LevelGold)
    ensures Distinct(entries, Name) ==> Distinct(RankedBoard(entries, e), Name)
    ensures forall x :: x in RankedBoard(entries, e) ==> x == e || x in entries
  {
    var u := Upsert(entries, e);
    var s := SortByRank(u, LevelGold);
    UpsertProperties(entries, e);
    SortByRankProperties(u, LevelGold);
    TopKeepsSorted(s, 10, LevelGold);
    if Distinct(entries, Name) {
      UpsertKeepsNamesDistinct(entries, e);
      SortKeepsDistinct(u, LevelGold, Name);
      TopKeepsDistinct(s, 10, Name);
    }
    forall x | x in RankedBoard(entries, e)
      ensures x == e || x in entries
    {
      assert x in s;
      assert x in multiset(s);
      assert x in u;
    }
  }

  /** `deleteCustomQuestion`'s filter: the questions without the id, in their order. */
  function Without(qs: seq<CustomQuestion>, id: string): (r: seq<CustomQuestion>)
    ensures forall q :: q in r <==> q in qs && q.id != id
    ensures |r| <= |qs|
  {
    if qs == [] then []
    else if qs[0].id != id then [qs[0]] + Without(qs[1..], id)
    else Without(qs[1..], id)
  }

  /** The filter keeps order: it works piecewise on a concatenation. */
  lemma {:induction false} WithoutAppend(a: seq<CustomQuestion>, b: seq<CustomQuestion>, id: string)
    ensures Without(a + b, id) == Without(a, id) + Without(b, id)
  {
    if a != [] {
      assert (a + b)[0] == a[0];
      assert (a + b)[1..] == a[1..] + b;
      WithoutAppend(a[1..], b, id);
    } else {
      assert a + b == b;
    }
  }

  /** Filtering out an id that no question has changes nothing. */
  lemma {:induction false} WithoutAbsent(qs: seq<CustomQuestion>, id: string)
    requires forall x :: x in qs ==> x.id != id
    ensures Without(qs, id) == qs
  {
    if qs != [] {
      assert qs[0] in qs;
      assert forall x :: x in qs[1..] ==> x in qs;
      WithoutAbsent(qs[1..], id);
      assert qs == [qs[0]] + qs[1..];
    }
  }

  /** Deleting after adding a question gives what deleting before adding gives; when no stored
      question had the new id, deleting the id undoes the addition. */
  lemma AddThenDelete(qs: seq<CustomQuestion>, q: CustomQuestion)
    ensures Without(qs + [q], q.id) == Without(qs, q.id)
    ensures (forall x :: x in qs ==> x.id != q.id) ==> Without(qs + [q], q.id) == qs
  {
    WithoutAppend(qs, [q], q.id);
    assert Without([q], q.id) == Without([], q.id);
    if forall x :: x in qs ==> x.id != q.id {
      WithoutAbsent(qs, q.id);
    }
  }

  // ---------------------------------------------------------------- dates

  /** A UTC instant broken into its calendar fields. */
  datatype UtcTime = UtcTime(year: int, month: int, day: int, hour: int, minute: int, second: int, millis: int)

  /** n in exactly w decimal digits, zero-padded (the last w digits when n is wider). */
  function Digits(n: nat, w: nat): (s: string)
    ensures |s| == w
    ensures forall i :: 0 <= i < w ==> '0' <= s[i] <= '9'
  {
    if w == 0 then "" else Digits(n / 10, w - 1) + [DigitChar(n % 10)]
  }

  /** `toISOString()` for a year of four digits: `YYYY-MM-DDTHH:mm:ss.sssZ`, the extended format
      of ISO 8601 for a UTC date and time. */
  function IsoString(t: UtcTime): (s: string)
    requires 0 <= t.year <= 9999 && 1 <= t.month <= 12 && 1 <= t.day <= 31
    requires 0 <= t.hour < 24 && 0 <= t.minute < 60 && 0 <= t.second < 60 && 0 <= t.millis < 1000
    ensures |s| == 24
  {
    Digits(t.year, 4) + "-" + Digits(t.month, 2) + "-" + Digits(t.day, 2)
    + "T" + Digits(t.hour, 2) + ":" + Digits(t.minute, 2) + ":" + Digits(t.second, 2)
    + "." + Digits(t.millis, 3) + "Z"
  }

  /** `todayStr`: the first ten characters of the timestamp (`slice(0, 10)`). */
  function TodayStr(iso: string): (r: string)
    ensures |r| == if |iso| < 10 then |iso| else 10
    ensures r == iso[..|r|]
  {
    if |iso| < 10 then iso else iso[..10]
  }

  /** The day is the calendar date `YYYY-MM-DD` of the UTC timestamp, whatever the time. */
  lemma TodayIsCalendarDate(t: UtcTime)
    requires 0 <= t.year <= 9999 && 1 <= t.month <= 12 && 1 <= t.day <= 31
    requires 0 <= t.hour < 24 && 0 <= t.minute < 60 && 0 <= t.second < 60 && 0 <= t.millis < 1000
    ensures TodayStr(IsoString(t)) == Digits(t.year, 4) + "-" + Digits(t.month, 2) + "-" + Digits(t.day, 2)
  {
    var date := Digits(t.year, 4) + "-" + Digits(t.month, 2) + "-" + Digits(t.day, 2);
    var rest := "T" + Digits(t.hour, 2) + ":" + Digits(t.minute, 2) + ":" + Digits(t.second, 2)
      + "." + Digits(t.millis, 3) + "Z";
    assert IsoString(t) == date + rest;
    assert |date| == 10;
    assert (date + rest)[..10] == date;
  }

  /** Two instants of the same calendar day share their day string. */
  lemma SameDaySameString(t: UtcTime, u: UtcTime)
    requires 0 <= t.year <= 9999 && 1 <= t.month <= 12 && 1 <= t.day <= 31
    requires 0 <= t.hour < 24 && 0 <= t.minute < 60 && 0 <= t.second < 60 && 0 <= t.millis < 1000
    requires 0 <= u.hour < 24 && 0 <= u.minute < 60 && 0 <= u.second < 60 && 0 <= u.millis < 1000
    requires u.year == t.year && u.month == t.month && u.day == t.day
    ensures TodayStr(IsoString(t)) == TodayStr(IsoString(u))
  {
    TodayIsCalendarDate(t);
    TodayIsCalendarDate(u);
  }

  // ---------------------------------------------------------------- localStorage

  class Storage {
    var save: Stored<SaveData>
    var board: Stored<seq<LeaderboardEntry>>
    var daily: Stored<DailyQuestData>
    var custom: Stored<seq<CustomQuestion>>
    var scores: Stored<seq<ScoreEntry>>
    /** Whether `setItem` succeeds; when it throws, every write is lost. */
    var writable: bool

    constructor(writable: bool)
      ensures save == Missing && board == Missing && daily == Missing && custom == Missing && scores == Missing
      ensures this.writable == writable
    {
      save := Missing;
      board := Missing;
      daily := Missing;
      custom := Missing;
      scores := Missing;
      this.writable := writable;
    }

    /** `saveGame`: writes the blob stamped with the time when storage accepts it. */
    method SaveGame(player: Player, inventory: seq<InventoryItem>, quests: seq<Quest>,
                    diagnosticDone: bool, rusZoneUnlocked: bool, geoZoneUnlocked: bool, now: int)
      modifies this`save
      ensures writable ==> save == Present(Snapshot(player, inventory, quests, diagnosticDone,
                                                    rusZoneUnlocked, geoZoneUnlocked, now))
      ensures !writable ==> save == old(save)
      ensures writable ==> LoadGame() == Some(SaveData(player, inventory, Some(quests), Some(diagnosticDone),
                                                       Some(rusZoneUnlocked), Some(geoZoneUnlocked), now))
    {
      if writable {
        save := Present(Snapshot(player, inventory, quests, diagnosticDone, rusZoneUnlocked, geoZoneUnlocked, now));
      }
    }

    /** `loadGame`: the stored blob, or nothing when it is absent or does not parse. */
    function LoadGame(): (r: Option<SaveData>)
      reads this`save
      ensures r.Some? <==> save.Present?
      ensures r.Some? ==> r.value == save.value
    {
      if save.Present? then Some(save.value) else None
    }

    /** `loadLeaderboard`: the stored board, or an empty one. */
    function LoadLeaderboard(): (r: seq<LeaderboardEntry>)
      reads this`board
      ensures board.Present? ==> r == board.value
      ensures !board.Present? ==> r == []
    {
      if board.Present? then board.value else []
    }

    /** `updateLeaderboard`: the player's entry, with the wins passed in and the class name, goes
        into the board, which is sorted and trimmed to ten. */
    method UpdateLeaderboard(player: Player, wins: int, now: int)
      modifies this`board
      ensures writable ==> board == Present(RankedBoard(old(LoadLeaderboard()), EntryFor(player, wins, now)))
      ensures !writable ==> board == old(board)
      ensures writable ==> LoadLeaderboard() == RankedBoard(old(LoadLeaderboard()), EntryFor(player, wins, now))
    {
      var entries := LoadLeaderboard();
      var idx := FirstIndex(entries, (x: LeaderboardEntry) => x.name == player.name);
      var entry := LeaderboardEntry(player.name, player.level, player.gold, wins, ClassName(player.appearance.cls), now);
      if idx >= 0 {
        entries := entries[idx := entry];
      } else {
        entries := entries + [entry];
      }
      entries := SortByRank(entries, LevelGold);
      if writable {
        board := Present(Top(entries, 10));
      }
    }

    /** `loadDailyQuests`: the stored day, unless it is absent, does not parse, or is stale. */
    function LoadDailyQuests(today: string): (r: Option<DailyQuestData>)
      reads this`daily
      ensures r.Some? <==> daily.Present? && daily.value.date == today
      ensures r.Some? ==> r.value == daily.value
    {
      if daily.Present? && daily.value.date == today then Some(daily.value) else None
    }

    method SaveDailyQuests(data: DailyQuestData)
      modifies this`daily
      ensures writable ==> daily == Present(data)
      ensures !writable ==> daily == old(daily)
      ensures writable ==> LoadDailyQuests(data.date) == Some(data)
    {
      if writable {
        daily := Present(data);
      }
    }

    function LoadCustomQuestions(): (r: seq<CustomQuestion>)
      reads this`custom
      ensures custom.Present? ==> r == custom.value
      ensures !custom.Present? ==> r == []
    {
      if custom.Present? then custom.value else []
    }

    /** `addCustomQuestion`: the draft gets the id `cq_<time>` from one clock reading and its
        creation time from a second, and is appended to the stored questions. */
    method AddCustomQuestion(draft: QuestionDraft, idClock: nat, createdClock: int) returns (q: CustomQuestion)
      modifies this`custom
      ensures q == CustomQuestion("cq_" + NatString(idClock), draft.subject, draft.text, draft.correctAnswer,
                                  draft.hint, draft.level, createdClock)
      ensures writable ==> custom == Present(old(LoadCustomQuestions()) + [q])
      ensures !writable ==> custom == old(custom)
      ensures writable ==> LoadCustomQuestions() == old(LoadCustomQuestions()) + [q]
    {
      var questions := LoadCustomQuestions();
      q := CustomQuestion("cq_" + NatString(idClock), draft.subject, draft.text, draft.correctAnswer,
                          draft.hint, draft.level, createdClock);
      questions := questions + [q];
      if writable {
        custom := Present(questions);
      }
    }

    /** `deleteCustomQuestion`: every question with the id goes, the rest stay in order. */
    method DeleteCustomQuestion(id: string)
      modifies this`custom
      ensures writable ==> custom == Present(Without(old(LoadCustomQuestions()), id))
      ensures !writable ==> custom == old(custom)
      ensures writable ==> LoadCustomQuestions() == Without(old(LoadCustomQuestions()), id)
      ensures writable ==> forall x :: x in LoadCustomQuestions() ==> x.id != id
    {
      var questions := Without(LoadCustomQuestions(), id);
      if writable {
        custom := Present(questions);
      }
    }
  }
}
