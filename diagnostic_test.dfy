/** The placement test shown to a new character: ten multiple-choice questions, five per subject,
    scored per subject as the hardest level answered right, and the starting level derived from
    the two scores. Rendering and the 900 ms pause after each answer are not modelled. */
module DiagnosticTest {
  import opened Wrappers
  import opened GameTypes
  import opened Progression
  import opened Items
  import opened QuestChain
  import opened GameStore

  datatype DiagQ = DiagQ(id: string, subject: Zone, text: string, options: seq<string>, correct: string, level: int)

  /** The question table, math in rising difficulty first, then Russian. */
  const DiagnosticQuestions: seq<DiagQ> := [
    DiagQ("m1", Math, "5 + 7 = ?", ["11", "12", "13", "14"], "12", 1),
    DiagQ("m2", Math, "24 − 9 = ?", ["13", "14", "15", "16"], "15", 2),
    DiagQ("m3", Math, "6 × 8 = ?", ["42", "44", "46", "48"], "48", 3),
    DiagQ("m4", Math, "72 ÷ 9 = ?", ["6", "7", "8", "9"], "8", 3),
    DiagQ("m5", Math, "x + 15 = 34. Найди x", ["17", "18", "19", "20"], "19", 4),
    DiagQ("r1", Russian, "Как правильно?", ["собака", "сабака", "субака", "собока"], "собака", 1),
    DiagQ("r2", Russian, "Жираф или жыраф?", ["жираф", "жыраф", "жераф", "жираф"], "жираф", 2),
    DiagQ("r3", Russian, "Как правильно: мышь или мыш?", ["мышь", "мыш", "мышт", "мыш"], "мышь", 3),
    DiagQ("r4", Russian, "Расписание или разписание?", ["расписание", "разписание", "роcписание", "расписанние"], "расписание", 4),
    DiagQ("r5", Russian, "Синоним слова «большой»:", ["огромный", "маленький", "быстрый", "грустный"], "огромный", 5)
  ]

  /** A question counts towards the math score when its subject is math, and towards the Russian
      score otherwise. */
  predicate ForScore(q: DiagQ, math: bool)
  {
    (q.subject == Math) == math
  }

  /** A question is answered right only by the exact text of its correct option. */
  predicate AnsweredRight(q: DiagQ, answers: map<string, string>)
  {
    q.id in answers && answers[q.id] == q.correct
  }

  /** The score of a subject: 1, raised to the level of every question of the subject answered
      right, in table order. */
  function ScoreOf(qs: seq<DiagQ>, answers: map<string, string>, math: bool): int
  {
    if qs == [] then 1
    else
      var q := qs[|qs| - 1];
      var prev := ScoreOf(qs[..|qs| - 1], answers, math);
      if AnsweredRight(q, answers) && ForScore(q, math) then Max(prev, q.level) else prev
  }

  /** Whether v is the score the characterisation gives: at least 1, at least the level of every
      question of the subject answered right, and either 1 or one of those levels. */
  ghost predicate IsBestLevel(qs: seq<DiagQ>, answers: map<string, string>, math: bool, v: int)
  {
    && v >= 1
    && (forall q :: q in qs && AnsweredRight(q, answers) && ForScore(q, math) ==> q.level <= v)
    && (v == 1 || exists q :: q in qs && AnsweredRight(q, answers) && ForScore(q, math) && q.level == v)
  }

  /** The score is the maximum of 1 and the levels of the subject's questions answered right. */
  lemma {:induction false} ScoreIsBestLevel(qs: seq<DiagQ>, answers: map<string, string>, math: bool)
    ensures IsBestLevel(qs, answers, math, ScoreOf(qs, answers, math))
  {
    if qs != [] {
      var init := qs[..|qs| - 1];
      var q := qs[|qs| - 1];
      ScoreIsBestLevel(init, answers, math);
      assert qs == init + [q];
      var prev := ScoreOf(init, answers, math);
      if prev != 1 {
        var w :| w in init && AnsweredRight(w, answers) && ForScore(w, math) && w.level == prev;
        assert w in qs;
      }
    }
  }

  /** The characterisation has a single solution. */
  lemma BestLevelUnique(qs: seq<DiagQ>, answers: map<string, string>, math: bool, v: int, w: int)
    requires IsBestLevel(qs, answers, math, v) && IsBestLevel(qs, answers, math, w)
    ensures v == w
  {
    if v != 1 {
      var q :| q in qs && AnsweredRight(q, answers) && ForScore(q, math) && q.level == v;
      assert v <= w;
    }
    if w != 1 {
      var q :| q in qs && AnsweredRight(q, answers) && ForScore(q, math) && q.level == w;
      assert w <= v;
    }
  }

  /** The score depends on the questions only as a set: the order of the table does not matter. */
  lemma ScoreIgnoresOrder(qs: seq<DiagQ>, rs: seq<DiagQ>, answers: map<string, string>, math: bool)
    requires forall q :: q in qs <==> q in rs
    ensures ScoreOf(qs, answers, math) == ScoreOf(rs, answers, math)
  {
    ScoreIsBestLevel(qs, answers, math);
    ScoreIsBestLevel(rs, answers, math);
    assert IsBestLevel(rs, answers, math, ScoreOf(qs, answers, math));
    BestLevelUnique(rs, answers, math, ScoreOf(qs, answers, math), ScoreOf(rs, answers, math));
  }

  /** The score depends on the answers only through which questions they get right, and getting
      more questions right never lowers it. */
  lemma {:induction false} MoreRightNeverLower(qs: seq<DiagQ>, a: map<string, string>, b: map<string, string>, math: bool)
    requires forall q :: q in qs && AnsweredRight(q, a) ==> AnsweredRight(q, b)
    ensures ScoreOf(qs, a, math) <= ScoreOf(qs, b, math)
  {
    if qs != [] {
      MoreRightNeverLower(qs[..|qs| - 1], a, b, math);
    }
  }

  /** A score never leaves [1, hi] when no question of the subject is harder than hi. */
  lemma {:induction false} ScoreBounded(qs: seq<DiagQ>, answers: map<string, string>, math: bool, hi: int)
    requires hi >= 1
    requires forall i :: 0 <= i < |qs| && ForScore(qs[i], math) ==> qs[i].level <= hi
    ensures 1 <= ScoreOf(qs, answers, math) <= hi
  {
    if qs != [] {
      ScoreBounded(qs[..|qs| - 1], answers, math, hi);
    }
  }

  /** With the game's table the math score lies in [1, 4] and the Russian score in [1, 5]. */
  lemma TableScoreBounds(answers: map<string, string>)
    ensures 1 <= ScoreOf(DiagnosticQuestions, answers, true) <= 4
    ensures 1 <= ScoreOf(DiagnosticQuestions, answers, false) <= 5
  {
    var qs := DiagnosticQuestions;
    assert forall i :: 0 <= i < |qs| ==> qs[i].level <= (if qs[i].subject == Math then 4 else 5);
    ScoreBounded(qs, answers, true, 4);
    ScoreBounded(qs, answers, false, 5);
  }

  /** All answers right reaches the top of each scale. */
  lemma AllRightScoresTop(answers: map<string, string>)
    requires forall q :: q in DiagnosticQuestions ==> AnsweredRight(q, answers)
    ensures ScoreOf(DiagnosticQuestions, answers, true) == 4
    ensures ScoreOf(DiagnosticQuestions, answers, false) == 5
  {
    TableScoreBounds(answers);
    ScoreIsBestLevel(DiagnosticQuestions, answers, true);
    ScoreIsBestLevel(DiagnosticQuestions, answers, false);
    assert DiagnosticQuestions[4] in DiagnosticQuestions;
    assert DiagnosticQuestions[9] in DiagnosticQuestions;
  }

  /** `totalLevel`, the starting level the result screen shows. */
  function TotalLevel(mathScore: int, rusScore: int): int
  {
    Max(1, (mathScore + rusScore) / 2)
  }

  /** The level shown is the level `finishDiagnostic` then gives the character. */
  lemma ShownLevelIsStartLevel(mathScore: int, rusScore: int)
    ensures TotalLevel(mathScore, rusScore) == StartLevel(mathScore, rusScore)
  {
  }

  /** The answer the final tally reads for a question: the option just chosen for the current
      question (the recorded answers do not hold it yet), otherwise the recorded one. */
  function AnswerOf(dq: DiagQ, currentId: string, option: string, answers: map<string, string>): Option<string>
  {
    if dq.id == currentId then Some(option)
    else if dq.id in answers then Some(answers[dq.id])
    else None
  }

  /** The tally's `forEach`: both scores start at 1 and take the maximum with the level of each
      question answered right; it scores the recorded answers with the current one added. */
  method Tally(qs: seq<DiagQ>, currentId: string, option: string, answers: map<string, string>)
    returns (mScore: int, rScore: int)
    ensures mScore == ScoreOf(qs, answers[currentId := option], true)
    ensures rScore == ScoreOf(qs, answers[currentId := option], false)
  {
    ghost var given := answers[currentId := option];
    mScore, rScore := 1, 1;
    var i := 0;
    while i < |qs|
      invariant 0 <= i <= |qs|
      invariant mScore == ScoreOf(qs[..i], given, true)
      invariant rScore == ScoreOf(qs[..i], given, false)
    {
      var dq := qs[i];
      var ans := AnswerOf(dq, currentId, option, answers);
      assert qs[..i + 1][..i] == qs[..i];
      if ans == Some(dq.correct) {
        if dq.subject == Math {
          mScore := Max(mScore, dq.level);
        } else {
          rScore := Max(rScore, dq.level);
        }
      }
      i := i + 1;
    }
    assert qs[..|qs|] == qs;
  }

  class DiagnosticView {
    var current: int
    var answers: map<string, string>
    var selected: Option<string>
    /** The feedback shown, by whether the choice was right; None when none is shown. */
    var feedback: Option<bool>
    var showIntro: bool
    var showResult: bool
    var mathScore: int
    var rusScore: int
    const store: Store

    constructor(store: Store)
      ensures this.store == store
      ensures current == 0 && answers == map[] && selected == None && feedback == None
      ensures showIntro && !showResult && mathScore == 0 && rusScore == 0
    {
      this.store := store;
      current := 0;
      answers := map[];
      selected := None;
      feedback := None;
      showIntro := true;
      showResult := false;
      mathScore := 0;
      rusScore := 0;
    }

    /** The intro's start button. */
    method Start()
      modifies this`showIntro
      ensures !showIntro
    {
      showIntro := false;
    }

    /** `handleSelect`, on a question of the table, followed by its delayed step. Ignored while
        feedback is shown. Otherwise the choice is recorded and judged by exact comparison;
        after the last question both scores are tallied and the result is shown, or else the
        next question comes with the choice and feedback cleared. */
    method HandleSelect(option: string)
      requires 0 <= current < |DiagnosticQuestions|
      modifies this`selected, this`feedback, this`answers, this`current, this`mathScore, this`rusScore, this`showResult
      ensures old(feedback).Some? ==> unchanged(this)
      ensures old(feedback).None? ==>
        var q := DiagnosticQuestions[old(current)];
        && answers == old(answers)[q.id := option]
        && (old(current) + 1 >= |DiagnosticQuestions| ==>
              && mathScore == ScoreOf(DiagnosticQuestions, answers, true)
              && rusScore == ScoreOf(DiagnosticQuestions, answers, false)
              && showResult && current == old(current)
              && selected == Some(option) && feedback == Some(option == q.correct))
        && (old(current) + 1 < |DiagnosticQuestions| ==>
              && current == old(current) + 1 && selected == None && feedback == None
              && mathScore == old(mathScore) && rusScore == old(rusScore) && showResult == old(showResult))
    {
      if feedback.Some? {
        return;
      }
      var q := DiagnosticQuestions[current];
      var before := answers;
      selected := Some(option);
      feedback := Some(option == q.correct);
      answers := answers[q.id := option];
      if current + 1 >= |DiagnosticQuestions| {
        var m, r := Tally(DiagnosticQuestions, q.id, option, before);
        mathScore := m;
        rusScore := r;
        showResult := true;
      } else {
        current := current + 1;
        selected := None;
        feedback := None;
      }
    }

    /** `handleFinish`: the two scores go to `finishDiagnostic`. */
    method HandleFinish(now: int)
      modifies store`player, store`diagnosticDone, store`rusZoneUnlocked, store`geoZoneUnlocked
      modifies store`skills, store`gameState, store.storage`save
      ensures store.player.level == TotalLevel(mathScore, rusScore)
      ensures store.player.mathLevel == mathScore && store.player.rusLevel == rusScore
      ensures store.diagnosticDone && store.gameState == Playing
      ensures old(WellFormed(store.inventory) && UniqueIds(store.quests)) ==> store.Valid()
    {
      store.FinishDiagnostic(mathScore, rusScore, now);
      ShownLevelIsStartLevel(mathScore, rusScore);
    }
  }
}
