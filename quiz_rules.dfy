/**
 * The difficulty-adjustment rule of the adaptive quiz (adaptiveQuiz/script.js),
 * as pure functions over the pair (current difficulty, correct streak).
 */
module QuizRules {
  import opened DifficultyTier

  /** Number of answered questions in one session (script.js:8). */
  const TotalQuestions: nat := 10

  /** Streak length at which adjustDifficulty promotes (script.js:100). */
  const PromotionStreak: nat := 2

  /** The two variables the adjustment rule reads and writes. */
  datatype Ladder = Ladder(difficulty: Difficulty, streak: nat)

  /**
   * adjustDifficulty (script.js:97-110): a correct answer lengthens the streak and,
   * once it reaches two, promotes and clears it; a wrong answer clears the streak
   * and demotes.
   */
  function Adjust(p: Ladder, isCorrect: bool): (r: Ladder)
    ensures !isCorrect ==>
      r.streak == 0 && Rank(r.difficulty) == if Rank(p.difficulty) == 0 then 0 else Rank(p.difficulty) - 1
    ensures isCorrect && p.streak + 1 >= PromotionStreak ==>
      r.streak == 0 && Rank(r.difficulty) == if Rank(p.difficulty) == 2 then 2 else Rank(p.difficulty) + 1
    ensures isCorrect && p.streak + 1 < PromotionStreak ==>
      r.difficulty == p.difficulty && r.streak == p.streak + 1
  {
    if isCorrect then
      var streak := p.streak + 1;
      if streak >= PromotionStreak then Ladder(Promote(p.difficulty), 0)
      else Ladder(p.difficulty, streak)
    else
      Ladder(Demote(p.difficulty), 0)
  }

  /**
   * What handleAnswer does to the ladder (script.js:159, 165, 181): it updates the
   * streak itself and then calls adjustDifficulty, which updates it again.
   */
  function AfterAnswer(p: Ladder, isCorrect: bool): Ladder
  {
    Adjust(Ladder(p.difficulty, if isCorrect then p.streak + 1 else 0), isCorrect)
  }

  /**
   * Because the streak is counted twice, every correct answer promotes and every
   * wrong answer demotes, and the streak is zero afterwards, whatever it was before.
   */
  lemma AnswerMovesOneStep(p: Ladder, isCorrect: bool)
    ensures AfterAnswer(p, isCorrect) == Ladder(if isCorrect then Promote(p.difficulty) else Demote(p.difficulty), 0)
  {
    RankInjective(AfterAnswer(p, isCorrect).difficulty, if isCorrect then Promote(p.difficulty) else Demote(p.difficulty));
  }

  /**
   * adjustDifficulty on its own does follow the two-in-a-row rule: from a cleared
   * streak, one correct answer keeps the tier and a second one promotes.
   */
  lemma AdjustAloneNeedsTwoInARow(d: Difficulty)
    ensures Adjust(Ladder(d, 0), true) == Ladder(d, 1)
    ensures Adjust(Adjust(Ladder(d, 0), true), true) == Ladder(Promote(d), 0)
  {
  }

  /** The ladder after handleAnswer has been applied to each answer in turn. */
  function Replay(p: Ladder, answers: seq<bool>): Ladder
    decreases |answers|
  {
    if answers == [] then p else Replay(AfterAnswer(p, answers[0]), answers[1..])
  }

  /** Number of correct answers in a sequence. */
  function CountCorrect(answers: seq<bool>): (n: nat)
    ensures n <= |answers|
    decreases |answers|
  {
    if answers == [] then 0 else (if answers[0] then 1 else 0) + CountCorrect(answers[1..])
  }

  /** After at least one answer the streak is always zero. */
  lemma {:induction false} ReplayClearsStreak(p: Ladder, answers: seq<bool>)
    requires answers != []
    ensures Replay(p, answers).streak == 0
    decreases |answers|
  {
    AnswerMovesOneStep(p, answers[0]);
    if |answers| > 1 {
      ReplayClearsStreak(AfterAnswer(p, answers[0]), answers[1..]);
    }
  }

  /**
   * Replaying answers moves the tier by at most one step per answer: it rises by no
   * more than the number of correct answers and falls by no more than the number of
   * wrong ones.
   */
  lemma {:induction false} ReplayBounded(p: Ladder, answers: seq<bool>)
    ensures Rank(Replay(p, answers).difficulty) <= Rank(p.difficulty) + CountCorrect(answers)
    ensures Rank(p.difficulty) <= Rank(Replay(p, answers).difficulty) + (|answers| - CountCorrect(answers))
    decreases |answers|
  {
    if answers != [] {
      AnswerMovesOneStep(p, answers[0]);
      ReplayBounded(AfterAnswer(p, answers[0]), answers[1..]);
    }
  }

  /** `n` correct answers in a row. */
  function AllCorrect(n: nat): (s: seq<bool>)
    ensures |s| == n && forall i :: 0 <= i < n ==> s[i]
  {
    seq(n, _ => true)
  }

  /**
   * A run of correct answers from easy reaches medium after the first answer and
   * hard after the second, and stays at hard.
   */
  lemma {:induction false} ReplayAllCorrect(streak: nat, n: nat)
    ensures Rank(Replay(Ladder(Easy, streak), AllCorrect(n)).difficulty) == if n < 2 then n else 2
  {
    if n > 0 {
      AnswerMovesOneStep(Ladder(Easy, streak), true);
      assert AllCorrect(n)[1..] == AllCorrect(n - 1);
      ReplayFromHardStaysHard(n - 1);
      if n > 1 {
        AnswerMovesOneStep(Ladder(Medium, 0), true);
        assert AllCorrect(n - 1)[1..] == AllCorrect(n - 2);
      }
    }
  }

  /** Once at hard, correct answers keep the quiz at hard. */
  lemma {:induction false} ReplayFromHardStaysHard(n: nat)
    ensures Replay(Ladder(Medium, 0), AllCorrect(n)).difficulty == if n == 0 then Medium else Hard
    ensures Replay(Ladder(Hard, 0), AllCorrect(n)).difficulty == Hard
  {
    if n > 0 {
      AnswerMovesOneStep(Ladder(Medium, 0), true);
      AnswerMovesOneStep(Ladder(Hard, 0), true);
      assert AllCorrect(n)[1..] == AllCorrect(n - 1);
      ReplayFromHardStaysHard(n - 1);
    }
  }

  /** Replaying two runs of answers one after the other is replaying their concatenation. */
  lemma {:induction false} ReplayAppend(p: Ladder, a: seq<bool>, b: seq<bool>)
    ensures Replay(p, a + b) == Replay(Replay(p, a), b)
    decreases |a|
  {
    if a == [] {
      assert a + b == b;
    } else {
      assert (a + b)[0] == a[0];
      assert (a + b)[1..] == a[1..] + b;
      ReplayAppend(AfterAnswer(p, a[0]), a[1..], b);
    }
  }

  /** `n` pairs of answers, each a wrong answer followed by a correct one. */
  function Alternating(n: nat): (s: seq<bool>)
    ensures |s| == 2 * n
  {
    if n == 0 then [] else Alternating(n - 1) + [false, true]
  }

  /**
   * Alternating wrong and correct answers from easy: every wrong answer leaves the
   * quiz at easy, and every correct answer takes it straight to medium.
   */
  lemma {:induction false} ReplayAlternating(n: nat)
    requires n > 0
    ensures Replay(Ladder(Easy, 0), Alternating(n)[..2 * n - 1]) == Ladder(Easy, 0)
    ensures Replay(Ladder(Easy, 0), Alternating(n)) == Ladder(Medium, 0)
  {
    var before := Alternating(n - 1);
    var mid := Replay(Ladder(Easy, 0), before);
    if n > 1 {
      ReplayAlternating(n - 1);
    }
    assert mid == Ladder(Easy, 0) || mid == Ladder(Medium, 0);
    AnswerMovesOneStep(mid, false);
    AnswerMovesOneStep(Ladder(Easy, 0), true);
    assert Alternating(n)[..2 * n - 1] == before + [false];
    ReplayAppend(Ladder(Easy, 0), before, [false]);
    assert Alternating(n) == before + [false] + [true];
    ReplayAppend(Ladder(Easy, 0), before + [false], [true]);
  }

  /**
   * The ladder if adjustDifficulty alone counted the streak, that is, the two-in-a-row
   * rule the engine is meant to follow: each answer goes through `Adjust` only.
   */
  function ReplayIntended(p: Ladder, answers: seq<bool>): Ladder
    decreases |answers|
  {
    if answers == [] then p else ReplayIntended(Adjust(p, answers[0]), answers[1..])
  }

  /**
   * Under the two-in-a-row rule, `n` correct answers from a cleared streak climb one
   * tier per pair: from easy they reach medium after the second answer and hard after
   * the fourth.
   */
  lemma {:induction false} IntendedAllCorrect(d: Difficulty, n: nat)
    ensures Rank(ReplayIntended(Ladder(d, 0), AllCorrect(n)).difficulty) == if Rank(d) + n / 2 < 2 then Rank(d) + n / 2 else 2
    decreases n
  {
    if n == 1 {
      assert AllCorrect(1)[1..] == [];
      assert Adjust(Ladder(d, 0), true) == Ladder(d, 1);
    } else if n >= 2 {
      var s := AllCorrect(n);
      assert s[1..][1..] == AllCorrect(n - 2);
      AdjustAloneNeedsTwoInARow(d);
      assert ReplayIntended(Ladder(d, 0), s) == ReplayIntended(Ladder(Promote(d), 0), AllCorrect(n - 2));
      IntendedAllCorrect(Promote(d), n - 2);
    }
  }

  /** Replaying two runs one after the other under the two-in-a-row rule is replaying their concatenation. */
  lemma {:induction false} IntendedAppend(p: Ladder, a: seq<bool>, b: seq<bool>)
    ensures ReplayIntended(p, a + b) == ReplayIntended(ReplayIntended(p, a), b)
    decreases |a|
  {
    if a == [] {
      assert a + b == b;
    } else {
      assert (a + b)[0] == a[0];
      assert (a + b)[1..] == a[1..] + b;
      IntendedAppend(Adjust(p, a[0]), a[1..], b);
    }
  }

  /**
   * Under the two-in-a-row rule, alternating wrong and correct answers never leave
   * easy: each wrong answer clears the streak and each correct one only starts it.
   */
  lemma {:induction false} IntendedAlternating(n: nat)
    requires n > 0
    ensures ReplayIntended(Ladder(Easy, 0), Alternating(n)[..2 * n - 1]) == Ladder(Easy, 0)
    ensures ReplayIntended(Ladder(Easy, 0), Alternating(n)) == Ladder(Easy, 1)
  {
    var before := Alternating(n - 1);
    var mid := ReplayIntended(Ladder(Easy, 0), before);
    if n > 1 {
      IntendedAlternating(n - 1);
    }
    assert mid == Ladder(Easy, 0) || mid == Ladder(Easy, 1);
    assert Adjust(mid, false) == Ladder(Easy, 0);
    assert Adjust(Ladder(Easy, 0), true) == Ladder(Easy, 1);
    assert Alternating(n)[..2 * n - 1] == before + [false];
    IntendedAppend(Ladder(Easy, 0), before, [false]);
    assert Alternating(n) == before + [false] + [true];
    IntendedAppend(Ladder(Easy, 0), before + [false], [true]);
  }
}
