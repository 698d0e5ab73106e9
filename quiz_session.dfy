/**
 * The adaptive quiz client (adaptiveQuiz/script.js) as one object whose fields are
 * the script's module-level state and whose methods are its handlers.  The question
 * service is a parameter: a function from the requested tier to a question or a
 * failure.
 */
module QuizSession {
  import opened Optional
  import opened DifficultyTier
  import opened QuizRules
  import opened QuizSummary

  /** The record fetchQuestionFromAPI hands back (script.js:63-70). */
  datatype Question = Question(topic: string, text: string, options: seq<string>, correctIndex: int,
                               explanation: string, tip: string)

  /** What handleAnswer shows in the feedback panel (script.js:157-174). */
  datatype Feedback = Feedback(isCorrect: bool, explanation: string, tip: string)

  /** How a call of loadNextQuestion ended. */
  datatype LoadOutcome = Finished(report: Report) | Loaded(requested: Difficulty) | FetchFailed(requested: Difficulty)

  /** fetchQuestionFromAPI's `data.topic || "phishing"` (script.js:64): an empty topic becomes phishing. */
  function WithDefaultTopic(q: Question): (r: Question)
    ensures r.topic == if q.topic == "" then "phishing" else q.topic
    ensures q.topic != "" ==> r == q
    ensures r.(topic := q.topic) == q
  {
    if q.topic == "" then q.(topic := "phishing") else q
  }

  /**
   * topicStats as an insertion-ordered table: `keys` lists each key once, in the
   * order Object.entries visits them, `stats` holds the counters, and no topic has
   * more correct answers than answers.
   */
  ghost predicate WellFormedTable(keys: seq<string>, stats: map<string, TopicStat>)
  {
    (forall i, j :: 0 <= i < j < |keys| ==> keys[i] != keys[j]) &&
    (forall k :: k in stats <==> k in keys) &&
    (forall k :: k in stats ==> stats[k].correct <= stats[k].total)
  }

  /**
   * `Object.entries(topicStats)` (script.js:212): one entry per topic of the table, in
   * key order, each with that topic's counters.
   */
  function EntriesOf(keys: seq<string>, stats: map<string, TopicStat>): (es: seq<Entry>)
    requires WellFormedTable(keys, stats)
    ensures |es| == |keys| && forall i :: 0 <= i < |es| ==> es[i].topic == keys[i]
    ensures forall i, j :: 0 <= i < j < |es| ==> es[i].topic != es[j].topic
    ensures forall k :: k in stats <==> exists i :: 0 <= i < |es| && es[i].topic == k
    ensures forall i :: 0 <= i < |es| ==> es[i].topic in stats && es[i].stats == stats[es[i].topic]
  {
    var es := seq(|keys|, i requires 0 <= i < |keys| => Entry(keys[i], stats[keys[i]]));
    assert forall k :: k in stats ==> exists i :: 0 <= i < |es| && es[i].topic == k by {
      forall k | k in stats ensures exists i :: 0 <= i < |es| && es[i].topic == k {
        var i :| 0 <= i < |keys| && keys[i] == k;
        assert es[i].topic == k;
      }
    }
    es
  }

  /** The counters of `topic` before an answer is counted: its entry, or zeros for a topic seen for the first time. */
  function Before(stats: map<string, TopicStat>, topic: string): TopicStat
  {
    if topic in stats then stats[topic] else TopicStat(0, 0)
  }

  /** The key order after an answer on `topic`: a new topic is appended. */
  function KeysAfter(keys: seq<string>, stats: map<string, TopicStat>, topic: string): seq<string>
  {
    if topic in stats then keys else keys + [topic]
  }

  /** The counters after an answer on `topic` (script.js:152-160): one more answer, and one more correct one if it was right. */
  function Counted(stats: map<string, TopicStat>, topic: string, isCorrect: bool): map<string, TopicStat>
  {
    stats[topic := TopicStat(Before(stats, topic).correct + (if isCorrect then 1 else 0), Before(stats, topic).total + 1)]
  }

  /**
   * Counting an answer keeps the table well formed, so no topic ever has more
   * correct answers than answers, and leaves every other topic as it was.
   */
  lemma CountedKeepsTable(keys: seq<string>, stats: map<string, TopicStat>, topic: string, isCorrect: bool)
    requires WellFormedTable(keys, stats)
    ensures WellFormedTable(KeysAfter(keys, stats, topic), Counted(stats, topic, isCorrect))
    ensures forall k :: k in stats && k != topic ==> Counted(stats, topic, isCorrect)[k] == stats[k]
    ensures Counted(stats, topic, isCorrect).Keys == stats.Keys + {topic}
  {
    var keys' := KeysAfter(keys, stats, topic);
    if topic !in stats {
      assert topic !in keys;
      forall i, j | 0 <= i < j < |keys'| ensures keys'[i] != keys'[j] {
        if j == |keys| {
          assert keys'[i] == keys[i];
        }
      }
    }
  }

  class Session {
    var currentDifficulty: Difficulty
    var questionNumber: nat
    var correctStreak: nat
    var correctCount: nat
    var incorrectCount: nat
    /** The keys of topicStats in iteration order. */
    var topicKeys: seq<string>
    var topicStats: map<string, TopicStat>
    var currentQuestion: Option<Question>
    /** The current question's answer buttons exist and are enabled. */
    var answerable: bool

    /**
     * The invariant every handler relies on: a well-formed table, at most ten
     * questions requested, no more answers than requested questions, and a streak
     * that the double count always leaves at zero.
     */
    ghost predicate Consistent()
      reads this
    {
      WellFormedTable(topicKeys, topicStats) &&
      questionNumber <= TotalQuestions &&
      correctCount + incorrectCount <= questionNumber &&
      (answerable ==> currentQuestion.Some?) &&
      correctStreak == 0
    }

    /** Consistent, and a question that can still be answered has a slot of its own. */
    ghost predicate Valid()
      reads this
    {
      Consistent() &&
      (answerable ==> correctCount + incorrectCount < questionNumber)
    }

    function Entries(): seq<Entry>
      reads this
      requires WellFormedTable(topicKeys, topicStats)
    {
      EntriesOf(topicKeys, topicStats)
    }

    /** The state when the page loads (script.js:3-17). */
    constructor ()
      ensures Valid()
      ensures currentDifficulty == Easy && questionNumber == 0 && correctStreak == 0
      ensures correctCount == 0 && incorrectCount == 0
      ensures topicKeys == KnownTopics
      ensures forall k :: k in topicStats ==> topicStats[k] == TopicStat(0, 0)
      ensures currentQuestion == None && !answerable
    {
      currentDifficulty := Easy;
      questionNumber := 0;
      correctStreak := 0;
      correctCount := 0;
      incorrectCount := 0;
      topicKeys := KnownTopics;
      topicStats := map["phishing" := TopicStat(0, 0), "mfa" := TopicStat(0, 0),
                        "passwords" := TopicStat(0, 0), "social" := TopicStat(0, 0)];
      currentQuestion := None;
      answerable := false;
    }

    /** startQuiz (script.js:75-95): reset every counter, keep the topic keys, load the first question. */
    method StartQuiz(source: Difficulty -> Option<Question>) returns (outcome: LoadOutcome)
      requires Valid()
      modifies this
      ensures Valid()
      ensures currentDifficulty == Easy && correctStreak == 0
      ensures correctCount == 0 && incorrectCount == 0
      ensures topicKeys == old(topicKeys) && topicStats.Keys == old(topicStats).Keys
      ensures forall k :: k in topicStats ==> topicStats[k] == TopicStat(0, 0)
      ensures questionNumber == 1
      ensures outcome == if source(Easy).Some? then Loaded(Easy) else FetchFailed(Easy)
      ensures answerable == source(Easy).Some?
      ensures currentQuestion == if source(Easy).Some? then Some(WithDefaultTopic(source(Easy).value)) else old(currentQuestion)
    {
      currentDifficulty := Easy;
      questionNumber := 0;
      correctStreak := 0;
      correctCount := 0;
      incorrectCount := 0;
      ResetTopicStats();
      outcome := LoadNextQuestion(source);
    }

    /** The reset loop of startQuiz (script.js:82-85): every existing topic's counters go back to zero. */
    method ResetTopicStats()
      requires WellFormedTable(topicKeys, topicStats)
      modifies this`topicStats
      ensures WellFormedTable(topicKeys, topicStats)
      ensures topicStats.Keys == old(topicStats).Keys
      ensures forall k :: k in topicStats ==> topicStats[k] == TopicStat(0, 0)
    {
      var i := 0;
      while i < |topicKeys|
        invariant 0 <= i <= |topicKeys|
        invariant topicStats.Keys == old(topicStats).Keys
        invariant forall k :: k in topicStats ==> topicStats[k] == if k in topicKeys[..i] then TopicStat(0, 0) else old(topicStats)[k]
      {
        assert topicKeys[..i + 1] == topicKeys[..i] + [topicKeys[i]];
        topicStats := topicStats[topicKeys[i] := TopicStat(0, 0)];
        i := i + 1;
      }
      assert topicKeys[..i] == topicKeys;
    }

    /** adjustDifficulty (script.js:97-110); it touches the tier and the streak only. */
    method AdjustDifficulty(isCorrect: bool)
      modifies this`currentDifficulty, this`correctStreak
      ensures Ladder(currentDifficulty, correctStreak) == Adjust(old(Ladder(currentDifficulty, correctStreak)), isCorrect)
    {
      if isCorrect {
        correctStreak := correctStreak + 1;
        if correctStreak >= PromotionStreak {
          if currentDifficulty == Easy {
            currentDifficulty := Medium;
          } else if currentDifficulty == Medium {
            currentDifficulty := Hard;
          }
          correctStreak := 0;
        }
      } else {
        correctStreak := 0;
        if currentDifficulty == Hard {
          currentDifficulty := Medium;
        } else if currentDifficulty == Medium {
          currentDifficulty := Easy;
        }
      }
    }

    /**
     * loadNextQuestion (script.js:112-147): after ten questions it only shows the
     * summary; otherwise it takes the next slot before asking for a question, so a
     * failed request still uses the slot, and it clears the old answer buttons.
     */
    method LoadNextQuestion(source: Difficulty -> Option<Question>) returns (outcome: LoadOutcome)
      requires Consistent()
      modifies this
      ensures Consistent()
      ensures old(Valid()) ==> Valid()
      ensures old(questionNumber) >= TotalQuestions ==>
        unchanged(this) && outcome == Finished(Summary(correctCount, incorrectCount, currentDifficulty, Entries()))
      ensures old(questionNumber) < TotalQuestions ==>
        Valid() &&
        questionNumber == old(questionNumber) + 1 &&
        outcome == (if source(currentDifficulty).Some? then Loaded(currentDifficulty) else FetchFailed(currentDifficulty)) &&
        answerable == source(currentDifficulty).Some? &&
        currentQuestion == if source(currentDifficulty).Some? then Some(WithDefaultTopic(source(currentDifficulty).value)) else old(currentQuestion)
      ensures currentDifficulty == old(currentDifficulty) && correctStreak == old(correctStreak)
      ensures correctCount == old(correctCount) && incorrectCount == old(incorrectCount)
      ensures topicKeys == old(topicKeys) && topicStats == old(topicStats)
    {
      if questionNumber >= TotalQuestions {
        var report := ShowSummary();
        outcome := Finished(report);
        return;
      }
      questionNumber := questionNumber + 1;
      answerable := false;
      var fetched := source(currentDifficulty);
      match fetched
      case None =>
        outcome := FetchFailed(currentDifficulty);
      case Some(q) =>
        currentQuestion := Some(WithDefaultTopic(q));
        answerable := true;
        outcome := Loaded(currentDifficulty);
    }

    /**
     * The topic-table part of handleAnswer (script.js:152-155, 160): create the topic's
     * counters on first sight, count the answer, and count it as correct if it was.
     */
    method CountTopicAnswer(topic: string, isCorrect: bool)
      requires WellFormedTable(topicKeys, topicStats)
      modifies this`topicKeys, this`topicStats
      ensures WellFormedTable(topicKeys, topicStats)
      ensures topicKeys == KeysAfter(old(topicKeys), old(topicStats), topic)
      ensures topicStats == Counted(old(topicStats), topic, isCorrect)
    {
      CountedKeepsTable(topicKeys, topicStats, topic, isCorrect);
      var stat := Before(topicStats, topic);
      topicKeys := KeysAfter(topicKeys, topicStats, topic);
      stat := stat.(total := stat.total + 1);
      if isCorrect {
        stat := stat.(correct := stat.correct + 1);
      }
      assert stat == Counted(topicStats, topic, isCorrect)[topic];
      topicStats := topicStats[topic := stat];
    }

    /**
     * handleAnswer (script.js:149-182): score the clicked option, count it against the
     * question's topic (adding the topic on first sight), disable the buttons and
     * adjust the tier.  The question counter is not touched.
     */
    method HandleAnswer(selectedIndex: int) returns (feedback: Feedback)
      requires Valid()
      requires answerable
      requires 0 <= selectedIndex < |currentQuestion.value.options|
      modifies this
      ensures Valid()
      ensures feedback.isCorrect == (selectedIndex == old(currentQuestion).value.correctIndex)
      ensures feedback.explanation == old(currentQuestion).value.explanation && feedback.tip == old(currentQuestion).value.tip
      ensures correctCount == old(correctCount) + (if feedback.isCorrect then 1 else 0)
      ensures incorrectCount == old(incorrectCount) + (if feedback.isCorrect then 0 else 1)
      ensures topicKeys == KeysAfter(old(topicKeys), old(topicStats), old(currentQuestion).value.topic)
      ensures topicStats == Counted(old(topicStats), old(currentQuestion).value.topic, feedback.isCorrect)
      ensures currentDifficulty == if feedback.isCorrect then Promote(old(currentDifficulty)) else Demote(old(currentDifficulty))
      ensures correctStreak == 0
      ensures questionNumber == old(questionNumber) && currentQuestion == old(currentQuestion) && !answerable
    {
      var q := currentQuestion.value;
      var isCorrect := selectedIndex == q.correctIndex;

      CountTopicAnswer(q.topic, isCorrect);
      if isCorrect {
        correctCount := correctCount + 1;
        correctStreak := correctStreak + 1;
      } else {
        incorrectCount := incorrectCount + 1;
        correctStreak := 0;
      }

      feedback := Feedback(isCorrect, q.explanation, q.tip);
      answerable := false;

      AnswerMovesOneStep(Ladder(currentDifficulty, old(correctStreak)), isCorrect);
      AdjustDifficulty(isCorrect);
    }

    /**
     * showSummary (script.js:186-227): the level verdict from the totals and the final
     * tier, and the strengths and weaknesses read off the topic table in order.
     * It changes nothing, so asking twice gives the same report.
     */
    method ShowSummary() returns (report: Report)
      requires WellFormedTable(topicKeys, topicStats)
      ensures report == Summary(correctCount, incorrectCount, currentDifficulty, Entries())
    {
      var total := correctCount + incorrectCount;
      var accuracy := if total > 0 then correctCount as real / total as real else 0.0;
      var level := LevelOf(correctCount, incorrectCount, currentDifficulty);

      var strengths: seq<ReportLine> := [];
      var weaknesses: seq<ReportLine> := [];
      ghost var entries := Entries();
      var i := 0;
      while i < |topicKeys|
        invariant 0 <= i <= |topicKeys|
        invariant strengths == Lines(entries[..i], true)
        invariant weaknesses == Lines(entries[..i], false)
      {
        var topic := topicKeys[i];
        var stats := topicStats[topic];
        assert entries[..i + 1][..i] == entries[..i] && entries[..i + 1][i] == Entry(topic, stats);
        if stats.total != 0 {
          var name := TopicLabel(topic);
          if IsStrength(stats) {
            strengths := strengths + [TopicLine(name, stats.correct, stats.total)];
          } else {
            weaknesses := weaknesses + [TopicLine(name, stats.correct, stats.total)];
          }
        }
        i := i + 1;
      }
      assert entries[..i] == entries;

      if strengths == [] {
        strengths := [Note(StrengthPlaceholder)];
      }
      if weaknesses == [] {
        weaknesses := [Note(WeaknessPlaceholder)];
      }
      report := Report(level, accuracy, strengths, weaknesses);
    }
  }
}
