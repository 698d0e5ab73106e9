/**
 * The end-of-quiz report of the adaptive quiz (adaptiveQuiz/script.js, showSummary
 * and topicLabel): the level verdict and the strengths/weaknesses lists.
 */
module QuizSummary {
  import opened DifficultyTier

  /** Per-topic counters, one `{ correct, total }` record of topicStats. */
  datatype TopicStat = TopicStat(correct: nat, total: nat)

  /** One `[topic, stats]` pair of `Object.entries(topicStats)`. */
  datatype Entry = Entry(topic: string, stats: TopicStat)

  datatype Level = Beginner | Intermediate | Advanced

  /**
   * One item of the strengths or weaknesses list: a topic's label with the counts
   * its percentage is formed from, or a fixed placeholder sentence.
   */
  datatype ReportLine = TopicLine(name: string, correct: nat, total: nat) | Note(text: string)

  datatype Report = Report(level: Level, accuracy: real, strengths: seq<ReportLine>, weaknesses: seq<ReportLine>)

  /** The four topics topicStats starts with, in declaration order (script.js:10-15). */
  const KnownTopics: seq<string> := ["phishing", "mfa", "passwords", "social"]

  const StrengthPlaceholder: string := "You are still building core awareness."
  const WeaknessPlaceholder: string := "No obvious weak spots detected; keep practicing."

  /** Display name of a topic key (script.js:254-267). */
  function TopicLabel(key: string): (name: string)
    ensures key !in KnownTopics ==> name == key
    ensures key in KnownTopics ==> name != key && name !in KnownTopics
  {
    if key == "phishing" then "Phishing detection"
    else if key == "mfa" then "MFA and login security"
    else if key == "passwords" then "Password hygiene"
    else if key == "social" then "Social engineering"
    else key
  }

  /** Distinct known topics get distinct labels. */
  lemma TopicLabelInjectiveOnKnown(a: string, b: string)
    requires a in KnownTopics && b in KnownTopics && a != b
    ensures TopicLabel(a) != TopicLabel(b)
  {
  }

  /** `c / t` is at least `num / den` exactly when `den * c >= num * t`, for positive `t` and `den`. */
  lemma RatioAtLeast(c: nat, t: nat, num: nat, den: nat)
    requires t > 0 && den > 0
    ensures (c as real / t as real >= num as real / den as real) <==> den * c >= num * t
  {
    var x := c as real / t as real;
    var y := num as real / den as real;
    assert x * (t as real) == c as real;
    assert y * (den as real) == num as real;
    assert (den * c) as real == x * (t as real) * (den as real);
    assert (num * t) as real == y * (den as real) * (t as real);
    if x >= y {
      assert x * (t as real) * (den as real) >= y * (t as real) * (den as real);
    } else {
      assert x * (t as real) * (den as real) < y * (t as real) * (den as real);
    }
  }

  /** Share of correct answers, `total ? correct / total : 0` (script.js:190-191), as an exact rational. */
  function Accuracy(correct: nat, incorrect: nat): (a: real)
    ensures 0.0 <= a <= 1.0
    ensures a == 1.0 <==> correct + incorrect > 0 && incorrect == 0
    ensures correct + incorrect == 0 ==> a == 0.0
  {
    if correct + incorrect == 0 then 0.0
    else
      RatioAtLeast(correct, correct + incorrect, 1, 1);
      correct as real / (correct + incorrect) as real
  }

  /**
   * The level verdict (script.js:193-200): Advanced needs accuracy of at least 0.85
   * and a final tier of hard; otherwise Intermediate needs accuracy of at least 0.6.
   * The thresholds are compared by integer cross-multiplication.
   */
  function LevelOf(correct: nat, incorrect: nat, final: Difficulty): (l: Level)
    ensures l == Advanced <==> Accuracy(correct, incorrect) >= 0.85 && final == Hard
    ensures l == Intermediate <==> !(Accuracy(correct, incorrect) >= 0.85 && final == Hard) && Accuracy(correct, incorrect) >= 0.6
    ensures l == Beginner <==> Accuracy(correct, incorrect) < 0.6
  {
    var total := correct + incorrect;
    if total == 0 then Beginner  // accuracy 0
    else
      RatioAtLeast(correct, total, 17, 20);
      RatioAtLeast(correct, total, 3, 5);
      if 20 * correct >= 17 * total && final == Hard then Advanced
      else if 5 * correct >= 3 * total then Intermediate
      else Beginner
  }

  /** A scored topic is a strength when its accuracy is at least 0.7 (script.js:214-217). */
  function IsStrength(s: TopicStat): (strong: bool)
    requires s.total > 0
    ensures strong <==> s.correct as real / s.total as real >= 0.7
  {
    RatioAtLeast(s.correct, s.total, 7, 10);
    10 * s.correct >= 7 * s.total
  }

  /** The list item for a topic (script.js:215-220), with the percentage left as its counts. */
  function LineOf(e: Entry): ReportLine
  {
    TopicLine(TopicLabel(e.topic), e.stats.correct, e.stats.total)
  }

  /** Whether the loop of script.js:212-222 pushes this entry onto the strengths (true) or weaknesses (false) list. */
  predicate Lands(e: Entry, strong: bool)
  {
    e.stats.total > 0 && IsStrength(e.stats) == strong
  }

  /**
   * The items the loop of script.js:212-222 pushes onto the strengths list (`strong`)
   * or the weaknesses list (`!strong`), in entry order; topics never asked are skipped.
   */
  function Lines(entries: seq<Entry>, strong: bool): seq<ReportLine>
    decreases |entries|
  {
    if entries == [] then []
    else
      var rest := Lines(entries[..|entries| - 1], strong);
      var e := entries[|entries| - 1];
      if Lands(e, strong) then rest + [LineOf(e)] else rest
  }

  /** A list that would be empty gets its single placeholder (script.js:224-227). */
  function OrPlaceholder(lines: seq<ReportLine>, placeholder: string): (r: seq<ReportLine>)
    ensures r != []
    ensures lines != [] ==> r == lines
    ensures lines == [] ==> r == [Note(placeholder)]
  {
    if lines == [] then [Note(placeholder)] else lines
  }

  /** The report showSummary displays (script.js:186-227). */
  function Summary(correct: nat, incorrect: nat, final: Difficulty, entries: seq<Entry>): Report
  {
    Report(LevelOf(correct, incorrect, final), Accuracy(correct, incorrect),
           OrPlaceholder(Lines(entries, true), StrengthPlaceholder),
           OrPlaceholder(Lines(entries, false), WeaknessPlaceholder))
  }

  /** Every item on a list is the line of an entry that lands on that list. */
  lemma {:induction false} LinesSound(entries: seq<Entry>, strong: bool, j: nat)
    requires j < |Lines(entries, strong)|
    ensures exists i :: 0 <= i < |entries| && Lands(entries[i], strong) && Lines(entries, strong)[j] == LineOf(entries[i])
    decreases |entries|
  {
    var init := entries[..|entries| - 1];
    var e := entries[|entries| - 1];
    if j < |Lines(init, strong)| {
      LinesSound(init, strong, j);
      var i :| 0 <= i < |init| && Lands(init[i], strong) && Lines(init, strong)[j] == LineOf(init[i]);
      assert entries[i] == init[i];
    } else {
      assert Lands(entries[|entries| - 1], strong) && Lines(entries, strong)[j] == LineOf(e);
    }
  }

  /** Every entry that lands on a list has its line on that list. */
  lemma {:induction false} LinesComplete(entries: seq<Entry>, strong: bool, i: nat)
    requires i < |entries| && Lands(entries[i], strong)
    ensures LineOf(entries[i]) in Lines(entries, strong)
    decreases |entries|
  {
    if i < |entries| - 1 {
      var init := entries[..|entries| - 1];
      assert init[i] == entries[i];
      LinesComplete(init, strong, i);
    }
  }

  /** Number of entries that have been asked at least once. */
  function Scored(entries: seq<Entry>): (n: nat)
    ensures n <= |entries|
    decreases |entries|
  {
    if entries == [] then 0
    else Scored(entries[..|entries| - 1]) + (if entries[|entries| - 1].stats.total > 0 then 1 else 0)
  }

  /** Every scored topic lands on exactly one of the two lists. */
  lemma {:induction false} LinesPartition(entries: seq<Entry>)
    ensures |Lines(entries, true)| + |Lines(entries, false)| == Scored(entries)
    decreases |entries|
  {
    if entries != [] {
      LinesPartition(entries[..|entries| - 1]);
    }
  }

  /** A topic never asked appears on neither list, and no entry lands on both. */
  lemma LandsOnOne(e: Entry)
    ensures e.stats.total == 0 ==> !Lands(e, true) && !Lands(e, false)
    ensures e.stats.total > 0 ==> Lands(e, true) != Lands(e, false)
  {
  }

  /** The table these lists are read from when only phishing (4 of 5) and MFA (1 of 5) were asked. */
  function SampleEntries(): seq<Entry>
  {
    [Entry("phishing", TopicStat(4, 5)), Entry("mfa", TopicStat(1, 5)),
     Entry("passwords", TopicStat(0, 0)), Entry("social", TopicStat(0, 0))]
  }

  /** Phishing at 80% is a strength and MFA at 20% a weakness; unasked topics are left out. */
  lemma SampleReport(final: Difficulty)
    ensures Summary(5, 5, final, SampleEntries()).strengths == [TopicLine("Phishing detection", 4, 5)]
    ensures Summary(5, 5, final, SampleEntries()).weaknesses == [TopicLine("MFA and login security", 1, 5)]
    ensures Summary(5, 5, final, SampleEntries()).level == Beginner
  {
    var s := SampleEntries();
    assert s[..1][..0] == [] && s[..2][..1] == s[..1] && s[..3][..2] == s[..2] && s[..3] == s[..|s| - 1];
    assert Lines(s[..1], true) == [TopicLine("Phishing detection", 4, 5)];
    assert Lines(s[..1], false) == [];
    assert Lines(s[..2], true) == [TopicLine("Phishing detection", 4, 5)];
    assert Lines(s[..2], false) == [TopicLine("MFA and login security", 1, 5)];
    assert Lines(s[..3], true) == Lines(s[..2], true) && Lines(s[..3], false) == Lines(s[..2], false);
  }

  /** Ten correct answers ending at hard earn Advanced with full accuracy. */
  lemma PerfectRunIsAdvanced()
    ensures Accuracy(10, 0) == 1.0 && LevelOf(10, 0, Hard) == Advanced
  {
  }

  /** The hard gate only raises the bar: accuracy 0.7 at hard is Intermediate, 0.9 below hard is Intermediate. */
  lemma HardGate()
    ensures LevelOf(7, 3, Hard) == Intermediate
    ensures LevelOf(9, 1, Medium) == Intermediate
  {
  }
}
