# Adaptive security-awareness quiz — a Dafny model

This project models the adaptive quiz engine of a browser-based security-awareness trainer, together with the pure helpers its question server uses.

- **The quiz client** (`adaptiveQuiz/script.js`) keeps its state in module-level variables: a difficulty tier (easy, medium or hard), a question counter capped at ten, a streak of correct answers, correct and incorrect totals, and a per-topic `{correct, total}` table. Its handlers change that state. The model is the class `QuizSession.Session`, with one field per variable and one method per handler:
  - `StartQuiz` resets the state;
  - `LoadNextQuestion` takes the next question slot and asks the question service;
  - `HandleAnswer` scores an answer, updates the topic table and calls `AdjustDifficulty`;
  - `ShowSummary` computes the end-of-quiz report.
- **The difficulty rule and the report** are specified by pure functions in `QuizRules` and `QuizSummary`. The lemmas about them state the rule's behaviour over whole answer sequences, the level verdict in exact rational arithmetic, and the strengths/weaknesses partition.
- **The server helpers** (`adaptiveQuiz/server.js`) are also pure functions:
  - `ModelText` covers the cleaning `parseModelJSON` does before `JSON.parse`: trim, strip code fences, slice from the first `{` to the last `}`;
  - `ServerRoutes` covers the completeness check of `/api/question` and the tier `/api/risk-question` requests.

The question service is a parameter `source: Difficulty -> Option<Question>`. `None` stands for any failure: a transport error, a non-OK status, or a reply the server rejected. `JSON.parse` and the model call are parameters of `QuestionRoute`.

The engine's intended difficulty rule is that two correct answers in a row promote one tier and a wrong answer demotes one tier. Under that rule ten correct answers would reach medium after the second answer and hard after the fourth, and alternating wrong and correct answers would stay at easy; both runs are proved for a replay that applies `adjustDifficulty` alone (`QuizRules.IntendedAllCorrect`, `QuizRules.IntendedAlternating`). The code behaves differently, and the model follows the code:

- **The streak is counted twice.** `handleAnswer` increments `correctStreak` (script.js:159), and then `adjustDifficulty` increments it again (script.js:99). So every correct answer promotes one step, and the streak is zero after every answer (`QuizRules.AnswerMovesOneStep`, `Session.HandleAnswer`). The "two correct in a row" rule holds only for `adjustDifficulty` called on its own (`QuizRules.AdjustAloneNeedsTwoInARow`). For the two runs above, the model proves what the code does:
  - ten correct answers reach medium after the first answer and hard after the second (`QuizRules.ReplayAllCorrect`);
  - alternating wrong and correct answers swing between easy and medium instead of staying at easy (`QuizRules.ReplayAlternating`).
- **A failed fetch still uses a slot.** The counter moves before the fetch (script.js:118). So the invariant is `correctCount + incorrectCount <= questionNumber`, not equality.
- **Restarting keeps the topic keys.** `startQuiz` zeroes the counters of every existing topic but keeps the keys (script.js:82-85).
- **The report lists topics in table order.** Strengths and weaknesses follow the table's iteration order: the four declared topics first, then topics in the order they were first seen.
- **Exact thresholds.** Accuracy thresholds are compared by integer cross-multiplication: `20c >= 17t`, `5c >= 3t` and `10c >= 7t`, each with `t > 0`. `QuizSummary.LevelOf` and `QuizSummary.IsStrength` are proved equivalent to comparing the exact ratios with 0.85, 0.6 and 0.7. For the counts a ten-question session produces, the source's floating-point division agrees with these exact comparisons.

## Model

| member | source | states |
|---|---|---|
| DifficultyTier.Promote | adaptiveQuiz/script.js:101-102 | a promotion raises the tier by one step and a difficulty of hard stays hard |
| DifficultyTier.Demote | adaptiveQuiz/script.js:107-108 | a demotion lowers the tier by one step and a difficulty of easy stays easy |
| QuizRules.Adjust | adaptiveQuiz/script.js:97-110 | a wrong answer clears the streak and demotes one step; a correct answer that brings the streak to 2 promotes one step and clears it; a correct answer below 2 only lengthens the streak |
| QuizRules.AdjustAloneNeedsTwoInARow | adaptiveQuiz/script.js:98-104 | adjustDifficulty called on its own needs two correct answers in a row from a cleared streak before it promotes |
| QuizRules.AnswerMovesOneStep | adaptiveQuiz/script.js:149-182 | because handleAnswer and adjustDifficulty both increment the streak, every correct answer promotes, every wrong answer demotes (both saturating), and the streak is 0 afterwards |
| QuizRules.ReplayClearsStreak | adaptiveQuiz/script.js:157-181 | after any non-empty run of answers the streak is 0 |
| QuizRules.ReplayBounded | adaptiveQuiz/script.js:97-110 | over any run of answers the tier rises by at most the number of correct answers and falls by at most the number of wrong ones |
| QuizRules.ReplayAllCorrect | adaptiveQuiz/script.js:97-110 | n correct answers from easy, whatever the starting streak, end at medium for n = 1 and at hard for n >= 2 |
| QuizRules.ReplayFromHardStaysHard | adaptiveQuiz/script.js:101-102 | correct answers from hard keep the tier at hard; from medium they reach hard |
| QuizRules.ReplayAlternating | adaptiveQuiz/script.js:97-110 | alternating wrong/correct answers from easy are at easy after every wrong answer and at medium after every correct one |
| QuizRules.IntendedAllCorrect | adaptiveQuiz/script.js:97-110 | with adjustDifficulty alone counting the streak, n correct answers from a cleared streak rise one tier per two answers, saturating at hard: from easy, medium after the second answer and hard after the fourth |
| QuizRules.IntendedAlternating | adaptiveQuiz/script.js:97-110 | with adjustDifficulty alone counting the streak, alternating wrong/correct answers from easy stay at easy after every answer |
| QuizSummary.TopicLabel | adaptiveQuiz/script.js:254-267 | each of the four known keys gets a label different from itself and from each of the four known keys, and any other key is its own label |
| QuizSummary.TopicLabelInjectiveOnKnown | adaptiveQuiz/script.js:254-267 | distinct known topics get distinct labels |
| QuizSummary.Accuracy | adaptiveQuiz/script.js:190-191 | accuracy lies in [0, 1], is 0 with no answers, and is 1 exactly when at least one answer was given and none was wrong |
| QuizSummary.LevelOf | adaptiveQuiz/script.js:193-200 | Advanced iff accuracy >= 0.85 and the final tier is hard; Intermediate iff not Advanced and accuracy >= 0.6; Beginner iff accuracy < 0.6 |
| QuizSummary.IsStrength | adaptiveQuiz/script.js:214-217 | a scored topic is a strength iff correct/total >= 0.7 |
| QuizSummary.OrPlaceholder | adaptiveQuiz/script.js:224-227 | a list is never empty: one that would be empty becomes its single placeholder, and any other is unchanged |
| QuizSummary.LinesSound | adaptiveQuiz/script.js:212-222 | every item of a list is the labelled line of a scored topic of that category |
| QuizSummary.LinesComplete | adaptiveQuiz/script.js:212-222 | every scored topic's line is on the list of its category |
| QuizSummary.LinesPartition | adaptiveQuiz/script.js:212-222 | the two lists together have exactly one item per topic with total > 0 |
| QuizSummary.LandsOnOne | adaptiveQuiz/script.js:213-221 | a topic never asked goes on neither list; a scored topic goes on exactly one |
| QuizSummary.SampleReport | adaptiveQuiz/script.js:209-227 | with phishing 4/5 and MFA 1/5, the strengths are the phishing line alone and the weaknesses the MFA line alone |
| QuizSummary.PerfectRunIsAdvanced | adaptiveQuiz/script.js:190-200 | ten correct answers ending at hard give accuracy 1 and Advanced |
| QuizSummary.HardGate | adaptiveQuiz/script.js:193-200 | 0.7 accuracy at hard and 0.9 accuracy at medium are both Intermediate |
| QuizSession.WithDefaultTopic | adaptiveQuiz/script.js:63-70 | an empty topic becomes "phishing", and every other field is kept |
| QuizSession.EntriesOf | adaptiveQuiz/script.js:212 | there is one entry per key of a well-formed table, in key order; topics are pairwise distinct; a topic has an entry iff it is in the table; every entry carries that topic's counters |
| QuizSession.CountedKeepsTable | adaptiveQuiz/script.js:152-160 | counting an answer keeps keys distinct, keys equal to the table's domain and correct <= total, adds only the answered topic, and leaves every other topic unchanged |
| QuizSession.Session.constructor | adaptiveQuiz/script.js:3-17 | page-load state: easy, all counters 0, the four topics in declaration order with zero counters, no question, no buttons |
| QuizSession.Session.StartQuiz | adaptiveQuiz/script.js:75-95 | difficulty easy, streak and totals 0, the same topic keys with zero counters, then the first question slot taken (questionNumber 1) and requested at easy |
| QuizSession.Session.ResetTopicStats | adaptiveQuiz/script.js:82-85 | every existing topic's counters become 0 and no key is added or removed |
| QuizSession.Session.AdjustDifficulty | adaptiveQuiz/script.js:97-110 | the new tier and streak are Adjust of the old ones, and no other field changes |
| QuizSession.Session.LoadNextQuestion | adaptiveQuiz/script.js:112-147 | with ten questions taken it changes nothing and returns the summary; otherwise it takes a slot, requests a question at the current tier, and makes the question answerable only if the fetch succeeded (on failure the old question stays); it never touches the tier, the streak, the totals or the table; questionNumber <= 10 and answers <= questionNumber are kept |
| QuizSession.Session.CountTopicAnswer | adaptiveQuiz/script.js:152-160 | the topic is created with zero counters on first sight (appended to the key order), its total goes up by 1, and its correct count goes up by 1 iff the answer was right |
| QuizSession.Session.HandleAnswer | adaptiveQuiz/script.js:149-182 | exactly one of the totals goes up; the topic table is counted as above; the tier is promoted on a right answer and demoted on a wrong one; the streak ends at 0; the question counter and the question itself are unchanged; the buttons are disabled |
| QuizSession.Session.ShowSummary | adaptiveQuiz/script.js:186-227 | the report is the level verdict, the exact accuracy, and the strengths/weaknesses lists read off the table in iteration order with their placeholders; it changes nothing |
| ModelText.TrimStart | adaptiveQuiz/server.js:21 | the result is the suffix of the input after a run of whitespace, and does not start with whitespace |
| ModelText.TrimEnd | adaptiveQuiz/server.js:21 | the result is the prefix of the input before a run of whitespace, and does not end with whitespace |
| ModelText.Trim | adaptiveQuiz/server.js:21 | the result is a slice of the input with only whitespace outside it, and neither starts nor ends with whitespace |
| ModelText.TrimUnchanged | adaptiveQuiz/server.js:21 | a text that neither starts nor ends with whitespace is its own trim |
| ModelText.TrimIdempotent | adaptiveQuiz/server.js:21 | trimming twice is trimming once |
| ModelText.LowerAscii | adaptiveQuiz/server.js:24-25 | each ASCII capital maps to its own lower-case letter (code point + 32) and every other character is unchanged (the case folding of the `i` flag on these patterns) |
| ModelText.FindFrom | adaptiveQuiz/server.js:24-25 | a found position is a match at or after the start with no match before it; no result means there is no match at or after the start |
| ModelText.RemoveFirstIgnoringCase | adaptiveQuiz/server.js:24-25 | without a case-insensitive match the text is unchanged; otherwise the span of the first match is removed and the text before and after it is kept as it was |
| ModelText.RemoveFences | adaptiveQuiz/server.js:26 | the global fence replacement never lengthens the text, and shortens it by a multiple of three |
| ModelText.RemoveFencesKeepsText | adaptiveQuiz/server.js:26 | the replacement deletes only backticks: every other character survives, in its original order |
| ModelText.RemoveFencesFenceFreeUnchanged | adaptiveQuiz/server.js:26 | a text with no fence is left exactly as it is |
| ModelText.RemoveFencesFenceFree | adaptiveQuiz/server.js:26 | after the global replacement no "```" is left, even where removing one joins backticks from either side |
| ModelText.StripFences | adaptiveQuiz/server.js:24-27 | the text after the two first-match removals, the global fence removal and the trim has no "```" and no whitespace at either end |
| ModelText.Unfenced | adaptiveQuiz/server.js:21-28 | a trimmed text that does not start with "```" is left as trimmed; one that does comes out fence-free and trimmed |
| ModelText.IndexOf | adaptiveQuiz/server.js:30 | -1 iff the character is absent; otherwise the position of its first occurrence |
| ModelText.LastIndexOf | adaptiveQuiz/server.js:31 | -1 iff the character is absent; otherwise the position of its last occurrence |
| ModelText.SliceBraces | adaptiveQuiz/server.js:30-34 | with '{' or '}' missing the text is unchanged; with the first '{' before the last '}' the result is that span, starting with '{' and ending with '}'; with them the other way round it is empty |
| ModelText.SliceBracesWhole | adaptiveQuiz/server.js:30-34 | a text that starts with '{' and ends with '}' is kept whole |
| ModelText.Cleaned | adaptiveQuiz/server.js:20-36 | with '{' or '}' missing from the unfenced text the result is that text; with the first '{' before the last '}' it is the span from that '{' to that '}'; with them the other way round it is empty |
| ModelText.BareObjectUnchanged | adaptiveQuiz/server.js:20-36 | a reply that is already a bare '{…}' object comes out of cleaning unchanged |
| ModelText.FencedObjectCleaned | adaptiveQuiz/server.js:20-36 | a reply "```json\n{…}\n```" whose object has no backtick is cleaned to the object |
| ServerRoutes.LastValue | adaptiveQuiz/server.js:85 | no value iff no member has the key; a value found belongs to a member with that key after which no member has the key (the last occurrence wins) |
| ServerRoutes.CheckQuestion | adaptiveQuiz/server.js:87-96 | accepted iff the data is an object with a truthy question and an options array of exactly four items; accepted data is returned unchanged, and anything else is a 500 "Incomplete question from model" |
| ServerRoutes.CheckIgnoresOtherMembers | adaptiveQuiz/server.js:87-92 | adding a member other than question/options (such as topic or correctIndex) never changes the verdict |
| ServerRoutes.QuestionRoute | adaptiveQuiz/server.js:83-100 | every failure is status 500; the route succeeds iff there is a reply, its cleaned text parses, and the data passes the check; the data sent is the parsed data, and it is an object |
| ServerRoutes.RiskDifficulty | adaptiveQuiz/server.js:108-113 | a missing index is easy; any index that is not a number (including the string "1") is hard |
| ServerRoutes.RiskNumericTiers | adaptiveQuiz/server.js:110-113 | a numeric index is easy iff it is 1 or 2, medium iff it is 3 or 4, and hard otherwise |
| ServerRoutes.RiskMix | adaptiveQuiz/server.js:105-113 | questions 1 to 5 are easy, easy, medium, medium, hard: two easy, two medium and one hard |

## Left out

- Everything the client does to the page is left out: showing and hiding screens, text, feedback styling, counters on screen, and the recommendations list (script.js:21-45, 87-92, 119-126, 137-146, 161-179, 186-188, 202-251). Only the state of the answer buttons is kept, as the field `answerable`. Clicking a button is the precondition of `HandleAnswer`, and the clicked index is below the number of options.
- The event wiring (script.js:271-276) is left out. The restart button only switches screens and touches no state.
- How `fetchQuestionFromAPI` reaches the server (script.js:51-71) is left out; it is HTTP. The service is the parameter `source`. A non-OK status, a network error and a rejected reply are all `None`. Only its default topic is kept, in `WithDefaultTopic`.
- `await` is left out: each handler runs to completion. The code has no stale-response or cancel handling to model.
- Two JavaScript object-key details are left out: keys that look like array indices (which `Object.entries` visits first, in numeric order), and keys that name inherited `Object.prototype` members (which `topicStats[t] || …` would read). Topics are modelled as plain strings in insertion order.
- `Question.topic` is a string and `correctIndex` an integer. Values of other JSON types, and how `===` treats them, are not modelled.
- Percentages in the report are left out (`toFixed(0)` is floating point). A `ReportLine` keeps the label with the correct and total counts. `Report.accuracy` is the exact rational, where the source holds the nearest double.
- On the server, the Express setup, the Gemini client and `generateContent`, logging, `app.listen`, the prompt texts and the other routes (server.js:1-17, 39-76, 115-345) are left out. The `difficulty = "easy"` default of `/api/question` (server.js:80) only feeds the prompt.
- `JSON.parse` is a parameter (`parse`) of `QuestionRoute`. A model call that fails is a missing reply. Both lead to the 500 "Failed to generate question".
- Regular expressions are modelled only as the three literal patterns used. `/i` is ASCII case folding, which is what it means for these all-ASCII patterns.
- ServerRoutes.Property: a property read on a value that is not an object gives undefined. That holds for `question` and `options`, the only keys the route reads, but not for keys such as `length`.
