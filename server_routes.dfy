/**
 * The decisions of two question routes of adaptiveQuiz/server.js: which parsed model
 * replies /api/question passes on, and which tier /api/risk-question asks for.
 * The model call and JSON.parse are parameters.
 */
module ServerRoutes {
  import opened Optional
  import opened DifficultyTier
  import opened ModelText

  /** A value JSON.parse can return. */
  datatype Json =
    | JNull
    | JBool(b: bool)
    | JNumber(n: real)
    | JString(s: string)
    | JArray(items: seq<Json>)
    | JObject(members: seq<Member>)

  /** One `"key": value` pair of an object, in the order of the JSON text. */
  datatype Member = Member(key: string, value: Json)

  /** JavaScript truthiness of a parsed value: null, false, 0 and "" are falsy. */
  predicate Truthy(v: Json)
  {
    match v
    case JNull => false
    case JBool(b) => b
    case JNumber(n) => n != 0.0
    case JString(s) => s != ""
    case JArray(_) => true
    case JObject(_) => true
  }

  /** The value of `key` among an object's members; with duplicate keys the last one wins, as in JSON.parse. */
  function LastValue(members: seq<Member>, key: string): (r: Option<Json>)
    ensures r.None? <==> forall i :: 0 <= i < |members| ==> members[i].key != key
    ensures r.Some? ==>
      exists i :: 0 <= i < |members| && members[i] == Member(key, r.value) && forall j :: i < j < |members| ==> members[j].key != key
    decreases |members|
  {
    if members == [] then None
    else if members[|members| - 1].key == key then Some(members[|members| - 1].value)
    else LastValue(members[..|members| - 1], key)
  }

  /**
   * `data.question` and `data.options`: an object's own member, and undefined
   * (None) for every other kind of value, none of which has such a property.
   */
  function Property(data: Json, key: string): Option<Json>
  {
    if data.JObject? then LastValue(data.members, key) else None
  }

  /** Truthiness of a property read, undefined being falsy. */
  predicate Present(v: Option<Json>)
  {
    v.Some? && Truthy(v.value)
  }

  /** `Array.isArray` of a property read. */
  predicate IsArray(v: Option<Json>)
  {
    v.Some? && v.value.JArray?
  }

  /** What a route sends: the data with status 200, or a status and an error message. */
  datatype Response = Ok(data: Json) | Failure(status: nat, error: string)

  const IncompleteQuestion: string := "Incomplete question from model"
  const GenerationFailed: string := "Failed to generate question"

  /**
   * The completeness check of /api/question (server.js:87-96): the data, its question
   * and its options must be present and there must be exactly four options.
   */
  function CheckQuestion(data: Json): (r: Response)
    ensures r.Ok? <==>
      data.JObject? && Present(Property(data, "question")) &&
      IsArray(Property(data, "options")) && |Property(data, "options").value.items| == 4
    ensures r.Ok? ==> r.data == data
    ensures r.Failure? ==> r == Failure(500, IncompleteQuestion)
  {
    if !Truthy(data) || !Present(Property(data, "question")) || !IsArray(Property(data, "options"))
       || |Property(data, "options").value.items| != 4
    then Failure(500, IncompleteQuestion)
    else Ok(data)
  }

  /**
   * The check reads nothing but `question` and `options`: a topic, a correct index or any
   * other member added to an object does not change the verdict.
   */
  lemma {:induction false} CheckIgnoresOtherMembers(members: seq<Member>, extra: Member)
    requires extra.key != "question" && extra.key != "options"
    ensures CheckQuestion(JObject(members + [extra])).Ok? <==> CheckQuestion(JObject(members)).Ok?
  {
    var ms := members + [extra];
    assert ms[..|ms| - 1] == members;
    assert LastValue(ms, "question") == LastValue(members, "question");
    assert LastValue(ms, "options") == LastValue(members, "options");
  }

  /**
   * /api/question from the model's reply on (server.js:83-100): no reply, or cleaned
   * text that does not parse, is a 500 "Failed to generate question"; parsed data
   * goes through the completeness check.
   */
  function QuestionRoute(reply: Option<string>, parse: string -> Option<Json>): (r: Response)
    ensures r.Failure? ==> r.status == 500
    ensures r.Ok? <==> reply.Some? && parse(Cleaned(reply.value)).Some? && CheckQuestion(parse(Cleaned(reply.value)).value).Ok?
    ensures r.Ok? ==> r.data == parse(Cleaned(reply.value)).value && r.data.JObject?
  {
    match reply
    case None => Failure(500, GenerationFailed)
    case Some(text) =>
      match parse(Cleaned(text))
      case None => Failure(500, GenerationFailed)
      case Some(data) => CheckQuestion(data)
  }

  /**
   * The tier /api/risk-question asks for (server.js:108-113): index 1 or 2 is easy,
   * 3 or 4 medium, anything else hard, compared with `===`; a missing index counts as 1.
   */
  function RiskDifficulty(index: Option<Json>): (d: Difficulty)
    ensures index.None? ==> d == Easy
    ensures index.Some? && !index.value.JNumber? ==> d == Hard
  {
    var i := if index.None? then JNumber(1.0) else index.value;
    if i == JNumber(1.0) || i == JNumber(2.0) then Easy
    else if i == JNumber(3.0) || i == JNumber(4.0) then Medium
    else Hard
  }

  /** The tier a numeric index maps to is medium only for 3 and 4, and easy only for 1 and 2. */
  lemma RiskNumericTiers(n: real)
    ensures RiskDifficulty(Some(JNumber(n))) == Easy <==> n == 1.0 || n == 2.0
    ensures RiskDifficulty(Some(JNumber(n))) == Medium <==> n == 3.0 || n == 4.0
    ensures RiskDifficulty(Some(JNumber(n))) == Hard <==> n != 1.0 && n != 2.0 && n != 3.0 && n != 4.0
  {
  }

  /** The tiers of the questions numbered 1 to `n`. */
  function RiskTiers(n: nat): (s: seq<Difficulty>)
    ensures |s| == n
  {
    seq(n, i => RiskDifficulty(Some(JNumber((i + 1) as real))))
  }

  /** Number of times `d` occurs in `s`. */
  function Occurrences(s: seq<Difficulty>, d: Difficulty): (n: nat)
    ensures n <= |s|
    decreases |s|
  {
    if s == [] then 0 else (if s[0] == d then 1 else 0) + Occurrences(s[1..], d)
  }

  /** The five risk-profile questions are two easy, two medium and one hard (server.js:105). */
  lemma RiskMix()
    ensures RiskTiers(5) == [Easy, Easy, Medium, Medium, Hard]
    ensures Occurrences(RiskTiers(5), Easy) == 2
    ensures Occurrences(RiskTiers(5), Medium) == 2
    ensures Occurrences(RiskTiers(5), Hard) == 1
  {
    var s := RiskTiers(5);
    assert s == [Easy, Easy, Medium, Medium, Hard];
    assert s[1..][1..][1..][1..][1..] == [];
  }
}
