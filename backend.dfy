/** The Flask back end of backend.py without Flask and without the model call: the
    checks and normalisation applied to each generated question, the assembly of a
    full quiz with fallbacks, and the request handling of `/generate-quiz` and
    `/validate-answer`. A model reply arrives as an input: the decoded JSON value,
    or None when the call or the decoding failed. */
module Backend {
  import opened Wrappers
  import opened Text

  // ---------------------------------------------------------------------------
  // Decoded JSON and Python equality
  // ---------------------------------------------------------------------------

  datatype Json = JNull | JBool(b: bool) | JInt(i: int) | JStr(s: string)
                | JList(items: seq<Json>) | JObject(fields: map<string, Json>)

  /** Python's `==` on decoded JSON: booleans equal the integers 0 and 1, lists compare
      element by element, everything else structurally. */
  predicate PyEq(a: Json, b: Json)
    decreases a
  {
    match a
    case JBool(x) => (b.JBool? && b.b == x) || (b.JInt? && b.i == (if x then 1 else 0))
    case JInt(x) => (b.JInt? && b.i == x) || (b.JBool? && x == (if b.b then 1 else 0))
    case JList(xs) =>
      b.JList? && |xs| == |b.items| && forall k :: 0 <= k < |xs| ==> PyEq(xs[k], b.items[k])
    case _ => a == b
  }

  lemma {:induction false} PyEqReflexive(a: Json)
    ensures PyEq(a, a)
    decreases a
  {
    if a.JList? {
      forall k | 0 <= k < |a.items|
        ensures PyEq(a.items[k], a.items[k])
      {
        PyEqReflexive(a.items[k]);
      }
    }
  }

  lemma {:induction false} PyEqSymmetric(a: Json, b: Json)
    ensures PyEq(a, b) <==> PyEq(b, a)
    decreases a
  {
    if a.JList? && b.JList? && |a.items| == |b.items| {
      forall k | 0 <= k < |a.items|
        ensures PyEq(a.items[k], b.items[k]) <==> PyEq(b.items[k], a.items[k])
      {
        PyEqSymmetric(a.items[k], b.items[k]);
      }
    }
  }

  /** On strings Python equality is string equality. */
  lemma PyEqOnStrings(s: string, b: Json)
    ensures PyEq(JStr(s), b) <==> b == JStr(s)
    ensures PyEq(b, JStr(s)) <==> b == JStr(s)
  {
    PyEqSymmetric(JStr(s), b);
  }

  // ---------------------------------------------------------------------------
  // Resolving the correct option
  // ---------------------------------------------------------------------------

  /** `options.index(answer)` from position `i`: the first equal option, or None for ValueError. */
  function IndexFrom(options: seq<Json>, answer: Json, i: nat): (r: Option<nat>)
    decreases |options| - i
    ensures r.Some? ==> i <= r.value < |options| && PyEq(options[r.value], answer)
    ensures r.Some? ==> forall j :: i <= j < r.value ==> !PyEq(options[j], answer)
    ensures r.None? ==> forall j :: i <= j < |options| ==> !PyEq(options[j], answer)
  {
    if i >= |options| then None
    else if PyEq(options[i], answer) then Some(i)
    else IndexFrom(options, answer, i + 1)
  }

  /** `answer.lower() in option.lower() or option.lower() in answer.lower()`. */
  predicate FuzzyMatch(answer: string, option: string) {
    Contains(Lower(option), Lower(answer)) || Contains(Lower(answer), Lower(option))
  }

  /** The closest-match scan from position `i`: the first matching option; 0 when the
      scan ends without a match; None when an option that is not a string is reached
      first, because calling `.lower()` on it raises. */
  function FuzzyFrom(options: seq<Json>, answer: string, i: nat): (r: Option<nat>)
    decreases |options| - i
    ensures r.Some? && r.value > 0 ==> i <= r.value < |options|
  {
    if i >= |options| then Some(0)
    else if !options[i].JStr? then None
    else if FuzzyMatch(answer, options[i].s) then Some(i)
    else FuzzyFrom(options, answer, i + 1)
  }

  /** The index stored as `correctAnswer`, or None when the resolution raises. */
  function CorrectIndex(options: seq<Json>, answer: Json): (r: Option<nat>)
    requires |options| == 4
    ensures r.Some? ==> r.value < 4
  {
    match IndexFrom(options, answer, 0)
    case Some(k) => Some(k)
    case None => if answer.JStr? then FuzzyFrom(options, answer.s, 0) else None
  }

  /** An answer equal to some option resolves to the first such option. */
  lemma ExactMatchWins(options: seq<Json>, answer: Json, k: nat)
    requires |options| == 4 && k < 4 && PyEq(options[k], answer)
    ensures CorrectIndex(options, answer).Some?
    ensures var r := CorrectIndex(options, answer).value;
            r <= k && PyEq(options[r], answer) && forall j :: 0 <= j < r ==> !PyEq(options[j], answer)
  {
  }

  /** What the closest-match scan returns, stated outright: the first matching option
      when every option before it is a string that does not match; 0 when all options
      are non-matching strings; None when a non-string option comes before any match. */
  lemma {:induction false} FuzzyFromMeaning(options: seq<Json>, answer: string, i: nat)
    requires i <= |options|
    ensures var r := FuzzyFrom(options, answer, i);
            (forall j :: i <= j < |options| ==> options[j].JStr? && !FuzzyMatch(answer, options[j].s))
            ==> r == Some(0)
    ensures forall k :: i <= k < |options| && options[k].JStr? && FuzzyMatch(answer, options[k].s) &&
              (forall j :: i <= j < k ==> options[j].JStr? && !FuzzyMatch(answer, options[j].s))
              ==> FuzzyFrom(options, answer, i) == Some(k)
    ensures FuzzyFrom(options, answer, i).None? <==>
            exists k :: i <= k < |options| && !options[k].JStr? &&
              (forall j :: i <= j < k ==> options[j].JStr? && !FuzzyMatch(answer, options[j].s))
    decreases |options| - i
  {
    if i < |options| {
      FuzzyFromMeaning(options, answer, i + 1);
    }
  }

  /** list.index followed by the closest-match loop with its `break`. */
  method ResolveCorrectIndex(options: seq<Json>, answer: Json) returns (r: Option<nat>)
    requires |options| == 4
    ensures r == CorrectIndex(options, answer)
  {
    var k := 0;
    while k < |options| && !PyEq(options[k], answer)
      invariant 0 <= k <= |options|
      invariant IndexFrom(options, answer, 0) == IndexFrom(options, answer, k)
    {
      k := k + 1;
    }
    if k < |options| {
      return Some(k);
    }
    if !answer.JStr? {
      return None;
    }
    var correctIndex := 0;
    var i := 0;
    while i < |options|
      invariant 0 <= i <= |options|
      invariant correctIndex == 0
      invariant FuzzyFrom(options, answer.s, 0) == FuzzyFrom(options, answer.s, i)
    {
      var option := options[i];
      if !option.JStr? {
        return None;
      }
      if FuzzyMatch(answer.s, option.s) {
        correctIndex := i;
        break;
      }
      i := i + 1;
    }
    r := Some(correctIndex);
  }

  // ---------------------------------------------------------------------------
  // generate_quiz_question
  // ---------------------------------------------------------------------------

  /** The normalised question a model reply yields (before its id is added). */
  datatype Generated = Generated(question: Json, options: seq<Json>, correctAnswer: nat, explanation: Json)

  const RequiredKeys: set<string> := {"question", "options", "correct_answer", "explanation"}

  /** The validation and normalisation of one reply; None wherever the code raises and
      returns None. A reply that is not an object never yields a question: the key
      check or the subscript that follows it raises. */
  function QuestionFromReply(reply: Option<Json>): (r: Option<Generated>)
    ensures r.Some? ==>
              && reply.Some? && reply.value.JObject?
              && RequiredKeys <= reply.value.fields.Keys
              && reply.value.fields["options"] == JList(r.value.options)
              && |r.value.options| == 4 && r.value.correctAnswer < 4
              && r.value.question == reply.value.fields["question"]
              && r.value.explanation == reply.value.fields["explanation"]
  {
    if reply.None? || !reply.value.JObject? then None
    else
      var m := reply.value.fields;
      if !(RequiredKeys <= m.Keys) then None
      else if !m["options"].JList? || |m["options"].items| != 4 then None
      else
        match CorrectIndex(m["options"].items, m["correct_answer"])
        case None => None
        case Some(k) => Some(Generated(m["question"], m["options"].items, k, m["explanation"]))
  }

  /** A well-shaped reply whose correct answer is one of its options is accepted, with
      the first such option as the answer. */
  lemma WellShapedReplyAccepted(fields: map<string, Json>, k: nat)
    requires RequiredKeys <= fields.Keys
    requires fields["options"].JList? && |fields["options"].items| == 4
    requires k < 4 && fields["options"].items[k] == fields["correct_answer"]
    ensures var r := QuestionFromReply(Some(JObject(fields)));
            r.Some? && r.value.correctAnswer <= k &&
            PyEq(fields["options"].items[r.value.correctAnswer], fields["correct_answer"])
  {
    PyEqReflexive(fields["correct_answer"]);
    ExactMatchWins(fields["options"].items, fields["correct_answer"], k);
  }

  /** generate_quiz_question after the model call. */
  method GenerateQuizQuestion(reply: Option<Json>) returns (q: Option<Generated>)
    ensures q == QuestionFromReply(reply)
  {
    if reply.None? || !reply.value.JObject? {
      return None;
    }
    var quizData := reply.value.fields;
    if !(RequiredKeys <= quizData.Keys) {
      return None;
    }
    var options := quizData["options"];
    if !options.JList? || |options.items| != 4 {
      return None;
    }
    var correctIndex := ResolveCorrectIndex(options.items, quizData["correct_answer"]);
    if correctIndex.None? {
      return None;
    }
    q := Some(Generated(quizData["question"], options.items, correctIndex.value, quizData["explanation"]));
  }

  // ---------------------------------------------------------------------------
  // generate_full_quiz
  // ---------------------------------------------------------------------------

  datatype QuizQuestion = QuizQuestion(id: int, question: Json, options: seq<Json>,
                                       correctAnswer: nat, explanation: Json)

  /** The fixed question used in place of a failed generation. */
  function FallbackQuestion(topic: string, id: int): QuizQuestion {
    QuizQuestion(id,
      JStr("This is a sample question about " + topic + ". What is the most important concept to understand?"),
      [JStr("Understanding the fundamentals"), JStr("Memorizing all details"),
       JStr("Skipping difficult parts"), JStr("Only studying examples")],
      0,
      JStr("Understanding fundamentals is always the key to learning any subject effectively."))
  }

  /** The question at a slot: the generated one with its id, or the fallback. */
  function SlotQuestion(topic: string, reply: Option<Json>, id: int): QuizQuestion {
    match QuestionFromReply(reply)
    case Some(g) => QuizQuestion(id, g.question, g.options, g.correctAnswer, g.explanation)
    case None => FallbackQuestion(topic, id)
  }

  /** Every slot question has its id, four options and an answer among them; a failed
      generation gives the fallback. */
  lemma SlotQuestionShape(topic: string, reply: Option<Json>, id: int)
    ensures var q := SlotQuestion(topic, reply, id);
            q.id == id && |q.options| == 4 && q.correctAnswer < 4 &&
            (QuestionFromReply(reply).None? ==> q == FallbackQuestion(topic, id))
  {
  }

  /** generate_full_quiz; `replies[i]` is the outcome of the model call for slot i. */
  method GenerateFullQuiz(topic: string, numQuestions: int, replies: seq<Option<Json>>)
    returns (questions: seq<QuizQuestion>)
    requires |replies| == if numQuestions < 0 then 0 else numQuestions
    ensures |questions| == |replies|
    ensures forall i :: 0 <= i < |questions| ==> questions[i] == SlotQuestion(topic, replies[i], i + 1)
    ensures forall i :: 0 <= i < |questions| ==>
              questions[i].id == i + 1 && |questions[i].options| == 4 && questions[i].correctAnswer < 4
    ensures forall i :: 0 <= i < |questions| && QuestionFromReply(replies[i]).None? ==>
              questions[i] == FallbackQuestion(topic, i + 1)
  {
    questions := [];
    var i := 0;
    while i < |replies|
      invariant 0 <= i <= |replies|
      invariant |questions| == i
      invariant forall k :: 0 <= k < i ==> questions[k] == SlotQuestion(topic, replies[k], k + 1)
    {
      var questionData := GenerateQuizQuestion(replies[i]);
      if questionData.Some? {
        var g := questionData.value;
        questions := questions + [QuizQuestion(i + 1, g.question, g.options, g.correctAnswer, g.explanation)];
      } else {
        questions := questions + [FallbackQuestion(topic, i + 1)];
      }
      i := i + 1;
    }
    forall k | 0 <= k < |questions|
      ensures questions[k].id == k + 1 && |questions[k].options| == 4 && questions[k].correctAnswer < 4
      ensures QuestionFromReply(replies[k]).None? ==> questions[k] == FallbackQuestion(topic, k + 1)
    {
      SlotQuestionShape(topic, replies[k], k + 1);
    }
  }

  // ---------------------------------------------------------------------------
  // The /generate-quiz and /validate-answer handlers
  // ---------------------------------------------------------------------------

  /** Characters `str.strip()` removes, restricted to Latin-1. */
  predicate IsPyWhitespace(c: char) {
    c == ' ' || '\t' <= c <= '\r' || '\U{1C}' <= c <= '\U{1F}' || c == '\U{85}' || c == '\U{A0}'
  }

  /** `not topic.strip()`. */
  predicate Blank(topic: string) {
    forall k :: 0 <= k < |topic| ==> IsPyWhitespace(topic[k])
  }

  predicate IsAsciiLetter(c: char) {
    'a' <= c <= 'z' || 'A' <= c <= 'Z'
  }

  function UpperChar(c: char): char {
    if 'a' <= c <= 'z' then (c as int - 32) as char else c
  }

  /** `str.title()` on ASCII: a letter right after a letter is lowered, any other letter raised. */
  function TitleFrom(s: string, afterLetter: bool): (r: string)
    ensures |r| == |s|
  {
    if s == [] then []
    else
      var c := s[0];
      [if !IsAsciiLetter(c) then c else if afterLetter then LowerChar(c) else UpperChar(c)]
      + TitleFrom(s[1..], IsAsciiLetter(c))
  }

  function TitleCase(s: string): string {
    TitleFrom(s, false)
  }

  /** Title-casing changes letter case only. */
  lemma {:induction false} TitleCaseKeepsLetters(s: string, afterLetter: bool)
    ensures Lower(TitleFrom(s, afterLetter)) == Lower(s)
  {
    if s != [] {
      TitleCaseKeepsLetters(s[1..], IsAsciiLetter(s[0]));
      var t := TitleFrom(s, afterLetter);
      assert t == [t[0]] + TitleFrom(s[1..], IsAsciiLetter(s[0]));
      assert LowerChar(t[0]) == LowerChar(s[0]);
      assert Lower(t)[1..] == Lower(TitleFrom(s[1..], IsAsciiLetter(s[0])));
      assert Lower(s)[1..] == Lower(s[1..]);
    }
  }

  /** `int(value)` for the question count: integers and booleans convert, digit strings
      parse, everything else raises. */
  function IntOf(v: Json): Option<int> {
    match v
    case JInt(n) => Some(n)
    case JBool(b) => Some(if b then 1 else 0)
    case JStr(s) =>
      if |s| >= 1 && forall k :: 0 <= k < |s| ==> IsDigit(s[k]) then Some(ParseDecimal(s)) else None
    case _ => None
  }

  /** `data.get(key, default)`, where an explicit JSON null is Python's None. */
  function Get(data: map<string, Json>, key: string, default: Json): Json {
    if key in data then data[key] else default
  }

  datatype Response = QuizResponse(title: string, difficulty: Json, questions: seq<QuizQuestion>)
                    | ErrorResponse(status: int, error: string)

  /** The request fields read before anything can fail; None when the handler fails first. */
  datatype QuizRequest = QuizRequest(topic: Json, difficulty: Json, questionCount: int)

  function ReadQuizRequest(body: Option<Json>): Option<QuizRequest> {
    if body.None? || !body.value.JObject? then None
    else
      var data := body.value.fields;
      var count := IntOf(Get(data, "questionCount", JInt(5)));
      if count.None? then None
      else Some(QuizRequest(Get(data, "topic", JStr("")), Get(data, "difficulty", JStr("medium")), count.value))
  }

  /** generate_quiz: a body that cannot be read, a topic that is not a string, a blank
      topic (400) and a missing model client (500) are answered before any generation. */
  method GenerateQuiz(body: Option<Json>, clientReady: bool, replies: seq<Option<Json>>) returns (resp: Response)
    requires var req := ReadQuizRequest(body);
             req.Some? && req.value.topic.JStr? && !Blank(req.value.topic.s) && clientReady ==>
               |replies| == if req.value.questionCount < 0 then 0 else req.value.questionCount
    ensures var req := ReadQuizRequest(body);
            (req.None? || !req.value.topic.JStr?) ==> resp == ErrorResponse(500, "Failed to generate quiz")
    ensures var req := ReadQuizRequest(body);
            req.Some? && req.value.topic.JStr? && Blank(req.value.topic.s) ==>
              resp == ErrorResponse(400, "Topic is required")
    ensures var req := ReadQuizRequest(body);
            req.Some? && req.value.topic.JStr? && !Blank(req.value.topic.s) && !clientReady ==>
              resp == ErrorResponse(500, "Groq client not initialized")
    ensures var req := ReadQuizRequest(body);
            req.Some? && req.value.topic.JStr? && !Blank(req.value.topic.s) && clientReady ==>
              && resp.QuizResponse?
              && resp.title == TitleCase(req.value.topic.s) + " Quiz"
              && resp.difficulty == req.value.difficulty
              && |resp.questions| == |replies|
              && forall i :: 0 <= i < |replies| ==>
                   resp.questions[i] == SlotQuestion(req.value.topic.s, replies[i], i + 1)
  {
    var req := ReadQuizRequest(body);
    if req.None? || !req.value.topic.JStr? {
      return ErrorResponse(500, "Failed to generate quiz");
    }
    var topic := req.value.topic.s;
    if Blank(topic) {
      return ErrorResponse(400, "Topic is required");
    }
    if !clientReady {
      return ErrorResponse(500, "Groq client not initialized");
    }
    var questions := GenerateFullQuiz(topic, req.value.questionCount, replies);
    resp := QuizResponse(TitleCase(topic) + " Quiz", req.value.difficulty, questions);
  }

  datatype Verdict = Verdict(isCorrect: bool, message: string) | VerdictError(status: int, error: string)

  /** validate_answer: Python equality of the two submitted values (a missing value is None). */
  function ValidateAnswer(body: Option<Json>): (v: Verdict)
    ensures body.Some? && body.value.JObject? ==>
              v.Verdict? &&
              (v.isCorrect <==> PyEq(Get(body.value.fields, "userAnswer", JNull),
                                     Get(body.value.fields, "correctAnswer", JNull)))
    ensures v.Verdict? ==> (v.message == if v.isCorrect then "Correct!" else "Incorrect. Try again!")
  {
    if body.None? || !body.value.JObject? then VerdictError(500, "Failed to validate answer")
    else
      var data := body.value.fields;
      var isCorrect := PyEq(Get(data, "userAnswer", JNull), Get(data, "correctAnswer", JNull));
      Verdict(isCorrect, if isCorrect then "Correct!" else "Incorrect. Try again!")
  }

  /** Two option indexes are judged equal exactly when they are the same number, and a
      request carrying neither value is judged correct. */
  lemma ValidateAnswerOnIndexes(user: int, correct: int)
    ensures ValidateAnswer(Some(JObject(map["userAnswer" := JInt(user), "correctAnswer" := JInt(correct)]))).isCorrect
            <==> user == correct
    ensures ValidateAnswer(Some(JObject(map[]))).isCorrect
  {
  }
}
