/** The quiz request form of src/components/QuizGenerator.jsx: resolving the chosen
    count and timer, the rule that enables the Generate button, and the local
    fallback synthesis from a static question bank when the back end is unreachable. */
module QuizGenerator {
  import opened Wrappers
  import opened Text
  import opened QuizTypes

  // ---------------------------------------------------------------------------
  // The static question bank
  // ---------------------------------------------------------------------------

  /** A bank entry: a question without its id. */
  datatype BankItem = BankItem(text: string, options: seq<string>, correctAnswer: int, explanation: string)

  predicate WellFormedItem(item: BankItem) {
    |item.options| == 4 && 0 <= item.correctAnswer < 4
  }

  const JavascriptBank: seq<BankItem> := [
    BankItem("What is the correct way to declare a variable in JavaScript?",
             ["var myVar;", "variable myVar;", "v myVar;", "declare myVar;"], 0,
             "The 'var' keyword is used to declare variables in JavaScript, though 'let' and 'const' are more modern alternatives."),
    BankItem("Which method is used to add an element to the end of an array?",
             ["push()", "pop()", "shift()", "unshift()"], 0,
             "The push() method adds one or more elements to the end of an array and returns the new length."),
    BankItem("What does '===' operator do in JavaScript?",
             ["Assignment", "Equality with type conversion", "Strict equality", "Not equal"], 2,
             "The '===' operator checks for strict equality, comparing both value and type without type conversion."),
    BankItem("Which of these is NOT a JavaScript data type?",
             ["string", "boolean", "float", "undefined"], 2,
             "JavaScript uses 'number' for all numeric values, there's no separate 'float' type."),
    BankItem("What is a closure in JavaScript?",
             ["A loop construct", "A function with access to outer scope", "A data structure", "An error type"], 1,
             "A closure is a function that has access to variables in its outer (enclosing) scope even after the outer function has returned.")
  ]

  const PythonBank: seq<BankItem> := [
    BankItem("Which keyword is used to define a function in Python?",
             ["function", "def", "define", "func"], 1,
             "The 'def' keyword is used to define functions in Python."),
    BankItem("What is the correct way to create a list in Python?",
             ["list = {1, 2, 3}", "list = [1, 2, 3]", "list = (1, 2, 3)", "list = <1, 2, 3>"], 1,
             "Square brackets [] are used to create lists in Python."),
    BankItem("Which method is used to add an item to a list?",
             ["add()", "append()", "insert()", "push()"], 1,
             "The append() method adds an item to the end of a list.")
  ]

  const HistoryBank: seq<BankItem> := [
    BankItem("In which year did World War II end?",
             ["1944", "1945", "1946", "1947"], 1,
             "World War II ended in 1945 with the surrender of Japan in September."),
    BankItem("Who was the first President of the United States?",
             ["Thomas Jefferson", "John Adams", "George Washington", "Benjamin Franklin"], 2,
             "George Washington was the first President of the United States, serving from 1789 to 1797.")
  ]

  /** The bank for a topic, matched case-insensitively on the three own keys;
      every other topic falls back to the JavaScript bank. */
  function SelectBank(topic: string): (bank: seq<BankItem>)
    ensures |bank| > 0
    ensures forall k :: 0 <= k < |bank| ==> WellFormedItem(bank[k])
  {
    var key := Lower(topic);
    if key == "javascript" then JavascriptBank
    else if key == "python" then PythonBank
    else if key == "history" then HistoryBank
    else JavascriptBank
  }

  /** Lower-casing the topic first does not change the bank. */
  lemma SelectBankIgnoresCase(topic: string)
    ensures SelectBank(Lower(topic)) == SelectBank(topic)
  {
    LowerIdempotent(topic);
  }

  /** A topic whose lower-case form is neither "python" nor "history" gets the JavaScript bank. */
  lemma UnknownTopicUsesJavascript(topic: string)
    requires Lower(topic) != "python" && Lower(topic) != "history"
    ensures SelectBank(topic) == JavascriptBank
  {
  }

  // ---------------------------------------------------------------------------
  // The bank lookup as written, on a plain JavaScript object
  // ---------------------------------------------------------------------------

  /** What `mockQuestions[key]` finds: an own array, a member inherited from
      Object.prototype (lower-case names: `constructor` and `__proto__`), or nothing. */
  datatype BankLookup = OwnBank(items: seq<BankItem>) | PrototypeMember | Absent

  function LookupAsWritten(key: string): (r: BankLookup)
    ensures r.OwnBank? ==> |r.items| > 0
  {
    if key == "javascript" then OwnBank(JavascriptBank)
    else if key == "python" then OwnBank(PythonBank)
    else if key == "history" then OwnBank(HistoryBank)
    else if key == "constructor" || key == "__proto__" then PrototypeMember
    else Absent
  }

  /** The record `{ id: i + 1, ...availableQuestions[i % availableQuestions.length] }`
      as the code builds it: an inherited member is truthy and is used as the bank, its
      element is `undefined`, and spreading `undefined` leaves only the id. */
  datatype SlotRecord = Complete(question: Question) | IdOnly(id: int)

  function SlotAsWritten(topic: string, i: nat): SlotRecord {
    match LookupAsWritten(Lower(topic))
    case OwnBank(items) => Complete(WithId(items[i % |items|], i + 1))
    case Absent => Complete(WithId(JavascriptBank[i % |JavascriptBank|], i + 1))
    case PrototypeMember => IdOnly(i + 1)
  }

  /** A topic typed as "Constructor" yields questions with an id and nothing else. */
  lemma ConstructorTopicYieldsBareIds(i: nat)
    ensures SlotAsWritten("Constructor", i) == IdOnly(i + 1)
    ensures SlotAsWritten("__proto__", i) == IdOnly(i + 1)
  {
    assert Lower("Constructor") == "constructor";
    assert Lower("__proto__") == "__proto__";
  }

  /** Away from the two inherited names the code as written agrees with `SelectBank`. */
  lemma SlotAsWrittenElsewhere(topic: string, i: nat)
    requires Lower(topic) != "constructor" && Lower(topic) != "__proto__"
    ensures SlotAsWritten(topic, i) ==
            Complete(WithId(SelectBank(topic)[i % |SelectBank(topic)|], i + 1))
  {
  }

  // ---------------------------------------------------------------------------
  // generateMockQuiz
  // ---------------------------------------------------------------------------

  function WithId(item: BankItem, id: int): Question {
    Question(id, item.text, item.options, item.correctAnswer, item.explanation)
  }

  /** The quiz that generateMockQuiz synthesises: `questionCount` slots (none for a
      negative count) filled by cycling through the topic's bank, numbered from 1. */
  function MockQuiz(topic: string, difficulty: string, questionCount: int, timer: int): Quiz {
    var bank := SelectBank(topic);
    var n := if questionCount < 0 then 0 else questionCount;
    Quiz(topic + " Quiz", difficulty, timer,
         seq(n, i requires 0 <= i < n => WithId(bank[i % |bank|], i + 1)))
  }

  /** The shape of a synthesised quiz: its length, the cycling, ids 1..n in increasing
      order, well-formed questions, and the title, difficulty and timer passed through. */
  lemma MockQuizShape(topic: string, difficulty: string, questionCount: int, timer: int)
    ensures var quiz := MockQuiz(topic, difficulty, questionCount, timer);
            var qs, bank := quiz.questions, SelectBank(topic);
            && |qs| == (if questionCount < 0 then 0 else questionCount)
            && quiz.title == topic + " Quiz" && quiz.difficulty == difficulty && quiz.timer == timer
            && (forall i :: 0 <= i < |qs| ==> qs[i].id == i + 1 && WellFormedQuestion(qs[i]))
            && (forall i :: 0 <= i < |qs| ==>
                  var item := bank[i % |bank|];
                  qs[i].text == item.text && qs[i].options == item.options &&
                  qs[i].correctAnswer == item.correctAnswer && qs[i].explanation == item.explanation)
            && (forall i, j :: 0 <= i < j < |qs| ==> qs[i].id < qs[j].id)
  {
  }

  /** Seven JavaScript questions wrap around the five-item bank: the sixth and seventh
      questions are the bank's first and second again. */
  lemma SeventhJavascriptQuestionWraps()
    ensures |MockQuiz("JavaScript", "medium", 7, 0).questions| == 7
    ensures MockQuiz("JavaScript", "medium", 7, 0).questions[5] == WithId(JavascriptBank[0], 6)
    ensures MockQuiz("JavaScript", "medium", 7, 0).questions[6] == WithId(JavascriptBank[1], 7)
  {
    assert Lower("JavaScript") == "javascript";
    assert SelectBank("JavaScript") == JavascriptBank;
  }

  /** generateMockQuiz: pushes one record per slot in a counted loop. */
  method GenerateMockQuiz(topic: string, difficulty: string, questionCount: int, timer: int)
    returns (quiz: Quiz)
    ensures quiz == MockQuiz(topic, difficulty, questionCount, timer)
  {
    var available := SelectBank(topic);
    var selected: seq<Question> := [];
    var i := 0;
    while i < questionCount
      invariant 0 <= i && (questionCount >= 0 ==> i <= questionCount)
      invariant questionCount < 0 ==> i == 0
      invariant |selected| == i
      invariant forall k :: 0 <= k < i ==> selected[k] == WithId(available[k % |available|], k + 1)
    {
      var questionIndex := i % |available|;
      selected := selected + [WithId(available[questionIndex], i + 1)];
      i := i + 1;
    }
    quiz := Quiz(topic + " Quiz", difficulty, timer, selected);
  }

  // ---------------------------------------------------------------------------
  // The form: count and timer resolution, and the Generate button
  // ---------------------------------------------------------------------------

  /** A select box: one of its numeric options, or 'custom'. */
  datatype Choice = Preset(value: int) | Custom

  /** The form fields; an empty custom number field is None. */
  datatype Form = Form(topic: string, difficulty: string,
                       questionCount: Choice, customQuestionCount: Option<int>,
                       timer: Choice, customTimer: Option<int>)

  /** The select boxes only offer 5, 10, 15 questions and 0, 15, 30 seconds. */
  predicate PresetsOffered(f: Form) {
    && (f.questionCount.Preset? ==> f.questionCount.value in {5, 10, 15})
    && (f.timer.Preset? ==> f.timer.value in {0, 15, 30})
  }

  /** `actualQuestionCount`; None stands for the NaN that parseInt gives an empty field. */
  function ActualQuestionCount(f: Form): Option<int> {
    match f.questionCount
    case Custom => f.customQuestionCount
    case Preset(n) => Some(n)
  }

  /** `actualTimer`; None stands for NaN. */
  function ActualTimer(f: Form): Option<int> {
    match f.timer
    case Custom => f.customTimer
    case Preset(t) => Some(t)
  }

  /** A custom value blocks submission: empty, below `lo` or above `hi`. */
  predicate CustomBlocks(v: Option<int>, lo: int, hi: int) {
    v.None? || v.value < lo || v.value > hi
  }

  /** The `disabled` expression of the Generate button. */
  predicate SubmitDisabled(f: Form, isGenerating: bool) {
    || isGenerating
    || (f.questionCount.Custom? && CustomBlocks(f.customQuestionCount, 1, 50))
    || (f.timer.Custom? && CustomBlocks(f.customTimer, 5, 600))
  }

  /** A form whose Generate button is enabled resolves to a count in 1..50 and to
      either no timer or a timer in 5..600 seconds. */
  lemma EnabledFormResolves(f: Form)
    requires PresetsOffered(f) && !SubmitDisabled(f, false)
    ensures ActualQuestionCount(f).Some? && 1 <= ActualQuestionCount(f).value <= 50
    ensures ActualTimer(f).Some? && (ActualTimer(f).value == 0 || 5 <= ActualTimer(f).value <= 600)
  {
  }

  /** The custom fields matter only when 'custom' is selected, and then they are used
      as they are. */
  lemma CustomFieldsReplacePresets(f: Form, count: Option<int>, timer: Option<int>)
    ensures f.questionCount.Preset? ==>
              ActualQuestionCount(f.(customQuestionCount := count)) == ActualQuestionCount(f)
    ensures f.questionCount.Custom? ==>
              ActualQuestionCount(f.(customQuestionCount := count)) == count
    ensures f.timer.Preset? ==> ActualTimer(f.(customTimer := timer)) == ActualTimer(f)
    ensures f.timer.Custom? ==> ActualTimer(f.(customTimer := timer)) == timer
  {
  }

  // ---------------------------------------------------------------------------
  // handleSubmit
  // ---------------------------------------------------------------------------

  /** How the `POST /generate-quiz` call ended: a 2xx reply with its quiz, or any failure. */
  datatype BackendOutcome = BackendOk(payload: Quiz) | BackendFailed

  /** handleSubmit without the network: the back end's quiz with its timer overwritten
      by the locally resolved one, or the local synthesis when the call failed. */
  method HandleSubmit(f: Form, outcome: BackendOutcome) returns (quiz: Quiz)
    requires PresetsOffered(f) && !SubmitDisabled(f, false)
    ensures quiz.timer == ActualTimer(f).value
    ensures outcome.BackendOk? ==> quiz == outcome.payload.(timer := ActualTimer(f).value)
    ensures outcome.BackendFailed? ==>
              quiz == MockQuiz(f.topic, f.difficulty, ActualQuestionCount(f).value, ActualTimer(f).value)
    ensures outcome.BackendFailed? ==> 1 <= |quiz.questions| <= 50
  {
    EnabledFormResolves(f);
    var actualQuestionCount := ActualQuestionCount(f).value;
    var actualTimer := ActualTimer(f).value;
    match outcome
    case BackendOk(payload) =>
      quiz := payload.(timer := actualTimer);
    case BackendFailed =>
      quiz := GenerateMockQuiz(f.topic, f.difficulty, actualQuestionCount, actualTimer);
  }
}
