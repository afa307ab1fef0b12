/** The results screen of src/components/ResultsDisplay.jsx: score bands, the
    incorrect count, the per-option review labels and the review toggle. */
module ResultsDisplay {
  import opened Wrappers
  import opened QuizTypes
  import GeneratedQuiz

  // ---------------------------------------------------------------------------
  // Score bands
  // ---------------------------------------------------------------------------

  /** getScoreColor's four classes, weakest first. */
  datatype ScoreColor = Poor | Average | Good | Excellent

  function ColorRank(c: ScoreColor): nat {
    match c
    case Poor => 0
    case Average => 1
    case Good => 2
    case Excellent => 3
  }

  /** getScoreColor: bands at 80, 70 and 60 percent. */
  function GetScoreColor(percentage: int): ScoreColor {
    if percentage >= 80 then Excellent
    else if percentage >= 70 then Good
    else if percentage >= 60 then Average
    else Poor
  }

  /** getScoreMessage's five messages, weakest first. */
  datatype ScoreMessage = KeepLearning | NotBad | GoodJob | ExcellentWork | Outstanding {
    function Text(): string {
      match this
      case Outstanding => "Outstanding! \U{1F389}"
      case ExcellentWork => "Excellent work! \U{1F44F}"
      case GoodJob => "Good job! \U{1F44D}"
      case NotBad => "Not bad, keep practicing! \U{1F4DA}"
      case KeepLearning => "Keep learning and try again! \U{1F4AA}"
    }
  }

  function MessageRank(m: ScoreMessage): nat {
    match m
    case KeepLearning => 0
    case NotBad => 1
    case GoodJob => 2
    case ExcellentWork => 3
    case Outstanding => 4
  }

  /** getScoreMessage: bands at 90, 80, 70 and 60 percent. */
  function GetScoreMessage(percentage: int): ScoreMessage {
    if percentage >= 90 then Outstanding
    else if percentage >= 80 then ExcellentWork
    else if percentage >= 70 then GoodJob
    else if percentage >= 60 then NotBad
    else KeepLearning
  }

  /** A higher percentage never gets a weaker colour or a weaker message. */
  lemma ScoreBandsMonotone(p: int, q: int)
    requires p <= q
    ensures ColorRank(GetScoreColor(p)) <= ColorRank(GetScoreColor(q))
    ensures MessageRank(GetScoreMessage(p)) <= MessageRank(GetScoreMessage(q))
  {
  }

  /** Colour and message share the 80/70/60 boundaries; only the message splits 90. */
  lemma ColorFollowsMessage(p: int)
    ensures ColorRank(GetScoreColor(p)) ==
            if MessageRank(GetScoreMessage(p)) == 4 then 3 else MessageRank(GetScoreMessage(p))
  {
  }

  // ---------------------------------------------------------------------------
  // Correctness per question and the incorrect count
  // ---------------------------------------------------------------------------

  /** `userAnswer === question.correctAnswer`; an unanswered question is incorrect. */
  predicate IsCorrect(q: Question, userAnswer: Option<int>) {
    userAnswer == Some(q.correctAnswer)
  }

  /** The review's verdict is the one the runner scored. */
  lemma ReviewVerdictMatchesScoring(q: Question, answers: Answers)
    ensures IsCorrect(q, GeneratedQuiz.Lookup(answers, q.id)) <==> GeneratedQuiz.AnsweredCorrectly(q, answers)
  {
  }

  /** The "Incorrect" statistic: `results.total - results.correct`. */
  function IncorrectCount(r: Results): int {
    r.total - r.correct
  }

  // ---------------------------------------------------------------------------
  // Per-option review labels
  // ---------------------------------------------------------------------------

  /** The labels one option carries: ` correct-answer`, ` user-wrong-answer`, ` user-correct-answer`. */
  datatype OptionLabels = OptionLabels(correctAnswer: bool, userWrong: bool, userCorrect: bool)

  function LabelOption(q: Question, userAnswer: Option<int>, k: int): OptionLabels {
    var isCorrect := IsCorrect(q, userAnswer);
    OptionLabels(k == q.correctAnswer,
                 userAnswer == Some(k) && !isCorrect,
                 userAnswer == Some(k) && isCorrect)
  }

  /** The labels of every option of a question, in option order. */
  function ReviewLabels(q: Question, userAnswer: Option<int>): (ls: seq<OptionLabels>)
    ensures |ls| == |q.options|
    ensures forall k :: 0 <= k < |ls| ==> (ls[k].correctAnswer <==> k == q.correctAnswer)
    ensures forall k :: 0 <= k < |ls| ==> ((ls[k].userWrong || ls[k].userCorrect) <==> userAnswer == Some(k))
    ensures forall k :: 0 <= k < |ls| ==> (ls[k].userCorrect ==> ls[k].correctAnswer)
  {
    seq(|q.options|, k requires 0 <= k < |q.options| => LabelOption(q, userAnswer, k))
  }

  /** How many options carry the label that `marked` selects. */
  function CountMarked(ls: seq<OptionLabels>, marked: OptionLabels -> bool): nat {
    if ls == [] then 0
    else CountMarked(ls[..|ls| - 1], marked) + (if marked(ls[|ls| - 1]) then 1 else 0)
  }

  /** A label carried by exactly one position is counted once. */
  lemma {:induction false} CountMarkedSingle(ls: seq<OptionLabels>, marked: OptionLabels -> bool, k: int)
    requires forall i :: 0 <= i < |ls| ==> (marked(ls[i]) <==> i == k)
    ensures CountMarked(ls, marked) == if 0 <= k < |ls| then 1 else 0
  {
    if ls != [] {
      var n := |ls| - 1;
      assert forall i :: 0 <= i < n ==> ls[..n][i] == ls[i];
      CountMarkedSingle(ls[..n], marked, k);
    }
  }

  predicate IsCorrectAnswerLabel(l: OptionLabels) { l.correctAnswer }
  predicate IsUserWrongLabel(l: OptionLabels) { l.userWrong }
  predicate IsUserCorrectLabel(l: OptionLabels) { l.userCorrect }

  /** Exactly one option is labelled as the correct answer. */
  lemma ExactlyOneCorrectAnswerLabel(q: Question, userAnswer: Option<int>)
    requires 0 <= q.correctAnswer < |q.options|
    ensures CountMarked(ReviewLabels(q, userAnswer), IsCorrectAnswerLabel) == 1
  {
    CountMarkedSingle(ReviewLabels(q, userAnswer), IsCorrectAnswerLabel, q.correctAnswer);
  }

  /** No option is labelled both as the user's wrong pick and as the user's correct pick. */
  lemma UserLabelsExclusive(q: Question, userAnswer: Option<int>)
    ensures forall l :: l in ReviewLabels(q, userAnswer) ==> !(l.userWrong && l.userCorrect)
  {
  }

  /** A correct pick: the only user label sits on the correct answer, and nothing is marked wrong. */
  lemma CorrectPickLabels(q: Question, userAnswer: Option<int>)
    requires IsCorrect(q, userAnswer) && 0 <= q.correctAnswer < |q.options|
    ensures var ls := ReviewLabels(q, userAnswer);
            forall k :: 0 <= k < |ls| ==>
              !ls[k].userWrong && (ls[k].userCorrect <==> k == q.correctAnswer) &&
              (ls[k].userCorrect ==> ls[k].correctAnswer)
    ensures CountMarked(ReviewLabels(q, userAnswer), IsUserCorrectLabel) == 1
    ensures CountMarked(ReviewLabels(q, userAnswer), IsUserWrongLabel) == 0
  {
    var ls := ReviewLabels(q, userAnswer);
    CountMarkedSingle(ls, IsUserCorrectLabel, q.correctAnswer);
    CountMarkedSingle(ls, IsUserWrongLabel, -1);
  }

  /** A wrong pick among the options: it alone is marked wrong, and no option is marked
      as the user's correct pick. */
  lemma WrongPickLabels(q: Question, pick: int)
    requires 0 <= pick < |q.options| && pick != q.correctAnswer
    ensures var ls := ReviewLabels(q, Some(pick));
            forall k :: 0 <= k < |ls| ==> !ls[k].userCorrect && (ls[k].userWrong <==> k == pick)
    ensures CountMarked(ReviewLabels(q, Some(pick)), IsUserWrongLabel) == 1
    ensures CountMarked(ReviewLabels(q, Some(pick)), IsUserCorrectLabel) == 0
  {
    var ls := ReviewLabels(q, Some(pick));
    CountMarkedSingle(ls, IsUserWrongLabel, pick);
    CountMarkedSingle(ls, IsUserCorrectLabel, -1);
  }

  /** An unanswered question carries no user label on any option. */
  lemma UnansweredHasNoUserLabels(q: Question)
    ensures forall l :: l in ReviewLabels(q, None) ==> !l.userWrong && !l.userCorrect
  {
  }

  // ---------------------------------------------------------------------------
  // The review section and its toggle
  // ---------------------------------------------------------------------------

  /** One review card: question number, verdict, option labels and the explanation if any. */
  datatype ReviewEntry = ReviewEntry(number: int, correct: bool, labels: seq<OptionLabels>,
                                     explanation: Option<string>)

  function ReviewEntries(qs: seq<Question>, answers: Answers): (rs: seq<ReviewEntry>)
    ensures |rs| == |qs|
    ensures forall i :: 0 <= i < |qs| ==>
              rs[i].number == i + 1 && (rs[i].correct <==> GeneratedQuiz.AnsweredCorrectly(qs[i], answers))
    ensures forall i :: 0 <= i < |qs| ==> (rs[i].explanation.Some? <==> qs[i].explanation != "")
  {
    seq(|qs|, i requires 0 <= i < |qs| =>
      var userAnswer := GeneratedQuiz.Lookup(answers, qs[i].id);
      ReviewEntry(i + 1, IsCorrect(qs[i], userAnswer), ReviewLabels(qs[i], userAnswer),
                  if qs[i].explanation != "" then Some(qs[i].explanation) else None))
  }

  /** How many review cards are marked incorrect. */
  function IncorrectCards(rs: seq<ReviewEntry>): nat {
    if rs == [] then 0
    else IncorrectCards(rs[..|rs| - 1]) + (if rs[|rs| - 1].correct then 0 else 1)
  }

  /** The cards of a prefix of the quiz are the prefix of its cards. */
  lemma ReviewEntriesPrefix(qs: seq<Question>, answers: Answers, n: nat)
    requires n <= |qs|
    ensures ReviewEntries(qs[..n], answers) == ReviewEntries(qs, answers)[..n]
  {
    var a, b := ReviewEntries(qs[..n], answers), ReviewEntries(qs, answers)[..n];
    assert forall i :: 0 <= i < n ==> a[i] == b[i];
  }

  /** Every question is counted correct by the runner or has a card marked incorrect. */
  lemma {:induction false} CorrectPlusIncorrect(qs: seq<Question>, answers: Answers)
    ensures GeneratedQuiz.CountCorrect(qs, answers) + IncorrectCards(ReviewEntries(qs, answers)) == |qs|
  {
    if qs != [] {
      var n := |qs| - 1;
      var rs := ReviewEntries(qs, answers);
      CorrectPlusIncorrect(qs[..n], answers);
      ReviewEntriesPrefix(qs, answers, n);
      assert rs[..|rs| - 1] == ReviewEntries(qs[..n], answers);
    }
  }

  /** The "Incorrect" statistic equals the number of review cards marked incorrect. */
  lemma IncorrectCountMatchesReview(qs: seq<Question>, answers: Answers)
    requires |qs| > 0
    ensures IncorrectCount(GeneratedQuiz.Score(qs, answers)) == IncorrectCards(ReviewEntries(qs, answers))
    ensures 0 <= IncorrectCount(GeneratedQuiz.Score(qs, answers)) <= |qs|
  {
    CorrectPlusIncorrect(qs, answers);
  }

  /** The mounted results screen; only `showReview` changes while it is shown. */
  class ResultsScreen {
    const results: Results
    const userAnswers: Answers
    const quiz: Quiz
    var showReview: bool

    constructor (r: Results, answers: Answers, q: Quiz)
      ensures results == r && userAnswers == answers && quiz == q && !showReview
    {
      results := r;
      userAnswers := answers;
      quiz := q;
      showReview := false;
    }

    /** The review cards on screen: all of them while the review is open, none otherwise. */
    function VisibleReview(): seq<ReviewEntry>
      reads this
    {
      if showReview then ReviewEntries(quiz.questions, userAnswers) else []
    }

    /** The Review/Hide button; results and answers are constants of the screen, so
        toggling twice restores the screen exactly. */
    method ToggleReview()
      modifies this`showReview
      ensures showReview == !old(showReview)
      ensures showReview ==> VisibleReview() == ReviewEntries(quiz.questions, userAnswers)
      ensures !showReview ==> VisibleReview() == []
    {
      showReview := !showReview;
    }
  }
}
