/** The quiz runner of frontend/src/components/GeneratedQuiz.jsx: scoring, the
    per-question countdown state machine and the `m:ss` clock rendering. */
module GeneratedQuiz {
  import opened Wrappers
  import opened Text
  import opened QuizTypes

  // ---------------------------------------------------------------------------
  // Scoring (calculateResults)
  // ---------------------------------------------------------------------------

  /** `selectedAnswers[question.id] === question.correctAnswer`: a missing entry is
      `undefined`, which is never strictly equal to a number. */
  predicate AnsweredCorrectly(q: Question, answers: Answers) {
    q.id in answers && answers[q.id] == q.correctAnswer
  }

  /** The number of correctly answered questions among `qs`, counted front to back. */
  function CountCorrect(qs: seq<Question>, answers: Answers): (c: nat)
    ensures c <= |qs|
  {
    if qs == [] then 0
    else CountCorrect(qs[..|qs| - 1], answers) + (if AnsweredCorrectly(qs[|qs| - 1], answers) then 1 else 0)
  }

  /** The positions of the correctly answered questions: an independent reference for the count. */
  function CorrectPositions(qs: seq<Question>, answers: Answers): set<int> {
    set i | 0 <= i < |qs| && AnsweredCorrectly(qs[i], answers)
  }

  lemma {:induction false} CountCorrectIsCardinality(qs: seq<Question>, answers: Answers)
    ensures CountCorrect(qs, answers) == |CorrectPositions(qs, answers)|
  {
    if qs != [] {
      var n := |qs| - 1;
      var prefix := qs[..n];
      CountCorrectIsCardinality(prefix, answers);
      var before := CorrectPositions(prefix, answers);
      var after := CorrectPositions(qs, answers);
      if AnsweredCorrectly(qs[n], answers) {
        assert after == before + {n};
        assert n !in before;
      } else {
        assert after == before;
      }
    }
  }

  /** Every question counts exactly when every question is answered correctly. */
  lemma {:induction false} AllCorrectIff(qs: seq<Question>, answers: Answers)
    ensures CountCorrect(qs, answers) == |qs| <==>
            forall i :: 0 <= i < |qs| ==> AnsweredCorrectly(qs[i], answers)
  {
    if qs != [] {
      var n := |qs| - 1;
      AllCorrectIff(qs[..n], answers);
      assert forall i :: 0 <= i < n ==> qs[..n][i] == qs[i];
    }
  }

  /** The count is zero exactly when no question is answered correctly; in particular
      a quiz with no recorded answers scores zero. */
  lemma {:induction false} NoneCorrectIff(qs: seq<Question>, answers: Answers)
    ensures CountCorrect(qs, answers) == 0 <==>
            forall i :: 0 <= i < |qs| ==> !AnsweredCorrectly(qs[i], answers)
  {
    if qs != [] {
      var n := |qs| - 1;
      NoneCorrectIff(qs[..n], answers);
      assert forall i :: 0 <= i < n ==> qs[..n][i] == qs[i];
    }
  }

  /** `Math.round((correct / total) * 100)` taken over exact fractions: the quotient
      rounded half up. */
  function Percentage(correct: nat, total: nat): int
    requires total > 0
  {
    (200 * correct + total) / (2 * total)
  }

  /** `(correct / total) >= 0.7`, computed exactly. */
  predicate Passed(correct: nat, total: nat)
    requires total > 0
  {
    10 * correct >= 7 * total
  }

  /** Integer division brackets its dividend. */
  lemma DivBounds(n: nat, d: nat)
    requires d > 0
    ensures (n / d) * d <= n < (n / d) * d + d
  {
  }

  /** A dividend of at least `k` divisors divides to at least `k`. */
  lemma DivAtLeast(n: nat, d: nat, k: nat)
    requires d > 0 && n >= k * d
    ensures n / d >= k
  {
    DivBounds(n, d);
    if n / d < k {
      MulLe(n / d + 1, k, d);
    }
  }

  lemma MulLe(a: int, b: int, d: nat)
    requires a <= b
    ensures a * d <= b * d
  {
  }

  /** The percentage is the whole number nearest to 100·correct/total, halves rounding up. */
  lemma PercentageIsNearest(correct: nat, total: nat)
    requires 0 < total && correct <= total
    ensures 0 <= Percentage(correct, total) <= 100
    ensures 2 * Percentage(correct, total) * total <= 200 * correct + total
    ensures 200 * correct + total < 2 * Percentage(correct, total) * total + 2 * total
  {
    var p := Percentage(correct, total);
    var num, den := 200 * correct + total, 2 * total;
    DivBounds(num, den);
    assert 2 * p * total == p * den;
    if p > 100 {
      MulLe(101, p, den);
    }
  }

  /** A pass always shows at least 70 percent. */
  lemma PassedShowsAtLeastSeventy(correct: nat, total: nat)
    requires 0 < total && correct <= total
    ensures Passed(correct, total) ==> Percentage(correct, total) >= 70
  {
    if Passed(correct, total) {
      DivAtLeast(200 * correct + total, 2 * total, 70);
    }
  }

  /** The converse fails: 16 of 23 rounds to 70 percent and is not a pass. */
  lemma SeventyPercentNeedNotPass()
    ensures Percentage(16, 23) == 70 && !Passed(16, 23)
  {
  }

  /** Both the percentage and the verdict never drop when more answers are correct. */
  lemma ScoreMonotone(c1: nat, c2: nat, total: nat)
    requires 0 < total && c1 <= c2
    ensures Percentage(c1, total) <= Percentage(c2, total)
    ensures Passed(c1, total) ==> Passed(c2, total)
  {
    DivMonotone(200 * c1 + total, 200 * c2 + total, 2 * total);
  }

  lemma DivMonotone(n1: nat, n2: nat, d: nat)
    requires d > 0 && n1 <= n2
    ensures n1 / d <= n2 / d
  {
    DivBounds(n1, d);
    DivBounds(n2, d);
    if n1 / d > n2 / d {
      MulLe(n2 / d + 1, n1 / d, d);
    }
  }

  /** The results of `calculateResults` for a non-empty quiz. */
  function Score(qs: seq<Question>, answers: Answers): (r: Results)
    requires |qs| > 0
  {
    var c := CountCorrect(qs, answers);
    Results(c, |qs|, Percentage(c, |qs|), Passed(c, |qs|))
  }

  /** calculateResults: a single pass over the questions with a running counter. */
  method CalculateResults(qs: seq<Question>, answers: Answers) returns (r: Results)
    requires |qs| > 0
    ensures r == Score(qs, answers)
    ensures r.correct <= r.total == |qs|
    ensures r.passed <==> 10 * r.correct >= 7 * r.total
  {
    var correct := 0;
    var i := 0;
    while i < |qs|
      invariant 0 <= i <= |qs|
      invariant correct == CountCorrect(qs[..i], answers)
    {
      assert qs[..i + 1][..i] == qs[..i];
      if AnsweredCorrectly(qs[i], answers) {
        correct := correct + 1;
      }
      i := i + 1;
    }
    assert qs[..i] == qs;
    var total := |qs|;
    r := Results(correct, total, Percentage(correct, total), Passed(correct, total));
  }

  // ---------------------------------------------------------------------------
  // Answer gating
  // ---------------------------------------------------------------------------

  /** JavaScript truthiness of a looked-up answer: `undefined` and `0` are falsy. */
  predicate Falsy(v: Option<int>) {
    v.None? || v.value == 0
  }

  /** `!selectedAnswers[id] && selectedAnswers[id] !== 0`: the Next/Submit button is disabled. */
  predicate NavigationDisabled(v: Option<int>) {
    Falsy(v) && v != Some(0)
  }

  function Lookup(answers: Answers, id: int): Option<int> {
    if id in answers then Some(answers[id]) else None
  }

  /** The button is disabled exactly for an unanswered question: index 0 counts as answered. */
  lemma NavigationDisabledIffUnanswered(answers: Answers, id: int)
    ensures NavigationDisabled(Lookup(answers, id)) <==> id !in answers
  {
  }

  // ---------------------------------------------------------------------------
  // The runner state machine
  // ---------------------------------------------------------------------------

  /** The mounted GeneratedQuiz component: `quizStarted`, `currentQuestion`,
      `selectedAnswers` and `questionTimeRemaining` (None for `null`). Timer ticks,
      expiry and user clicks arrive as separate method calls. */
  class Runner {
    const quiz: Quiz
    var started: bool
    var current: nat
    var answers: Answers
    var remaining: Option<int>

    ghost predicate Valid()
      reads this
    {
      && (started ==> current < |quiz.questions|)
      && (!started ==> current == 0 && remaining == None)
      && (remaining.Some? ==> quiz.timer > 0 && 0 <= remaining.value <= quiz.timer)
      && (started && quiz.timer > 0 ==> remaining.Some?)
      && answers.Keys <= QuestionIds(quiz.questions)
    }

    /** A countdown is configured (`quizData.timer && quizData.timer > 0`). */
    predicate Timed()
      reads this
    {
      quiz.timer > 0
    }

    /** The Previous button is rendered (`!quizData.timer || quizData.timer === 0`). */
    predicate PreviousOffered()
      reads this
    {
      quiz.timer == 0
    }

    /** Previous is rendered only without a countdown, so its timer reset never runs;
        for the timers the generator produces (0 or positive) exactly one of the two holds. */
    lemma PreviousOnlyWhenUntimed()
      ensures PreviousOffered() ==> !Timed()
      ensures quiz.timer >= 0 ==> (PreviousOffered() <==> !Timed())
    {
    }

    /** Next/Submit is enabled: the current question has a recorded answer. */
    predicate NavigationEnabled()
      reads this
      requires Valid() && started
    {
      !NavigationDisabled(Lookup(answers, quiz.questions[current].id))
    }

    constructor (q: Quiz)
      ensures Valid()
      ensures quiz == q && !started && current == 0 && answers == map[] && remaining == None
    {
      quiz := q;
      started := false;
      current := 0;
      answers := map[];
      remaining := None;
    }

    /** handleStartQuiz. */
    method Start()
      requires Valid() && !started && |quiz.questions| > 0
      modifies this
      ensures Valid() && started && current == 0 && answers == old(answers)
      ensures remaining == if Timed() then Some(quiz.timer) else None
    {
      started := true;
      if quiz.timer > 0 {
        remaining := Some(quiz.timer);
      } else {
        remaining := None;
      }
    }

    /** handleAnswerSelect for the question on screen: ignored once its time is 0. */
    method SelectAnswer(answerIndex: int)
      requires Valid() && started
      requires 0 <= answerIndex < |quiz.questions[current].options|
      modifies this`answers
      ensures Valid()
      ensures old(remaining.None? || remaining.value > 0) ==>
                answers == old(answers)[quiz.questions[current].id := answerIndex] &&
                NavigationEnabled()
      ensures old(remaining) == Some(0) ==> answers == old(answers)
    {
      if remaining.None? || remaining.value > 0 {
        answers := answers[quiz.questions[current].id := answerIndex];
      }
    }

    /** handleSubmitQuiz: reports the answers and their score; the runner itself is unchanged. */
    method Submit() returns (c: Completion)
      requires Valid() && started
      ensures c == Completion(answers, Score(quiz.questions, answers))
    {
      var results := CalculateResults(quiz.questions, answers);
      c := Completion(answers, results);
    }

    /** handleNextQuestion: advance and restart the countdown, or submit on the last question. */
    method NextQuestion() returns (done: Option<Completion>)
      requires Valid() && started
      modifies this
      ensures Valid() && started && answers == old(answers)
      ensures old(current) < |quiz.questions| - 1 ==>
                done == None && current == old(current) + 1 &&
                remaining == (if Timed() then Some(quiz.timer) else old(remaining))
      ensures old(current) == |quiz.questions| - 1 ==>
                done == Some(Completion(answers, Score(quiz.questions, answers))) &&
                current == old(current) && remaining == old(remaining)
    {
      if current < |quiz.questions| - 1 {
        current := current + 1;
        if quiz.timer > 0 {
          remaining := Some(quiz.timer);
        }
        done := None;
      } else {
        var c := Submit();
        done := Some(c);
      }
    }

    /** handlePreviousQuestion: step back unless on the first question; answers are kept. */
    method PreviousQuestion()
      requires Valid() && started
      modifies this
      ensures Valid() && started && answers == old(answers)
      ensures old(current) > 0 ==>
                current == old(current) - 1 &&
                remaining == (if Timed() then Some(quiz.timer) else old(remaining))
      ensures old(current) == 0 ==> current == 0 && remaining == old(remaining)
    {
      if current > 0 {
        current := current - 1;
        if quiz.timer > 0 {
          remaining := Some(quiz.timer);
        }
      }
    }

    /** One second of the countdown effect: decrements only while the time is positive. */
    method Tick()
      requires Valid()
      modifies this`remaining
      ensures Valid()
      ensures old(started && remaining.Some? && remaining.value > 0) ==>
                remaining == Some(old(remaining.value) - 1)
      ensures !old(started && remaining.Some? && remaining.value > 0) ==> remaining == old(remaining)
    {
      if started && remaining.Some? && remaining.value > 0 {
        remaining := Some(remaining.value - 1);
      }
    }

    /** The auto-advance effect once the time is 0: the next question with a fresh
        countdown, or submission on the last question. */
    method Expire() returns (done: Option<Completion>)
      requires Valid()
      modifies this
      ensures Valid() && started == old(started) && answers == old(answers)
      ensures old(remaining) == Some(0) && started && old(current) < |quiz.questions| - 1 ==>
                done == None && current == old(current) + 1 && remaining == Some(quiz.timer)
      ensures old(remaining) == Some(0) && started && old(current) == |quiz.questions| - 1 ==>
                done == Some(Completion(answers, Score(quiz.questions, answers))) &&
                current == old(current) && remaining == old(remaining)
      ensures !(old(remaining) == Some(0) && started) ==>
                done == None && current == old(current) && remaining == old(remaining)
    {
      done := None;
      if remaining == Some(0) && started {
        if current < |quiz.questions| - 1 {
          current := current + 1;
          remaining := Some(quiz.timer);
        } else {
          var c := Submit();
          done := Some(c);
        }
      }
    }
  }

  /** Three questions with a 15-second timer and no clicks: every countdown runs out,
      the runner advances twice, and the third expiry submits an empty answer map. */
  method LetEveryTimerExpire(quiz: Quiz) returns (done: Option<Completion>)
    requires quiz.timer == 15 && |quiz.questions| == 3
    ensures done == Some(Completion(map[], Score(quiz.questions, map[])))
  {
    var runner := new Runner(quiz);
    runner.Start();
    done := None;
    var q := 0;
    while q < 3
      invariant 0 <= q <= 3
      invariant runner.Valid() && runner.started && runner.quiz == quiz && runner.answers == map[]
      invariant q < 3 ==> done == None && runner.current == q && runner.remaining == Some(15)
      invariant q == 3 ==> done == Some(Completion(map[], Score(quiz.questions, map[])))
    {
      var elapsed := 0;
      while elapsed < 15
        invariant 0 <= elapsed <= 15
        invariant runner.Valid() && runner.started && runner.quiz == quiz && runner.answers == map[]
        invariant runner.current == q && runner.remaining == Some(15 - elapsed)
      {
        runner.Tick();
        elapsed := elapsed + 1;
      }
      done := runner.Expire();
      q := q + 1;
    }
  }

  // ---------------------------------------------------------------------------
  // formatTime
  // ---------------------------------------------------------------------------

  /** `padStart(2, '0')` on a rendered number. */
  function PadTwo(s: string): string {
    if |s| >= 2 then s else "0" + s
  }

  /** formatTime: `m:ss` with whole minutes and zero-padded seconds. */
  function FormatTime(seconds: nat): string {
    Decimal(seconds / 60) + ":" + PadTwo(Decimal(seconds % 60))
  }

  predicate AllDigits(s: string) {
    forall i :: 0 <= i < |s| ==> IsDigit(s[i])
  }

  /** Reads an `m:ss` clock back into seconds. */
  function ParseTime(t: string): Option<nat> {
    if |t| >= 4 && t[|t| - 3] == ':' && AllDigits(t[..|t| - 3]) && AllDigits(t[|t| - 2..])
    then Some(60 * ParseDecimal(t[..|t| - 3]) + ParseDecimal(t[|t| - 2..]))
    else None
  }

  /** The clock shows the minutes, a colon and exactly two digits of seconds below 60,
      and reading it back gives the original number of seconds. */
  lemma FormatTimeRoundTrip(seconds: nat)
    ensures var t := FormatTime(seconds);
            |t| >= 4 && t[..|t| - 3] == Decimal(seconds / 60) && t[|t| - 3] == ':' &&
            AllDigits(t[|t| - 2..]) && ParseDecimal(t[|t| - 2..]) == seconds % 60 &&
            ParseTime(t) == Some(seconds)
  {
    var m, s := seconds / 60, seconds % 60;
    var t := FormatTime(seconds);
    var mins, secs := Decimal(m), PadTwo(Decimal(s));
    assert |secs| == 2;
    assert t == mins + [':'] + secs;
    assert t[..|t| - 3] == mins;
    assert t[|t| - 2..] == secs;
    ParseDecimalOfDecimal(m);
    ParseDecimalOfDecimal(s);
    if s < 10 {
      assert secs[..1] == "0";
      assert ParseDecimal(secs) == 10 * ParseDecimal("0") + DigitValue(secs[1]);
    }
  }
}
