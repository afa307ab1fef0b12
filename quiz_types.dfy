/** The values that flow between the front-end components: a question, a quiz,
    the answer map and the scored results. */
module QuizTypes {

  /** One question as the front end holds it; an empty `explanation` is an absent one. */
  datatype Question = Question(id: int, text: string, options: seq<string>,
                               correctAnswer: int, explanation: string)

  /** A generated quiz; `timer` is the per-question time in seconds, 0 for none. */
  datatype Quiz = Quiz(title: string, difficulty: string, timer: int, questions: seq<Question>)

  /** Selected option index, keyed by question id. */
  type Answers = map<int, int>

  /** The scoring snapshot handed from the runner to the results screen. */
  datatype Results = Results(correct: nat, total: nat, percentage: int, passed: bool)

  /** What the runner reports when the quiz is submitted. */
  datatype Completion = Completion(answers: Answers, results: Results)

  /** Every question offers four options and its correct answer indexes one of them. */
  predicate WellFormedQuestion(q: Question) {
    |q.options| == 4 && 0 <= q.correctAnswer < |q.options|
  }

  function QuestionIds(qs: seq<Question>): set<int> {
    set q | q in qs :: q.id
  }
}
