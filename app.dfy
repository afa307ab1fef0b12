/** The top-level view controller of src/App.jsx: which screen is shown and the
    payload threaded between the screens. */
module App {
  import opened Wrappers
  import opened QuizTypes

  datatype View = Home | Generator | QuizView | ResultsView

  /** A home-page category card, passed through to the generator form. */
  datatype Category = Category(id: string, name: string, icon: string, topic: string)

  /** The component the render guards mount, or nothing. */
  datatype Screen = HomePage | QuizGeneratorPage | GeneratedQuizPage | ResultsPage | NothingShown

  class AppState {
    var currentView: View
    var selectedCategory: Option<Category>
    var quizData: Option<Quiz>
    var userAnswers: Answers
    var quizResults: Option<Results>

    /** The quiz screen always has its quiz, and the results screen its results and quiz. */
    ghost predicate Valid()
      reads this
    {
      && (currentView == QuizView ==> quizData.Some?)
      && (currentView == ResultsView ==> quizData.Some? && quizResults.Some?)
    }

    /** The render guards: the quiz view needs quiz data, the results view needs results.
        In every valid state some screen is shown. */
    function Rendered(): (s: Screen)
      reads this
      ensures Valid() ==> s != NothingShown
      ensures s == GeneratedQuizPage ==> currentView == QuizView && quizData.Some?
      ensures s == ResultsPage ==> currentView == ResultsView && quizResults.Some?
    {
      match currentView
      case Home => HomePage
      case Generator => QuizGeneratorPage
      case QuizView => if quizData.Some? then GeneratedQuizPage else NothingShown
      case ResultsView => if quizResults.Some? then ResultsPage else NothingShown
    }

    constructor ()
      ensures Valid()
      ensures currentView == Home && selectedCategory == None && quizData == None
      ensures userAnswers == map[] && quizResults == None
    {
      currentView := Home;
      selectedCategory := None;
      quizData := None;
      userAnswers := map[];
      quizResults := None;
    }

    /** handleCategorySelect. */
    method SelectCategory(category: Category)
      requires Valid()
      modifies this
      ensures Valid()
      ensures currentView == Generator && selectedCategory == Some(category)
      ensures quizData == old(quizData) && userAnswers == old(userAnswers) && quizResults == old(quizResults)
    {
      selectedCategory := Some(category);
      currentView := Generator;
    }

    /** handleQuizGenerated. */
    method QuizGenerated(generatedQuiz: Quiz)
      requires Valid()
      modifies this
      ensures Valid()
      ensures currentView == QuizView && quizData == Some(generatedQuiz)
      ensures selectedCategory == old(selectedCategory) && userAnswers == old(userAnswers)
      ensures quizResults == old(quizResults)
    {
      quizData := Some(generatedQuiz);
      currentView := QuizView;
    }

    /** handleQuizCompleted, reported by the mounted quiz screen. */
    method QuizCompleted(answers: Answers, results: Results)
      requires Valid() && currentView == QuizView
      modifies this
      ensures Valid()
      ensures currentView == ResultsView && userAnswers == answers && quizResults == Some(results)
      ensures selectedCategory == old(selectedCategory) && quizData == old(quizData)
    {
      userAnswers := answers;
      quizResults := Some(results);
      currentView := ResultsView;
    }

    /** handleStartOver: back home with every payload cleared. */
    method StartOver()
      requires Valid()
      modifies this
      ensures Valid()
      ensures currentView == Home && selectedCategory == None && quizData == None
      ensures userAnswers == map[] && quizResults == None
    {
      currentView := Home;
      selectedCategory := None;
      quizData := None;
      userAnswers := map[];
      quizResults := None;
    }

    /** The generator's Back button: home, keeping every payload. */
    method BackToHome()
      requires Valid() && currentView == Generator
      modifies this`currentView
      ensures Valid() && currentView == Home
    {
      currentView := Home;
    }

    /** The quiz preview's Back button: the generator, keeping every payload. */
    method BackToGenerator()
      requires Valid() && currentView == QuizView
      modifies this`currentView
      ensures Valid() && currentView == Generator
    {
      currentView := Generator;
    }
  }
}
