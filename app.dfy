// The App component (App.tsx) as an object: its state slots are fields and
// every handler overwrites them one slot at a time, as the setters do. Each
// method is proved to leave the object in the state that the matching
// function of Session describes.
module AppComponent {
  import opened Types
  import opened Session

  class App {
    var screen: Screen
    var quizState: QuizState
    var timeLeft: int
    var isAnswering: bool
    var feedback: Option<Feedback>

    /** The slots together, as the value the Session functions work on. */
    function State(): AppState
      reads this
    {
      AppState(screen, quizState, timeLeft, isAnswering, feedback)
    }

    ghost predicate Valid()
      reads this
    {
      Inv(State())
    }

    /** The initial values of the useState calls. */
    constructor ()
      ensures Valid() && State() == Init()
    {
      screen := HOME;
      quizState := QuizState(0, 0, 0, [], STEM, MEDIUM, "Global");
      timeLeft := QuestionTime;
      isAnswering := false;
      feedback := None;
    }

    method StartSetup()
      requires Valid()
      modifies this
      ensures Valid() && State() == Session.StartSetup(old(State()))
    {
      screen := SETUP;
    }

    method SelectCategory(c: Category)
      requires Valid()
      modifies this
      ensures Valid() && State() == Session.SelectCategory(old(State()), c)
    {
      quizState := quizState.(selectedCategory := c);
    }

    method SelectDifficulty(d: Difficulty)
      requires Valid()
      modifies this
      ensures Valid() && State() == Session.SelectDifficulty(old(State()), d)
    {
      quizState := quizState.(selectedDifficulty := d);
    }

    method EditRegion(region: string)
      requires Valid()
      modifies this
      ensures Valid() && State() == Session.EditRegion(old(State()), region)
    {
      quizState := quizState.(region := region);
    }

    /**
     * First half of startQuiz: switch to the loading screen and hand back
     * the topic the provider is called with.
     */
    method StartQuiz() returns (request: Request)
      requires Valid()
      modifies this
      ensures Valid() && State() == Session.StartQuiz(old(State()))
      ensures request == RequestOf(old(State()))
    {
      screen := LOADING;
      request := Request(quizState.selectedCategory, quizState.selectedDifficulty, quizState.region);
    }

    /** startQuiz once the provider call resolved with questions. */
    method QuestionsLoaded(questions: seq<Question>)
      requires Valid()
      requires questions != [] && WellFormedQuestions(questions)
      modifies this
      ensures Valid() && State() == Session.QuestionsLoaded(old(State()), questions)
    {
      quizState := quizState.(questions := questions, currentQuestionIndex := 0, score := 0, streak := 0);
      screen := QUIZ;
      timeLeft := QuestionTime;
    }

    /** startQuiz once the provider call was rejected. */
    method LoadFailed()
      requires Valid()
      modifies this
      ensures Valid() && State() == Session.LoadFailed(old(State()))
    {
      screen := HOME;
    }

    method HandleAnswer(index: int)
      requires Valid()
      requires isAnswering || HasCurrentQuestion(State())
      modifies this
      ensures Valid() && State() == Session.HandleAnswer(old(State()), index)
    {
      if isAnswering {
        return;
      }
      isAnswering := true;
      var currentQ := quizState.questions[quizState.currentQuestionIndex];
      var isCorrect := index == currentQ.correctAnswerIndex;
      if isCorrect {
        var speedBonus := BonusPerSecond * timeLeft;
        var pointsAdded := currentQ.points + speedBonus;
        quizState := quizState.(score := quizState.score + pointsAdded, streak := quizState.streak + 1);
        feedback := Some(Feedback(true, currentQ.explanation));
      } else {
        quizState := quizState.(streak := 0);
        feedback := Some(Feedback(false, currentQ.explanation));
      }
    }

    method NextQuestion()
      requires Valid()
      modifies this
      ensures Valid() && State() == Session.NextQuestion(old(State()))
    {
      isAnswering := false;
      feedback := None;
      if quizState.currentQuestionIndex + 1 < |quizState.questions| {
        quizState := quizState.(currentQuestionIndex := quizState.currentQuestionIndex + 1);
        timeLeft := QuestionTime;
      } else {
        screen := RESULTS;
      }
    }

    /** One firing of the timer effect. */
    method Tick()
      requires Valid()
      modifies this
      ensures Valid() && State() == Session.Tick(old(State()))
    {
      if screen == QUIZ && !isAnswering && timeLeft > 0 {
        timeLeft := timeLeft - 1;
      } else if timeLeft == 0 && !isAnswering {
        HandleAnswer(TimeoutIndex);
      }
    }

    method PlayAgain()
      requires Valid()
      modifies this
      ensures Valid() && State() == Session.PlayAgain(old(State()))
    {
      quizState := quizState.(currentQuestionIndex := 0, score := 0, streak := 0);
      screen := HOME;
    }

    method ChooseNewTopic()
      requires Valid()
      modifies this
      ensures Valid() && State() == Session.ChooseNewTopic(old(State()))
    {
      screen := SETUP;
    }
  }
}
