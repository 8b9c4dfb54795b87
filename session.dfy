// The quiz session of the App component (App.tsx) as values: one function
// per handler, each giving the component state after the handler has run,
// and the invariant every handler keeps. The class in app.dfy is proved
// against these functions.
module Session {
  import opened Types

  /** Seconds on the clock at the start of every question. */
  const QuestionTime: int := 15

  /** Points per remaining second for a correct answer. */
  const BonusPerSecond: int := 10

  /** The sentinel index the timer submits when a question runs out of time. */
  const TimeoutIndex: int := -1

  /** All state slots of the component that the handlers read or write. */
  datatype AppState = AppState(
    screen: Screen,
    quiz: QuizState,
    timeLeft: int,
    isAnswering: bool,
    feedback: Option<Feedback>)

  /** The topic triple passed to the question provider. */
  datatype Request = Request(category: Category, difficulty: Difficulty, region: string)

  /** The state of a freshly mounted component. */
  function Init(): (s: AppState)
    ensures Inv(s)
    ensures s.screen == HOME && s.quiz.questions == [] && !s.isAnswering
  {
    AppState(HOME, QuizState(0, 0, 0, [], STEM, MEDIUM, "Global"), QuestionTime, false, None)
  }

  /**
   * What holds in every state the handlers can produce: the clock stays in
   * [0, 15], feedback is present exactly while a question counts as answered,
   * the loaded questions meet the provider assumptions, score and streak are
   * non-negative, the index points at a question once any are loaded, the
   * clock is untouched before the first load, and the quiz screen is only
   * ever shown with questions loaded.
   */
  predicate Inv(s: AppState)
  {
    && 0 <= s.timeLeft <= QuestionTime
    && (s.isAnswering <==> s.feedback.Some?)
    && WellFormedQuestions(s.quiz.questions)
    && s.quiz.score >= 0
    && s.quiz.streak >= 0
    && 0 <= s.quiz.currentQuestionIndex
    && (s.quiz.questions != [] ==> s.quiz.currentQuestionIndex < |s.quiz.questions|)
    && (s.quiz.questions == [] ==> s.quiz.currentQuestionIndex == 0 && s.timeLeft == QuestionTime)
    && (s.screen == QUIZ ==> s.quiz.questions != [])
  }

  /** The index selects one of the loaded questions. */
  predicate HasCurrentQuestion(s: AppState)
  {
    0 <= s.quiz.currentQuestionIndex < |s.quiz.questions|
  }

  function CurrentQuestion(s: AppState): Question
    requires HasCurrentQuestion(s)
  {
    s.quiz.questions[s.quiz.currentQuestionIndex]
  }

  /** The "Start Your Journey" button. */
  function StartSetup(s: AppState): (r: AppState)
    ensures Inv(s) ==> Inv(r)
  {
    s.(screen := SETUP)
  }

  /** A category button on the setup screen. */
  function SelectCategory(s: AppState, c: Category): (r: AppState)
    ensures Inv(s) ==> Inv(r)
  {
    s.(quiz := s.quiz.(selectedCategory := c))
  }

  /** A difficulty button on the setup screen. */
  function SelectDifficulty(s: AppState, d: Difficulty): (r: AppState)
    ensures Inv(s) ==> Inv(r)
  {
    s.(quiz := s.quiz.(selectedDifficulty := d))
  }

  /** The region text field on the setup screen. */
  function EditRegion(s: AppState, region: string): (r: AppState)
    ensures Inv(s) ==> Inv(r)
  {
    s.(quiz := s.quiz.(region := region))
  }

  /** The topic the provider is asked for when a quiz starts. */
  function RequestOf(s: AppState): Request
  {
    Request(s.quiz.selectedCategory, s.quiz.selectedDifficulty, s.quiz.region)
  }

  /** First half of startQuiz: show the loading screen while the provider runs. */
  function StartQuiz(s: AppState): (r: AppState)
    ensures Inv(s) ==> Inv(r)
  {
    s.(screen := LOADING)
  }

  /**
   * startQuiz after the provider resolved with qs: the questions are
   * replaced and the run restarts on the quiz screen with a full clock.
   * The answering flag and the feedback are left as they were.
   */
  function QuestionsLoaded(s: AppState, qs: seq<Question>): (r: AppState)
    requires qs != [] && WellFormedQuestions(qs)
    ensures Inv(s) ==> Inv(r)
  {
    s.(quiz := s.quiz.(questions := qs, currentQuestionIndex := 0, score := 0, streak := 0),
       screen := QUIZ,
       timeLeft := QuestionTime)
  }

  /** startQuiz after the provider failed: back to the home screen. */
  function LoadFailed(s: AppState): (r: AppState)
    ensures Inv(s) ==> Inv(r)
  {
    s.(screen := HOME)
  }

  /**
   * The speed bonus Math.floor(timeLeft * 10); timeLeft is a whole number
   * of seconds, so the floor is exact.
   */
  function SpeedBonus(timeLeft: int): (bonus: int)
    ensures bonus <= BonusPerSecond * timeLeft < bonus + 1
    ensures 0 <= timeLeft <= QuestionTime ==> 0 <= bonus <= BonusPerSecond * QuestionTime
  {
    BonusPerSecond * timeLeft
  }

  /**
   * handleAnswer(index). Ignored while a question counts as answered;
   * otherwise the answer is scored against the current question. The
   * program reads the current question without checking that it exists,
   * hence the precondition.
   */
  function HandleAnswer(s: AppState, index: int): (r: AppState)
    requires s.isAnswering || HasCurrentQuestion(s)
    ensures Inv(s) ==> Inv(r)
  {
    if s.isAnswering then s
    else
      var q := CurrentQuestion(s);
      if index == q.correctAnswerIndex then
        var pointsAdded := q.points + SpeedBonus(s.timeLeft);
        s.(isAnswering := true,
           quiz := s.quiz.(score := s.quiz.score + pointsAdded, streak := s.quiz.streak + 1),
           feedback := Some(Feedback(true, q.explanation)))
      else
        s.(isAnswering := true,
           quiz := s.quiz.(streak := 0),
           feedback := Some(Feedback(false, q.explanation)))
  }

  /** nextQuestion: clear the feedback, then advance or finish the run. */
  function NextQuestion(s: AppState): (r: AppState)
    ensures Inv(s) ==> Inv(r)
  {
    var cleared := s.(isAnswering := false, feedback := None);
    if s.quiz.currentQuestionIndex + 1 < |s.quiz.questions| then
      cleared.(quiz := s.quiz.(currentQuestionIndex := s.quiz.currentQuestionIndex + 1),
               timeLeft := QuestionTime)
    else
      cleared.(screen := RESULTS)
  }

  /**
   * One firing of the timer effect: a one-second decrement while a quiz
   * question is live, otherwise a timeout answer as soon as the clock shows
   * zero and nothing is answered. The second branch does not look at the
   * screen.
   */
  function Tick(s: AppState): (r: AppState)
    requires s.timeLeft == 0 && !s.isAnswering ==> HasCurrentQuestion(s)
    ensures Inv(s) ==> Inv(r)
  {
    if s.screen == QUIZ && !s.isAnswering && s.timeLeft > 0 then
      s.(timeLeft := s.timeLeft - 1)
    else if s.timeLeft == 0 && !s.isAnswering then
      HandleAnswer(s, TimeoutIndex)
    else
      s
  }

  /** The "Play Again" button on the results screen. */
  function PlayAgain(s: AppState): (r: AppState)
    ensures Inv(s) ==> Inv(r)
  {
    s.(quiz := s.quiz.(currentQuestionIndex := 0, score := 0, streak := 0), screen := HOME)
  }

  /** The "Choose New Topic" button on the results screen: a screen change only. */
  function ChooseNewTopic(s: AppState): (r: AppState)
    ensures Inv(s) ==> Inv(r)
  {
    s.(screen := SETUP)
  }
}
