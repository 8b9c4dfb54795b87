// Whole quiz runs driven through the App object, the way the view and the
// timer call its handlers.
module Scenarios {
  import opened Types
  import opened Session
  import opened AppComponent

  /** The sum of the base points of qs. */
  function TotalPoints(qs: seq<Question>): int
  {
    if qs == [] then 0 else TotalPoints(qs[..|qs| - 1]) + qs[|qs| - 1].points
  }

  /** Let the timer run on a live quiz question until the clock shows t. */
  method WaitUntil(app: App, t: int)
    requires app.Valid() && app.screen == QUIZ && !app.isAnswering
    requires HasCurrentQuestion(app.State()) && 0 <= t <= app.timeLeft
    modifies app
    ensures app.Valid() && app.State() == old(app.State()).(timeLeft := t)
  {
    while app.timeLeft > t
      invariant app.Valid() && t <= app.timeLeft
      invariant app.State() == old(app.State()).(timeLeft := app.timeLeft)
      decreases app.timeLeft
    {
      app.Tick();
    }
  }

  /**
   * Wait on the current question until the clock shows t, answer it
   * correctly and click "Next": the score grows by the question's points
   * plus ten per remaining second, and the streak by one.
   */
  method AnswerCorrectlyAt(app: App, t: int)
    requires app.Valid() && app.screen == QUIZ && !app.isAnswering
    requires HasCurrentQuestion(app.State()) && 0 < t <= app.timeLeft
    modifies app
    ensures app.Valid() && !app.isAnswering
    ensures app.quizState.questions == old(app.quizState.questions)
    ensures app.quizState.score == old(app.quizState.score + CurrentQuestion(app.State()).points) + BonusPerSecond * t
    ensures app.quizState.streak == old(app.quizState.streak) + 1
    ensures old(app.quizState.currentQuestionIndex) + 1 < |app.quizState.questions| ==>
      && app.screen == QUIZ && app.timeLeft == QuestionTime
      && app.quizState.currentQuestionIndex == old(app.quizState.currentQuestionIndex) + 1
    ensures old(app.quizState.currentQuestionIndex) + 1 >= |app.quizState.questions| ==> app.screen == RESULTS
  {
    var q := app.quizState.questions[app.quizState.currentQuestionIndex];
    WaitUntil(app, t);
    app.HandleAnswer(q.correctAnswerIndex);
    app.NextQuestion();
  }

  /**
   * A run in which every question is answered correctly once the clock
   * shows t seconds, t at least 1 (at 0 the timer answers first): the
   * final screen shows the results, the score is the sum of the base points
   * plus ten points per second left on every question, and the streak is
   * the number of questions.
   */
  method PerfectRun(qs: seq<Question>, t: int) returns (score: int, streak: int, screen: Screen)
    requires qs != [] && WellFormedQuestions(qs)
    requires 0 < t <= QuestionTime
    ensures screen == RESULTS
    ensures score == TotalPoints(qs) + |qs| * (BonusPerSecond * t)
    ensures streak == |qs|
  {
    var app := new App();
    app.StartSetup();
    var _ := app.StartQuiz();
    app.QuestionsLoaded(qs);
    var bonus := BonusPerSecond * t;
    var k := 0;
    while k < |qs|
      invariant 0 <= k <= |qs|
      invariant app.Valid() && app.quizState.questions == qs
      invariant k < |qs| ==> && app.screen == QUIZ && app.quizState.currentQuestionIndex == k
                             && app.timeLeft == QuestionTime && !app.isAnswering
      invariant k == |qs| ==> app.screen == RESULTS
      invariant app.quizState.score == TotalPoints(qs[..k]) + k * bonus
      invariant app.quizState.streak == k
      decreases |qs| - k
    {
      ghost var before := app.quizState.score;
      AnswerCorrectlyAt(app, t);
      assert app.quizState.score == before + qs[k].points + bonus;
      assert TotalPoints(qs[..k + 1]) == TotalPoints(qs[..k]) + qs[k].points by {
        assert qs[..k + 1][..k] == qs[..k];
      }
      assert (k + 1) * bonus == k * bonus + bonus;
      k := k + 1;
    }
    assert qs[..|qs|] == qs;
    score, streak, screen := app.quizState.score, app.quizState.streak, app.screen;
  }

  /**
   * Five questions of 200 points each, all answered correctly with ten
   * seconds left: 5 * (200 + 100) = 1500 points and a streak of five.
   */
  method FivePerfectAnswers(qs: seq<Question>) returns (score: int, streak: int, screen: Screen)
    requires |qs| == 5 && WellFormedQuestions(qs)
    requires forall k :: 0 <= k < 5 ==> qs[k].points == 200
    ensures score == 1500 && streak == 5 && screen == RESULTS
  {
    assert TotalPoints(qs[..1]) == 200 by { assert qs[..1][..0] == []; }
    assert TotalPoints(qs[..2]) == 400 by { assert qs[..2][..1] == qs[..1]; }
    assert TotalPoints(qs[..3]) == 600 by { assert qs[..3][..2] == qs[..2]; }
    assert TotalPoints(qs[..4]) == 800 by { assert qs[..4][..3] == qs[..3]; }
    assert TotalPoints(qs) == 1000 by { assert qs[..4] == qs[..|qs| - 1]; }
    score, streak, screen := PerfectRun(qs, 10);
  }

  /**
   * Let every question but the last run out of time and click "Next" after
   * each: the last question is reached, live with a full clock. Timeouts
   * score as wrong, so the score does not move.
   */
  method AdvanceToLastQuestion(app: App)
    requires app.Valid() && app.screen == QUIZ && !app.isAnswering
    requires app.quizState.currentQuestionIndex == 0 && app.timeLeft == QuestionTime
    modifies app
    ensures app.Valid() && app.screen == QUIZ && !app.isAnswering && app.timeLeft == QuestionTime
    ensures app.quizState.questions == old(app.quizState.questions)
    ensures app.quizState.score == old(app.quizState.score)
    ensures app.quizState.currentQuestionIndex == |app.quizState.questions| - 1
  {
    var qs := app.quizState.questions;
    while app.quizState.currentQuestionIndex < |qs| - 1
      invariant app.Valid() && app.quizState.questions == qs
      invariant app.screen == QUIZ && app.timeLeft == QuestionTime && !app.isAnswering
      invariant app.quizState.score == old(app.quizState.score)
      decreases |qs| - app.quizState.currentQuestionIndex
    {
      WaitUntil(app, 0);
      assert WellFormedQuestion(CurrentQuestion(app.State()));
      app.Tick();
      app.NextQuestion();
    }
  }

  /**
   * The last question runs out of time and "See Results" is clicked; the
   * timer then answers once more on the results screen.
   */
  method TimeOutLastQuestion(app: App)
    requires app.Valid() && app.screen == QUIZ && !app.isAnswering && app.timeLeft == 0
    requires app.quizState.currentQuestionIndex == |app.quizState.questions| - 1
    modifies app
    ensures app.Valid() && app.screen == RESULTS && app.isAnswering
    ensures app.feedback == Some(Feedback(false, old(CurrentQuestion(app.State())).explanation))
  {
    ghost var q := CurrentQuestion(app.State());
    assert WellFormedQuestion(q);
    app.Tick();
    assert app.feedback == Some(Feedback(false, q.explanation));
    app.NextQuestion();
    app.Tick();
  }

  /**
   * A first quiz whose questions all run out of time, the last one followed
   * by "See Results", then "Play Again" and a second quiz: the second quiz
   * opens answered, with the explanation of the first quiz's last question,
   * and its clock never moves.
   */
  method TimeoutCarriesOver(first: seq<Question>, second: seq<Question>)
    returns (screen: Screen, answering: bool, shown: Option<Feedback>, clock: int, clockAfterTick: int)
    requires first != [] && WellFormedQuestions(first)
    requires second != [] && WellFormedQuestions(second)
    ensures screen == QUIZ && answering
    ensures shown == Some(Feedback(false, first[|first| - 1].explanation))
    ensures clock == QuestionTime && clockAfterTick == QuestionTime
  {
    var app := new App();
    app.StartSetup();
    var _ := app.StartQuiz();
    app.QuestionsLoaded(first);
    AdvanceToLastQuestion(app);
    WaitUntil(app, 0);
    TimeOutLastQuestion(app);
    app.PlayAgain();
    app.StartSetup();
    var _ := app.StartQuiz();
    app.QuestionsLoaded(second);
    screen, answering, shown, clock := app.screen, app.isAnswering, app.feedback, app.timeLeft;
    app.Tick();
    clockAfterTick := app.timeLeft;
  }
}
