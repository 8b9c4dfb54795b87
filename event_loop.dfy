// The environment of the component: the user's clicks, the provider's
// answer and the timer, as a sequence of events. A click only has an effect
// when the current screen renders the control it belongs to; the timer
// fires on every screen. Running any such sequence from the initial state
// keeps the session invariant, so the quiz screen always shows one of the
// loaded questions and the clock stays within [0, 15].
module EventLoop {
  import opened Types
  import S = Session

  datatype Event =
    | StartSetup
    | SelectCategory(category: Category)
    | SelectDifficulty(difficulty: Difficulty)
    | EditRegion(region: string)
    | StartQuiz
    | Loaded(questions: seq<Question>)
    | LoadFailed
    | Answer(index: int)
    | Next
    | Tick
    | PlayAgain
    | ChooseNewTopic

  /**
   * Whether the screen of s offers the control behind e: the journey button
   * on the home screen; the topic controls and "Let's Go!" on the setup
   * screen, the region field only for the two regional categories; the
   * provider's outcome while loading; one button per option of the current
   * question, and "Next" once it is answered, on the quiz screen; the two
   * reset buttons on the results screen. The option buttons stay enabled
   * while answered (their disabled attribute is not modelled), so the guard
   * in handleAnswer is exercised.
   */
  predicate Enabled(s: S.AppState, e: Event)
    ensures Enabled(s, e) && (e.Answer? || e.Next?) ==> s.screen == QUIZ && S.HasCurrentQuestion(s)
    ensures s.screen == LOADING && Enabled(s, e) ==> e.Loaded? || e.LoadFailed? || e.Tick?
    ensures e.Tick? ==> Enabled(s, e)
  {
    match e
    case StartSetup => s.screen == HOME
    case SelectCategory(_) => s.screen == SETUP
    case SelectDifficulty(_) => s.screen == SETUP
    case EditRegion(_) => s.screen == SETUP && s.quiz.selectedCategory != STEM
    case StartQuiz => s.screen == SETUP
    case Loaded(_) => s.screen == LOADING
    case LoadFailed => s.screen == LOADING
    case Answer(i) =>
      s.screen == QUIZ && S.HasCurrentQuestion(s) && 0 <= i < |S.CurrentQuestion(s).options|
    case Next => s.screen == QUIZ && S.HasCurrentQuestion(s) && s.isAnswering
    case Tick => true
    case PlayAgain => s.screen == RESULTS
    case ChooseNewTopic => s.screen == RESULTS
  }

  /** The provider only resolves with a non-empty list of well-formed questions. */
  predicate ProviderOk(e: Event)
  {
    e.Loaded? ==> e.questions != [] && WellFormedQuestions(e.questions)
  }

  predicate AllProviderOk(es: seq<Event>)
  {
    forall k :: 0 <= k < |es| ==> ProviderOk(es[k])
  }

  /** The handler that an enabled event invokes. */
  function Step(s: S.AppState, e: Event): (r: S.AppState)
    requires S.Inv(s) && Enabled(s, e) && ProviderOk(e)
    ensures S.Inv(r)
  {
    match e
    case StartSetup => S.StartSetup(s)
    case SelectCategory(c) => S.SelectCategory(s, c)
    case SelectDifficulty(d) => S.SelectDifficulty(s, d)
    case EditRegion(region) => S.EditRegion(s, region)
    case StartQuiz => S.StartQuiz(s)
    case Loaded(qs) => S.QuestionsLoaded(s, qs)
    case LoadFailed => S.LoadFailed(s)
    case Answer(i) => S.HandleAnswer(s, i)
    case Next => S.NextQuestion(s)
    case Tick => S.Tick(s)
    case PlayAgain => S.PlayAgain(s)
    case ChooseNewTopic => S.ChooseNewTopic(s)
  }

  /** The state after es, skipping every event whose control is not on screen. */
  function Run(s: S.AppState, es: seq<Event>): (r: S.AppState)
    requires S.Inv(s) && AllProviderOk(es)
    ensures S.Inv(r)
    decreases |es|
  {
    if es == [] then s
    else
      var next := if Enabled(s, es[0]) then Step(s, es[0]) else s;
      assert ProviderOk(es[0]);
      Run(next, es[1..])
  }

  /** Running two sequences one after the other is running their concatenation. */
  lemma {:induction false} RunAppend(s: S.AppState, a: seq<Event>, b: seq<Event>)
    requires S.Inv(s) && AllProviderOk(a) && AllProviderOk(b)
    ensures AllProviderOk(a + b)
    ensures Run(s, a + b) == Run(Run(s, a), b)
    decreases |a|
  {
    assert forall k :: 0 <= k < |a + b| ==> (a + b)[k] == if k < |a| then a[k] else b[k - |a|];
    if a != [] {
      assert ProviderOk(a[0]);
      var next := if Enabled(s, a[0]) then Step(s, a[0]) else s;
      assert (a + b)[1..] == a[1..] + b;
      assert (a + b)[0] == a[0];
      RunAppend(next, a[1..], b);
    } else {
      assert a + b == b;
    }
  }

  /**
   * In every state reachable from the initial one, the quiz screen has a
   * question to show, the clock is within [0, 15], and feedback is shown
   * exactly while the current question counts as answered.
   */
  lemma ReachableStatesAreConsistent(es: seq<Event>)
    requires AllProviderOk(es)
    ensures var r := Run(S.Init(), es);
      && (r.screen == QUIZ ==> S.HasCurrentQuestion(r))
      && 0 <= r.timeLeft <= S.QuestionTime
      && (r.isAnswering <==> r.feedback.Some?)
      && r.quiz.score >= 0 && r.quiz.streak >= 0
  {
  }

  /**
   * No single enabled step lowers the score, except a new load and "Play
   * Again", which set it back to zero.
   */
  lemma ScoreOnlyResetByLoadOrPlayAgain(s: S.AppState, e: Event)
    requires S.Inv(s) && Enabled(s, e) && ProviderOk(e)
    requires !e.Loaded? && !e.PlayAgain?
    ensures Step(s, e).quiz.score >= s.quiz.score
  {
  }

  /** Running e first and then rest. */
  lemma RunCons(s: S.AppState, e: Event, rest: seq<Event>)
    requires S.Inv(s) && ProviderOk(e) && AllProviderOk(rest)
    ensures AllProviderOk([e] + rest)
    ensures Run(s, [e] + rest) == Run(if Enabled(s, e) then Step(s, e) else s, rest)
  {
  }

  /**
   * The first half of the timeout quirk: the last question runs out of
   * time, "See Results" clears the answering flag while the clock still
   * shows zero, and the timer effect fires a second timeout answer on the
   * results screen.
   */
  lemma TimeoutOnLastQuestionAnswersResults(s: S.AppState)
    requires S.Inv(s) && s.screen == QUIZ && !s.isAnswering && s.timeLeft == 0
    requires s.quiz.currentQuestionIndex == |s.quiz.questions| - 1
    ensures AllProviderOk([Tick, Next, Tick])
    ensures var r := Run(s, [Tick, Next, Tick]);
      && r.screen == RESULTS
      && r.quiz.questions == s.quiz.questions
      && r.quiz.score == s.quiz.score && r.quiz.streak == 0
      && r.timeLeft == 0
      && r.isAnswering
      && r.feedback == Some(Feedback(false, S.CurrentQuestion(s).explanation))
  {
  }

  /**
   * The second half of the timeout quirk: neither "Play Again" nor a new
   * load clears the answering flag. The next quiz opens with its first
   * question already marked answered, showing the old explanation, and the
   * clock does not run on it.
   */
  lemma {:induction false} AnsweredFlagSurvivesIntoNextQuiz(s: S.AppState, qs: seq<Question>)
    requires S.Inv(s) && s.screen == RESULTS && s.isAnswering
    requires qs != [] && WellFormedQuestions(qs)
    ensures AllProviderOk([PlayAgain, StartSetup, StartQuiz, Loaded(qs)])
    ensures var r := Run(s, [PlayAgain, StartSetup, StartQuiz, Loaded(qs)]);
      && r.screen == QUIZ
      && r.quiz.questions == qs && r.quiz.currentQuestionIndex == 0
      && r.timeLeft == S.QuestionTime
      && r.isAnswering
      && r.feedback == s.feedback
      && S.Tick(r) == r
  {
    var s1 := S.PlayAgain(s);
    var s2 := S.StartSetup(s1);
    var s3 := S.StartQuiz(s2);
    var s4 := S.QuestionsLoaded(s3, qs);
    assert Run(s4, []) == s4;
    RunCons(s3, Loaded(qs), []);
    RunCons(s2, StartQuiz, [Loaded(qs)]);
    RunCons(s1, StartSetup, [StartQuiz, Loaded(qs)]);
    RunCons(s, PlayAgain, [StartSetup, StartQuiz, Loaded(qs)]);
    assert [Loaded(qs)] + [] == [Loaded(qs)];
    assert [StartQuiz] + [Loaded(qs)] == [StartQuiz, Loaded(qs)];
    assert [StartSetup] + [StartQuiz, Loaded(qs)] == [StartSetup, StartQuiz, Loaded(qs)];
    assert [PlayAgain] + [StartSetup, StartQuiz, Loaded(qs)] == [PlayAgain, StartSetup, StartQuiz, Loaded(qs)];
  }

  /**
   * The timeout quirk end to end: a timeout on the last question leaves the
   * first question of the next quiz answered before it is shown.
   */
  lemma TimeoutOnLastQuestionLeaksIntoNextQuiz(s: S.AppState, qs: seq<Question>)
    requires S.Inv(s) && s.screen == QUIZ && !s.isAnswering && s.timeLeft == 0
    requires s.quiz.currentQuestionIndex == |s.quiz.questions| - 1
    requires qs != [] && WellFormedQuestions(qs)
    ensures AllProviderOk([Tick, Next, Tick, PlayAgain, StartSetup, StartQuiz, Loaded(qs)])
    ensures var r := Run(s, [Tick, Next, Tick, PlayAgain, StartSetup, StartQuiz, Loaded(qs)]);
      && r.screen == QUIZ
      && r.quiz.questions == qs && r.quiz.currentQuestionIndex == 0
      && r.timeLeft == S.QuestionTime
      && r.isAnswering
      && r.feedback == Some(Feedback(false, S.CurrentQuestion(s).explanation))
      && S.Tick(r) == r
  {
    var a := [Tick, Next, Tick];
    var b := [PlayAgain, StartSetup, StartQuiz, Loaded(qs)];
    TimeoutOnLastQuestionAnswersResults(s);
    AnsweredFlagSurvivesIntoNextQuiz(Run(s, a), qs);
    RunAppend(s, a, b);
    assert a + b == [Tick, Next, Tick, PlayAgain, StartSetup, StartQuiz, Loaded(qs)];
  }

  /**
   * How the next quiz recovers: on a first question that opened answered,
   * "Next Question" is on screen; clicking it moves to question 1 with the
   * flag and feedback cleared, a full clock that the timer then runs down,
   * and score and streak untouched, so question 0 is skipped unscored.
   */
  lemma NextSkipsQuestionOpenedAnswered(s: S.AppState)
    requires S.Inv(s) && s.screen == QUIZ && s.isAnswering
    requires s.quiz.currentQuestionIndex == 0 && |s.quiz.questions| > 1
    ensures Enabled(s, Next)
    ensures var r := Step(s, Next);
      && r.screen == QUIZ && r.quiz.currentQuestionIndex == 1
      && !r.isAnswering && r.feedback == None
      && r.timeLeft == S.QuestionTime
      && r.quiz.score == s.quiz.score && r.quiz.streak == s.quiz.streak
      && S.Tick(r).timeLeft == S.QuestionTime - 1
  {
  }
}
