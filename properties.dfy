// The laws the handlers of the App component obey, stated on the Session
// functions: scoring, the double-submission guard, advancing, the timer,
// loading, and the screen-only handlers.
module Laws {
  import opened Types
  import opened Session

  /** While a question counts as answered, a further submission changes nothing. */
  lemma DoubleSubmissionIsNoOp(s: AppState, first: int, second: int)
    requires s.isAnswering || HasCurrentQuestion(s)
    ensures s.isAnswering ==> HandleAnswer(s, second) == s
    ensures HandleAnswer(HandleAnswer(s, first), second) == HandleAnswer(s, first)
  {
  }

  /**
   * A correct answer adds the question's points plus ten per remaining
   * second and extends the streak by one; nothing but score, streak and
   * the answered flag and feedback changes.
   */
  lemma CorrectAnswerScoring(s: AppState, index: int)
    requires !s.isAnswering && HasCurrentQuestion(s)
    requires index == CurrentQuestion(s).correctAnswerIndex
    ensures var r := HandleAnswer(s, index); var q := CurrentQuestion(s);
      && r.quiz.score == s.quiz.score + q.points + 10 * s.timeLeft
      && r.quiz.streak == s.quiz.streak + 1
      && r.isAnswering
      && r.feedback == Some(Feedback(true, q.explanation))
      && r.quiz.(score := s.quiz.score, streak := s.quiz.streak) == s.quiz
      && r.screen == s.screen && r.timeLeft == s.timeLeft
  {
  }

  /**
   * Any other index leaves the score alone and breaks the streak; the
   * feedback carries the explanation either way.
   */
  lemma WrongAnswerScoring(s: AppState, index: int)
    requires !s.isAnswering && HasCurrentQuestion(s)
    requires index != CurrentQuestion(s).correctAnswerIndex
    ensures var r := HandleAnswer(s, index); var q := CurrentQuestion(s);
      && r.quiz.score == s.quiz.score
      && r.quiz.streak == 0
      && r.isAnswering
      && r.feedback == Some(Feedback(false, q.explanation))
      && r.quiz.(streak := s.quiz.streak) == s.quiz
      && r.screen == s.screen && r.timeLeft == s.timeLeft
  {
  }

  /**
   * The timeout sentinel is never a correct answer for a well-formed
   * question, so a timeout always scores as wrong.
   */
  lemma TimeoutScoresAsWrong(s: AppState)
    requires Inv(s) && !s.isAnswering && HasCurrentQuestion(s)
    ensures var r := HandleAnswer(s, TimeoutIndex);
      && r.quiz.score == s.quiz.score
      && r.quiz.streak == 0
      && r.isAnswering
      && r.feedback == Some(Feedback(false, CurrentQuestion(s).explanation))
  {
  }

  /**
   * The guard relies on the provider: a question whose correct index were
   * the sentinel itself would count every timeout as correct.
   */
  lemma SentinelCorrectIndexRewardsTimeout(s: AppState)
    requires !s.isAnswering && HasCurrentQuestion(s)
    requires CurrentQuestion(s).correctAnswerIndex == TimeoutIndex
    ensures HandleAnswer(s, TimeoutIndex).feedback == Some(Feedback(true, CurrentQuestion(s).explanation))
    ensures HandleAnswer(s, TimeoutIndex).quiz.streak == s.quiz.streak + 1
  {
  }

  /**
   * nextQuestion clears the answered flag and feedback. Before the last
   * question it moves on with a full clock; on the last one it shows the
   * results and keeps index, score, streak and clock. Questions and topic
   * are kept either way.
   */
  lemma NextQuestionLaw(s: AppState)
    ensures var r := NextQuestion(s);
      && !r.isAnswering && r.feedback == None
      && r.quiz.score == s.quiz.score && r.quiz.streak == s.quiz.streak
      && r.quiz.questions == s.quiz.questions && RequestOf(r) == RequestOf(s)
      && (s.quiz.currentQuestionIndex + 1 < |s.quiz.questions| ==>
            && r.quiz.currentQuestionIndex == s.quiz.currentQuestionIndex + 1
            && r.timeLeft == QuestionTime
            && r.screen == s.screen)
      && (s.quiz.currentQuestionIndex + 1 >= |s.quiz.questions| ==>
            && r.screen == RESULTS
            && r.quiz == s.quiz
            && r.timeLeft == s.timeLeft)
  {
  }

  /**
   * The clock goes down by one exactly while a quiz question is live with
   * time left, and nothing else changes then; otherwise it keeps its value.
   * While answered, or off the quiz screen with time left, a firing changes
   * nothing at all. The clock never leaves [0, 15].
   */
  lemma TickLaw(s: AppState)
    requires Inv(s)
    ensures var r := Tick(s);
      && (r.timeLeft == s.timeLeft - 1 <==> s.screen == QUIZ && !s.isAnswering && s.timeLeft > 0)
      && (r.timeLeft == s.timeLeft || r.timeLeft == s.timeLeft - 1)
      && 0 <= r.timeLeft <= QuestionTime
      && r.screen == s.screen
      && (s.screen == QUIZ && !s.isAnswering && s.timeLeft > 0 ==> r == s.(timeLeft := s.timeLeft - 1))
      && (s.isAnswering || (s.screen != QUIZ && s.timeLeft > 0) ==> r == s)
  {
  }

  /**
   * When the clock shows zero and nothing is answered, the timer submits the
   * sentinel whatever screen is shown, and the question becomes answered.
   */
  lemma TimeoutFiresOnEveryScreen(s: AppState)
    requires Inv(s) && s.timeLeft == 0 && !s.isAnswering
    ensures HasCurrentQuestion(s)
    ensures Tick(s) == HandleAnswer(s, TimeoutIndex)
    ensures Tick(s).isAnswering && Tick(s).screen == s.screen
  {
  }

  /**
   * A successful load replaces the questions and starts at question 0 with
   * score and streak 0 and a full clock on the quiz screen; the topic, the
   * answered flag and the feedback are kept.
   */
  lemma LoadLaw(s: AppState, qs: seq<Question>)
    requires qs != [] && WellFormedQuestions(qs)
    ensures var r := QuestionsLoaded(s, qs);
      && r.screen == QUIZ && r.timeLeft == QuestionTime
      && r.quiz.questions == qs && r.quiz.currentQuestionIndex == 0
      && r.quiz.score == 0 && r.quiz.streak == 0
      && RequestOf(r) == RequestOf(s)
      && r.isAnswering == s.isAnswering && r.feedback == s.feedback
      && HasCurrentQuestion(r)
  {
  }

  /** A failed load only returns to the home screen. */
  lemma LoadFailedLaw(s: AppState)
    ensures LoadFailed(s) == s.(screen := HOME)
    ensures LoadFailed(s).quiz == s.quiz
  {
  }

  /**
   * Play Again zeroes index, score and streak and shows the home screen;
   * the questions, topic, clock, answered flag and feedback are kept.
   */
  lemma PlayAgainLaw(s: AppState)
    ensures var r := PlayAgain(s);
      && r.screen == HOME
      && r.quiz.currentQuestionIndex == 0 && r.quiz.score == 0 && r.quiz.streak == 0
      && r.quiz.questions == s.quiz.questions && RequestOf(r) == RequestOf(s)
      && r.timeLeft == s.timeLeft && r.isAnswering == s.isAnswering && r.feedback == s.feedback
  {
  }

  /**
   * Choose New Topic, Start Your Journey and Let's Go! change the screen and
   * nothing else; in particular Choose New Topic resets no score.
   */
  lemma ScreenOnlyHandlers(s: AppState)
    ensures ChooseNewTopic(s) == s.(screen := SETUP)
    ensures StartSetup(s) == s.(screen := SETUP)
    ensures StartQuiz(s) == s.(screen := LOADING)
    ensures ChooseNewTopic(s).quiz.score == s.quiz.score
  {
  }

  /** Each setup control changes its own topic field and nothing else. */
  lemma SetupControlsChangeOneField(s: AppState, c: Category, d: Difficulty, region: string)
    ensures SelectCategory(s, c) == s.(quiz := s.quiz.(selectedCategory := c))
    ensures SelectDifficulty(s, d) == s.(quiz := s.quiz.(selectedDifficulty := d))
    ensures EditRegion(s, region) == s.(quiz := s.quiz.(region := region))
    ensures RequestOf(SelectCategory(s, c)) == Request(c, s.quiz.selectedDifficulty, s.quiz.region)
    ensures RequestOf(SelectDifficulty(s, d)) == Request(s.quiz.selectedCategory, d, s.quiz.region)
    ensures RequestOf(EditRegion(s, region)) == Request(s.quiz.selectedCategory, s.quiz.selectedDifficulty, region)
  {
  }

  /**
   * A timeout on an ordinary quiz question: the streak breaks, the score
   * stays, the question is marked answered with negative feedback, and the
   * quiz screen stays.
   */
  lemma TimeoutOnQuizQuestion(s: AppState)
    requires Inv(s) && s.screen == QUIZ && !s.isAnswering && s.timeLeft == 0
    ensures var r := Tick(s);
      && r.screen == QUIZ && r.isAnswering
      && r.quiz.streak == 0 && r.quiz.score == s.quiz.score
      && r.feedback.Some? && !r.feedback.value.isCorrect
  {
  }
}
