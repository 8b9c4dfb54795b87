// The data types of the quiz front end (types.ts), plus the small Option
// used for the nullable feedback slot of the App component.
module Types {

  datatype Option<T> = None | Some(value: T)

  /** The three topic areas offered on the setup screen. */
  datatype Category = STEM | CULTURE | FESTIVALS

  datatype Difficulty = EASY | MEDIUM | HARD

  /** One multiple-choice question as handed over by the question provider. */
  datatype Question = Question(
    id: string,
    text: string,
    options: seq<string>,
    correctAnswerIndex: int,
    explanation: string,
    points: int)

  /**
   * The record kept in the component's quizState slot. The isGameOver
   * flag, never set after initialisation, is not part of the model.
   */
  datatype QuizState = QuizState(
    currentQuestionIndex: int,
    score: int,
    streak: int,
    questions: seq<Question>,
    selectedCategory: Category,
    selectedDifficulty: Difficulty,
    region: string)

  datatype Screen = HOME | SETUP | LOADING | QUIZ | RESULTS

  /** The value of the feedback slot once a question has been answered. */
  datatype Feedback = Feedback(isCorrect: bool, explanation: string)

  /**
   * What the provider's parsed output is assumed to satisfy; nothing in the
   * program checks it.
   */
  predicate WellFormedQuestion(q: Question)
  {
    0 <= q.correctAnswerIndex <= 3 && q.points >= 0
  }

  predicate WellFormedQuestions(qs: seq<Question>)
  {
    forall k :: 0 <= k < |qs| ==> WellFormedQuestion(qs[k])
  }
}
