/** Whole sessions driven through the QuizManager, as a page would drive it. */
module QuizScenarios {
  import opened Wrappers
  import opened Quiz
  import Animations

  /** A four-option question whose right option is `correct`. */
  function Ask(correct: int): Question {
    Question("?", ["a", "b", "c", "d"], correct)
  }

  /** Starts a quiz of `questions` and displays its first question, ready for an answer. */
  method StartAndShow(questions: seq<Question>) returns (quiz: QuizManager)
    requires |questions| > 0
    ensures fresh(quiz) && quiz.Valid() && quiz.questions == questions
    ensures quiz.currentQuestionIndex == 0 && quiz.score == 0
    ensures !quiz.hasAnswered && quiz.pendingDisplays == 0
  {
    quiz := new QuizManager(map["easy" := questions]);
    var started := quiz.StartQuiz("easy");
    var shown := quiz.DisplayQuestion();
  }

  /** Answers the displayed question with `choice`, moves on and displays what comes next. */
  method AnswerAndMoveOn(quiz: QuizManager, choice: int) returns (screen: Screen)
    requires quiz.Valid() && |quiz.questions| > 0
    requires !quiz.hasAnswered && quiz.pendingDisplays == 0
    requires quiz.currentQuestionIndex < |quiz.questions|
    modifies quiz
    ensures quiz.Valid() && quiz.pendingDisplays == 0
    ensures quiz.questions == old(quiz.questions)
    ensures quiz.currentQuestionIndex == old(quiz.currentQuestionIndex) + 1
    ensures quiz.score == old(quiz.score)
              + if choice == quiz.questions[old(quiz.currentQuestionIndex)].correct then 1 else 0
    ensures quiz.currentQuestionIndex < |quiz.questions| ==> !quiz.hasAnswered
    ensures quiz.currentQuestionIndex >= |quiz.questions| ==>
              screen == FinishQuiz(quiz.score, |quiz.questions|)
  {
    var answer := quiz.SelectAnswer(choice);
    quiz.NextQuestion();
    screen := quiz.DisplayQuestion();
  }

  /** Four questions, answered right, wrong, right, wrong: 2 of 4, 50%, no celebration. */
  method TwoOfFour() returns (screen: Screen)
    ensures screen.Results? && screen.score == 2 && screen.total == 4
    ensures screen.percentage == 50 && !screen.celebrate
    ensures screen.text.message == Animations.MessageText(Animations.GoodWork)
  {
    var quiz := StartAndShow([Ask(0), Ask(1), Ask(2), Ask(3)]);
    screen := AnswerAndMoveOn(quiz, 0);
    screen := AnswerAndMoveOn(quiz, 0);
    screen := AnswerAndMoveOn(quiz, 2);
    assert quiz.score == 2 && quiz.currentQuestionIndex == 3;
    screen := AnswerAndMoveOn(quiz, 2);
    assert FinalPercentage(2, 4) == 50;
  }

  /** One question answered right: the next display finishes with 1 of 1, 100%, and celebrates. */
  method OneQuestionPerfect() returns (screen: Screen)
    ensures screen.Results? && screen.score == 1 && screen.total == 1
    ensures screen.percentage == 100 && screen.celebrate
    ensures screen.text.message == Animations.MessageText(Animations.Genius)
  {
    var quiz := StartAndShow([Ask(3)]);
    screen := AnswerAndMoveOn(quiz, 3);
  }

  /** A second click on an answered question is ignored and scores nothing. */
  method DoubleAnswer() returns (first: Answer, second: Answer, score: nat)
    ensures first == Correct && second == Ignored && score == 1
  {
    var quiz := StartAndShow([Ask(1), Ask(2)]);
    first := quiz.SelectAnswer(1);
    second := quiz.SelectAnswer(1);
    score := quiz.score;
  }

  /**
   * Clicking "next" twice during the exit animation of the first of two
   * questions skips the second one: both displays find the index past the
   * end and show the results, 1 of 2.
   */
  method DoubleNextSkipsQuestion() returns (first: Screen, second: Screen)
    ensures first == FinishQuiz(1, 2) && first.percentage == 50
    ensures second == first
  {
    var quiz := StartAndShow([Ask(0), Ask(0)]);
    var answer := quiz.SelectAnswer(0);
    quiz.NextQuestion();
    quiz.NextQuestion();
    assert quiz.score == 1 && quiz.currentQuestionIndex == 2 && |quiz.questions| == 2;
    first := quiz.DisplayQuestion();
    second := quiz.DisplayQuestion();
    assert FinalPercentage(1, 2) == 50;
  }

  /**
   * After a double "next" on the first of three questions, the third question is
   * shown twice: the first display releases the lock, a right answer scores, and the
   * second display releases the lock again, so it scores a second time. The quiz
   * ends at 3 of 3, 100%, though the second question was never shown.
   */
  method DoubleNextScoresShownQuestionTwice() returns (screen: Screen)
    ensures screen == FinishQuiz(3, 3) && screen.percentage == 100 && screen.celebrate
  {
    var quiz := StartAndShow([Ask(0), Ask(0), Ask(0)]);
    var answer := quiz.SelectAnswer(0);
    quiz.NextQuestion();
    quiz.NextQuestion();
    assert quiz.score == 1 && quiz.currentQuestionIndex == 2 && quiz.pendingDisplays == 2;
    screen := quiz.DisplayQuestion();
    answer := quiz.SelectAnswer(0);
    assert answer == Correct && quiz.score == 2;
    screen := quiz.DisplayQuestion();
    answer := quiz.SelectAnswer(0);
    assert answer == Correct && quiz.score == 3 && quiz.currentQuestionIndex == 2;
    quiz.NextQuestion();
    screen := quiz.DisplayQuestion();
    assert FinalPercentage(3, 3) == 100;
  }

  /** A difficulty missing from the question file fails and leaves the session as it was. */
  method UnknownDifficultyFails() returns (result: Outcome<StartError>, questions: seq<Question>)
    ensures result == Fail(UnknownDifficulty("expert")) && questions == []
  {
    var quiz := new QuizManager(map["easy" := [Ask(0)]]);
    result := quiz.StartQuiz("expert");
    questions := quiz.questions;
  }

  /** Restarting after the results keeps the list and shows its first question again at progress 50%. */
  method RestartShowsFirstQuestion() returns (screen: Screen)
    ensures screen.QuestionShown? && screen.question == Ask(1) && screen.progress == 50.0
  {
    var questions := [Ask(1), Ask(2)];
    var quiz := StartAndShow(questions);
    screen := AnswerAndMoveOn(quiz, 1);
    screen := AnswerAndMoveOn(quiz, 0);
    assert screen.Results?;
    quiz.RestartQuiz();
    assert quiz.questions == questions;
    screen := quiz.DisplayQuestion();
  }
}
