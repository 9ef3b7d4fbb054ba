/**
 * The quiz session of the QuizManager class: the question list of the chosen
 * difficulty, the position in it, the score and the answer lock, together with
 * the percentages and texts computed from them.
 *
 * Every transition is taken as atomic. The displays that the source schedules
 * with setTimeout or an animation's onComplete are counted by the ghost field
 * `pendingDisplays`: startQuiz, nextQuestion and restartQuiz each schedule one,
 * and `DisplayQuestion` runs only as one of them.
 */
module Quiz {
  import opened Wrappers
  import Animations

  /** One question record of the question file: prompt, options and the index of the right option. */
  datatype Question = Question(prompt: string, options: seq<string>, correct: int)

  /** The loaded question file: the question list of each difficulty key. */
  type QuestionBank = map<string, seq<Question>>

  /** Why startQuiz failed: the difficulty key has no entry in the question file. */
  datatype StartError = UnknownDifficulty(difficulty: string)

  /** What an answer click did. */
  datatype Answer =
    | Ignored                      // the question was already answered
    | Correct                      // scored
    | Incorrect(correctIndex: int) // not scored; the right option is highlighted

  /** What a display of the current position put on screen. */
  datatype Screen =
    | QuestionShown(question: Question, progress: real, scoreLabel: string)
    | Results(score: nat, total: nat, percentage: int, celebrate: bool, text: Animations.ResultText)

  /**
   * Final percentage: 100 * score / total rounded to the nearest integer,
   * halves rounded up as Math.round does for non-negative values.
   */
  function FinalPercentage(score: nat, total: nat): (p: int)
    requires total > 0
    ensures 2 * total * p <= 200 * score + total < 2 * total * (p + 1)
  {
    var a, b := 200 * score + total, 2 * total;
    var q, r := a / b, a % b;
    assert a == b * q + r && 0 <= r < b;
    q
  }

  /** The final percentage reaches `k` exactly when score / total reaches k/100 less half a percent. */
  lemma PercentageAtLeast(score: nat, total: nat, k: int)
    requires total > 0
    ensures FinalPercentage(score, total) >= k <==> 200 * score + total >= 2 * k * total
  {
  }

  /** With at most `total` points the percentage lies in [0, 100]; no points give 0 and all give 100. */
  lemma PercentageBounds(score: nat, total: nat)
    requires 0 < total && score <= total
    ensures 0 <= FinalPercentage(score, total) <= 100
    ensures score == 0 ==> FinalPercentage(score, total) == 0
    ensures score == total ==> FinalPercentage(score, total) == 100
  {
    PercentageAtLeast(score, total, 0);
    PercentageAtLeast(score, total, 1);
    PercentageAtLeast(score, total, 100);
    PercentageAtLeast(score, total, 101);
  }

  /** The celebration threshold of finishQuiz. */
  predicate Celebrates(percentage: int) {
    percentage >= 70
  }

  /** The celebration fires exactly when 200 * score >= 139 * total, i.e. score / total >= 69.5%. */
  lemma CelebrationThreshold(score: nat, total: nat)
    requires total > 0
    ensures Celebrates(FinalPercentage(score, total)) <==> 200 * score >= 139 * total
  {
    PercentageAtLeast(score, total, 70);
  }

  /** The celebration fires exactly for the two best result tiers. */
  lemma CelebrationMatchesTier(percentage: int)
    ensures Celebrates(percentage)
            <==> Animations.TierOf(percentage) in {Animations.Genius, Animations.Excellent}
  {
  }

  /** The result tier earned by a final score, in terms of score / total alone. */
  lemma TierOfScore(score: nat, total: nat)
    requires total > 0
    ensures var t := Animations.TierOf(FinalPercentage(score, total));
            && (t == Animations.Genius <==> 200 * score >= 179 * total)
            && (t == Animations.Excellent <==> 139 * total <= 200 * score < 179 * total)
            && (t == Animations.GoodWork <==> 99 * total <= 200 * score < 139 * total)
            && (t == Animations.KeepPracticing <==> 200 * score < 99 * total)
  {
    PercentageAtLeast(score, total, 90);
    PercentageAtLeast(score, total, 70);
    PercentageAtLeast(score, total, 50);
  }

  /** Progress shown with the question at `index`: (index + 1) / total as a percentage. */
  function Progress(index: nat, total: nat): (r: real)
    requires total > 0
    ensures r * (total as real) == ((index + 1) * 100) as real
    ensures index < total ==> 0.0 < r <= 100.0
    ensures index + 1 == total ==> r == 100.0
  {
    ((index + 1) as real / total as real) * 100.0
  }

  /**
   * finishQuiz: the results of `score` points out of `total` questions: the
   * rounded percentage, in [0, 100] when the score does not exceed the total, a
   * celebration exactly when it is at least 70, and the texts of the results modal.
   */
  function FinishQuiz(score: nat, total: nat): (screen: Screen)
    requires 0 < total
    ensures screen.Results? && screen.score == score && screen.total == total
    ensures screen.percentage == FinalPercentage(score, total)
    ensures score <= total ==> 0 <= screen.percentage <= 100
    ensures screen.celebrate <==> screen.percentage >= 70
    ensures screen.text == Animations.ResultModalText(screen.percentage)
  {
    var percentage := FinalPercentage(score, total);
    var r := Results(score, total, percentage, Celebrates(percentage), Animations.ResultModalText(percentage));
    if score <= total then PercentageBounds(score, total); r else r
  }

  /**
   * The state of a session as a value: the four fields of QuizManager and the
   * number of displays scheduled by a timer or an animation callback and not yet run.
   */
  datatype Session = Session(
    questions: seq<Question>,
    index: nat,
    score: nat,
    hasAnswered: bool,
    pendingDisplays: nat)

  /** The manager's state before any quiz has started. */
  const Initial := Session([], 0, 0, false, 0)

  /** The transitions of the source, each taken as one atomic step. */
  datatype Event =
    | Start(list: seq<Question>)  // startQuiz, with the list of a difficulty key that is present
    | Display                     // a scheduled displayQuestion runs
    | Click(answerIndex: int)     // selectAnswer on the option at answerIndex
    | Next                        // nextQuestion
    | Restart                     // restartQuiz

  /**
   * Whether the source can take the step at all: a display runs only when one is
   * scheduled, and a click that gets past the lock needs a current question
   * (otherwise `question.correct` reads from undefined).
   */
  predicate Enabled(s: Session, e: Event) {
    match e
    case Display => s.pendingDisplays > 0
    case Click(_) => s.hasAnswered || s.index < |s.questions|
    case _ => true
  }

  /** The state change of each transition, as the source writes it. */
  function Step(s: Session, e: Event): Session
    requires Enabled(s, e)
  {
    match e
    case Start(list) => Session(list, 0, 0, false, s.pendingDisplays + 1)
    case Display =>
      if s.index >= |s.questions| then s.(pendingDisplays := s.pendingDisplays - 1)
      else s.(hasAnswered := false, pendingDisplays := s.pendingDisplays - 1)
    case Click(answerIndex) =>
      if s.hasAnswered then s
      else if answerIndex == s.questions[s.index].correct
      then s.(hasAnswered := true, score := s.score + 1)
      else s.(hasAnswered := true)
    case Next => s.(index := s.index + 1, pendingDisplays := s.pendingDisplays + 1)
    case Restart => s.(index := 0, score := 0, hasAnswered := false, pendingDisplays := s.pendingDisplays + 1)
  }

  /**
   * What each transition does: start and restart reset the counters and release
   * the lock; only start replaces the list; a click takes the lock and adds at
   * most one point, exactly one iff it got past the lock on the right option;
   * next moves on by one and touches nothing else; a display leaves index and
   * score alone and holds the lock only when it finishes a quiz that held it.
   */
  lemma StepEffects(s: Session, e: Event)
    requires Enabled(s, e)
    ensures e.Start? || e.Restart? ==>
              Step(s, e).index == 0 && Step(s, e).score == 0 && !Step(s, e).hasAnswered
    ensures e.Start? ==> Step(s, e).questions == e.list
    ensures !e.Start? ==> Step(s, e).questions == s.questions
    ensures e.Click? ==>
              && Step(s, e).hasAnswered && Step(s, e).index == s.index
              && Step(s, e).score == s.score
                   + (if !s.hasAnswered && e.answerIndex == s.questions[s.index].correct then 1 else 0)
    ensures e.Next? ==>
              && Step(s, e).index == s.index + 1 && Step(s, e).score == s.score
              && Step(s, e).hasAnswered == s.hasAnswered
    ensures e.Display? ==>
              && Step(s, e).index == s.index && Step(s, e).score == s.score
              && Step(s, e).pendingDisplays == s.pendingDisplays - 1
              && (Step(s, e).hasAnswered <==> s.hasAnswered && s.index >= |s.questions|)
  {
  }

  /** The state after a sequence of transitions, or None if one of them cannot be taken. */
  function Run(s: Session, events: seq<Event>): Option<Session>
    decreases |events|
  {
    if events == [] then Some(s)
    else if Enabled(s, events[0]) then Run(Step(s, events[0]), events[1..])
    else None
  }

  /**
   * The session invariant: a score never exceeds the number of questions, nor the
   * number of positions passed plus the current answered one; while a display is
   * pending, the current position holds no score of its own.
   */
  predicate SessionInvariant(s: Session) {
    && s.score <= |s.questions|
    && s.score <= s.index + (if s.hasAnswered then 1 else 0)
    && (s.pendingDisplays > 0 ==> s.score <= s.index)
  }

  /**
   * The guard under which a click keeps the invariant: a click that gets past the
   * lock while a display is still pending finds fewer points than positions passed.
   */
  predicate Guarded(s: Session, e: Event) {
    e.Click? && !s.hasAnswered && s.pendingDisplays > 0 ==> s.score < s.index
  }

  /** Every guarded step keeps the session invariant. */
  lemma GuardedStepKeepsInvariant(s: Session, e: Event)
    requires SessionInvariant(s) && Enabled(s, e) && Guarded(s, e)
    ensures SessionInvariant(Step(s, e))
  {
  }

  /** Every transition of the run can be taken and is guarded. */
  predicate GuardedRun(s: Session, events: seq<Event>)
    decreases |events|
  {
    events == []
    || (Enabled(s, events[0]) && Guarded(s, events[0]) && GuardedRun(Step(s, events[0]), events[1..]))
  }

  /**
   * A guarded run from a state satisfying the invariant ends in one that still does,
   * so its score stays within the list and its final percentage within [0, 100].
   */
  lemma {:induction false} GuardedRunKeepsInvariant(s: Session, events: seq<Event>)
    requires SessionInvariant(s) && GuardedRun(s, events)
    ensures Run(s, events).Some? && SessionInvariant(Run(s, events).value)
    ensures var t := Run(s, events).value;
            |t.questions| > 0 ==> 0 <= FinalPercentage(t.score, |t.questions|) <= 100
    decreases |events|
  {
    if events != [] {
      GuardedStepKeepsInvariant(s, events[0]);
      GuardedRunKeepsInvariant(Step(s, events[0]), events[1..]);
    } else if |s.questions| > 0 {
      PercentageBounds(s.score, |s.questions|);
    }
  }

  /**
   * The source as written: on a one-question quiz, a click on the right option
   * before the first display scores; the display then releases the lock and the
   * same question scores again. The quiz ends at 2 of 1, shown as 200% with the
   * best tier and a celebration. The run is not guarded.
   */
  lemma EarlyClickScoresTwice(q: Question)
    ensures var events := [Start([q]), Click(q.correct), Display, Click(q.correct), Next, Display];
            && Run(Initial, events) == Some(Session([q], 1, 2, true, 0))
            && !GuardedRun(Initial, events)
            && FinalPercentage(2, 1) == 200
            && Animations.TierOf(FinalPercentage(2, 1)) == Animations.Genius
            && Celebrates(FinalPercentage(2, 1))
            && FinishQuiz(2, 1).percentage == 200 && FinishQuiz(2, 1).celebrate
  {
    var events := [Start([q]), Click(q.correct), Display, Click(q.correct), Next, Display];
    var s1 := Step(Initial, Start([q]));
    var s2 := Step(s1, Click(q.correct));
    var s3 := Step(s2, Display);
    var s4 := Step(s3, Click(q.correct));
    var s5 := Step(s4, Next);
    var s6 := Step(s5, Display);
    assert s6 == Session([q], 1, 2, true, 0);
    assert Run(s5, [Display]) == Run(s6, []) == Some(s6);
    assert Run(s4, [Next, Display]) == Run(s5, [Display]);
    assert Run(s3, [Click(q.correct), Next, Display]) == Run(s4, [Next, Display]);
    assert Run(s2, events[2..]) == Run(s3, events[3..]);
    assert Run(s1, events[1..]) == Run(s2, events[2..]);
    assert Run(Initial, events) == Run(s1, events[1..]);
    assert !Guarded(s1, Click(q.correct));
  }

  class QuizManager {
    /** allQuestions: the loaded question file. */
    var allQuestions: QuestionBank
    var questions: seq<Question>
    var currentQuestionIndex: nat
    var score: nat
    var hasAnswered: bool
    /** Displays scheduled by a timer or an animation callback and not yet run. */
    ghost var pendingDisplays: nat

    /** The manager's fields as a session value. */
    ghost function State(): Session
      reads this
    {
      Session(questions, currentQuestionIndex, score, hasAnswered, pendingDisplays)
    }

    /** The session invariant, kept by every method. */
    ghost predicate Valid()
      reads this
    {
      SessionInvariant(State())
    }

    /** A manager over a loaded question file, before any quiz is started. */
    constructor (loaded: QuestionBank)
      ensures Valid()
      ensures allQuestions == loaded && questions == []
      ensures currentQuestionIndex == 0 && score == 0 && !hasAnswered && pendingDisplays == 0
      ensures State() == Initial
    {
      allQuestions := loaded;
      questions := [];
      currentQuestionIndex := 0;
      score := 0;
      hasAnswered := false;
      pendingDisplays := 0;
    }

    /**
     * startQuiz: takes the question list of `difficulty`, resets the counters and
     * schedules the first display; a key missing from the file fails and changes nothing.
     */
    method StartQuiz(difficulty: string) returns (result: Outcome<StartError>)
      requires Valid()
      modifies this
      ensures Valid()
      ensures allQuestions == old(allQuestions)
      ensures difficulty in allQuestions ==>
                && State() == Step(old(State()), Start(allQuestions[difficulty]))
                && result == Pass
                && questions == allQuestions[difficulty]
                && currentQuestionIndex == 0 && score == 0 && !hasAnswered
                && pendingDisplays == old(pendingDisplays) + 1
      ensures difficulty !in allQuestions ==>
                && result == Fail(UnknownDifficulty(difficulty))
                && questions == old(questions)
                && currentQuestionIndex == old(currentQuestionIndex)
                && score == old(score) && hasAnswered == old(hasAnswered)
                && pendingDisplays == old(pendingDisplays)
    {
      if difficulty !in allQuestions {
        return Fail(UnknownDifficulty(difficulty));
      }
      questions := allQuestions[difficulty];
      currentQuestionIndex := 0;
      score := 0;
      hasAnswered := false;
      pendingDisplays := pendingDisplays + 1;
      result := Pass;
    }

    /**
     * displayQuestion: at or past the end of the list it finishes the quiz;
     * otherwise it shows the current question and releases the answer lock.
     */
    method DisplayQuestion() returns (screen: Screen)
      requires Valid() && pendingDisplays > 0 && |questions| > 0
      modifies this`hasAnswered, this`pendingDisplays
      ensures Valid()
      ensures State() == Step(old(State()), Display)
      ensures pendingDisplays == old(pendingDisplays) - 1
      ensures currentQuestionIndex >= |questions| ==>
                hasAnswered == old(hasAnswered) && screen == FinishQuiz(score, |questions|)
      ensures currentQuestionIndex < |questions| ==>
                && !hasAnswered
                && screen.QuestionShown?
                && screen.question == questions[currentQuestionIndex]
                && screen.progress == Progress(currentQuestionIndex, |questions|)
                && 0.0 < screen.progress <= 100.0
                && screen.scoreLabel == Animations.ScoreLabel(score, currentQuestionIndex)
    {
      pendingDisplays := pendingDisplays - 1;
      if currentQuestionIndex >= |questions| {
        screen := FinishQuiz(score, |questions|);
        return;
      }
      hasAnswered := false;
      screen := QuestionShown(
        questions[currentQuestionIndex],
        Progress(currentQuestionIndex, |questions|),
        Animations.ScoreLabel(score, currentQuestionIndex));
    }

    /**
     * selectAnswer: ignored once the question is answered; otherwise locks the
     * answer and scores one point exactly when the chosen option is the right one.
     * A click past the lock needs a current question; while a display is still
     * pending it must also find fewer points than positions passed (the guard of
     * `Guarded`), which excludes a click before the first display of a quiz.
     */
    method SelectAnswer(answerIndex: int) returns (answer: Answer)
      requires Valid()
      requires !hasAnswered ==> currentQuestionIndex < |questions|
      requires !hasAnswered && pendingDisplays > 0 ==> score < currentQuestionIndex
      modifies this`score, this`hasAnswered
      ensures Valid() && hasAnswered
      ensures State() == Step(old(State()), Click(answerIndex))
      ensures currentQuestionIndex == old(currentQuestionIndex) && questions == old(questions)
      ensures old(hasAnswered) ==> answer == Ignored && score == old(score)
      ensures !old(hasAnswered) && answerIndex == questions[currentQuestionIndex].correct ==>
                answer == Correct && score == old(score) + 1
      ensures !old(hasAnswered) && answerIndex != questions[currentQuestionIndex].correct ==>
                answer == Incorrect(questions[currentQuestionIndex].correct) && score == old(score)
    {
      if hasAnswered {
        return Ignored;
      }
      hasAnswered := true;
      var correctIndex := questions[currentQuestionIndex].correct;
      if answerIndex == correctIndex {
        score := score + 1;
        answer := Correct;
      } else {
        answer := Incorrect(correctIndex);
      }
    }

    /** nextQuestion: moves to the next position, with no check of the lock, and schedules a display. */
    method NextQuestion()
      requires Valid()
      modifies this`currentQuestionIndex, this`pendingDisplays
      ensures Valid()
      ensures currentQuestionIndex == old(currentQuestionIndex) + 1
      ensures pendingDisplays == old(pendingDisplays) + 1
      ensures score == old(score) && hasAnswered == old(hasAnswered) && questions == old(questions)
      ensures State() == Step(old(State()), Next)
    {
      currentQuestionIndex := currentQuestionIndex + 1;
      pendingDisplays := pendingDisplays + 1;
    }

    /** restartQuiz: resets the counters over the same list and schedules the first display. */
    method RestartQuiz()
      requires Valid()
      modifies this`currentQuestionIndex, this`score, this`hasAnswered, this`pendingDisplays
      ensures Valid()
      ensures questions == old(questions)
      ensures currentQuestionIndex == 0 && score == 0 && !hasAnswered
      ensures pendingDisplays == old(pendingDisplays) + 1
      ensures State() == Step(old(State()), Restart)
    {
      currentQuestionIndex := 0;
      score := 0;
      hasAnswered := false;
      pendingDisplays := pendingDisplays + 1;
    }
  }
}
