/**
 * The quiz page, scripts/pages/quiz-script.js: five questions answered one
 * after another, a score of 100 per correct answer, a results screen with a
 * medal and a statistics record kept between visits.
 */
module Quiz {
  import opened Prelude

  /** A question as the page uses it: its category, how many options it offers and the index of the right one. */
  datatype Question = Question(category: string, options: nat, correct: nat)

  /** The five questions of loadQuestions, in order. */
  const Questions: seq<Question> := [
    Question("Personal Experience", 4, 1),
    Question("Family Protection", 4, 0),
    Question("Elderly Impact", 4, 1),
    Question("Personal Action", 4, 1),
    Question("Global Awareness", 4, 2)
  ]

  /** Every question's right answer is one of its options. */
  lemma QuestionsWellFormed()
    ensures |Questions| == 5
    ensures forall i :: 0 <= i < |Questions| ==> Questions[i].correct < Questions[i].options
    ensures Questions[0].correct == 1 && Questions[1].correct == 0 && Questions[2].correct == 1 &&
      Questions[3].correct == 1 && Questions[4].correct == 2
  {
  }

  datatype Medal = Gold | Silver | Bronze | Student

  /** calculateMedal: Gold from 90%, Silver from 70%, Bronze from 50%, Student below. */
  function CalculateMedal(accuracy: int): (m: Medal)
    ensures m == Gold <==> accuracy >= 90
    ensures m == Silver <==> 70 <= accuracy < 90
    ensures m == Bronze <==> 50 <= accuracy < 70
    ensures m == Student <==> accuracy < 50
  {
    if accuracy >= 90 then Gold
    else if accuracy >= 70 then Silver
    else if accuracy >= 50 then Bronze
    else Student
  }

  /** The rank of a medal, Student lowest. */
  function Rank(m: Medal): nat
  {
    match m
    case Student => 0
    case Bronze => 1
    case Silver => 2
    case Gold => 3
  }

  /** A higher accuracy never earns a lower medal. */
  lemma MedalMonotone(a: int, b: int)
    requires a <= b
    ensures Rank(CalculateMedal(a)) <= Rank(CalculateMedal(b))
  {
  }

  /** `validCorrectAnswers`: the count of correct answers clamped to [0, n]. */
  function ValidCorrect(correctAnswers: int, n: nat): (v: int)
    ensures 0 <= v <= n
    ensures 0 <= correctAnswers <= n ==> v == correctAnswers
    ensures correctAnswers < 0 ==> v == 0
    ensures correctAnswers > n ==> v == n
  {
    if correctAnswers < 0 then 0 else if correctAnswers > n then n else correctAnswers
  }

  /** The accuracy in percent, `Math.round(valid / n * 100)`, and 0 without questions. */
  function Accuracy(valid: int, n: nat): (a: int)
    ensures n == 0 ==> a == 0
  {
    if n > 0 then Round(valid as real / n as real * 100.0) else 0
  }

  /** For valid counts the accuracy is a percentage, 0 for none right, 100 for all, and it grows with the count. */
  lemma AccuracyProperties(v: int, w: int, n: nat)
    requires n > 0 && 0 <= v <= w <= n
    ensures 0 <= Accuracy(v, n) <= Accuracy(w, n) <= 100
    ensures v == 0 ==> Accuracy(v, n) == 0
    ensures w == n ==> Accuracy(w, n) == 100
  {
    var x, y := v as real / n as real, w as real / n as real;
    DivideBounds(w as real, n as real, 0.0, 1.0);
    DivideBounds(v as real, n as real, 0.0, y);
    assert 0.0 <= x * 100.0 <= y * 100.0 <= 100.0;
    if v == 0 {
      assert x == 0.0;
    }
    if w == n {
      DivideBounds(w as real, n as real, 1.0, 1.0);
    }
  }

  /** With the five questions each correct answer is worth 20 points of accuracy. */
  lemma AccuracyOfFive(c: int)
    requires 0 <= c <= 5
    ensures Accuracy(c, 5) == 20 * c
  {
    assert c as real / 5.0 * 100.0 == (20 * c) as real;
  }

  /** What the results screen shows. */
  datatype Results = Results(correct: int, accuracy: int, finalScore: int, medal: Medal)

  /** The figures of showResults for `correctAnswers` right out of `n`. */
  function ResultsFor(correctAnswers: int, n: nat): (r: Results)
    ensures r.correct == ValidCorrect(correctAnswers, n)
    ensures r.finalScore == 100 * r.correct
    ensures r.accuracy == Accuracy(r.correct, n)
    ensures r.medal == CalculateMedal(r.accuracy)
  {
    var v := ValidCorrect(correctAnswers, n);
    var a := Accuracy(v, n);
    Results(v, a, v * 100, CalculateMedal(a))
  }

  /** With five questions: all right is Gold, four Silver, three Bronze, fewer Student. */
  lemma MedalForFive(c: int)
    requires 0 <= c <= 5
    ensures ResultsFor(c, 5).finalScore == 100 * c
    ensures c == 5 ==> ResultsFor(c, 5).medal == Gold
    ensures c == 4 ==> ResultsFor(c, 5).medal == Silver
    ensures c == 3 ==> ResultsFor(c, 5).medal == Bronze
    ensures c <= 2 ==> ResultsFor(c, 5).medal == Student
  {
    AccuracyOfFive(c);
  }

  /** The `quizStats` record kept between visits. */
  datatype QuizStats = QuizStats(streak: int, bestScore: int, totalQuizzes: int)

  /** The record used when none was stored. */
  const NoStats := QuizStats(0, 0, 0)

  /**
   * getStats: one more quiz, the best score raised to `score` when beaten,
   * and the streak extended by a perfect quiz and reset by any other.
   */
  function GetStats(stored: QuizStats, score: int, correctAnswers: int, n: nat): (s: QuizStats)
    ensures s.totalQuizzes == stored.totalQuizzes + 1
    ensures s.bestScore >= stored.bestScore && s.bestScore >= score
    ensures s.bestScore == stored.bestScore || s.bestScore == score
    ensures correctAnswers == n ==> s.streak == stored.streak + 1
    ensures correctAnswers != n ==> s.streak == 0
  {
    QuizStats(if correctAnswers == n then stored.streak + 1 else 0,
      if score > stored.bestScore then score else stored.bestScore,
      stored.totalQuizzes + 1)
  }

  /** A finished quiz: its score and its count of correct answers. */
  datatype Outcome = Outcome(score: int, correct: int)

  /** The record after the quizzes of `runs`, in order. */
  function StatsAfter(stored: QuizStats, runs: seq<Outcome>, n: nat): QuizStats
  {
    if runs == [] then stored
    else
      var last := runs[|runs| - 1];
      GetStats(StatsAfter(stored, runs[..|runs| - 1], n), last.score, last.correct, n)
  }

  /** How many of the last quizzes in `runs` were perfect. */
  function PerfectTail(runs: seq<Outcome>, n: nat): (k: nat)
    ensures k <= |runs|
    ensures forall i :: |runs| - k <= i < |runs| ==> runs[i].correct == n
    ensures k < |runs| ==> runs[|runs| - 1 - k].correct != n
  {
    if runs == [] || runs[|runs| - 1].correct != n then 0
    else PerfectTail(runs[..|runs| - 1], n) + 1
  }

  /**
   * Over many visits the record counts every quiz, keeps the best score
   * ever reached, and its streak is the number of perfect quizzes since the
   * last imperfect one (added to the stored streak when there was none).
   */
  lemma {:induction false} StatsAfterRuns(stored: QuizStats, runs: seq<Outcome>, n: nat)
    ensures StatsAfter(stored, runs, n).totalQuizzes == stored.totalQuizzes + |runs|
    ensures StatsAfter(stored, runs, n).bestScore >= stored.bestScore
    ensures forall i :: 0 <= i < |runs| ==> StatsAfter(stored, runs, n).bestScore >= runs[i].score
    ensures PerfectTail(runs, n) == |runs| ==> StatsAfter(stored, runs, n).streak == stored.streak + |runs|
    ensures PerfectTail(runs, n) < |runs| ==> StatsAfter(stored, runs, n).streak == PerfectTail(runs, n)
  {
    if runs != [] {
      var init := runs[..|runs| - 1];
      StatsAfterRuns(stored, init, n);
      assert forall i :: 0 <= i < |init| ==> init[i] == runs[i];
    }
  }

  /**
   * The QuizApp object. `pendingAdvances` counts the continuations that
   * nextQuestion scheduled with setTimeout and that have not yet run;
   * `stats` is the stored record; `results` is what the results screen
   * shows once filled.
   */
  class QuizApp {
    var currentQuestion: nat
    var score: int
    var correctAnswers: int
    var selectedAnswer: Option<int>
    var quizCompleted: bool
    /** `next-btn.disabled`. */
    var nextDisabled: bool
    /** Whether the results screen is displayed instead of the question. */
    var onResults: bool
    var results: Option<Results>
    var stats: QuizStats
    var pendingAdvances: nat

    /**
     * What every operation keeps: the score is 100 per correct answer,
     * there are never more correct answers than questions, and a question
     * is open only while one remains.
     */
    predicate Valid()
      reads this
    {
      score == 100 * correctAnswers &&
      0 <= correctAnswers <= |Questions| &&
      correctAnswers <= currentQuestion + (if quizCompleted then 1 else 0) &&
      (!quizCompleted ==> currentQuestion < |Questions|)
    }

    /** new QuizApp(): questions loaded and the quiz started, with the stored record or the default one. */
    constructor(stored: Option<QuizStats>)
      ensures Valid()
      ensures currentQuestion == 0 && score == 0 && correctAnswers == 0 && selectedAnswer.None? && !quizCompleted
      ensures nextDisabled && !onResults && results.None? && pendingAdvances == 0
      ensures stats == (if stored.Some? then stored.value else NoStats)
    {
      currentQuestion := 0;
      score := 0;
      correctAnswers := 0;
      selectedAnswer := None;
      quizCompleted := false;
      nextDisabled := true;
      onResults := false;
      results := None;
      stats := if stored.Some? then stored.value else NoStats;
      pendingAdvances := 0;
    }

    /** startQuiz: back to the first question with nothing scored. */
    method StartQuiz()
      modifies this
      ensures Valid()
      ensures currentQuestion == 0 && score == 0 && correctAnswers == 0 && selectedAnswer.None? && !quizCompleted
      ensures nextDisabled
      ensures onResults == old(onResults) && results == old(results) && stats == old(stats) &&
        pendingAdvances == old(pendingAdvances)
    {
      currentQuestion := 0;
      score := 0;
      correctAnswers := 0;
      quizCompleted := false;
      selectedAnswer := None;
      ShowQuestion();
    }

    /** restartQuiz: the results screen is hidden and the quiz starts again. */
    method RestartQuiz()
      modifies this
      ensures Valid()
      ensures currentQuestion == 0 && score == 0 && correctAnswers == 0 && selectedAnswer.None? && !quizCompleted
      ensures nextDisabled && !onResults
      ensures results == old(results) && stats == old(stats) && pendingAdvances == old(pendingAdvances)
    {
      onResults := false;
      StartQuiz();
    }

    /**
     * showQuestion: past the last question the results are shown;
     * otherwise the selection is cleared and the question opened.
     */
    method ShowQuestion()
      requires score == 100 * correctAnswers && 0 <= correctAnswers <= |Questions|
      requires correctAnswers <= currentQuestion
      modifies this
      ensures Valid()
      ensures currentQuestion == old(currentQuestion) && score == old(score) &&
        correctAnswers == old(correctAnswers) && pendingAdvances == old(pendingAdvances)
      ensures old(currentQuestion) >= |Questions| ==> (quizCompleted && onResults &&
        selectedAnswer == old(selectedAnswer) && nextDisabled == old(nextDisabled) &&
        results == Some(ResultsFor(correctAnswers, |Questions|)) &&
        stats == GetStats(old(stats), score, correctAnswers, |Questions|))
      ensures old(currentQuestion) < |Questions| ==> (!quizCompleted && selectedAnswer.None? && nextDisabled &&
        onResults == old(onResults) && results == old(results) && stats == old(stats))
    {
      if currentQuestion >= |Questions| {
        ShowResults();
        return;
      }
      selectedAnswer := None;
      quizCompleted := false;
      nextDisabled := true;
    }

    /** selectAnswer: the option becomes the selection and Next follows it. */
    method SelectAnswer(answerIndex: int)
      requires Valid()
      modifies this
      ensures Valid()
      ensures selectedAnswer == Some(answerIndex) && nextDisabled == quizCompleted
      ensures currentQuestion == old(currentQuestion) && score == old(score) &&
        correctAnswers == old(correctAnswers) && quizCompleted == old(quizCompleted)
      ensures onResults == old(onResults) && results == old(results) && stats == old(stats) &&
        pendingAdvances == old(pendingAdvances)
    {
      selectedAnswer := Some(answerIndex);
      nextDisabled := quizCompleted;
    }

    /**
     * nextQuestion: ignored without a selection or once the answer was
     * taken; otherwise the answer is taken at once, scored when it is the
     * right one, and the move to the next question is scheduled.
     */
    method NextQuestion() returns (isCorrect: bool)
      requires Valid()
      modifies this
      ensures Valid()
      ensures old(selectedAnswer).None? || old(quizCompleted) ==>
        !isCorrect && quizCompleted == old(quizCompleted) && correctAnswers == old(correctAnswers) &&
        pendingAdvances == old(pendingAdvances)
      ensures old(selectedAnswer).Some? && !old(quizCompleted) ==>
        quizCompleted && pendingAdvances == old(pendingAdvances) + 1 &&
        (isCorrect <==> old(selectedAnswer).value == Questions[old(currentQuestion)].correct) &&
        correctAnswers == old(correctAnswers) + (if isCorrect then 1 else 0)
      ensures currentQuestion == old(currentQuestion) && selectedAnswer == old(selectedAnswer) &&
        nextDisabled == old(nextDisabled)
      ensures onResults == old(onResults) && results == old(results) && stats == old(stats)
    {
      if selectedAnswer.None? || quizCompleted {
        return false;
      }
      quizCompleted := true;
      isCorrect := selectedAnswer.value == Questions[currentQuestion].correct;
      if isCorrect {
        correctAnswers := correctAnswers + 1;
        score := score + 100;
      }
      pendingAdvances := pendingAdvances + 1;
    }

    /**
     * The continuation nextQuestion scheduled, run 1.5 s later: the next
     * question is opened, or the results shown after the last one.
     */
    method AdvanceAfterFeedback()
      requires Valid() && pendingAdvances > 0
      modifies this
      ensures Valid()
      ensures pendingAdvances == old(pendingAdvances) - 1
      ensures currentQuestion == old(currentQuestion) + 1 && correctAnswers == old(correctAnswers)
      ensures currentQuestion < |Questions| ==> !quizCompleted && selectedAnswer.None? && stats == old(stats)
      ensures currentQuestion >= |Questions| ==> (quizCompleted && onResults &&
        results == Some(ResultsFor(correctAnswers, |Questions|)) &&
        stats == GetStats(old(stats), score, correctAnswers, |Questions|))
    {
      pendingAdvances := pendingAdvances - 1;
      currentQuestion := currentQuestion + 1;
      quizCompleted := false;
      ShowQuestion();
    }

    /**
     * skipQuestion: the next question is opened (or the results shown)
     * whatever the selection, even while an answer's continuation is
     * pending.
     */
    method SkipQuestion()
      requires Valid()
      modifies this
      ensures Valid()
      ensures currentQuestion == old(currentQuestion) + 1 && correctAnswers == old(correctAnswers) &&
        pendingAdvances == old(pendingAdvances)
      ensures currentQuestion < |Questions| ==> !quizCompleted && selectedAnswer.None? && stats == old(stats)
      ensures currentQuestion >= |Questions| ==> (quizCompleted && onResults &&
        results == Some(ResultsFor(correctAnswers, |Questions|)) &&
        stats == GetStats(old(stats), score, correctAnswers, |Questions|))
    {
      currentQuestion := currentQuestion + 1;
      ShowQuestion();
    }

    /** showResults: the quiz is closed, the figures shown and the record updated. */
    method ShowResults()
      requires score == 100 * correctAnswers && 0 <= correctAnswers <= |Questions|
      requires correctAnswers <= currentQuestion
      modifies this
      ensures Valid()
      ensures quizCompleted && onResults
      ensures results == Some(ResultsFor(correctAnswers, |Questions|))
      ensures stats == GetStats(old(stats), score, correctAnswers, |Questions|)
      ensures currentQuestion == old(currentQuestion) && score == old(score) && correctAnswers == old(correctAnswers) &&
        selectedAnswer == old(selectedAnswer) && nextDisabled == old(nextDisabled) &&
        pendingAdvances == old(pendingAdvances)
    {
      quizCompleted := true;
      results := Some(ResultsFor(correctAnswers, |Questions|));
      stats := GetStats(stats, score, correctAnswers, |Questions|);
      onResults := true;
    }
  }

  /**
   * Under the object's invariant the clamp in showResults never changes
   * the count, and the final score shown is the running score.
   */
  lemma ResultsMatchRunningScore(score: int, correctAnswers: int)
    requires score == 100 * correctAnswers && 0 <= correctAnswers <= |Questions|
    ensures ResultsFor(correctAnswers, |Questions|).correct == correctAnswers
    ensures ResultsFor(correctAnswers, |Questions|).finalScore == score
    ensures ResultsFor(correctAnswers, |Questions|).accuracy == 20 * correctAnswers
  {
    AccuracyOfFive(correctAnswers);
  }
}
