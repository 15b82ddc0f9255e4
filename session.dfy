/**
 * The quiz page: the script's global variables as the fields of one object,
 * and the handlers that change them (page load, starting a quiz, showing a
 * question, selecting an answer, the Next button, the delayed advance, the
 * result screen and the progress update).
 *
 * The 1500 ms `setTimeout` in `nextQuestion` is modelled as a counter of
 * scheduled callbacks (`pendingAdvances`) and an explicit `Advance` step that
 * fires one of them. Each shuffle takes its random draws as a parameter.
 *
 * Three handlers come in two versions. `StartQuiz`, `SelectAnswer` and
 * `NextQuestion` do what the script does; `StartQuizIntended`,
 * `SelectAnswerIntended` and `NextQuestionIntended` do what it evidently means
 * to do (a new quiz drops stale callbacks; the selection reaches
 * `nextQuestion`; an answer is committed once). The client methods at the end
 * show the difference.
 */
module Session {
  import opened Optional
  import opened Scoring
  import opened Progress
  import opened Generator

  /** What the result screen shows. */
  datatype ResultView = ResultView(score: nat, total: nat, percentage: Percentage,
                                   feedback: Feedback, tone: Tone, colour: Colour)

  /** JavaScript truthiness of the selection: `null` and `""` are falsy. */
  predicate Truthy(answer: Option<string>) {
    answer.Some? && answer.value != ""
  }

  class QuizPage {
    /** `vocabularyData.levels`, loaded once. */
    const levels: seq<Level>
    var userProgress: Table
    var currentLevel: int
    var currentQuiz: seq<WordPair>
    var currentQuestionIndex: nat
    var score: nat
    /** The script-level binding `selectedAnswer`, the one `nextQuestion` reads. */
    var selectedAnswer: Option<string>
    /** The property `window.selectedAnswer`, which `this.selectedAnswer = ...` writes. */
    var windowSelectedAnswer: Option<string>
    var isAnswered: bool
    /** The answer options on screen. */
    var options: seq<string>
    /** Whether the Next button is enabled. */
    var nextEnabled: bool
    /** Advance callbacks scheduled by `nextQuestion` that have not fired yet. */
    var pendingAdvances: nat
    /** What the result screen shows, once a quiz has ended. */
    var result: Option<ResultView>

    /** The score never runs ahead of the questions answered so far. */
    ghost predicate Valid()
      reads this
    {
      && score <= |currentQuiz|
      && score <= currentQuestionIndex + (if isAnswered then 1 else 0)
    }

    /** The state `showQuestion` leaves when it shows question `currentQuestionIndex`. */
    ghost predicate Presenting()
      reads this
    {
      && currentQuestionIndex < |currentQuiz|
      && !isAnswered && selectedAnswer.None? && !nextEnabled
      && var correct := currentQuiz[currentQuestionIndex].korean;
         && |options| <= 4
         && multiset(options)[correct] == 1
         && forall x :: x in options && x != correct ==> x in Translations(AllWords(levels))
    }

    /** The state `showResults` leaves, given the progress table it started from. */
    ghost predicate ResultsShown(before: Table)
      reads this
    {
      var percentage := PercentageOf(score, |currentQuiz|);
      var feedback := FeedbackFor(percentage);
      && result == Some(ResultView(score, |currentQuiz|, percentage, feedback, ToneOf(feedback), ColourFor(percentage)))
      && userProgress == RecordAttempt(before, currentLevel, score, IsPass(percentage))
    }

    /** Page load: the globals' initial values, then `loadProgress` from the saved table, if any. */
    constructor (vocabulary: seq<Level>, saved: Option<Table>)
      ensures Valid()
      ensures levels == vocabulary
      ensures saved.Some? ==> userProgress == saved.value
      ensures saved.None? ==> userProgress == DefaultTable()
      ensures currentLevel == 1 && currentQuiz == [] && currentQuestionIndex == 0 && score == 0
      ensures selectedAnswer.None? && windowSelectedAnswer.None? && !isAnswered
      ensures options == [] && !nextEnabled && pendingAdvances == 0 && result.None?
    {
      levels := vocabulary;
      userProgress := map[];
      currentLevel := 1;
      currentQuiz := [];
      currentQuestionIndex := 0;
      score := 0;
      selectedAnswer := None;
      windowSelectedAnswer := None;
      isAnswered := false;
      options := [];
      nextEnabled := false;
      pendingAdvances := 0;
      result := None;
      new;
      LoadProgress(saved);
    }

    /** `loadProgress`: the saved table, or blank records for levels 1 to 20. */
    method LoadProgress(saved: Option<Table>)
      modifies this`userProgress
      ensures saved.Some? ==> userProgress == saved.value
      ensures saved.None? ==> userProgress == DefaultTable()
    {
      if saved.Some? {
        userProgress := saved.value;
      } else {
        userProgress := map[];
        var i := 1;
        while i <= LevelCount
          invariant 1 <= i <= LevelCount + 1
          invariant userProgress == BlankLevels(i - 1)
        {
          userProgress := userProgress[i := Blank];
          i := i + 1;
        }
      }
    }

    /** `updateUserProgress`: fold a finished quiz into the level's record, creating it if missing. */
    method UpdateUserProgress(level: int, score: nat, passed: bool)
      modifies this`userProgress
      ensures userProgress == RecordAttempt(old(userProgress), level, score, passed)
    {
      if level !in userProgress {
        userProgress := userProgress[level := Blank];
      }
      var p := userProgress[level];
      p := p.(attempts := p.attempts + 1);
      p := p.(totalCorrect := p.totalCorrect + score);
      if score > p.bestScore {
        p := p.(bestScore := score);
      }
      if passed && !p.completed {
        p := p.(completed := true);
      }
      userProgress := userProgress[level := p];
    }

    /** `showResults`: the percentage, message and colour, then the progress update. */
    method ShowResults()
      modifies this`result, this`userProgress
      ensures ResultsShown(old(userProgress))
    {
      var percentage := PercentageOf(score, |currentQuiz|);
      var feedback := FeedbackFor(percentage);
      result := Some(ResultView(score, |currentQuiz|, percentage, feedback, ToneOf(feedback), ColourFor(percentage)));
      UpdateUserProgress(currentLevel, score, IsPass(percentage));
    }

    /**
     * `showQuestion`: past the last question, the results; otherwise reset the
     * answer state, build the options of the current word and disable Next.
     */
    method ShowQuestion(wrongDraw: nat -> nat, optionDraw: nat -> nat)
      modifies this`isAnswered, this`selectedAnswer, this`options, this`nextEnabled, this`result, this`userProgress
      ensures old(Valid()) && score <= currentQuestionIndex ==> Valid()
      ensures currentQuestionIndex < |currentQuiz| ==>
        Presenting() && result == old(result) && userProgress == old(userProgress)
      ensures currentQuestionIndex >= |currentQuiz| ==>
        && ResultsShown(old(userProgress))
        && isAnswered == old(isAnswered) && selectedAnswer == old(selectedAnswer)
        && options == old(options) && nextEnabled == old(nextEnabled)
    {
      if currentQuestionIndex >= |currentQuiz| {
        ShowResults();
        return;
      }
      var currentWord := currentQuiz[currentQuestionIndex];
      isAnswered := false;
      selectedAnswer := None;
      options := BuildAnswerOptions(levels, currentWord, wrongDraw, optionDraw);
      nextEnabled := false;
    }

    /**
     * `startQuiz`: remember the level; if it exists, build its quiz, reset the
     * index and the score and show the first question. Callbacks still pending
     * from an earlier quiz are not cancelled.
     */
    method StartQuiz(levelNumber: int, poolDraw: nat -> nat, wrongDraw: nat -> nat, optionDraw: nat -> nat)
      modifies this`currentLevel, this`currentQuiz, this`currentQuestionIndex, this`score,
               this`isAnswered, this`selectedAnswer, this`options, this`nextEnabled, this`result, this`userProgress
      ensures old(Valid()) ==> Valid()
      ensures currentLevel == levelNumber
      ensures FindLevel(levels, levelNumber).None? ==>
        && currentQuiz == old(currentQuiz) && currentQuestionIndex == old(currentQuestionIndex)
        && score == old(score) && isAnswered == old(isAnswered) && selectedAnswer == old(selectedAnswer)
        && options == old(options) && nextEnabled == old(nextEnabled)
        && result == old(result) && userProgress == old(userProgress)
      ensures FindLevel(levels, levelNumber).Some? ==>
        && |currentQuiz| == Min(QuestionLimit, |QuizPool(levels, levelNumber)|)
        && multiset(currentQuiz) <= multiset(QuizPool(levels, levelNumber))
        && currentQuestionIndex == 0 && score == 0
        && (currentQuiz != [] ==> Presenting() && result == old(result) && userProgress == old(userProgress))
        && (currentQuiz == [] ==>
              && ResultsShown(old(userProgress))
              && isAnswered == old(isAnswered) && selectedAnswer == old(selectedAnswer)
              && options == old(options) && nextEnabled == old(nextEnabled))
    {
      currentLevel := levelNumber;
      var levelData := FindLevel(levels, levelNumber);
      if levelData.None? {
        return;
      }
      currentQuiz := BuildQuiz(levels, levelNumber, levelData.value, poolDraw);
      currentQuestionIndex := 0;
      score := 0;
      ShowQuestion(wrongDraw, optionDraw);
    }

    /**
     * `startQuiz` as intended: the same, and starting a quiz on an existing
     * level also drops the advance callbacks still pending from an earlier
     * quiz (as `clearTimeout` on them would).
     */
    method StartQuizIntended(levelNumber: int, poolDraw: nat -> nat, wrongDraw: nat -> nat, optionDraw: nat -> nat)
      modifies this`currentLevel, this`currentQuiz, this`currentQuestionIndex, this`score, this`pendingAdvances,
               this`isAnswered, this`selectedAnswer, this`options, this`nextEnabled, this`result, this`userProgress
      ensures old(Valid()) ==> Valid()
      ensures currentLevel == levelNumber
      ensures FindLevel(levels, levelNumber).None? ==>
        && currentQuiz == old(currentQuiz) && currentQuestionIndex == old(currentQuestionIndex)
        && score == old(score) && isAnswered == old(isAnswered) && selectedAnswer == old(selectedAnswer)
        && options == old(options) && nextEnabled == old(nextEnabled)
        && result == old(result) && userProgress == old(userProgress)
        && pendingAdvances == old(pendingAdvances)
      ensures FindLevel(levels, levelNumber).Some? ==>
        && |currentQuiz| == Min(QuestionLimit, |QuizPool(levels, levelNumber)|)
        && multiset(currentQuiz) <= multiset(QuizPool(levels, levelNumber))
        && currentQuestionIndex == 0 && score == 0 && pendingAdvances == 0
        && (currentQuiz != [] ==> Presenting() && result == old(result) && userProgress == old(userProgress))
        && (currentQuiz == [] ==>
              && ResultsShown(old(userProgress))
              && isAnswered == old(isAnswered) && selectedAnswer == old(selectedAnswer)
              && options == old(options) && nextEnabled == old(nextEnabled))
    {
      StartQuiz(levelNumber, poolDraw, wrongDraw, optionDraw);
      if FindLevel(levels, levelNumber).Some? {
        pendingAdvances := 0;
      }
    }

    /**
     * `selectAnswer` as written: ignored once answered; otherwise it enables
     * Next and stores the answer through `this`, which in a plain function call
     * of a non-strict script is `window`. The binding `selectedAnswer` that
     * `nextQuestion` reads is left as it was.
     */
    method SelectAnswer(answer: string)
      modifies this`windowSelectedAnswer, this`nextEnabled
      ensures old(Valid()) ==> Valid()
      ensures old(isAnswered) ==> windowSelectedAnswer == old(windowSelectedAnswer) && nextEnabled == old(nextEnabled)
      ensures !isAnswered ==> windowSelectedAnswer == Some(answer) && nextEnabled
    {
      if isAnswered {
        return;
      }
      windowSelectedAnswer := Some(answer);
      nextEnabled := true;
    }

    /** `selectAnswer` as intended: the answer is stored in the binding `nextQuestion` reads. */
    method SelectAnswerIntended(answer: string)
      modifies this`selectedAnswer, this`nextEnabled
      ensures old(Valid()) ==> Valid()
      ensures old(isAnswered) ==> selectedAnswer == old(selectedAnswer) && nextEnabled == old(nextEnabled)
      ensures !isAnswered ==> selectedAnswer == Some(answer) && nextEnabled
    {
      if isAnswered {
        return;
      }
      selectedAnswer := Some(answer);
      nextEnabled := true;
    }

    /**
     * `nextQuestion` as written, reachable only while Next is enabled: without
     * a selection it does nothing; otherwise it scores the selection against
     * the current word, marks the question answered and schedules an advance.
     * It does not look at `isAnswered` and does not disable Next. Past the
     * last question the lookup of the current word throws before anything
     * changes.
     */
    method NextQuestion()
      requires nextEnabled
      modifies this`score, this`isAnswered, this`pendingAdvances
      ensures !Truthy(selectedAnswer) || currentQuestionIndex >= |currentQuiz| ==>
        score == old(score) && isAnswered == old(isAnswered) && pendingAdvances == old(pendingAdvances)
      ensures Truthy(selectedAnswer) && currentQuestionIndex < |currentQuiz| ==>
        && score == old(score) + (if selectedAnswer.value == currentQuiz[currentQuestionIndex].korean then 1 else 0)
        && isAnswered
        && pendingAdvances == old(pendingAdvances) + 1
    {
      if !Truthy(selectedAnswer) {
        return;
      }
      if currentQuestionIndex >= |currentQuiz| {
        return;
      }
      var correctAnswer := currentQuiz[currentQuestionIndex].korean;
      var isCorrect := selectedAnswer.value == correctAnswer;
      if isCorrect {
        score := score + 1;
      }
      isAnswered := true;
      pendingAdvances := pendingAdvances + 1;
    }

    /** `nextQuestion` as intended: a question already answered is not committed again. */
    method NextQuestionIntended()
      requires nextEnabled
      modifies this`score, this`isAnswered, this`pendingAdvances
      ensures old(Valid()) ==> Valid()
      ensures old(isAnswered) || !Truthy(selectedAnswer) || currentQuestionIndex >= |currentQuiz| ==>
        score == old(score) && isAnswered == old(isAnswered) && pendingAdvances == old(pendingAdvances)
      ensures !old(isAnswered) && Truthy(selectedAnswer) && currentQuestionIndex < |currentQuiz| ==>
        && score == old(score) + (if selectedAnswer.value == currentQuiz[currentQuestionIndex].korean then 1 else 0)
        && isAnswered
        && pendingAdvances == old(pendingAdvances) + 1
    {
      if isAnswered || !Truthy(selectedAnswer) {
        return;
      }
      if currentQuestionIndex >= |currentQuiz| {
        return;
      }
      var correctAnswer := currentQuiz[currentQuestionIndex].korean;
      var isCorrect := selectedAnswer.value == correctAnswer;
      if isCorrect {
        score := score + 1;
      }
      isAnswered := true;
      pendingAdvances := pendingAdvances + 1;
    }

    /** The scheduled callback fires: move to the next question and show it (or the results). */
    method Advance(wrongDraw: nat -> nat, optionDraw: nat -> nat)
      requires pendingAdvances > 0
      modifies this`currentQuestionIndex, this`pendingAdvances,
               this`isAnswered, this`selectedAnswer, this`options, this`nextEnabled, this`result, this`userProgress
      ensures old(Valid()) ==> Valid()
      ensures pendingAdvances == old(pendingAdvances) - 1
      ensures currentQuestionIndex == old(currentQuestionIndex) + 1
      ensures currentQuestionIndex < |currentQuiz| ==>
        Presenting() && result == old(result) && userProgress == old(userProgress)
      ensures currentQuestionIndex >= |currentQuiz| ==>
        && ResultsShown(old(userProgress))
        && isAnswered == old(isAnswered) && selectedAnswer == old(selectedAnswer)
        && options == old(options) && nextEnabled == old(nextEnabled)
    {
      pendingAdvances := pendingAdvances - 1;
      currentQuestionIndex := currentQuestionIndex + 1;
      ShowQuestion(wrongDraw, optionDraw);
    }
  }

  /**
   * As written, a selection never reaches `nextQuestion`: after selecting any
   * option and pressing Next, nothing is scored, nothing is scheduled, and
   * the question stays open, so the quiz never reaches its results.
   */
  method SelectionIsLost(page: QuizPage, answer: string)
    requires page.Presenting()
    modifies page
    ensures page.selectedAnswer.None? && !page.isAnswered
    ensures page.score == old(page.score) && page.pendingAdvances == old(page.pendingAdvances)
    ensures page.currentQuestionIndex == old(page.currentQuestionIndex)
  {
    page.SelectAnswer(answer);
    page.NextQuestion();
  }

  /** As intended, the selection is scored when Next is pressed, and the score bound holds. */
  method SelectionReachesCommit(page: QuizPage, answer: string)
    requires page.Valid() && page.Presenting() && answer != ""
    modifies page
    ensures page.Valid() && page.isAnswered
    ensures page.currentQuiz == old(page.currentQuiz) && page.currentQuestionIndex == old(page.currentQuestionIndex)
    ensures page.pendingAdvances == old(page.pendingAdvances) + 1
    ensures page.score == old(page.score) + (if answer == page.currentQuiz[page.currentQuestionIndex].korean then 1 else 0)
  {
    page.SelectAnswerIntended(answer);
    page.NextQuestionIntended();
  }

  /**
   * With the selection fixed but `nextQuestion` as written, pressing Next twice
   * before the callback fires scores the correct answer twice and schedules two
   * advances. When every earlier answer was right, the score then exceeds the
   * questions answered.
   */
  method DoubleCommit(page: QuizPage)
    requires page.Valid() && page.Presenting()
    requires page.currentQuiz[page.currentQuestionIndex].korean != ""
    modifies page
    ensures page.score == old(page.score) + 2
    ensures page.pendingAdvances == old(page.pendingAdvances) + 2
    ensures old(page.score) == page.currentQuestionIndex ==> !page.Valid()
  {
    var correct := page.currentQuiz[page.currentQuestionIndex].korean;
    page.SelectAnswerIntended(correct);
    page.NextQuestion();
    page.NextQuestion();
  }

  /**
   * The same double press on the last question: both callbacks fire, each
   * reaches the results, and the attempt is recorded twice.
   */
  method DoubleCommitOnLastQuestion(page: QuizPage, wrongDraw: nat -> nat, optionDraw: nat -> nat)
    requires page.Valid() && page.Presenting()
    requires page.currentQuestionIndex == |page.currentQuiz| - 1
    requires page.currentQuiz[page.currentQuestionIndex].korean != ""
    modifies page
    ensures page.currentLevel == old(page.currentLevel)
    ensures EntryOf(page.userProgress, page.currentLevel).attempts
         == EntryOf(old(page.userProgress), page.currentLevel).attempts + 2
  {
    var correct := page.currentQuiz[page.currentQuestionIndex].korean;
    page.SelectAnswerIntended(correct);
    page.NextQuestion();
    page.NextQuestion();
    page.Advance(wrongDraw, optionDraw);
    page.Advance(wrongDraw, optionDraw);
  }

  /** With the intended guard, a second press of Next changes nothing. */
  method GuardedDoubleCommit(page: QuizPage)
    requires page.Valid() && page.Presenting()
    requires page.currentQuiz[page.currentQuestionIndex].korean != ""
    modifies page
    ensures page.score == old(page.score) + 1
    ensures page.pendingAdvances == old(page.pendingAdvances) + 1
    ensures page.Valid()
  {
    var correct := page.currentQuiz[page.currentQuestionIndex].korean;
    page.SelectAnswerIntended(correct);
    page.NextQuestionIntended();
    page.NextQuestionIntended();
  }

  /**
   * As intended, answering the last question and letting the callback fire
   * shows the results and records the attempt, with a percentage of at most 100.
   */
  method FinishQuiz(page: QuizPage, answer: string, wrongDraw: nat -> nat, optionDraw: nat -> nat)
    requires page.Valid() && page.Presenting() && answer != ""
    requires page.currentQuestionIndex == |page.currentQuiz| - 1
    modifies page
    ensures page.ResultsShown(old(page.userProgress))
    ensures page.result.Some? && page.result.value.percentage.Percent? && page.result.value.percentage.value <= 100
    ensures page.userProgress[page.currentLevel].attempts == EntryOf(old(page.userProgress), page.currentLevel).attempts + 1
  {
    page.SelectAnswerIntended(answer);
    page.NextQuestionIntended();
    page.Advance(wrongDraw, optionDraw);
  }

  /**
   * As written, an advance still pending when a new quiz starts (Next was
   * pressed, then the quiz was restarted within 1.5 s) fires into the new
   * quiz: its first question is skipped unanswered and unscored.
   */
  method StaleAdvanceSkipsFirstQuestion(page: QuizPage, levelNumber: int,
                                        poolDraw: nat -> nat, wrongDraw: nat -> nat, optionDraw: nat -> nat)
    requires page.pendingAdvances > 0
    requires FindLevel(page.levels, levelNumber).Some? && |QuizPool(page.levels, levelNumber)| >= 2
    modifies page
    ensures page.currentQuestionIndex == 1 && page.score == 0 && page.Presenting()
  {
    page.StartQuiz(levelNumber, poolDraw, wrongDraw, optionDraw);
    page.Advance(wrongDraw, optionDraw);
  }

  /**
   * As intended, a restart drops the stale advance: the new quiz waits on its
   * first question, and only answering it moves on, scoring that answer.
   */
  method FreshQuizAnswersFirstQuestion(page: QuizPage, levelNumber: int, answer: string,
                                       poolDraw: nat -> nat, wrongDraw: nat -> nat, optionDraw: nat -> nat)
    requires page.pendingAdvances > 0 && answer != ""
    requires FindLevel(page.levels, levelNumber).Some? && |QuizPool(page.levels, levelNumber)| >= 2
    modifies page
    ensures |page.currentQuiz| >= 2 && page.currentQuestionIndex == 1 && page.pendingAdvances == 0
    ensures page.score == (if answer == page.currentQuiz[0].korean then 1 else 0)
    ensures page.Valid() && page.Presenting()
  {
    page.StartQuizIntended(levelNumber, poolDraw, wrongDraw, optionDraw);
    assert page.pendingAdvances == 0 && page.currentQuestionIndex == 0 && page.Presenting();
    page.SelectAnswerIntended(answer);
    page.NextQuestionIntended();
    page.Advance(wrongDraw, optionDraw);
  }
}
