/**
 * The game logic of the quiz screen (components/Quiz.tsx): starting a
 * classic, worship or AI quiz, answering, advancing and the win rule. The
 * component's state variables are the fields of `QuizGame`; each handler is
 * a method. Ghost fields count the answers given, so that the score and
 * lives can be tied to them.
 */
module Quiz {
  import opened Wrappers
  import Shuffle

  /** A question of the classic or AI quiz; only the index of the right option matters here. */
  datatype QuizQuestion = QuizQuestion(question: string, options: seq<string>, answerIndex: int)

  /** A worship question: it may carry its own points. */
  datatype WorshipQuiz = WorshipQuiz(question: string, options: seq<string>, answerIndex: int, points: Option<int>)

  datatype Mode = Selection | Playing | WorshipMode
  datatype QuizType = Classic | Ai | Worship

  const QUESTIONS_PER_QUIZ := 10
  const START_LIVES := 3
  const POINTS_PER_ANSWER := 10
  const WIN_POINTS_PER_QUESTION := 5

  /** `q.points || 10`: a missing or zero points value counts as 10. */
  function Points(q: WorshipQuiz): (p: int)
    ensures p != 0
    ensures q.points.Some? && q.points.value != 0 ==> p == q.points.value
    ensures q.points.None? || q.points.value == 0 ==> p == POINTS_PER_ANSWER
  {
    if q.points.Some? && q.points.value != 0 then q.points.value else POINTS_PER_ANSWER
  }

  class QuizGame {
    var mode: Mode
    var quizType: QuizType
    var questions: seq<QuizQuestion>
    var worshipQuestions: seq<WorshipQuiz>
    var currentIndex: int
    var score: int
    var lives: int
    var selectedOption: Option<int>
    var showExplanation: bool
    var finished: bool
    /** The answers accepted since the last reset, and how many of them were right and wrong. */
    ghost var correct: nat
    ghost var wrong: nat

    /**
     * Lives start at 3 and each wrong answer costs one, so they stay in
     * [0, 3]; outside worship quizzes every right answer is worth 10; at most
     * one answer is accepted per question reached.
     */
    ghost predicate Valid()
      reads this
    {
      && 0 <= currentIndex
      && 0 <= lives == START_LIVES - wrong
      && (quizType != Worship ==> score == POINTS_PER_ANSWER * correct)
      && correct + wrong <= currentIndex + (if selectedOption.Some? then 1 else 0)
      && (selectedOption.Some? <==> showExplanation)
    }

    constructor()
      ensures mode == Selection && quizType == Classic && questions == [] && worshipQuestions == []
      ensures currentIndex == 0 && score == 0 && lives == START_LIVES
      ensures selectedOption == None && !showExplanation && !finished
      ensures Valid()
    {
      mode := Selection;
      quizType := Classic;
      questions := [];
      worshipQuestions := [];
      currentIndex := 0;
      score := 0;
      lives := START_LIVES;
      selectedOption := None;
      showExplanation := false;
      finished := false;
      correct := 0;
      wrong := 0;
    }

    /** `resetGameState`: first question, no points, three lives, nothing selected or shown, not finished. */
    method ResetGameState()
      modifies this
      ensures currentIndex == 0 && score == 0 && lives == START_LIVES
      ensures selectedOption == None && !showExplanation && !finished
      ensures correct == 0 && wrong == 0
      ensures mode == old(mode) && quizType == old(quizType)
      ensures questions == old(questions) && worshipQuestions == old(worshipQuestions)
      ensures Valid()
    {
      currentIndex := 0;
      score := 0;
      lives := START_LIVES;
      selectedOption := None;
      showExplanation := false;
      finished := false;
      correct := 0;
      wrong := 0;
    }

    /** `startClassicQuiz`: at most ten questions of a shuffled copy of the pool, from a fresh game. */
    method StartClassicQuiz(pool: seq<QuizQuestion>, shuffled: seq<QuizQuestion>)
      requires Shuffle.IsShuffleOf(shuffled, pool)
      modifies this
      ensures questions == Shuffle.TakeAtMost(shuffled, QUESTIONS_PER_QUIZ)
      ensures |questions| <= QUESTIONS_PER_QUIZ && multiset(questions) <= multiset(pool)
      ensures quizType == Classic && mode == Playing && worshipQuestions == old(worshipQuestions)
      ensures currentIndex == 0 && score == 0 && lives == START_LIVES
      ensures selectedOption == None && !showExplanation && !finished
      ensures Valid()
    {
      questions := Shuffle.TakeAtMost(shuffled, QUESTIONS_PER_QUIZ);
      Shuffle.TakeAtMostDraws(pool, shuffled, QUESTIONS_PER_QUIZ);
      ResetGameState();
      quizType := Classic;
      mode := Playing;
    }

    /** `startWorshipQuiz`: at most ten shuffled worship questions, from a fresh game. */
    method StartWorshipQuiz(pool: seq<WorshipQuiz>, shuffled: seq<WorshipQuiz>)
      requires Shuffle.IsShuffleOf(shuffled, pool)
      modifies this
      ensures worshipQuestions == Shuffle.TakeAtMost(shuffled, QUESTIONS_PER_QUIZ)
      ensures |worshipQuestions| <= QUESTIONS_PER_QUIZ && multiset(worshipQuestions) <= multiset(pool)
      ensures quizType == Worship && mode == WorshipMode && questions == old(questions)
      ensures currentIndex == 0 && score == 0 && lives == START_LIVES
      ensures selectedOption == None && !showExplanation && !finished
      ensures Valid()
    {
      worshipQuestions := Shuffle.TakeAtMost(shuffled, QUESTIONS_PER_QUIZ);
      Shuffle.TakeAtMostDraws(pool, shuffled, QUESTIONS_PER_QUIZ);
      ResetGameState();
      quizType := Worship;
      mode := WorshipMode;
    }

    /**
     * `startAIQuiz`: offline, or when the generated quiz is empty, the
     * classic quiz starts instead; otherwise the generated questions are
     * played as they are.
     */
    method StartAIQuiz(online: bool, aiQuestions: seq<QuizQuestion>, pool: seq<QuizQuestion>, shuffled: seq<QuizQuestion>)
      requires Shuffle.IsShuffleOf(shuffled, pool)
      modifies this
      ensures online && aiQuestions != [] ==> questions == aiQuestions && quizType == Ai
      ensures !(online && aiQuestions != []) ==> questions == Shuffle.TakeAtMost(shuffled, QUESTIONS_PER_QUIZ) && quizType == Classic
      ensures mode == Playing && worshipQuestions == old(worshipQuestions)
      ensures currentIndex == 0 && score == 0 && lives == START_LIVES
      ensures selectedOption == None && !showExplanation && !finished
      ensures Valid()
    {
      if !online {
        StartClassicQuiz(pool, shuffled);
        return;
      }
      if |aiQuestions| > 0 {
        questions := aiQuestions;
        ResetGameState();
        quizType := Ai;
        mode := Playing;
      } else {
        StartClassicQuiz(pool, shuffled);
      }
    }

    /** Whether an answer would be taken now: no explanation showing, lives left, nothing selected yet. */
    predicate AcceptsAnswer()
      reads this
    {
      !showExplanation && lives > 0 && selectedOption.None?
    }

    /**
     * `handleAnswer`: ignored unless an answer is accepted; otherwise the
     * option is selected, the explanation shown, and exactly one of score
     * (+10 for the right option) and lives (-1 otherwise) changes.
     */
    method HandleAnswer(idx: int)
      requires Valid() && currentIndex < |questions|
      modifies this
      ensures Valid()
      ensures currentIndex == old(currentIndex) && finished == old(finished) && mode == old(mode)
      ensures quizType == old(quizType) && questions == old(questions) && worshipQuestions == old(worshipQuestions)
      ensures !old(AcceptsAnswer()) ==> score == old(score) && lives == old(lives)
                                        && selectedOption == old(selectedOption) && showExplanation == old(showExplanation)
      ensures old(AcceptsAnswer()) ==> selectedOption == Some(idx) && showExplanation
      ensures old(AcceptsAnswer()) && idx == questions[currentIndex].answerIndex ==>
                score == old(score) + POINTS_PER_ANSWER && lives == old(lives)
      ensures old(AcceptsAnswer()) && idx != questions[currentIndex].answerIndex ==>
                score == old(score) && lives == old(lives) - 1
    {
      if showExplanation || lives <= 0 || selectedOption != None {
        return;
      }
      selectedOption := Some(idx);
      showExplanation := true;
      if idx == questions[currentIndex].answerIndex {
        score := score + POINTS_PER_ANSWER;
        correct := correct + 1;
      } else {
        lives := lives - 1;
        wrong := wrong + 1;
      }
    }

    /**
     * `handleWorshipAnswer`: as `HandleAnswer`, but a right answer earns the
     * question's own points (10 when it has none).
     */
    method HandleWorshipAnswer(idx: int)
      requires Valid() && currentIndex < |worshipQuestions| && quizType == Worship
      modifies this
      ensures Valid()
      ensures currentIndex == old(currentIndex) && finished == old(finished) && mode == old(mode)
      ensures quizType == old(quizType) && questions == old(questions) && worshipQuestions == old(worshipQuestions)
      ensures !old(AcceptsAnswer()) ==> score == old(score) && lives == old(lives)
                                        && selectedOption == old(selectedOption) && showExplanation == old(showExplanation)
      ensures old(AcceptsAnswer()) ==> selectedOption == Some(idx) && showExplanation
      ensures old(AcceptsAnswer()) && idx == worshipQuestions[currentIndex].answerIndex ==>
                score == old(score) + Points(worshipQuestions[currentIndex]) && lives == old(lives)
      ensures old(AcceptsAnswer()) && idx != worshipQuestions[currentIndex].answerIndex ==>
                score == old(score) && lives == old(lives) - 1
    {
      if showExplanation || lives <= 0 || selectedOption != None {
        return;
      }
      selectedOption := Some(idx);
      showExplanation := true;
      var q := worshipQuestions[currentIndex];
      var points := Points(q);
      if idx == q.answerIndex {
        score := score + points;
        correct := correct + 1;
      } else {
        lives := lives - 1;
        wrong := wrong + 1;
      }
    }

    /** The number of questions of the quiz being played. */
    function QuestionCount(): nat
      reads this
    {
      if quizType == Worship then |worshipQuestions| else |questions|
    }

    /**
     * `nextQuestion`: with a later question and lives left, the next one is
     * shown with nothing selected; otherwise the quiz is finished.
     */
    method NextQuestion()
      requires Valid()
      modifies this
      ensures Valid()
      ensures old(currentIndex < QuestionCount() - 1 && lives > 0) ==>
                currentIndex == old(currentIndex) + 1 && selectedOption == None && !showExplanation
                && finished == old(finished)
      ensures !old(currentIndex < QuestionCount() - 1 && lives > 0) ==>
                finished && currentIndex == old(currentIndex)
                && selectedOption == old(selectedOption) && showExplanation == old(showExplanation)
      ensures score == old(score) && lives == old(lives) && mode == old(mode) && quizType == old(quizType)
      ensures questions == old(questions) && worshipQuestions == old(worshipQuestions)
    {
      if quizType == Worship {
        if currentIndex < |worshipQuestions| - 1 && lives > 0 {
          currentIndex := currentIndex + 1;
          selectedOption := None;
          showExplanation := false;
        } else {
          finished := true;
        }
      } else {
        if currentIndex < |questions| - 1 && lives > 0 {
          currentIndex := currentIndex + 1;
          selectedOption := None;
          showExplanation := false;
        } else {
          finished := true;
        }
      }
    }

    /** The result screen shows once the quiz is finished or the lives are gone. */
    predicate ShowsResult()
      reads this
    {
      finished || lives <= 0
    }

    /** The win rule: at least 5 points per question of the quiz played. */
    predicate IsWin()
      reads this
    {
      score >= QuestionCount() * WIN_POINTS_PER_QUESTION
    }

    /** Outside worship quizzes a game is won exactly when at least half the questions were answered right. */
    lemma WinMeansHalfRight()
      requires Valid() && quizType != Worship
      ensures IsWin() <==> 2 * correct >= |questions|
    {
    }

    /** Three wrong answers end the game, and no answer is taken after that. */
    lemma ThreeStrikes()
      requires Valid()
      ensures wrong <= START_LIVES
      ensures wrong == START_LIVES ==> ShowsResult() && !AcceptsAnswer()
    {
    }
  }
}
