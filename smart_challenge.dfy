/**
 * The smart challenge screen (components/SmartChallenge.tsx): ticking daily
 * missions on and off against the day's score, and the five-question quiz
 * with one accepted answer per question. The generated quiz and the shuffled
 * local pool are parameters; the per-day localStorage entries are the
 * initial values the constructor receives.
 */
module SmartChallenge {
  import opened Wrappers
  import Seqs
  import Shuffle
  import Quiz

  datatype View = Missions | QuizView

  const LOCAL_QUIZ_SIZE := 5
  const POINTS_PER_RIGHT_ANSWER := 10

  /** `Math.max(0, score - reward)`: the day's score after un-ticking a mission. */
  function Floored(score: int, reward: int): (r: int)
    ensures r >= 0 && r >= score - reward
    ensures r == score - reward || r == 0
  {
    if score - reward > 0 then score - reward else 0
  }

  /** Ticking a mission that was not ticked and un-ticking it restores the list and, from a score of at least 0, the score. */
  lemma TickUntick(completed: seq<string>, id: string, score: int, reward: int)
    requires id !in completed && score >= 0
    ensures Seqs.Without(completed + [id], id) == completed
    ensures Floored(score + reward, reward) == score
  {
    Seqs.WithoutAppended(completed, id);
  }

  /**
   * Un-ticking and re-ticking a mission keeps the set of ticked missions but
   * can raise the score: a reward larger than the score is floored at 0 and
   * then added back in full.
   */
  lemma UntickTick(score: int, reward: int)
    requires 0 <= score < reward
    ensures Floored(score, reward) + reward > score
  {
  }

  class ChallengeScreen {
    var view: View
    var questions: seq<Quiz.QuizQuestion>
    var currentIndex: int
    var score: int
    var selected: Option<int>
    var showExp: bool
    var completedMissions: seq<string>
    var dailyScore: int

    /** The quiz keeps its index on a question and shows an explanation exactly when an option is selected. */
    ghost predicate QuizValid()
      reads this
    {
      && 0 <= currentIndex
      && (questions != [] ==> currentIndex < |questions|)
      && (selected.Some? <==> showExp)
    }

    /** Opening on the missions view with the day's saved missions and score. */
    constructor(savedMissions: seq<string>, savedScore: int)
      ensures view == Missions && questions == [] && currentIndex == 0 && score == 0
      ensures selected == None && !showExp
      ensures completedMissions == savedMissions && dailyScore == savedScore
      ensures QuizValid()
    {
      view := Missions;
      questions := [];
      currentIndex := 0;
      score := 0;
      selected := None;
      showExp := false;
      completedMissions := savedMissions;
      dailyScore := savedScore;
    }

    /**
     * `toggleMissionCompletion(missionId, reward)`: a ticked mission is
     * removed and its reward taken off the score, never below 0; an unticked
     * one is appended and its reward added.
     */
    method ToggleMissionCompletion(missionId: string, reward: int)
      modifies this
      ensures missionId in old(completedMissions) ==>
                completedMissions == Seqs.Without(old(completedMissions), missionId)
                && dailyScore == Floored(old(dailyScore), reward)
      ensures missionId !in old(completedMissions) ==>
                completedMissions == old(completedMissions) + [missionId]
                && dailyScore == old(dailyScore) + reward
      ensures missionId in completedMissions <==> missionId !in old(completedMissions)
      ensures forall id :: id != missionId ==> (id in completedMissions <==> id in old(completedMissions))
      ensures Seqs.NoDuplicates(old(completedMissions)) ==> Seqs.NoDuplicates(completedMissions)
      ensures old(dailyScore) >= 0 && reward >= 0 ==> dailyScore >= 0
      ensures view == old(view) && questions == old(questions) && currentIndex == old(currentIndex)
      ensures score == old(score) && selected == old(selected) && showExp == old(showExp)
    {
      if missionId in completedMissions {
        if Seqs.NoDuplicates(completedMissions) {
          Seqs.WithoutNoDuplicates(completedMissions, missionId);
        }
        completedMissions := Seqs.Without(completedMissions, missionId);
        dailyScore := Floored(dailyScore, reward);
      } else {
        if Seqs.NoDuplicates(completedMissions) {
          Seqs.AppendNoDuplicates(completedMissions, missionId);
        }
        completedMissions := completedMissions + [missionId];
        dailyScore := dailyScore + reward;
      }
    }

    /**
     * Switching to the quiz view runs `loadQuiz`: offline, or when nothing
     * was generated, five questions of a shuffled copy of the local pool;
     * then the first question, no score and nothing selected. The effect
     * fires only when the view changes to the quiz; the method does not
     * require that, so calling it while the quiz is open reloads it.
     */
    method OpenQuiz(online: bool, generated: seq<Quiz.QuizQuestion>,
                    pool: seq<Quiz.QuizQuestion>, shuffled: seq<Quiz.QuizQuestion>)
      requires Shuffle.IsShuffleOf(shuffled, pool)
      modifies this
      ensures online && generated != [] ==> questions == generated
      ensures !(online && generated != []) ==> questions == Shuffle.TakeAtMost(shuffled, LOCAL_QUIZ_SIZE)
      ensures !(online && generated != []) ==>
                |questions| == (if |pool| < LOCAL_QUIZ_SIZE then |pool| else LOCAL_QUIZ_SIZE)
                && multiset(questions) <= multiset(pool)
      ensures view == QuizView && currentIndex == 0 && score == 0 && selected == None && !showExp
      ensures completedMissions == old(completedMissions) && dailyScore == old(dailyScore)
      ensures QuizValid()
    {
      view := QuizView;
      if online && generated != [] {
        questions := generated;
      } else {
        questions := Shuffle.TakeAtMost(shuffled, LOCAL_QUIZ_SIZE);
        Shuffle.TakeAtMostDraws(pool, shuffled, LOCAL_QUIZ_SIZE);
      }
      currentIndex := 0;
      score := 0;
      selected := None;
      showExp := false;
    }

    /** The back button: the missions view again, the quiz state kept. */
    method BackToMissions()
      modifies this
      ensures view == Missions
      ensures questions == old(questions) && currentIndex == old(currentIndex) && score == old(score)
      ensures selected == old(selected) && showExp == old(showExp)
      ensures completedMissions == old(completedMissions) && dailyScore == old(dailyScore)
    {
      view := Missions;
    }

    /**
     * `handleSelect(idx)` on the shown question: ignored once an answer is
     * shown; otherwise the option is selected and the explanation shown, and
     * a right answer adds 1 to the score and 10 to the day's score.
     */
    method HandleSelect(idx: int)
      requires QuizValid() && view == QuizView && questions != []
      modifies this
      ensures view == old(view) && questions == old(questions) && currentIndex == old(currentIndex)
      ensures completedMissions == old(completedMissions)
      ensures old(showExp) ==> selected == old(selected) && showExp && score == old(score) && dailyScore == old(dailyScore)
      ensures !old(showExp) ==> selected == Some(idx) && showExp
      ensures !old(showExp) && idx == questions[currentIndex].answerIndex ==>
                score == old(score) + 1 && dailyScore == old(dailyScore) + POINTS_PER_RIGHT_ANSWER
      ensures !old(showExp) && idx != questions[currentIndex].answerIndex ==>
                score == old(score) && dailyScore == old(dailyScore)
      ensures QuizValid()
    {
      if showExp {
        return;
      }
      var q := questions[currentIndex];
      selected := Some(idx);
      showExp := true;
      if idx == q.answerIndex {
        score := score + 1;
        dailyScore := dailyScore + POINTS_PER_RIGHT_ANSWER;
      }
    }

    /**
     * The button under the explanation: the next question with nothing
     * selected, or after the last one the missions view.
     */
    method Advance()
      requires QuizValid() && view == QuizView && showExp
      modifies this
      ensures old(currentIndex) < |questions| - 1 ==>
                currentIndex == old(currentIndex) + 1 && selected == None && !showExp && view == QuizView
      ensures old(currentIndex) >= |questions| - 1 ==>
                view == Missions && currentIndex == old(currentIndex)
                && selected == old(selected) && showExp
      ensures questions == old(questions) && score == old(score)
      ensures completedMissions == old(completedMissions) && dailyScore == old(dailyScore)
      ensures QuizValid()
    {
      if currentIndex < |questions| - 1 {
        currentIndex := currentIndex + 1;
        selected := None;
        showExp := false;
      } else {
        view := Missions;
      }
    }
  }
}
