/**
 * The daily wird checklist (components/DailyWird.tsx): the default list of
 * thirteen tasks for a day, the +/- progress buttons with their upper clamp,
 * the colour bucket of a task's progress bar and the overall percentage.
 * localStorage is a map from the selected date to the list saved for it (the
 * JSON text in between is not modelled).
 */
module DailyWird {
  import opened Wrappers
  import JsNumbers

  datatype Category = Salawat | Quran | Azkar | Tasbeeh

  /** One task of the day's wird. `completed` is not clamped from below. */
  datatype WirdTask = WirdTask(id: string, category: Category, task: string, target: int,
                               unit: string, completed: int, date: string, icon: string)

  /** The list a day starts with when nothing is saved for it. */
  function DefaultWirds(date: string): (r: seq<WirdTask>)
  {
    [ WirdTask("1", Salawat, "صلاة الفجر", 1, "مرة", 0, date, "🌅"),
      WirdTask("2", Salawat, "صلاة الظهر", 1, "مرة", 0, date, "🌞"),
      WirdTask("3", Salawat, "صلاة العصر", 1, "مرة", 0, date, "🌤️"),
      WirdTask("4", Salawat, "صلاة المغرب", 1, "مرة", 0, date, "🌇"),
      WirdTask("5", Salawat, "صلاة العشاء", 1, "مرة", 0, date, "🌙"),
      WirdTask("6", Quran, "قراءة القرآن", 1, "جزء", 0, date, "📖"),
      WirdTask("7", Quran, "تسميع القرآن", 0, "صفحة", 0, date, "🎙️"),
      WirdTask("8", Azkar, "أذكار الصباح", 1, "مرة", 0, date, "📿"),
      WirdTask("9", Azkar, "أذكار المساء", 1, "مرة", 0, date, "🌙"),
      WirdTask("10", Tasbeeh, "سبحان الله وبحمده", 100, "مرة", 0, date, "✨"),
      WirdTask("11", Tasbeeh, "الحمد لله", 100, "مرة", 0, date, "🙏"),
      WirdTask("12", Tasbeeh, "لا إله إلا الله", 100, "مرة", 0, date, "❤️"),
      WirdTask("13", Tasbeeh, "الله أكبر", 100, "مرة", 0, date, "⭐") ]
  }

  predicate UniqueIds(ws: seq<WirdTask>)
  {
    forall i, j :: 0 <= i < j < |ws| ==> ws[i].id != ws[j].id
  }

  /** The default list has thirteen tasks, all dated the selected day and none started. */
  lemma DefaultWirdsFresh(date: string)
    ensures |DefaultWirds(date)| == 13
    ensures forall w :: w in DefaultWirds(date) ==> w.completed == 0 && w.date == date
  {
  }

  /** The default tasks' ids are "1" to "13" in order, so they are distinct. */
  lemma DefaultWirdsUnique(date: string)
    ensures UniqueIds(DefaultWirds(date))
  {
    var ws := DefaultWirds(date);
    var ids := ["1", "2", "3", "4", "5", "6", "7", "8", "9", "10", "11", "12", "13"];
    assert forall i :: 0 <= i < 13 ==> ws[i].id == ids[i];
    assert forall i, j :: 0 <= i < j < 13 ==> ids[i] != ids[j];
  }

  /** Only the recitation task "7" has target 0; every other one has a positive target. */
  lemma DefaultWirdsTargets(date: string)
    ensures DefaultWirds(date)[6].id == "7" && DefaultWirds(date)[6].target == 0
    ensures forall i :: 0 <= i < 13 && i != 6 ==> DefaultWirds(date)[i].target > 0
  {
  }

  /** `updateProgress(id, newCompleted)`'s new list: the tasks with that id get `min(newCompleted, target)`. */
  function UpdateList(ws: seq<WirdTask>, id: string, newCompleted: int): (r: seq<WirdTask>)
    ensures |r| == |ws|
    ensures forall i :: 0 <= i < |ws| ==> r[i] == ws[i].(completed := r[i].completed)
    ensures forall i :: 0 <= i < |ws| && ws[i].id != id ==> r[i] == ws[i]
    ensures forall i :: 0 <= i < |ws| && ws[i].id == id ==>
              r[i].completed <= ws[i].target
              && (r[i].completed == newCompleted || r[i].completed == ws[i].target)
              && (newCompleted <= ws[i].target ==> r[i].completed == newCompleted)
  {
    seq(|ws|, i requires 0 <= i < |ws| =>
      if ws[i].id == id then ws[i].(completed := if newCompleted < ws[i].target then newCompleted else ws[i].target)
      else ws[i])
  }

  /** An id that names no task leaves the list as it was. */
  lemma UpdateUnknownId(ws: seq<WirdTask>, id: string, newCompleted: int)
    requires forall w :: w in ws ==> w.id != id
    ensures UpdateList(ws, id, newCompleted) == ws
  {
    var r := UpdateList(ws, id, newCompleted);
    assert forall i :: 0 <= i < |ws| ==> r[i] == ws[i] by {
      forall i | 0 <= i < |ws|
        ensures r[i] == ws[i]
      {
        assert ws[i] in ws;
      }
    }
  }

  /** Pressing + on a task already at its target changes nothing, when ids are distinct. */
  lemma IncrementAtTarget(ws: seq<WirdTask>, k: nat)
    requires k < |ws| && UniqueIds(ws) && ws[k].completed == ws[k].target
    ensures UpdateList(ws, ws[k].id, ws[k].completed + 1) == ws
  {
    var r := UpdateList(ws, ws[k].id, ws[k].completed + 1);
    forall i | 0 <= i < |ws|
      ensures r[i] == ws[i]
    {
      if i < k {
        assert ws[i].id != ws[k].id;
      } else if i > k {
        assert ws[k].id != ws[i].id;
      }
    }
  }

  /** There is no lower clamp: pressing - on a task at 0 with a target of at least 0 sets it to -1. */
  lemma DecrementBelowZero(ws: seq<WirdTask>, k: nat)
    requires k < |ws| && ws[k].completed == 0 && ws[k].target >= 0
    ensures UpdateList(ws, ws[k].id, ws[k].completed - 1)[k].completed == -1
  {
  }

  /** A task whose target is 0 can never climb above 0. */
  lemma ZeroTargetStuck(ws: seq<WirdTask>, k: nat, newCompleted: int)
    requires k < |ws| && ws[k].target == 0
    ensures UpdateList(ws, ws[k].id, newCompleted)[k].completed <= 0
  {
  }

  /** The colour of a task's progress bar, from its percentage. */
  datatype ProgressBucket = Done | ThreeQuarters | Half | Behind

  function Rank(b: ProgressBucket): nat
  {
    match b
    case Behind => 0
    case Half => 1
    case ThreeQuarters => 2
    case Done => 3
  }

  /**
   * `getProgressColor(completed, target)` as the bucket it picks. With a
   * target of 0 the percentage is Infinity for a positive count (done) and
   * NaN or -Infinity otherwise, which fails every comparison (behind).
   */
  function Bucket(completed: int, target: int): ProgressBucket
  {
    if target == 0 then (if completed > 0 then Done else Behind)
    else
      var percent := completed as real / target as real * 100.0;
      if percent >= 100.0 then Done
      else if percent >= 75.0 then ThreeQuarters
      else if percent >= 50.0 then Half
      else Behind
  }

  /** With a positive target, `completed / target * 100 >= k` is `100 * completed >= k * target`. */
  lemma PercentAtLeast(completed: int, target: int, k: int)
    requires target > 0
    ensures (completed as real / target as real * 100.0 >= k as real) <==> 100 * completed >= k * target
  {
    var t := target as real;
    var x := completed as real / t;
    assert x * t == completed as real;
    assert (100 * completed) as real == x * 100.0 * t;
    assert (k * target) as real == k as real * t;
    if x * 100.0 >= k as real {
      assert (x * 100.0 - k as real) * t >= 0.0;
    } else {
      assert (k as real - x * 100.0) * t > 0.0;
    }
  }

  /** The buckets in whole numbers: done at the target, then three quarters, half, and below half. */
  lemma BucketByCounts(completed: int, target: int)
    requires target > 0
    ensures Bucket(completed, target) == Done <==> completed >= target
    ensures Bucket(completed, target) == ThreeQuarters <==> 4 * completed >= 3 * target && completed < target
    ensures Bucket(completed, target) == Half <==> 2 * completed >= target && 4 * completed < 3 * target
    ensures Bucket(completed, target) == Behind <==> 2 * completed < target
  {
    PercentAtLeast(completed, target, 100);
    PercentAtLeast(completed, target, 75);
    PercentAtLeast(completed, target, 50);
  }

  /** More progress on the same task never moves its bar to a lower bucket. */
  lemma BucketMonotone(c1: int, c2: int, target: int)
    requires target > 0 && c1 <= c2
    ensures Rank(Bucket(c1, target)) <= Rank(Bucket(c2, target))
  {
    BucketByCounts(c1, target);
    BucketByCounts(c2, target);
  }

  /** The sum of `completed / target` over the list, or None once a target is 0 (the quotient is NaN or infinite). */
  function RatioSum(ws: seq<WirdTask>): Option<real>
  {
    if ws == [] then Some(0.0)
    else if ws[0].target == 0 then None
    else match RatioSum(ws[1..])
      case None => None
      case Some(s) => Some(ws[0].completed as real / ws[0].target as real + s)
  }

  /**
   * `overallProgress`: 0 for an empty list, otherwise the rounded mean of the
   * ratios in percent; None when that mean is not a finite number.
   */
  function OverallProgress(ws: seq<WirdTask>): Option<int>
  {
    if |ws| == 0 then Some(0)
    else match RatioSum(ws)
      case None => None
      case Some(s) => Some(JsNumbers.Round(s / |ws| as real * 100.0))
  }

  predicate InRange(w: WirdTask)
  {
    w.target > 0 && 0 <= w.completed <= w.target
  }

  /** A count in [0, target] over a positive target is a ratio in [0, 1], and 1 at the target. */
  lemma RatioInUnit(completed: int, target: int)
    requires 0 <= completed <= target && target > 0
    ensures 0.0 <= completed as real / target as real <= 1.0
    ensures completed == target ==> completed as real / target as real == 1.0
  {
    var t := target as real;
    var x := completed as real / t;
    assert x * t == completed as real;
  }

  /** A sum in [0, n] over n > 0 items has a mean in [0, 1], and 1 when the sum is n. */
  lemma MeanInUnit(s: real, n: real)
    requires n > 0.0 && 0.0 <= s <= n
    ensures 0.0 <= s / n * 100.0 <= 100.0
    ensures s == n ==> s / n == 1.0
  {
    var m := s / n;
    assert m * n == s;
    if s == n {
      assert (m - 1.0) * n == 0.0;
    }
  }

  /** With positive targets and counts in range, the ratio sum lies in [0, |ws|], reaching |ws| exactly when all are done. */
  lemma {:induction false} RatioSumBounds(ws: seq<WirdTask>)
    requires forall w :: w in ws ==> InRange(w)
    ensures RatioSum(ws).Some?
    ensures 0.0 <= RatioSum(ws).value <= |ws| as real
    ensures (forall w :: w in ws ==> w.completed == w.target) ==> RatioSum(ws).value == |ws| as real
  {
    if ws != [] {
      assert ws[0] in ws;
      assert forall w :: w in ws[1..] ==> w in ws;
      RatioSumBounds(ws[1..]);
      RatioInUnit(ws[0].completed, ws[0].target);
    }
  }

  /** One target of 0 anywhere in the list makes the ratio sum undefined. */
  lemma {:induction false} ZeroTargetUndefined(ws: seq<WirdTask>, k: nat)
    requires k < |ws| && ws[k].target == 0
    ensures RatioSum(ws).None?
  {
    if k > 0 {
      ZeroTargetUndefined(ws[1..], k - 1);
    }
  }

  /**
   * With positive targets and counts in range the overall progress is a
   * percentage in [0, 100], and 100 when there are tasks and every one is done.
   */
  lemma OverallProgressBounds(ws: seq<WirdTask>)
    requires forall w :: w in ws ==> InRange(w)
    ensures OverallProgress(ws).Some?
    ensures 0 <= OverallProgress(ws).value <= 100
    ensures |ws| > 0 && (forall w :: w in ws ==> w.completed == w.target) ==> OverallProgress(ws).value == 100
  {
    if |ws| > 0 {
      RatioSumBounds(ws);
      var s := RatioSum(ws).value;
      var n := |ws| as real;
      MeanInUnit(s, n);
      if forall w :: w in ws ==> w.completed == w.target {
        assert JsNumbers.Round(1.0 * 100.0) == 100;
      }
    }
  }

  /** The day's default list already holds a target of 0, so its overall progress is not a finite number. */
  lemma DefaultOverallNotFinite(date: string)
    ensures OverallProgress(DefaultWirds(date)).None?
  {
    DefaultWirdsTargets(date);
    ZeroTargetUndefined(DefaultWirds(date), 6);
  }

  /** The checklist screen: the selected day, its list, and what is saved per day. */
  class DailyWirdScreen {
    var selectedDate: string
    var wirds: seq<WirdTask>
    var saved: map<string, seq<WirdTask>>

    /** Mounting on `today` runs the load effect: the saved list for the day, or the default one. */
    constructor(today: string, stored: map<string, seq<WirdTask>>)
      ensures selectedDate == today && saved == stored
      ensures today in stored ==> wirds == stored[today]
      ensures today !in stored ==> wirds == DefaultWirds(today)
    {
      selectedDate := today;
      saved := stored;
      new;
      Load();
    }

    /** The effect on `selectedDate`. */
    method Load()
      modifies this
      ensures selectedDate == old(selectedDate) && saved == old(saved)
      ensures selectedDate in saved ==> wirds == saved[selectedDate]
      ensures selectedDate !in saved ==> wirds == DefaultWirds(selectedDate)
    {
      if selectedDate in saved {
        wirds := saved[selectedDate];
      } else {
        wirds := DefaultWirds(selectedDate);
      }
    }

    /** Picking another day in the date input, followed by the load effect. */
    method SelectDate(date: string)
      modifies this
      ensures selectedDate == date && saved == old(saved)
      ensures date in saved ==> wirds == saved[date]
      ensures date !in saved ==> wirds == DefaultWirds(date)
    {
      selectedDate := date;
      Load();
    }

    /**
     * `updateProgress(id, newCompleted)`: the list is replaced by its updated
     * copy and saved under the selected day, so reloading the day gives it back.
     */
    method UpdateProgress(id: string, newCompleted: int)
      modifies this
      ensures wirds == UpdateList(old(wirds), id, newCompleted)
      ensures selectedDate == old(selectedDate)
      ensures saved == old(saved)[selectedDate := wirds]
    {
      wirds := UpdateList(wirds, id, newCompleted);
      saved := saved[selectedDate := wirds];
    }
  }
}
