/**
 * The counter logic of the tasbih screen (components/Tasbih.tsx): tapping,
 * skipping ten, resetting, switching dhikr, ending a session, and the totals
 * and streaks read from the session history. The clock is a parameter:
 * `now` in milliseconds and the day strings `toDateString` would give.
 */
module Tasbih {
  import opened Wrappers
  import Seqs
  import Text
  import JsNumbers

  /** A saved session: the dhikr it counted, how many, and when. */
  datatype Session = Session(id: string, dhikr: string, count: int, date: string, time: string, duration: int)

  /** The sessions of `dhikr`. */
  function OfDhikr(sessions: seq<Session>, dhikr: string): (r: seq<Session>)
    ensures forall s :: s in r <==> s in sessions && s.dhikr == dhikr
  {
    Seqs.Filter((s: Session) => s.dhikr == dhikr, sessions)
  }

  /** The sessions of `dhikr` on `day`. */
  function OfDhikrOn(sessions: seq<Session>, dhikr: string, day: string): (r: seq<Session>)
    ensures forall s :: s in r <==> s in sessions && s.date == day && s.dhikr == dhikr
  {
    Seqs.Filter((s: Session) => s.date == day && s.dhikr == dhikr, sessions)
  }

  /** `reduce((sum, s) => sum + s.count, 0)`. */
  function Counts(sessions: seq<Session>): int
  {
    if sessions == [] then 0 else sessions[0].count + Counts(sessions[1..])
  }

  /** `getTodayTotal(dhikr)`. */
  function TodayTotal(sessions: seq<Session>, dhikr: string, today: string): int
  {
    Counts(OfDhikrOn(sessions, dhikr, today))
  }

  /** `getTotalCount(dhikr)`. */
  function TotalCount(sessions: seq<Session>, dhikr: string): int
  {
    Counts(OfDhikr(sessions, dhikr))
  }

  /**
   * Prepending a session raises the totals of its own dhikr by its count
   * (today's total only when it is dated today) and leaves every other
   * dhikr's totals alone.
   */
  lemma PrependTotals(s: Session, sessions: seq<Session>, dhikr: string, today: string)
    ensures TotalCount([s] + sessions, dhikr) == TotalCount(sessions, dhikr) + (if s.dhikr == dhikr then s.count else 0)
    ensures TodayTotal([s] + sessions, dhikr, today)
            == TodayTotal(sessions, dhikr, today) + (if s.dhikr == dhikr && s.date == today then s.count else 0)
  {
    var all := [s] + sessions;
    assert all[0] == s && all[1..] == sessions;
    var today1 := if s.dhikr == dhikr && s.date == today then [s] else [];
    assert OfDhikrOn(all, dhikr, today) == today1 + OfDhikrOn(sessions, dhikr, today);
    CountsCons(today1, OfDhikrOn(sessions, dhikr, today));
    var any1 := if s.dhikr == dhikr then [s] else [];
    assert OfDhikr(all, dhikr) == any1 + OfDhikr(sessions, dhikr);
    CountsCons(any1, OfDhikr(sessions, dhikr));
  }

  /** The counts of at most one session put in front. */
  lemma CountsCons(front: seq<Session>, rest: seq<Session>)
    requires |front| <= 1
    ensures Counts(front + rest) == (if front == [] then 0 else front[0].count) + Counts(rest)
  {
    if front == [] {
      assert front + rest == rest;
    } else {
      assert (front + rest)[1..] == rest;
    }
  }

  /** With positive session counts, every total is non-negative and today's never exceeds the all-time one. */
  lemma {:induction false} TodayWithinTotal(sessions: seq<Session>, dhikr: string, today: string)
    requires forall s :: s in sessions ==> s.count > 0
    ensures 0 <= TodayTotal(sessions, dhikr, today) <= TotalCount(sessions, dhikr)
  {
    if sessions != [] {
      TodayWithinTotal(sessions[1..], dhikr, today);
      PrependTotals(sessions[0], sessions[1..], dhikr, today);
      assert [sessions[0]] + sessions[1..] == sessions;
    }
  }

  /**
   * `progressPercentage`: `min(count / target · 100, 100)` for a positive
   * target, else 0. It lies in [0, 100] and reaches 100 exactly when the
   * count reaches the target.
   */
  function ProgressPercentage(count: int, target: int): (p: real)
    requires count >= 0
    ensures 0.0 <= p <= 100.0
    ensures target <= 0 ==> p == 0.0
    ensures target > 0 ==> (p == 100.0 <==> count >= target)
  {
    if target > 0 then
      var ratio := (count as real / target as real) * 100.0;
      if ratio < 100.0 then ratio else 100.0
    else 0.0
  }

  /** `prev[dhikr] || 1`: a missing or zero streak counts as 1 there. */
  function StreakOrOne(streaks: map<string, int>, dhikr: string): int
  {
    if dhikr in streaks && streaks[dhikr] != 0 then streaks[dhikr] else 1
  }

  class TasbihCounter {
    var count: int
    var sessionTotal: int
    var activeDhikr: string
    var target: int
    var sessions: seq<Session>
    var dailyGoals: map<string, int>
    var streaks: map<string, int>
    var sessionStartTime: int

    /**
     * The count on screen never exceeds the running session total (reset
     * and switching dhikr zero only the count), and every saved session
     * holds a positive count.
     */
    ghost predicate Valid()
      reads this
    {
      0 <= count <= sessionTotal && forall s :: s in sessions ==> s.count > 0
    }

    constructor(dhikr: string, recommended: int, now: int)
      ensures count == 0 && sessionTotal == 0 && activeDhikr == dhikr && target == recommended
      ensures sessions == [] && dailyGoals == map[] && streaks == map[] && sessionStartTime == now
      ensures Valid()
    {
      count := 0;
      sessionTotal := 0;
      activeDhikr := dhikr;
      target := recommended;
      sessions := [];
      dailyGoals := map[];
      streaks := map[];
      sessionStartTime := now;
    }

    /**
     * `increment`: one more for both the count and the session total. The
     * answer says whether the long buzz of every tenth tap is due.
     */
    method Increment() returns (tenth: bool)
      requires Valid()
      modifies this
      ensures Valid()
      ensures count == old(count) + 1 && sessionTotal == old(sessionTotal) + 1
      ensures tenth <==> count % 10 == 0
      ensures activeDhikr == old(activeDhikr) && target == old(target) && sessions == old(sessions)
      ensures dailyGoals == old(dailyGoals) && streaks == old(streaks) && sessionStartTime == old(sessionStartTime)
    {
      tenth := (count + 1) % 10 == 0;
      count := count + 1;
      sessionTotal := sessionTotal + 1;
    }

    /** `skipTen`: ten more for both the count and the session total. */
    method SkipTen()
      requires Valid()
      modifies this
      ensures Valid()
      ensures count == old(count) + 10 && sessionTotal == old(sessionTotal) + 10
      ensures activeDhikr == old(activeDhikr) && target == old(target) && sessions == old(sessions)
      ensures dailyGoals == old(dailyGoals) && streaks == old(streaks) && sessionStartTime == old(sessionStartTime)
    {
      count := count + 10;
      sessionTotal := sessionTotal + 10;
    }

    /** `reset`: once confirmed, the count is zeroed; the session total is kept. */
    method Reset(confirmed: bool)
      requires Valid()
      modifies this
      ensures Valid()
      ensures count == (if confirmed then 0 else old(count)) && sessionTotal == old(sessionTotal)
      ensures activeDhikr == old(activeDhikr) && target == old(target) && sessions == old(sessions)
      ensures dailyGoals == old(dailyGoals) && streaks == old(streaks) && sessionStartTime == old(sessionStartTime)
    {
      if confirmed {
        count := 0;
      }
    }

    /**
     * Picking a dhikr: it becomes active with its recommended target, the
     * count restarts and so does the session clock. The session total is not
     * zeroed, so the next saved session also holds what was counted before.
     */
    method SelectDhikr(dhikr: string, recommended: int, now: int)
      requires Valid()
      modifies this
      ensures Valid()
      ensures activeDhikr == dhikr && target == recommended && count == 0 && sessionStartTime == now
      ensures sessionTotal == old(sessionTotal) && sessions == old(sessions)
      ensures dailyGoals == old(dailyGoals) && streaks == old(streaks)
    {
      activeDhikr := dhikr;
      target := recommended;
      count := 0;
      sessionStartTime := now;
    }

    /**
     * `endSession`: with nothing counted it does nothing. Otherwise one
     * session holding the whole session total is put first in the history,
     * the active dhikr's daily entry becomes its earlier total for today
     * plus the session total (by `EndSessionTotals`, its total for today
     * including the new session), and the count, the session total and the
     * clock restart.
     */
    method EndSession(now: int, today: string, time: string)
      requires Valid()
      modifies this
      ensures Valid()
      ensures old(sessionTotal) == 0 ==>
                count == old(count) && sessionTotal == 0 && sessions == old(sessions)
                && dailyGoals == old(dailyGoals) && sessionStartTime == old(sessionStartTime)
      ensures old(sessionTotal) != 0 ==>
                && sessions == [Session(Text.IntToString(now), activeDhikr, old(sessionTotal), today, time,
                                        JsNumbers.FloorDiv(now - old(sessionStartTime), 1000))] + old(sessions)
                && dailyGoals == old(dailyGoals)[activeDhikr := TodayTotal(old(sessions), activeDhikr, today) + old(sessionTotal)]
                && count == 0 && sessionTotal == 0 && sessionStartTime == now
      ensures activeDhikr == old(activeDhikr) && target == old(target) && streaks == old(streaks)
    {
      if sessionTotal == 0 {
        return;
      }
      var session := Session(Text.IntToString(now), activeDhikr, sessionTotal, today, time,
                             JsNumbers.FloorDiv(now - sessionStartTime, 1000));
      var previous := sessions;
      assert session.count > 0;
      sessions := [session] + sessions;
      var todayTotal := TodayTotal(previous, activeDhikr, today) + sessionTotal;
      dailyGoals := dailyGoals[activeDhikr := todayTotal];
      count := 0;
      sessionTotal := 0;
      sessionStartTime := now;
    }

    /**
     * The streak check run when the dhikr or the history changes: with a
     * history but no session of the active dhikr today, the streak grows by
     * one after a session yesterday (from 1 when none was kept) and drops to
     * 0 otherwise.
     */
    method CheckStreak(today: string, yesterday: string)
      requires Valid()
      modifies this
      ensures Valid()
      ensures OfDhikrOn(sessions, activeDhikr, today) != [] || sessions == [] ==> streaks == old(streaks)
      ensures OfDhikrOn(sessions, activeDhikr, today) == [] && sessions != [] ==>
                streaks == old(streaks)[activeDhikr :=
                  if OfDhikrOn(sessions, activeDhikr, yesterday) != [] then StreakOrOne(old(streaks), activeDhikr) + 1 else 0]
      ensures count == old(count) && sessionTotal == old(sessionTotal) && activeDhikr == old(activeDhikr)
      ensures target == old(target) && sessions == old(sessions) && dailyGoals == old(dailyGoals)
      ensures sessionStartTime == old(sessionStartTime)
    {
      var lastSession := OfDhikrOn(sessions, activeDhikr, today);
      if lastSession == [] && |sessions| > 0 {
        var yesterdaySession := OfDhikrOn(sessions, activeDhikr, yesterday);
        if yesterdaySession != [] {
          streaks := streaks[activeDhikr := StreakOrOne(streaks, activeDhikr) + 1];
        } else {
          streaks := streaks[activeDhikr := 0];
        }
      }
    }
  }

  /**
   * What ending a session does to the totals: the active dhikr's all-time
   * total grows by the session total, and its today total, which the daily
   * entry then holds, by the same amount; other dhikrs are unaffected.
   */
  lemma EndSessionTotals(previous: seq<Session>, s: Session, dhikr: string, today: string)
    requires s.date == today
    ensures TotalCount([s] + previous, s.dhikr) == TotalCount(previous, s.dhikr) + s.count
    ensures TodayTotal([s] + previous, s.dhikr, today) == TodayTotal(previous, s.dhikr, today) + s.count
    ensures dhikr != s.dhikr ==> TotalCount([s] + previous, dhikr) == TotalCount(previous, dhikr)
    ensures dhikr != s.dhikr ==> TodayTotal([s] + previous, dhikr, today) == TodayTotal(previous, dhikr, today)
  {
    PrependTotals(s, previous, s.dhikr, today);
    PrependTotals(s, previous, dhikr, today);
  }
}
