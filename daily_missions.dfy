/**
 * The daily missions tab (components/DailyMissionsAndWirds.tsx): marking a
 * mission done once, asking whether it is done, the points total kept beside
 * the list and recomputed from it on load, and the category and random-wird
 * lookups over the mission catalogue. The catalogue is a parameter; the
 * localStorage entry `noor_completed_missions_v1` is the `stored` field,
 * holding the list itself rather than its JSON text.
 */
module DailyMissions {
  import opened Wrappers
  import Seqs
  import JsNumbers

  /** A catalogue entry; only what the tab computes with. */
  datatype DailyMission = DailyMission(id: string, category: string, title: string, reward: int)

  /** A mission marked done, with the clock reading at the time. */
  datatype CompletedMission = CompletedMission(id: string, completedAt: int)

  /** `DAILY_MISSIONS.find(d => d.id === id)?.reward || 0`: the first entry's reward, 0 when there is none. */
  function Reward(catalogue: seq<DailyMission>, id: string): (r: int)
    ensures (forall m :: m in catalogue ==> m.id != id) ==> r == 0
    ensures forall k :: (0 <= k < |catalogue| && catalogue[k].id == id
                         && (forall j :: 0 <= j < k ==> catalogue[j].id != id)) ==> r == catalogue[k].reward
  {
    if catalogue == [] then 0
    else if catalogue[0].id == id then catalogue[0].reward
    else Reward(catalogue[1..], id)
  }

  /** The load effect's `reduce`: the rewards of the listed missions, unknown ids counting 0, from the left. */
  function Points(catalogue: seq<DailyMission>, done: seq<CompletedMission>): int
  {
    if done == [] then 0
    else Points(catalogue, done[..|done| - 1]) + Reward(catalogue, done[|done| - 1].id)
  }

  /** With rewards in [0, most] the total lies between 0 and the list's length times `most`. */
  lemma {:induction false} PointsBounds(catalogue: seq<DailyMission>, done: seq<CompletedMission>, most: int)
    requires most >= 0 && forall m :: m in catalogue ==> 0 <= m.reward <= most
    ensures 0 <= Points(catalogue, done) <= |done| * most
  {
    if done != [] {
      var init := done[..|done| - 1];
      assert Points(catalogue, done) == Points(catalogue, init) + Reward(catalogue, done[|done| - 1].id);
      PointsBounds(catalogue, init, most);
      RewardBounds(catalogue, done[|done| - 1].id, most);
      MulSucc(|init|, most);
    }
  }

  lemma MulSucc(n: int, m: int)
    ensures (n + 1) * m == n * m + m
  {
  }

  /** Every lookup gives a reward in [0, most] when the catalogue's rewards are. */
  lemma {:induction false} RewardBounds(catalogue: seq<DailyMission>, id: string, most: int)
    requires most >= 0 && forall m :: m in catalogue ==> 0 <= m.reward <= most
    ensures 0 <= Reward(catalogue, id) <= most
  {
    if catalogue != [] {
      assert catalogue[0] in catalogue;
      if catalogue[0].id != id {
        assert forall m :: m in catalogue[1..] ==> m in catalogue;
        RewardBounds(catalogue[1..], id, most);
      }
    }
  }

  /** Appending a mission makes its id done and changes no other id's answer. */
  lemma CompletedAppend(done: seq<CompletedMission>, m: CompletedMission)
    ensures forall id :: Completed(done + [m], id) <==> Completed(done, id) || m.id == id
  {
    assert m in done + [m];
    assert forall x :: x in done + [m] <==> x in done || x == m;
  }

  /** `isMissionCompleted(id)`. */
  predicate Completed(done: seq<CompletedMission>, id: string)
  {
    exists m :: m in done && m.id == id
  }

  predicate UniqueIds(done: seq<CompletedMission>)
  {
    forall i, j :: 0 <= i < j < |done| ==> done[i].id != done[j].id
  }

  /** `getMissionsByCategory(category)`: the catalogue entries of that category, in catalogue order. */
  function MissionsByCategory(catalogue: seq<DailyMission>, category: string): (r: seq<DailyMission>)
    ensures forall m :: m in r <==> m in catalogue && m.category == category
  {
    Seqs.Filter((m: DailyMission) => m.category == category, catalogue)
  }

  /**
   * `getRandomWird()` for a `Math.random()` reading `random`: an entry of the
   * salat or charity missions, or nothing (undefined) when there are none.
   */
  function RandomWird(catalogue: seq<DailyMission>, random: real): (r: Option<DailyMission>)
    requires 0.0 <= random < 1.0
    ensures r.Some? ==> r.value in catalogue && (r.value.category == "salat" || r.value.category == "charity")
    ensures r.None? <==> forall m :: m in catalogue ==> m.category != "salat" && m.category != "charity"
  {
    var wirds := Seqs.Filter((m: DailyMission) => m.category == "salat" || m.category == "charity", catalogue);
    if wirds == [] then None else Some(wirds[JsNumbers.RandomIndex(random, |wirds|)])
  }

  class MissionsTab {
    const catalogue: seq<DailyMission>
    var completedMissions: seq<CompletedMission>
    var totalPoints: int
    var stored: Option<seq<CompletedMission>>

    /** The total is the reward sum of the list, and the list is what is stored once anything is. */
    ghost predicate Valid()
      reads this
    {
      && totalPoints == Points(catalogue, completedMissions)
      && (stored.Some? ==> stored.value == completedMissions)
      && (stored.None? ==> completedMissions == [])
    }

    /** Mounting runs the load effect: a stored list is taken over and its total recomputed. */
    constructor(catalogue: seq<DailyMission>, stored: Option<seq<CompletedMission>>)
      ensures this.catalogue == catalogue && this.stored == stored
      ensures stored.None? ==> completedMissions == [] && totalPoints == 0
      ensures stored.Some? ==> completedMissions == stored.value && totalPoints == Points(catalogue, stored.value)
      ensures Valid()
    {
      this.catalogue := catalogue;
      this.stored := stored;
      if stored.Some? {
        completedMissions := stored.value;
        totalPoints := Points(catalogue, stored.value);
      } else {
        completedMissions := [];
        totalPoints := 0;
      }
    }

    /** `isMissionCompleted(id)` on the current list. */
    predicate IsMissionCompleted(id: string)
      reads this
    {
      Completed(completedMissions, id)
    }

    /**
     * `saveMission(id)` at clock reading `now`: nothing happens when the
     * mission is already done; otherwise it is appended, stored, and its
     * reward added to the total.
     */
    method SaveMission(id: string, now: int)
      modifies this
      ensures old(IsMissionCompleted(id)) ==>
                completedMissions == old(completedMissions) && totalPoints == old(totalPoints) && stored == old(stored)
      ensures !old(IsMissionCompleted(id)) ==>
                completedMissions == old(completedMissions) + [CompletedMission(id, now)]
                && stored == Some(completedMissions)
                && totalPoints == old(totalPoints) + Reward(catalogue, id)
      ensures IsMissionCompleted(id)
      ensures forall other :: other != id ==> (IsMissionCompleted(other) <==> old(IsMissionCompleted(other)))
      ensures UniqueIds(old(completedMissions)) ==> UniqueIds(completedMissions)
      ensures old(Valid()) ==> Valid()
    {
      if exists m :: m in completedMissions && m.id == id {
        return;
      }
      var m := CompletedMission(id, now);
      var updated := completedMissions + [m];
      assert updated[..|updated| - 1] == completedMissions;
      CompletedAppend(completedMissions, m);
      completedMissions := updated;
      stored := Some(updated);
      totalPoints := totalPoints + Reward(catalogue, id);
    }
  }
}
