/**
 * The azkar catalogue's queries: by category, the categories in order of
 * first appearance, a normalised text search, the list for the hour of the
 * day and a day-long storage cache. The catalogue, the hour and the clock
 * are parameters.
 */
module AzkarService {
  import opened Wrappers
  import JsNumbers
  import Text
  import Seqs
  import Search

  datatype AzkarItem = AzkarItem(
    id: string, category: string, text: string, count: int, source: Option<string>,
    audioUrl: Option<string>, transliteration: Option<string>, meaning: Option<string>,
    reward: Option<string>, timing: Option<string>, frequency: Option<string>)

  const MORNING := "صباح"
  const GENERAL := "عام"
  const EVENING := "مساء"
  const SLEEP := "النوم"

  /** `getAzkarByCategory`. */
  function GetAzkarByCategory(azkar: seq<AzkarItem>, category: string): seq<AzkarItem>
  {
    Seqs.Filter((item: AzkarItem) => item.category == category, azkar)
  }

  /** The category's items, in catalogue order: exactly the items of that category. */
  lemma ByCategoryKeeps(azkar: seq<AzkarItem>, category: string, a: seq<AzkarItem>, b: seq<AzkarItem>)
    ensures forall item :: item in GetAzkarByCategory(azkar, category) <==> item in azkar && item.category == category
    ensures GetAzkarByCategory(a + b, category) == GetAzkarByCategory(a, category) + GetAzkarByCategory(b, category)
  {
    Seqs.FilterConcat((item: AzkarItem) => item.category == category, a, b);
  }

  function CategoriesOf(azkar: seq<AzkarItem>): (r: seq<string>)
    ensures |r| == |azkar| && forall i :: 0 <= i < |r| ==> r[i] == azkar[i].category
  {
    seq(|azkar|, i requires 0 <= i < |azkar| => azkar[i].category)
  }

  /**
   * `getCategories`: each item's category added to a set in catalogue order;
   * the list holds every category once, in order of first appearance.
   */
  method GetCategories(azkar: seq<AzkarItem>) returns (categories: seq<string>)
    ensures categories == Seqs.Distinct(CategoriesOf(azkar))
    ensures Seqs.NoDuplicates(categories)
    ensures forall c :: c in categories <==> exists item :: item in azkar && item.category == c
  {
    categories := [];
    for i := 0 to |azkar|
      invariant categories == Seqs.Distinct(CategoriesOf(azkar[..i]))
    {
      assert CategoriesOf(azkar[..i + 1])[..i] == CategoriesOf(azkar[..i]);
      if azkar[i].category !in categories {
        categories := categories + [azkar[i].category];
      }
    }
    assert azkar[..|azkar|] == azkar;
    Seqs.DistinctProps(CategoriesOf(azkar));
    forall c | c in categories ensures exists item :: item in azkar && item.category == c {
      var k :| 0 <= k < |azkar| && CategoriesOf(azkar)[k] == c;
      assert azkar[k] in azkar;
    }
  }

  /** The filter of `searchAzkar`: the normalised text contains the normalised query. */
  predicate Matches(item: AzkarItem, normalizedQuery: string)
  {
    Text.Contains(Search.NormalizeText(item.text), normalizedQuery)
  }

  /** `searchAzkar`. */
  function SearchAzkar(azkar: seq<AzkarItem>, query: string): seq<AzkarItem>
  {
    var normalizedQuery := Search.NormalizeText(query);
    Seqs.Filter((item: AzkarItem) => Matches(item, normalizedQuery), azkar)
  }

  /**
   * The search keeps exactly the items whose normalised text contains the
   * normalised query; a query that normalises to nothing keeps every item.
   */
  lemma SearchAzkarKeeps(azkar: seq<AzkarItem>, query: string)
    ensures forall item :: item in SearchAzkar(azkar, query) <==> item in azkar && Matches(item, Search.NormalizeText(query))
    ensures Search.NormalizeText(query) == [] ==> SearchAzkar(azkar, query) == azkar
  {
    var normalizedQuery := Search.NormalizeText(query);
    if normalizedQuery == [] {
      forall item | item in azkar ensures Matches(item, normalizedQuery) {
        Text.ContainsSelf(Search.NormalizeText(item.text), "");
      }
      Seqs.FilterAll((item: AzkarItem) => Matches(item, normalizedQuery), azkar);
    }
  }

  /** An item is found by its own text. */
  lemma SearchFindsOwnText(azkar: seq<AzkarItem>, item: AzkarItem)
    requires item in azkar
    ensures item in SearchAzkar(azkar, item.text)
  {
    Text.ContainsSelf(Search.NormalizeText(item.text), []);
    assert Search.NormalizeText(item.text) + [] == Search.NormalizeText(item.text);
  }

  /** The category `getDailyAzkar` chooses for the hour `hour` (from `getHours()`). */
  function DailyCategory(hour: int): (c: string)
  {
    if 5 <= hour < 12 then MORNING
    else if 12 <= hour < 17 then GENERAL
    else if 17 <= hour < 21 then EVENING
    else SLEEP
  }

  /** `getDailyAzkar`. */
  function GetDailyAzkar(azkar: seq<AzkarItem>, hour: int): seq<AzkarItem>
  {
    GetAzkarByCategory(azkar, DailyCategory(hour))
  }

  /**
   * The hours of the day fall into four bands, [5, 12) morning, [12, 17)
   * general, [17, 21) evening and the rest sleep, and the list holds exactly
   * the items of the band's category.
   */
  lemma DailyAzkarBands(azkar: seq<AzkarItem>, hour: int)
    ensures DailyCategory(hour) == MORNING <==> 5 <= hour < 12
    ensures DailyCategory(hour) == GENERAL <==> 12 <= hour < 17
    ensures DailyCategory(hour) == EVENING <==> 17 <= hour < 21
    ensures DailyCategory(hour) == SLEEP <==> hour < 5 || hour >= 21
    ensures forall item :: item in GetDailyAzkar(azkar, hour) <==> item in azkar && item.category == DailyCategory(hour)
  {
    assert MORNING[0] != GENERAL[0] && MORNING[0] != EVENING[0] && MORNING[0] != SLEEP[0];
    assert GENERAL[0] != EVENING[0] && GENERAL[0] != SLEEP[0] && EVENING != SLEEP;
    ByCategoryKeeps(azkar, DailyCategory(hour), [], []);
  }

  /** `getRandomAzkar` with `Math.random()` as the parameter `random` in [0, 1). */
  function GetRandomAzkar(azkar: seq<AzkarItem>, random: real): (r: Option<AzkarItem>)
    requires 0.0 <= random < 1.0
    ensures r.Some? <==> azkar != []
    ensures r.Some? ==> r.value in azkar
  {
    if azkar == [] then None else Some(azkar[JsNumbers.RandomIndex(random, |azkar|)])
  }

  const DAY_MS := 24 * 60 * 60 * 1000

  datatype CacheRecord = CacheRecord(data: seq<AzkarItem>, timestamp: int)

  /** The parsed value under the storage key `azkar_cache`, if any. */
  class AzkarCache {
    var stored: Option<CacheRecord>

    constructor()
      ensures stored.None?
    {
      stored := None;
    }

    /** `cacheAzkar` at clock reading `now`. */
    method CacheAzkar(azkar: seq<AzkarItem>, now: int)
      modifies this
      ensures stored == Some(CacheRecord(azkar, now))
      ensures forall later :: now <= later < now + DAY_MS ==> GetCachedAzkar(later) == Some(azkar)
    {
      stored := Some(CacheRecord(azkar, now));
    }

    /** `getCachedAzkar` at clock reading `now`: the data while it is less than a day old. */
    function GetCachedAzkar(now: int): (r: Option<seq<AzkarItem>>)
      reads this
      ensures r.Some? <==> stored.Some? && now - stored.value.timestamp < DAY_MS
      ensures r.Some? ==> r.value == stored.value.data
    {
      if stored.Some? && now - stored.value.timestamp < DAY_MS then Some(stored.value.data) else None
    }
  }
}
