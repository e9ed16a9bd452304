/**
 * Quran search: surah and verse matching on normalised text, the
 * surah-first ordering of results, fuzzy matching by edit-distance
 * similarity, and name suggestions. The surah table is a parameter.
 */
module Search {
  import opened Wrappers
  import Seqs
  import Text
  import JsNumbers
  import EditDistance

  datatype Surah = Surah(id: int, name: string, englishName: string, numberOfAyahs: int)

  datatype Ayah = Ayah(text: string, surahNumber: int, numberInSurah: int)

  datatype Kind = SurahHit | AyahHit

  datatype SearchResult = SearchResult(
    kind: Kind, surahId: int, surahName: string, ayahNumber: int, ayahText: string, page: int)

  const AYAHS_PER_PAGE := 15

  // ---------------------------------------------------------------- normalisation

  /** The text with the Arabic marks U+064B to U+0652 removed. */
  function StripMarks(text: string): (r: string)
    ensures forall c :: c in r ==> c in text && !('\U{064B}' <= c <= '\U{0652}')
  {
    if text == [] then []
    else (if '\U{064B}' <= text[0] <= '\U{0652}' then [] else [text[0]]) + StripMarks(text[1..])
  }

  /** `normalizeText`: marks removed, white-space runs made single spaces, the ends trimmed. */
  function NormalizeText(text: string): string
  {
    Text.NormalizeSpaces(StripMarks(text))
  }

  /** Normalised text is space-normal and free of marks. */
  lemma NormalizeTextNormal(text: string)
    ensures Text.SpaceNormal(NormalizeText(text))
    ensures forall c :: c in NormalizeText(text) ==> !('\U{064B}' <= c <= '\U{0652}')
  {
    Text.NormalizeSpacesNormal(StripMarks(text));
  }

  // ---------------------------------------------------------------- surahs

  /** The three ways a surah matches: Arabic name, English name ignoring case, or the exact id string. */
  predicate SurahMatches(surah: Surah, query: string)
  {
    || Text.Contains(NormalizeText(surah.name), query)
    || Text.Contains(Text.Lower(NormalizeText(surah.englishName)), Text.Lower(query))
    || Text.IntToString(surah.id) == query
  }

  function SurahResult(surah: Surah): SearchResult
  {
    SearchResult(SurahHit, surah.id, surah.name, 1,
                 "سورة " + surah.name + " - عدد آياتها " + Text.IntToString(surah.numberOfAyahs), 1)
  }

  /** What the forEach of `searchSurahs` pushes for the surahs of `surahs`. */
  function SurahHits(surahs: seq<Surah>, query: string): seq<SearchResult>
  {
    if surahs == [] then []
    else
      var last := surahs[|surahs| - 1];
      SurahHits(surahs[..|surahs| - 1], query) + (if SurahMatches(last, query) then [SurahResult(last)] else [])
  }

  /** The surah results are exactly the results of the matching surahs. */
  lemma {:induction false} SurahHitsExactly(surahs: seq<Surah>, query: string)
    ensures forall r :: r in SurahHits(surahs, query) ==>
      r.kind == SurahHit && exists s :: s in surahs && SurahMatches(s, query) && r == SurahResult(s)
    ensures forall s :: s in surahs && SurahMatches(s, query) ==> SurahResult(s) in SurahHits(surahs, query)
    decreases |surahs|
  {
    if surahs != [] {
      var init := surahs[..|surahs| - 1];
      assert surahs == init + [surahs[|surahs| - 1]];
      SurahHitsExactly(init, query);
    }
  }

  /** `searchSurahs`. */
  method SearchSurahs(surahs: seq<Surah>, query: string) returns (results: seq<SearchResult>)
    ensures results == SurahHits(surahs, query)
  {
    results := [];
    for i := 0 to |surahs|
      invariant results == SurahHits(surahs[..i], query)
    {
      var surah := surahs[i];
      assert surahs[..i + 1][..i] == surahs[..i];
      if SurahMatches(surah, query) {
        results := results + [SurahResult(surah)];
      }
    }
    assert surahs[..|surahs|] == surahs;
  }

  // ---------------------------------------------------------------- verses

  /** `FULL_SURAHS.find(s => s.id === id)`. */
  function FindSurah(surahs: seq<Surah>, id: int): (r: Option<Surah>)
    ensures r.Some? ==> r.value in surahs && r.value.id == id
    ensures r.Some? ==> exists i :: 0 <= i < |surahs| && surahs[i] == r.value && forall j :: 0 <= j < i ==> surahs[j].id != id
    ensures r.None? <==> forall s :: s in surahs ==> s.id != id
  {
    if surahs == [] then None
    else if surahs[0].id == id then Some(surahs[0])
    else FindSurah(surahs[1..], id)
  }

  /** `surah?.name || 'unknown'`: an unknown surah or an empty name both read "unknown". */
  function SurahNameOf(surahs: seq<Surah>, id: int): string
  {
    match FindSurah(surahs, id)
    case Some(s) => if s.name != "" then s.name else "unknown"
    case None => "unknown"
  }

  function AyahResult(surahs: seq<Surah>, ayah: Ayah, index: nat): SearchResult
  {
    SearchResult(AyahHit, ayah.surahNumber, SurahNameOf(surahs, ayah.surahNumber), ayah.numberInSurah, ayah.text,
                 JsNumbers.CeilDiv(index, AYAHS_PER_PAGE))
  }

  /** What the forEach of `searchAyahs` pushes for the first `n` verses. */
  function AyahHits(surahs: seq<Surah>, ayahs: seq<Ayah>, query: string, n: nat): seq<SearchResult>
    requires n <= |ayahs|
  {
    if n == 0 then []
    else
      AyahHits(surahs, ayahs, query, n - 1)
        + (if Text.Contains(NormalizeText(ayahs[n - 1].text), query) then [AyahResult(surahs, ayahs[n - 1], n - 1)] else [])
  }

  /** Every verse result is a verse whose normalised text contains the query, on page `ceil(index / 15)`. */
  lemma {:induction false} AyahHitsExactly(surahs: seq<Surah>, ayahs: seq<Ayah>, query: string, n: nat)
    requires n <= |ayahs|
    ensures forall r :: r in AyahHits(surahs, ayahs, query, n) ==>
      r.kind == AyahHit && exists i :: 0 <= i < n && Text.Contains(NormalizeText(ayahs[i].text), query)
                                       && r == AyahResult(surahs, ayahs[i], i)
    ensures forall i :: 0 <= i < n && Text.Contains(NormalizeText(ayahs[i].text), query) ==>
      AyahResult(surahs, ayahs[i], i) in AyahHits(surahs, ayahs, query, n)
  {
    if n > 0 {
      AyahHitsExactly(surahs, ayahs, query, n - 1);
    }
  }

  /** The verse at index `i` is placed on page `ceil(i / 15)`, for every index. */
  lemma PageOfIndex(surahs: seq<Surah>, ayah: Ayah, i: nat)
    ensures AyahResult(surahs, ayah, i).page == (i + AYAHS_PER_PAGE - 1) / AYAHS_PER_PAGE
    ensures (AyahResult(surahs, ayah, i).page - 1) * AYAHS_PER_PAGE < i <= AyahResult(surahs, ayah, i).page * AYAHS_PER_PAGE
  {
  }

  /** Consequently the first verse sits on page 0, the second to fifteenth on page 1 and the sixteenth on page 2. */
  lemma FirstPages(surahs: seq<Surah>, ayah: Ayah)
    ensures AyahResult(surahs, ayah, 0).page == 0
    ensures AyahResult(surahs, ayah, 1).page == 1 && AyahResult(surahs, ayah, 15).page == 1
    ensures AyahResult(surahs, ayah, 16).page == 2
  {
    PageOfIndex(surahs, ayah, 0);
    PageOfIndex(surahs, ayah, 1);
    PageOfIndex(surahs, ayah, 15);
    PageOfIndex(surahs, ayah, 16);
  }

  /** `searchAyahs`. */
  method SearchAyahs(surahs: seq<Surah>, query: string, ayahs: seq<Ayah>) returns (results: seq<SearchResult>)
    ensures results == AyahHits(surahs, ayahs, query, |ayahs|)
  {
    results := [];
    for index := 0 to |ayahs|
      invariant results == AyahHits(surahs, ayahs, query, index)
    {
      var ayah := ayahs[index];
      if Text.Contains(NormalizeText(ayah.text), query) {
        results := results + [AyahResult(surahs, ayah, index)];
      }
    }
  }

  // ---------------------------------------------------------------- searchQuran

  predicate IsSurahResult(r: SearchResult) { r.kind == SurahHit }

  predicate IsAyahResult(r: SearchResult) { r.kind == AyahHit }

  /** The stable sort of `searchQuran`: surah results first, each kind in its own order. */
  function SurahsFirst(results: seq<SearchResult>): seq<SearchResult>
  {
    Seqs.Filter(IsSurahResult, results) + Seqs.Filter(IsAyahResult, results)
  }

  /** Results already split into surah results then verse results are left as they are by the sort. */
  lemma SurahsFirstKeeps(surahResults: seq<SearchResult>, ayahResults: seq<SearchResult>)
    requires forall r :: r in surahResults ==> r.kind == SurahHit
    requires forall r :: r in ayahResults ==> r.kind == AyahHit
    ensures SurahsFirst(surahResults + ayahResults) == surahResults + ayahResults
  {
    Seqs.FilterFront(IsSurahResult, surahResults, ayahResults);
    Seqs.FilterBack(IsAyahResult, surahResults, ayahResults);
  }

  /** After the sort no verse result precedes a surah result. */
  lemma SurahsFirstOrdered(results: seq<SearchResult>)
    ensures forall i, j :: 0 <= i < j < |SurahsFirst(results)| && SurahsFirst(results)[j].kind == SurahHit ==>
      SurahsFirst(results)[i].kind == SurahHit
  {
    var a: seq<SearchResult> := Seqs.Filter(IsSurahResult, results);
    var b: seq<SearchResult> := Seqs.Filter(IsAyahResult, results);
    assert forall k :: |a| <= k < |a + b| ==> (a + b)[k] == b[k - |a|] && b[k - |a|] in b;
    forall i, j | 0 <= i < j < |a + b| && (a + b)[j].kind == SurahHit
      ensures (a + b)[i].kind == SurahHit
    {
      assert (a + b)[i] in a;
    }
  }

  lemma {:induction false} SurahHitsKind(surahs: seq<Surah>, query: string)
    ensures forall r :: r in SurahHits(surahs, query) ==> r.kind == SurahHit
    decreases |surahs|
  {
    if surahs != [] {
      SurahHitsKind(surahs[..|surahs| - 1], query);
    }
  }

  lemma {:induction false} AyahHitsKind(surahs: seq<Surah>, ayahs: seq<Ayah>, query: string, n: nat)
    requires n <= |ayahs|
    ensures forall r :: r in AyahHits(surahs, ayahs, query, n) ==> r.kind == AyahHit
  {
    if n > 0 {
      AyahHitsKind(surahs, ayahs, query, n - 1);
    }
  }

  /**
   * `searchQuran`: the query normalised, the surah results, then the verse
   * results when verse data is given and non-empty, then the surah-first sort.
   */
  method SearchQuran(surahs: seq<Surah>, query: string, ayahsData: Option<seq<Ayah>>) returns (results: seq<SearchResult>)
    ensures var q := NormalizeText(query);
      results == SurahHits(surahs, q)
        + (if ayahsData.Some? && |ayahsData.value| > 0 then AyahHits(surahs, ayahsData.value, q, |ayahsData.value|) else [])
  {
    results := [];
    var normalizedQuery := NormalizeText(query);
    var surahResults := SearchSurahs(surahs, normalizedQuery);
    results := results + surahResults;
    assert results == surahResults;
    var ayahResults: seq<SearchResult> := [];
    if ayahsData.Some? && |ayahsData.value| > 0 {
      ayahResults := SearchAyahs(surahs, normalizedQuery, ayahsData.value);
      AyahHitsKind(surahs, ayahsData.value, normalizedQuery, |ayahsData.value|);
    }
    results := results + ayahResults;
    assert results == surahResults + ayahResults;
    SurahHitsKind(surahs, normalizedQuery);
    SurahsFirstKeeps(surahResults, ayahResults);
    results := SurahsFirst(results);
  }

  // ---------------------------------------------------------------- fuzzy search

  /**
   * `calculateSimilarity`: one minus the edit distance over the longer
   * length; two empty strings divide zero by zero, which is `NaN`, here None.
   */
  function Similarity(str1: string, str2: string): Option<real>
  {
    var shorter := if |str1| < |str2| then str1 else str2;
    var longer := if |str1| < |str2| then str2 else str1;
    if |longer| == 0 then None
    else Some(1.0 - EditDistance.Distance(shorter, longer) as real / |longer| as real)
  }

  /** Apart from `NaN` for two empty strings, this is the symmetric edit-distance similarity. */
  lemma SimilarityAgrees(str1: string, str2: string)
    ensures Similarity(str1, str2).None? <==> str1 == "" && str2 == ""
    ensures Similarity(str1, str2).Some? ==> Similarity(str1, str2).value == EditDistance.Similarity(str1, str2)
    ensures Similarity(str1, str2) == Similarity(str2, str1)
  {
    EditDistance.DistanceSymmetric(str1, str2);
  }

  /** `calculateSimilarity` with the table of `levenshteinDistance` filled. */
  method CalculateSimilarity(str1: string, str2: string) returns (s: Option<real>)
    ensures s == Similarity(str1, str2)
  {
    var shorter := if |str1| < |str2| then str1 else str2;
    var longer := if |str1| < |str2| then str2 else str1;
    var editDistance := EditDistance.FillWithCost(shorter, longer);
    if |longer| == 0 {
      return None;
    }
    s := Some(1.0 - editDistance as real / |longer| as real);
  }

  const DEFAULT_THRESHOLD: real := 0.6

  /** `similarity >= threshold`; a comparison with `NaN` is false. */
  predicate KeepItem(query: string, item: string, threshold: real)
  {
    Similarity(query, item).Some? && Similarity(query, item).value >= threshold
  }

  /** `fuzzySearch`. */
  function FuzzySearch(query: string, items: seq<string>, threshold: real): seq<string>
  {
    Seqs.Filter((item: string) => KeepItem(query, item, threshold), items)
  }

  /**
   * The items kept are those at or above the threshold, in their order; an
   * empty item is never kept for an empty query, and a non-empty item equal to
   * the query always is when the threshold is at most 1.
   */
  lemma FuzzySearchKeeps(query: string, items: seq<string>, threshold: real)
    ensures forall x :: x in FuzzySearch(query, items, threshold) <==>
      x in items && Similarity(query, x).Some? && Similarity(query, x).value >= threshold
    ensures query == "" ==> "" !in FuzzySearch(query, items, threshold)
    ensures query != "" && query in items && threshold <= 1.0 ==> query in FuzzySearch(query, items, threshold)
  {
    SimilarityAgrees(query, query);
    EditDistance.SimilarityRange(query, query);
  }

  // ---------------------------------------------------------------- suggestions

  /** `Set.prototype.add` on an insertion-ordered set. */
  function Add(added: seq<string>, x: string): seq<string>
  {
    if x in added then added else added + [x]
  }

  /** What the forEach of `getSuggestions` adds for one surah. */
  function AddSurah(added: seq<string>, surah: Surah, normalizedQuery: string, query: string): seq<string>
  {
    var withName := if Text.Contains(NormalizeText(surah.name), normalizedQuery) then Add(added, surah.name) else added;
    if Text.Contains(Text.IntToString(surah.id), query)
    then Add(withName, surah.name + " - الرقم " + Text.IntToString(surah.id))
    else withName
  }

  function SuggestionSet(surahs: seq<Surah>, normalizedQuery: string, query: string): seq<string>
  {
    if surahs == [] then []
    else AddSurah(SuggestionSet(surahs[..|surahs| - 1], normalizedQuery, query), surahs[|surahs| - 1], normalizedQuery, query)
  }

  lemma AddKeeps(added: seq<string>, x: string)
    requires Seqs.NoDuplicates(added)
    ensures Seqs.NoDuplicates(Add(added, x))
    ensures forall y :: y in Add(added, x) <==> y in added || y == x
  {
  }

  /** The set never holds a duplicate. */
  lemma {:induction false} SuggestionSetDistinct(surahs: seq<Surah>, normalizedQuery: string, query: string)
    ensures Seqs.NoDuplicates(SuggestionSet(surahs, normalizedQuery, query))
    decreases |surahs|
  {
    if surahs != [] {
      var prev := SuggestionSet(surahs[..|surahs| - 1], normalizedQuery, query);
      var surah := surahs[|surahs| - 1];
      SuggestionSetDistinct(surahs[..|surahs| - 1], normalizedQuery, query);
      var withName := if Text.Contains(NormalizeText(surah.name), normalizedQuery) then Add(prev, surah.name) else prev;
      AddKeeps(prev, surah.name);
      AddKeeps(withName, surah.name + " - الرقم " + Text.IntToString(surah.id));
    }
  }

  /** The forEach of `getSuggestions`. */
  method CollectSuggestions(surahs: seq<Surah>, normalizedQuery: string, query: string) returns (suggestions: seq<string>)
    ensures suggestions == SuggestionSet(surahs, normalizedQuery, query)
  {
    suggestions := [];
    for i := 0 to |surahs|
      invariant suggestions == SuggestionSet(surahs[..i], normalizedQuery, query)
    {
      assert surahs[..i + 1][..i] == surahs[..i];
      var surah := surahs[i];
      if Text.Contains(NormalizeText(surah.name), normalizedQuery) {
        suggestions := Add(suggestions, surah.name);
      }
      if Text.Contains(Text.IntToString(surah.id), query) {
        suggestions := Add(suggestions, surah.name + " - الرقم " + Text.IntToString(surah.id));
      }
    }
    assert surahs[..|surahs|] == surahs;
  }

  /** `getSuggestions`: the distinct names and numbered names of matching surahs, cut to `limit`. */
  method GetSuggestions(surahs: seq<Surah>, query: string, limit: int) returns (r: seq<string>)
    ensures var all := SuggestionSet(surahs, NormalizeText(query), query);
      r == all[..JsNumbers.SliceEnd(|all|, limit)]
    ensures limit >= 0 ==> |r| <= limit
    ensures Seqs.NoDuplicates(r)
  {
    var normalizedQuery := NormalizeText(query);
    var suggestions := CollectSuggestions(surahs, normalizedQuery, query);
    SuggestionSetDistinct(surahs, normalizedQuery, query);
    var end := JsNumbers.SliceEnd(|suggestions|, limit);
    Seqs.PrefixNoDuplicates(suggestions, end);
    r := suggestions[..end];
  }
}
