/**
 * Mushaf-style pagination of a surah: the verses are cut into pages of
 * fifteen, numbered on from the surah's traditional start page, and a page
 * cache answers only for entries of the current version.
 */
module QuranPages {
  import opened Wrappers
  import JsNumbers

  const AYAHS_PER_PAGE := 15
  const CACHE_VERSION := 1

  /** A verse as the data source delivers it. */
  datatype RawAyah = RawAyah(number: int, numberInSurah: int, text: string)

  datatype QuranAyah = QuranAyah(numberInSurah: int, numberInQuran: int, text: string, juzNumber: int, hizbNumber: int)

  datatype QuranPage = QuranPage(pageNumber: int, surahId: int, startAyah: int, endAyah: int, ayahs: seq<QuranAyah>)

  /** The verse record built in the loop, with the approximate juz and hizb. */
  function ToQuranAyah(ayah: RawAyah): QuranAyah
  {
    QuranAyah(ayah.numberInSurah, ayah.number, ayah.text,
              JsNumbers.CeilDiv(ayah.number, 238), JsNumbers.CeilDiv(ayah.number, 60))
  }

  function Convert(ayahsData: seq<RawAyah>): (r: seq<QuranAyah>)
    ensures |r| == |ayahsData| && forall i :: 0 <= i < |r| ==> r[i] == ToQuranAyah(ayahsData[i])
  {
    seq(|ayahsData|, i requires 0 <= i < |ayahsData| => ToQuranAyah(ayahsData[i]))
  }

  /** `createPage`. */
  function CreatePage(pageNumber: int, surahId: int, startAyah: int, endAyah: int, ayahs: seq<QuranAyah>): QuranPage
  {
    QuranPage(pageNumber, surahId, startAyah, endAyah, ayahs)
  }

  // ---------------------------------------------------------------- start pages

  /**
   * `calculateStartPage`: the start page of surahs 1 to 114 in the printed
   * mushaf, and page 1 for any other id. The entries are kept in three
   * tables of 38 so that each proof about them unfolds one of them.
   */
  function CalculateStartPage(surahId: int): int
  {
    if surahId <= 38 then StartPageUpTo38(surahId)
    else if surahId <= 76 then StartPageUpTo76(surahId)
    else StartPageUpTo114(surahId)
  }

  /** Table entries for surahs 1 to 38; 1 for any other id. */
  function StartPageUpTo38(surahId: int): int
  {
    match surahId
      case 1 => 1
      case 2 => 2
      case 3 => 50
      case 4 => 77
      case 5 => 106
      case 6 => 128
      case 7 => 151
      case 8 => 177
      case 9 => 187
      case 10 => 209
      case 11 => 221
      case 12 => 235
      case 13 => 249
      case 14 => 255
      case 15 => 262
      case 16 => 267
      case 17 => 282
      case 18 => 293
      case 19 => 305
      case 20 => 312
      case 21 => 322
      case 22 => 332
      case 23 => 342
      case 24 => 350
      case 25 => 359
      case 26 => 367
      case 27 => 377
      case 28 => 385
      case 29 => 395
      case 30 => 404
      case 31 => 415
      case 32 => 420
      case 33 => 423
      case 34 => 431
      case 35 => 438
      case 36 => 443
      case 37 => 450
      case 38 => 458
      case _ => 1
  }

  /** Table entries for surahs 39 to 76; 1 for any other id. */
  function StartPageUpTo76(surahId: int): int
  {
    match surahId
      case 39 => 467
      case 40 => 477
      case 41 => 486
      case 42 => 494
      case 43 => 500
      case 44 => 506
      case 45 => 511
      case 46 => 516
      case 47 => 520
      case 48 => 524
      case 49 => 528
      case 50 => 531
      case 51 => 534
      case 52 => 536
      case 53 => 538
      case 54 => 540
      case 55 => 543
      case 56 => 546
      case 57 => 550
      case 58 => 553
      case 59 => 556
      case 60 => 558
      case 61 => 560
      case 62 => 562
      case 63 => 563
      case 64 => 564
      case 65 => 565
      case 66 => 566
      case 67 => 568
      case 68 => 570
      case 69 => 571
      case 70 => 573
      case 71 => 574
      case 72 => 575
      case 73 => 577
      case 74 => 578
      case 75 => 579
      case 76 => 580
      case _ => 1
  }

  /** Table entries for surahs 77 to 114; 1 for any other id. */
  function StartPageUpTo114(surahId: int): int
  {
    match surahId
      case 77 => 582
      case 78 => 583
      case 79 => 584
      case 80 => 585
      case 81 => 586
      case 82 => 587
      case 83 => 588
      case 84 => 589
      case 85 => 590
      case 86 => 591
      case 87 => 592
      case 88 => 592
      case 89 => 593
      case 90 => 594
      case 91 => 595
      case 92 => 595
      case 93 => 596
      case 94 => 596
      case 95 => 597
      case 96 => 597
      case 97 => 598
      case 98 => 598
      case 99 => 599
      case 100 => 600
      case 101 => 600
      case 102 => 600
      case 103 => 601
      case 104 => 601
      case 105 => 601
      case 106 => 602
      case 107 => 602
      case 108 => 602
      case 109 => 603
      case 110 => 603
      case 111 => 603
      case 112 => 604
      case 113 => 604
      case 114 => 604
      case _ => 1
  }

  /** Consecutive surahs start on non-decreasing pages within 1..604. */
  lemma StartPageStep(a: int)
    requires 1 <= a < 114
    ensures 1 <= CalculateStartPage(a) <= CalculateStartPage(a + 1) <= 604
  {
    if a < 38 {
      StepUpTo38(a);
    } else if a == 38 {
    } else if a < 76 {
      StepUpTo76(a);
    } else if a == 76 {
    } else {
      StepUpTo114(a);
    }
  }

  lemma StepUpTo38(a: int)
    requires 1 <= a < 38
    ensures 1 <= StartPageUpTo38(a) <= StartPageUpTo38(a + 1) <= 604
  {
    if a < 19 {} else {}
  }

  lemma StepUpTo76(a: int)
    requires 39 <= a < 76
    ensures 1 <= StartPageUpTo76(a) <= StartPageUpTo76(a + 1) <= 604
  {
    if a < 57 {} else {}
  }

  lemma StepUpTo114(a: int)
    requires 77 <= a < 114
    ensures 1 <= StartPageUpTo114(a) <= StartPageUpTo114(a + 1) <= 604
  {
    if a < 95 {} else {}
  }

  /** The whole table is non-decreasing over 1..114 and stays within pages 1..604. */
  lemma {:induction false} StartPageOrder(a: int, b: int)
    requires 1 <= a <= b <= 114
    ensures 1 <= CalculateStartPage(a) <= CalculateStartPage(b) <= 604
    decreases b - a
  {
    if a < b {
      StartPageStep(b - 1);
      StartPageOrder(a, b - 1);
    } else if a < 114 {
      StartPageStep(a);
    } else {
      StartPageStep(a - 1);
    }
  }

  lemma UnknownSurahStartsOnPageOne(surahId: int)
    requires surahId < 1 || surahId > 114
    ensures CalculateStartPage(surahId) == 1
  {
  }

  // ---------------------------------------------------------------- pages

  /** `getTotalPagesForSurah`. */
  function GetTotalPagesForSurah(numberOfAyahs: int): int
  {
    JsNumbers.CeilDiv(numberOfAyahs, AYAHS_PER_PAGE)
  }

  function Min(x: int, y: int): int { if x < y then x else y }

  /** The verses of page `k`: the `k`th run of fifteen, the last one shorter. */
  function PageAyahs(ayahs: seq<QuranAyah>, k: nat): (r: seq<QuranAyah>)
    requires k < GetTotalPagesForSurah(|ayahs|)
    ensures 1 <= |r| <= AYAHS_PER_PAGE
  {
    ayahs[AYAHS_PER_PAGE * k .. Min(AYAHS_PER_PAGE * k + AYAHS_PER_PAGE, |ayahs|)]
  }

  function PageAt(start: int, surahId: int, ayahs: seq<QuranAyah>, k: nat): QuranPage
    requires k < GetTotalPagesForSurah(|ayahs|)
  {
    var page := PageAyahs(ayahs, k);
    CreatePage(start + k, surahId, page[0].numberInSurah, page[|page| - 1].numberInSurah, page)
  }

  /** The pages `convertToPages` builds for the converted verses. */
  function Pages(start: int, surahId: int, ayahs: seq<QuranAyah>): (r: seq<QuranPage>)
    ensures |r| == GetTotalPagesForSurah(|ayahs|)
  {
    seq(GetTotalPagesForSurah(|ayahs|), k requires 0 <= k < GetTotalPagesForSurah(|ayahs|) => PageAt(start, surahId, ayahs, k))
  }

  /** The verses of the pages, one page after the other. */
  function Flatten(pages: seq<QuranPage>): seq<QuranAyah>
  {
    if pages == [] then [] else Flatten(pages[..|pages| - 1]) + pages[|pages| - 1].ayahs
  }

  lemma {:induction false} FlattenPrefix(start: int, surahId: int, ayahs: seq<QuranAyah>, m: nat)
    requires m <= GetTotalPagesForSurah(|ayahs|)
    ensures Flatten(Pages(start, surahId, ayahs)[..m]) == ayahs[..Min(AYAHS_PER_PAGE * m, |ayahs|)]
  {
    if m > 0 {
      var pages := Pages(start, surahId, ayahs);
      FlattenPrefix(start, surahId, ayahs, m - 1);
      assert pages[..m][..m - 1] == pages[..m - 1];
      assert pages[..m][m - 1] == PageAt(start, surahId, ayahs, m - 1);
      var lo := AYAHS_PER_PAGE * (m - 1);
      var hi := Min(AYAHS_PER_PAGE * m, |ayahs|);
      assert ayahs[..hi] == ayahs[..lo] + ayahs[lo..hi];
    }
  }

  /**
   * Putting the pages' verses one after the other gives back the verses; all
   * pages but the last hold fifteen and the last one to fifteen; the pages are
   * numbered on from the start page and each names its first and last verse.
   */
  lemma PagesShape(start: int, surahId: int, ayahs: seq<QuranAyah>)
    ensures Flatten(Pages(start, surahId, ayahs)) == ayahs
    ensures ayahs == [] <==> Pages(start, surahId, ayahs) == []
    ensures |Pages(start, surahId, ayahs)| == GetTotalPagesForSurah(|ayahs|)
    ensures AYAHS_PER_PAGE * (|Pages(start, surahId, ayahs)| - 1) < |ayahs| <= AYAHS_PER_PAGE * |Pages(start, surahId, ayahs)|
    ensures var pages := Pages(start, surahId, ayahs);
      forall k :: 0 <= k < |pages| ==>
        && (k < |pages| - 1 ==> |pages[k].ayahs| == AYAHS_PER_PAGE)
        && 1 <= |pages[k].ayahs| <= AYAHS_PER_PAGE
        && pages[k].pageNumber == start + k
        && pages[k].startAyah == pages[k].ayahs[0].numberInSurah
        && pages[k].endAyah == pages[k].ayahs[|pages[k].ayahs| - 1].numberInSurah
  {
    var pages := Pages(start, surahId, ayahs);
    FlattenPrefix(start, surahId, ayahs, |pages|);
    assert pages[..|pages|] == pages;
    assert ayahs[..|ayahs|] == ayahs;
  }

  /** The buffer, flushed once it holds the next run of verses, is the next page. */
  lemma FlushExtends(start: int, surahId: int, ayahs: seq<QuranAyah>, pages: seq<QuranPage>, i: nat)
    requires PagesSoFar(start, surahId, ayahs, pages)
    requires i <= |ayahs| && AYAHS_PER_PAGE * |pages| < i <= AYAHS_PER_PAGE * |pages| + AYAHS_PER_PAGE
    requires i == |ayahs| || i == AYAHS_PER_PAGE * |pages| + AYAHS_PER_PAGE
    ensures var buffer := ayahs[AYAHS_PER_PAGE * |pages| .. i];
      PagesSoFar(start, surahId, ayahs, pages + [CreatePage(start + |pages|, surahId, buffer[0].numberInSurah, buffer[|buffer| - 1].numberInSurah, buffer)])
  {
    var m := |pages|;
    var q := GetTotalPagesForSurah(|ayahs|);
    assert AYAHS_PER_PAGE * q - AYAHS_PER_PAGE < |ayahs|;
    assert AYAHS_PER_PAGE * m < AYAHS_PER_PAGE * q;
    PagesSoFarPush(start, surahId, ayahs, pages, PageAt(start, surahId, ayahs, m));
  }

  lemma PageCountReached(n: nat, m: nat)
    requires AYAHS_PER_PAGE * m <= n < AYAHS_PER_PAGE * m + AYAHS_PER_PAGE
    ensures n == AYAHS_PER_PAGE * m ==> GetTotalPagesForSurah(n) == m
    ensures n > AYAHS_PER_PAGE * m ==> GetTotalPagesForSurah(n) == m + 1
  {
    var q := GetTotalPagesForSurah(n);
    assert AYAHS_PER_PAGE * q - AYAHS_PER_PAGE < n <= AYAHS_PER_PAGE * q;
  }

  /** `pages` are the first pages of `ayahs`. */
  predicate PagesSoFar(start: int, surahId: int, ayahs: seq<QuranAyah>, pages: seq<QuranPage>)
  {
    |pages| <= GetTotalPagesForSurah(|ayahs|) && pages == Pages(start, surahId, ayahs)[..|pages|]
  }

  lemma PagesSoFarPush(start: int, surahId: int, ayahs: seq<QuranAyah>, pages: seq<QuranPage>, page: QuranPage)
    requires PagesSoFar(start, surahId, ayahs, pages) && |pages| < GetTotalPagesForSurah(|ayahs|)
    requires page == PageAt(start, surahId, ayahs, |pages|)
    ensures PagesSoFar(start, surahId, ayahs, pages + [page])
  {
    assert Pages(start, surahId, ayahs)[..|pages| + 1] == Pages(start, surahId, ayahs)[..|pages|] + [page];
  }

  lemma PagesSoFarDone(start: int, surahId: int, ayahs: seq<QuranAyah>, pages: seq<QuranPage>)
    requires PagesSoFar(start, surahId, ayahs, pages) && |pages| == GetTotalPagesForSurah(|ayahs|)
    ensures pages == Pages(start, surahId, ayahs)
  {
  }

  /**
   * `convertToPages`: the pages numbered on from the surah's start page.
   */
  method ConvertToPages(surahId: int, ayahsData: seq<RawAyah>) returns (pages: seq<QuranPage>)
    ensures pages == Pages(CalculateStartPage(surahId), surahId, Convert(ayahsData))
  {
    var startPage := CalculateStartPage(surahId);
    pages := PaginateFrom(startPage, surahId, ayahsData);
  }

  /**
   * `convertToPages` from page number `start`: the loop, then what is left in
   * the buffer flushed as a last page.
   */
  method PaginateFrom(start: int, surahId: int, ayahsData: seq<RawAyah>) returns (pages: seq<QuranPage>)
    ensures pages == Pages(start, surahId, Convert(ayahsData))
  {
    ghost var all := Convert(ayahsData);
    var pageAyahs, currentPageNumber;
    pages, pageAyahs, currentPageNumber := FullPages(start, surahId, ayahsData);
    PageCountReached(|all|, |pages|);
    if |pageAyahs| > 0 {
      assert pageAyahs == all[AYAHS_PER_PAGE * |pages| .. |all|];
      FlushExtends(start, surahId, all, pages, |all|);
      var page := CreatePage(currentPageNumber, surahId, pageAyahs[0].numberInSurah,
                             pageAyahs[|pageAyahs| - 1].numberInSurah, pageAyahs);
      pages := pages + [page];
    }
    PagesSoFarDone(start, surahId, all, pages);
  }

  /**
   * The loop of `convertToPages`: each verse converted and pushed into the
   * buffer, and a full buffer flushed as a page with the next page number.
   */
  method FullPages(start: int, surahId: int, ayahsData: seq<RawAyah>)
      returns (pages: seq<QuranPage>, pageAyahs: seq<QuranAyah>, currentPageNumber: int)
    ensures AYAHS_PER_PAGE * |pages| <= |ayahsData| < AYAHS_PER_PAGE * |pages| + AYAHS_PER_PAGE
    ensures currentPageNumber == start + |pages|
    ensures pageAyahs == Convert(ayahsData)[AYAHS_PER_PAGE * |pages| ..]
    ensures PagesSoFar(start, surahId, Convert(ayahsData), pages)
  {
    ghost var all := Convert(ayahsData);
    pages := [];
    currentPageNumber := start;
    pageAyahs := [];
    for i := 0 to |ayahsData|
      invariant AYAHS_PER_PAGE * |pages| <= i < AYAHS_PER_PAGE * |pages| + AYAHS_PER_PAGE
      invariant currentPageNumber == start + |pages|
      invariant pageAyahs == all[AYAHS_PER_PAGE * |pages| .. i]
      invariant PagesSoFar(start, surahId, all, pages)
    {
      pageAyahs := pageAyahs + [ToQuranAyah(ayahsData[i])];
      assert pageAyahs == all[AYAHS_PER_PAGE * |pages| .. i + 1];
      if |pageAyahs| >= AYAHS_PER_PAGE {
        FlushExtends(start, surahId, all, pages, i + 1);
        var page := CreatePage(currentPageNumber, surahId, pageAyahs[0].numberInSurah,
                               pageAyahs[|pageAyahs| - 1].numberInSurah, pageAyahs);
        pages := pages + [page];
        pageAyahs := [];
        currentPageNumber := currentPageNumber + 1;
      }
    }
    assert all[AYAHS_PER_PAGE * |pages| .. |ayahsData|] == all[AYAHS_PER_PAGE * |pages| ..];
  }

  // ---------------------------------------------------------------- cache

  datatype CacheEntry = CacheEntry(pages: seq<QuranPage>, timestamp: int, version: int)

  /** The parsed value of the storage key `quran_pages_cache`: an entry per surah id. */
  class PageCache {
    var entries: map<int, CacheEntry>

    constructor()
      ensures entries == map[]
    {
      entries := map[];
    }

    /** `cachePages` at clock reading `now`: the surah's entry replaced, the others kept. */
    method CachePages(surahId: int, pages: seq<QuranPage>, now: int)
      modifies this
      ensures entries == old(entries)[surahId := CacheEntry(pages, now, CACHE_VERSION)]
      ensures GetCachedPages(surahId) == Some(pages)
    {
      entries := entries[surahId := CacheEntry(pages, now, CACHE_VERSION)];
    }

    /** `getCachedPages`: the pages of an entry of the current version, otherwise null. */
    function GetCachedPages(surahId: int): (r: Option<seq<QuranPage>>)
      reads this
      ensures r.Some? <==> surahId in entries && entries[surahId].version == CACHE_VERSION
      ensures r.Some? ==> r.value == entries[surahId].pages
    {
      if surahId in entries && entries[surahId].version == CACHE_VERSION then Some(entries[surahId].pages) else None
    }

    /** `clearCache`. */
    method ClearCache()
      modifies this
      ensures entries == map[]
    {
      entries := map[];
    }
  }
}
