/**
 * The assistant's offline knowledge base: six databases (general questions,
 * azkar, Quran surahs, hadith, fiqh rulings and stories), a text search over
 * each, random picks and the related-content bundle. The databases are a
 * parameter; the order `sort(() => 0.5 - Math.random())` leaves is a
 * permutation parameter.
 */
module KnowledgeBase {
  import opened Wrappers
  import Text
  import Seqs
  import Shuffle

  datatype KnowledgeEntry = KnowledgeEntry(
    id: string, category: string, title: string, titleArabic: string, answer: string,
    relatedVerses: Option<seq<string>>, relatedHadiths: Option<seq<string>>,
    suggestedTopics: Option<seq<string>>, difficulty: string, keywords: seq<string>)

  datatype AzkarEntry = AzkarEntry(
    id: string, category: string, titleArabic: string, zikr: string, transliteration: string,
    meaning: string, reward: string, frequency: string, timing: string)

  datatype Revelation = Meccan | Medinan

  datatype QuranEntry = QuranEntry(
    id: string, surahNumber: int, surahName: string, surahNameArabic: string,
    revelation: Revelation, versesCount: int, theme: string, keyVerse: string,
    keyVerseTranslation: string, keyAyaNumber: int, description: string,
    importantTopics: seq<string>)

  datatype HadithEntry = HadithEntry(
    id: string, text: string, source: string, narrator: string, degree: string, topic: string,
    meaning: string, practicalApplication: string, relatedAhadith: Option<seq<string>>)

  datatype FiqhEntry = FiqhEntry(
    id: string, title: string, titleArabic: string, category: string, definition: string,
    ruling: string, conditions: Option<seq<string>>, relatedAyas: Option<seq<string>>,
    examples: Option<seq<string>>, practicalTips: Option<seq<string>>)

  datatype StoryEntry = StoryEntry(
    id: string, title: string, titleArabic: string, kind: string, fullStory: string,
    lesson: string, moralOfStory: string)

  /** `GENERAL_KNOWLEDGE`, `AZKAR_DATABASE`, `QURAN_DATABASE`, `HADITH_DATABASE`, `FIQH_DATABASE` and `STORIES_DATABASE`. */
  datatype Databases = Databases(
    general: seq<KnowledgeEntry>, azkar: seq<AzkarEntry>, quran: seq<QuranEntry>,
    hadith: seq<HadithEntry>, fiqh: seq<FiqhEntry>, stories: seq<StoryEntry>)

  // ---------------------------------------------------------------- what each search matches

  /** `x.toLowerCase().includes(query.toLowerCase())`. */
  predicate HasLower(x: string, query: string)
  {
    Text.Contains(Text.Lower(x), Text.Lower(query))
  }

  predicate KnowledgeMatches(e: KnowledgeEntry, query: string)
  {
    HasLower(e.title, query) || Text.Contains(e.titleArabic, query)
    || exists i :: 0 <= i < |e.keywords| && HasLower(e.keywords[i], query)
  }

  predicate AzkarMatches(e: AzkarEntry, query: string)
  {
    Text.Contains(e.titleArabic, query) || Text.Contains(e.zikr, query) || HasLower(e.category, query)
  }

  predicate QuranMatches(e: QuranEntry, query: string)
  {
    HasLower(e.surahName, query) || Text.Contains(e.surahNameArabic, query) || HasLower(e.theme, query)
  }

  predicate HadithMatches(e: HadithEntry, query: string)
  {
    HasLower(e.text, query) || HasLower(e.topic, query)
  }

  predicate FiqhMatches(e: FiqhEntry, query: string)
  {
    HasLower(e.title, query) || Text.Contains(e.titleArabic, query) || HasLower(e.category, query)
  }

  predicate StoryMatches(e: StoryEntry, query: string)
  {
    HasLower(e.title, query) || Text.Contains(e.titleArabic, query) || HasLower(e.kind, query)
  }

  // ---------------------------------------------------------------- the searches

  /** `searchKnowledgeBase`. */
  function SearchKnowledgeBase(db: Databases, query: string): seq<KnowledgeEntry>
  {
    Seqs.Filter((e: KnowledgeEntry) => KnowledgeMatches(e, query), db.general)
  }

  /** `searchAzkar`. */
  function SearchAzkar(db: Databases, query: string): seq<AzkarEntry>
  {
    Seqs.Filter((e: AzkarEntry) => AzkarMatches(e, query), db.azkar)
  }

  /** `searchQuran`. */
  function SearchQuran(db: Databases, query: string): seq<QuranEntry>
  {
    Seqs.Filter((e: QuranEntry) => QuranMatches(e, query), db.quran)
  }

  /** `searchHadith`. */
  function SearchHadith(db: Databases, query: string): seq<HadithEntry>
  {
    Seqs.Filter((e: HadithEntry) => HadithMatches(e, query), db.hadith)
  }

  /** `searchFiqh`. */
  function SearchFiqh(db: Databases, query: string): seq<FiqhEntry>
  {
    Seqs.Filter((e: FiqhEntry) => FiqhMatches(e, query), db.fiqh)
  }

  /** `searchStories`. */
  function SearchStories(db: Databases, query: string): seq<StoryEntry>
  {
    Seqs.Filter((e: StoryEntry) => StoryMatches(e, query), db.stories)
  }

  /** Each search returns exactly the entries of its database that match, and nothing else. */
  lemma SearchesKeepMatches(db: Databases, query: string)
    ensures forall e :: e in SearchKnowledgeBase(db, query) <==> e in db.general && KnowledgeMatches(e, query)
    ensures forall e :: e in SearchAzkar(db, query) <==> e in db.azkar && AzkarMatches(e, query)
    ensures forall e :: e in SearchQuran(db, query) <==> e in db.quran && QuranMatches(e, query)
    ensures forall e :: e in SearchHadith(db, query) <==> e in db.hadith && HadithMatches(e, query)
    ensures forall e :: e in SearchFiqh(db, query) <==> e in db.fiqh && FiqhMatches(e, query)
    ensures forall e :: e in SearchStories(db, query) <==> e in db.stories && StoryMatches(e, query)
  {
  }

  /**
   * Each search keeps its database's order: searching the database `a + b`
   * gives the hits in `a` followed by the hits in `b`.
   */
  lemma SearchesKeepOrder(a: Databases, b: Databases, query: string)
    ensures var ab := Databases(a.general + b.general, a.azkar + b.azkar, a.quran + b.quran,
                                a.hadith + b.hadith, a.fiqh + b.fiqh, a.stories + b.stories);
      && SearchKnowledgeBase(ab, query) == SearchKnowledgeBase(a, query) + SearchKnowledgeBase(b, query)
      && SearchAzkar(ab, query) == SearchAzkar(a, query) + SearchAzkar(b, query)
      && SearchQuran(ab, query) == SearchQuran(a, query) + SearchQuran(b, query)
      && SearchHadith(ab, query) == SearchHadith(a, query) + SearchHadith(b, query)
      && SearchFiqh(ab, query) == SearchFiqh(a, query) + SearchFiqh(b, query)
      && SearchStories(ab, query) == SearchStories(a, query) + SearchStories(b, query)
  {
    Seqs.FilterConcat((e: KnowledgeEntry) => KnowledgeMatches(e, query), a.general, b.general);
    Seqs.FilterConcat((e: AzkarEntry) => AzkarMatches(e, query), a.azkar, b.azkar);
    Seqs.FilterConcat((e: QuranEntry) => QuranMatches(e, query), a.quran, b.quran);
    Seqs.FilterConcat((e: HadithEntry) => HadithMatches(e, query), a.hadith, b.hadith);
    Seqs.FilterConcat((e: FiqhEntry) => FiqhMatches(e, query), a.fiqh, b.fiqh);
    Seqs.FilterConcat((e: StoryEntry) => StoryMatches(e, query), a.stories, b.stories);
  }

  /** The empty query is contained in every field, so every search returns its whole database. */
  lemma EmptyQueryKeepsAll(db: Databases)
    ensures SearchKnowledgeBase(db, "") == db.general
    ensures SearchAzkar(db, "") == db.azkar
    ensures SearchQuran(db, "") == db.quran
    ensures SearchHadith(db, "") == db.hadith
    ensures SearchFiqh(db, "") == db.fiqh
    ensures SearchStories(db, "") == db.stories
  {
    assert Text.Lower("") == "";
    forall s: string ensures Text.Contains(s, "") { Text.ContainsSelf(s, ""); }
    Seqs.FilterAll((e: KnowledgeEntry) => KnowledgeMatches(e, ""), db.general);
    Seqs.FilterAll((e: AzkarEntry) => AzkarMatches(e, ""), db.azkar);
    Seqs.FilterAll((e: QuranEntry) => QuranMatches(e, ""), db.quran);
    Seqs.FilterAll((e: HadithEntry) => HadithMatches(e, ""), db.hadith);
    Seqs.FilterAll((e: FiqhEntry) => FiqhMatches(e, ""), db.fiqh);
    Seqs.FilterAll((e: StoryEntry) => StoryMatches(e, ""), db.stories);
  }

  /**
   * A hadith is found on its text or topic alone: two hadith that agree on
   * those two fields are found by the same queries, whatever their source,
   * narrator, degree or meaning.
   */
  lemma HadithMatchesOnTextAndTopic(h: HadithEntry, g: HadithEntry, query: string)
    requires h.text == g.text && h.topic == g.topic
    ensures SearchHadith(Databases([], [], [], [h], [], []), query) != []
        <==> SearchHadith(Databases([], [], [], [g], [], []), query) != []
  {
    assert SearchHadith(Databases([], [], [], [h], [], []), query) != [] <==> HadithMatches(h, query) by {
      assert [h][1..] == [];
    }
    assert SearchHadith(Databases([], [], [], [g], [], []), query) != [] <==> HadithMatches(g, query) by {
      assert [g][1..] == [];
    }
  }

  // ---------------------------------------------------------------- random picks

  /** `getRandomAzkar(count)`. */
  function GetRandomAzkar(db: Databases, shuffled: seq<AzkarEntry>, count: int): seq<AzkarEntry>
    requires Shuffle.IsShuffleOf(shuffled, db.azkar)
  {
    Shuffle.TakeAtMost(shuffled, count)
  }

  /** `getRandomStories(count)`. */
  function GetRandomStories(db: Databases, shuffled: seq<StoryEntry>, count: int): seq<StoryEntry>
    requires Shuffle.IsShuffleOf(shuffled, db.stories)
  {
    Shuffle.TakeAtMost(shuffled, count)
  }

  /** Both random picks draw `min(count, size)` entries of their database without repetition. */
  lemma RandomPicksDraw(db: Databases, azkar: seq<AzkarEntry>, stories: seq<StoryEntry>, count: int)
    requires Shuffle.IsShuffleOf(azkar, db.azkar) && Shuffle.IsShuffleOf(stories, db.stories)
    ensures count >= 0 ==> |GetRandomAzkar(db, azkar, count)| == if count < |db.azkar| then count else |db.azkar|
    ensures count >= 0 ==> |GetRandomStories(db, stories, count)| == if count < |db.stories| then count else |db.stories|
    ensures multiset(GetRandomAzkar(db, azkar, count)) <= multiset(db.azkar)
    ensures multiset(GetRandomStories(db, stories, count)) <= multiset(db.stories)
  {
    Shuffle.TakeAtMostDraws(db.azkar, azkar, count);
    Shuffle.TakeAtMostDraws(db.stories, stories, count);
  }

  // ---------------------------------------------------------------- related content

  /** `suggestRelatedTopics`: the entry's suggested topics, or none when it has none. */
  function SuggestRelatedTopics(entry: KnowledgeEntry): (r: seq<string>)
    ensures entry.suggestedTopics.None? ==> r == []
    ensures entry.suggestedTopics.Some? ==> r == entry.suggestedTopics.value
  {
    entry.suggestedTopics.GetOr([])
  }

  datatype RelatedContent = RelatedContent(
    knowledge: seq<KnowledgeEntry>, azkar: seq<AzkarEntry>, quran: seq<QuranEntry>,
    hadith: seq<HadithEntry>, fiqh: seq<FiqhEntry>, stories: seq<StoryEntry>)

  /** `getRelatedContent`: every search for the one query. */
  function GetRelatedContent(db: Databases, query: string): (r: RelatedContent)
    ensures r.knowledge == SearchKnowledgeBase(db, query) && r.azkar == SearchAzkar(db, query)
    ensures r.quran == SearchQuran(db, query) && r.hadith == SearchHadith(db, query)
    ensures r.fiqh == SearchFiqh(db, query) && r.stories == SearchStories(db, query)
  {
    RelatedContent(SearchKnowledgeBase(db, query), SearchAzkar(db, query), SearchQuran(db, query),
                   SearchHadith(db, query), SearchFiqh(db, query), SearchStories(db, query))
  }

  /** The related content for the empty query is the whole knowledge base. */
  lemma RelatedContentOfEmptyQuery(db: Databases)
    ensures GetRelatedContent(db, "")
         == RelatedContent(db.general, db.azkar, db.quran, db.hadith, db.fiqh, db.stories)
  {
    EmptyQueryKeepsAll(db);
  }
}
