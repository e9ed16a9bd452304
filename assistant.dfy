/**
 * The religious assistant: it searches every local database for the prompt,
 * answers from the first database with a hit (Quran, hadith, fiqh, azkar,
 * stories, general, in that order), falls back to a small keyword table,
 * and marks the answer as offline, online or hybrid. Connectivity is a
 * boolean input, the online enrichment is an optional text input, and the
 * random picks used for fallback suggestions are permutation inputs. The
 * speech-text sanitising and the mapping of generated quiz questions are
 * here too.
 */
module Assistant {
  import opened Wrappers
  import Text
  import Seqs
  import Json
  import KB = KnowledgeBase
  import Shuffle

  // ---------------------------------------------------------------- the keyword table

  datatype OfflineEntry = OfflineEntry(key: string, text: string)

  /** `OFFLINE_KNOWLEDGE`, in insertion order, which is the order `for (key in …)` visits. */
  const OFFLINE_KNOWLEDGE: seq<OfflineEntry> := [
    OfflineEntry("التوحيد", "التوحيد هو إفراد الله بالعبادة وإنكار الشريك معه..."),
    OfflineEntry("الإيمان", "الإيمان قول باللسان وتصديق بالجنان وعمل بالأركان..."),
    OfflineEntry("الإحسان", "الإحسان هو أن تعبد الله كأنك تراه..."),
    OfflineEntry("الشهادتين", "أشهد أن لا إله إلا الله وأشهد أن محمداً رسول الله."),
    OfflineEntry(PRAYER, "الصلاة عماد الدين وثاني أركان الإسلام..."),
    OfflineEntry(PRAYER_CONDITIONS, "الإسلام، العقل، التمييز، رفع الحدث..."),
    OfflineEntry(PRAYER_PILLARS, "تكبيرة الإحرام، قراءة الفاتحة، الركوع..."),
    OfflineEntry("الوضوء", "غسل الكفين، المضمضة، غسل الوجه، غسل اليدين..."),
    OfflineEntry("نواقض الوضوء", "الخارج من السبيلين، النوم العميق..."),
    OfflineEntry("التيمم", "هو التطهر بالتراب النظيف عند عدم وجود الماء..."),
    OfflineEntry("الصيام", "هو الإمساك عن المفطرات من طلوع الفجر إلى غروب الشمس..."),
    OfflineEntry("مبطلات الصيام", "الأكل والشرب عمداً، الجماع، القيء عمداً..."),
    OfflineEntry("ليلة القدر", "ليلة عظيمة في شهر رمضان..."),
    OfflineEntry("زكاة الفطر", "واجبة على كل مسلم غني وفقير من تمام رمضان..."),
    OfflineEntry("الزكاة", "حق واجب في مال مخصوص... نصاب الذهب 85 جرام، الفضة 595 جرام..."),
    OfflineEntry("مصارف الزكاة", "ثمانية مصارف: الفقراء، المساكين، العاملين عليها..."),
    OfflineEntry("الحج", "قصد بيت الله الحرام لأداء مناسك مخصوصة..."),
    OfflineEntry("أركان الحج", "الإحرام، الوقوف بعرفة، طواف الإفاضة، السعي..."),
    OfflineEntry("العمرة", "زيارة بيت الله الحرام لأداء الطواف والسعي..."),
    OfflineEntry("أذكار الصباح", "آية الكرسي، سورة الفلق والناس، دعاء أصبحنا..."),
    OfflineEntry("أذكار المساء", "آية الكرسي، سورة الفلق والناس، دعاء أمسينا..."),
    OfflineEntry("دعاء السفر", "سبحان الذي سخر لنا هذا وما كنا له مقرنين..."),
    OfflineEntry("الاستخارة", "صلاة ركعتين ثم دعاء الاستخارة..."),
    OfflineEntry("القرآن", "كلام الله المنزل على محمد صلى الله عليه وسلم..."),
    OfflineEntry("السنة", "كل ما ورد عن النبي صلى الله عليه وسلم من قول أو فعل..."),
    OfflineEntry("الصحابة", "هم من لقوا النبي مؤمنين به وماتوا على الإسلام..."),
    OfflineEntry("بر الوالدين", "طاعتهما في غير معصية، الإحسان إليهما..."),
    OfflineEntry("صلة الرحم", "زيارة الأقارب والإحسان إليهم..."),
    OfflineEntry("الربا", "محرم تحريماً قطعياً..."),
    OfflineEntry("الغيبة", "ذكرك أخاك بما يكره في غيبته من العيوب...")
  ]

  /** `searchPrompt.includes(key.toLowerCase())`. */
  predicate KeyMatches(entry: OfflineEntry, searchPrompt: string)
  {
    Text.Contains(searchPrompt, Text.Lower(entry.key))
  }

  /** The first entry, in table order, whose key the prompt contains. */
  function FirstOfflineMatch(table: seq<OfflineEntry>, searchPrompt: string): Option<OfflineEntry>
  {
    if table == [] then None
    else if KeyMatches(table[0], searchPrompt) then Some(table[0])
    else FirstOfflineMatch(table[1..], searchPrompt)
  }

  /**
   * The table lookup finds an entry exactly when some key is contained in the
   * prompt, and then it is the first such entry: every entry before it misses.
   */
  lemma {:induction false} FirstOfflineMatchIsFirst(table: seq<OfflineEntry>, searchPrompt: string)
    ensures FirstOfflineMatch(table, searchPrompt).None?
        <==> forall i :: 0 <= i < |table| ==> !KeyMatches(table[i], searchPrompt)
    ensures FirstOfflineMatch(table, searchPrompt).Some? ==>
      exists i :: 0 <= i < |table| && FirstOfflineMatch(table, searchPrompt) == Some(table[i])
        && KeyMatches(table[i], searchPrompt)
        && forall j :: 0 <= j < i ==> !KeyMatches(table[j], searchPrompt)
  {
    if table != [] && !KeyMatches(table[0], searchPrompt) {
      FirstOfflineMatchIsFirst(table[1..], searchPrompt);
      if FirstOfflineMatch(table[1..], searchPrompt).Some? {
        var i :| 0 <= i < |table[1..]| && FirstOfflineMatch(table[1..], searchPrompt) == Some(table[1..][i])
          && KeyMatches(table[1..][i], searchPrompt)
          && forall j :: 0 <= j < i ==> !KeyMatches(table[1..][j], searchPrompt);
        assert FirstOfflineMatch(table, searchPrompt) == Some(table[i + 1]);
        forall j | 0 <= j < i + 1 ensures !KeyMatches(table[j], searchPrompt) {
          if j > 0 { assert table[j] == table[1..][j - 1]; }
        }
      }
      forall i | 1 <= i < |table| ensures table[i] == table[1..][i - 1] { }
    } else if table != [] {
      assert FirstOfflineMatch(table, searchPrompt) == Some(table[0]);
    }
  }

  /**
   * A key that contains an earlier key is never chosen: every prompt that
   * contains it contains the earlier one, whose entry comes first.
   */
  lemma ShadowedKeyNeverChosen(table: seq<OfflineEntry>, i: nat, j: nat, searchPrompt: string)
    requires i < j < |table|
    requires Text.Contains(Text.Lower(table[j].key), Text.Lower(table[i].key))
    ensures FirstOfflineMatch(table, searchPrompt) != Some(table[j]) || table[j] == table[i]
        || exists k :: 0 <= k < j && table[k] == table[j]
  {
    FirstOfflineMatchIsFirst(table, searchPrompt);
    if FirstOfflineMatch(table, searchPrompt) == Some(table[j]) {
      var m :| 0 <= m < |table| && FirstOfflineMatch(table, searchPrompt) == Some(table[m])
        && KeyMatches(table[m], searchPrompt)
        && forall n :: 0 <= n < m ==> !KeyMatches(table[n], searchPrompt);
      assert table[m] == table[j];
      Text.ContainsTransitive(searchPrompt, Text.Lower(table[j].key), Text.Lower(table[i].key));
      assert KeyMatches(table[i], searchPrompt);
      assert m <= i;
    }
  }

  /**
   * In the table itself, "شروط الصلاة" and "أركان الصلاة" sit after "الصلاة",
   * which they contain, so their entries are never the offline answer.
   */
  lemma PrayerConditionsShadowed(searchPrompt: string)
    ensures FirstOfflineMatch(OFFLINE_KNOWLEDGE, searchPrompt) != Some(OFFLINE_KNOWLEDGE[5])
    ensures FirstOfflineMatch(OFFLINE_KNOWLEDGE, searchPrompt) != Some(OFFLINE_KNOWLEDGE[6])
  {
    var t := OFFLINE_KNOWLEDGE;
    assert t[4].key == PRAYER && t[5].key == PRAYER_CONDITIONS && t[6].key == PRAYER_PILLARS;
    PrayerKeysContainPrayer();
    assert forall k :: 0 <= k < 5 ==> t[k].key != t[5].key;
    assert forall k :: 0 <= k < 6 ==> t[k].key != t[6].key;
    ShadowedKeyNeverChosen(t, 4, 5, searchPrompt);
    ShadowedKeyNeverChosen(t, 4, 6, searchPrompt);
  }

  const PRAYER := "الصلاة"
  const PRAYER_CONDITIONS := "شروط " + PRAYER
  const PRAYER_PILLARS := "أركان " + PRAYER

  lemma PrayerKeysContainPrayer()
    ensures Text.Contains(Text.Lower(PRAYER_CONDITIONS), Text.Lower(PRAYER))
    ensures Text.Contains(Text.Lower(PRAYER_PILLARS), Text.Lower(PRAYER))
  {
    Text.LowerConcat("شروط ", PRAYER);
    Text.LowerConcat("أركان ", PRAYER);
    Text.ContainsSuffix(Text.Lower("شروط "), Text.Lower(PRAYER));
    Text.ContainsSuffix(Text.Lower("أركان "), Text.Lower(PRAYER));
  }

  // ---------------------------------------------------------------- searching every base

  datatype AllResults = AllResults(
    azkar: seq<KB.AzkarEntry>, quran: seq<KB.QuranEntry>, hadith: seq<KB.HadithEntry>,
    fiqh: seq<KB.FiqhEntry>, stories: seq<KB.StoryEntry>, general: seq<KB.KnowledgeEntry>)

  /** `searchAllBases`. */
  function SearchAllBases(db: KB.Databases, query: string): (r: AllResults)
    ensures r.azkar == KB.SearchAzkar(db, query) && r.quran == KB.SearchQuran(db, query)
    ensures r.hadith == KB.SearchHadith(db, query) && r.fiqh == KB.SearchFiqh(db, query)
    ensures r.stories == KB.SearchStories(db, query) && r.general == KB.SearchKnowledgeBase(db, query)
  {
    AllResults(KB.SearchAzkar(db, query), KB.SearchQuran(db, query), KB.SearchHadith(db, query),
               KB.SearchFiqh(db, query), KB.SearchStories(db, query), KB.SearchKnowledgeBase(db, query))
  }

  // ---------------------------------------------------------------- the local answer

  /** Where the local answer comes from. */
  datatype LocalMatch =
    | FromQuran(surah: KB.QuranEntry)
    | FromHadith(hadith: KB.HadithEntry)
    | FromFiqh(fiqhEntry: KB.FiqhEntry)
    | FromAzkar(zikr: KB.AzkarEntry)
    | FromStory(story: KB.StoryEntry)
    | FromGeneral(general: KB.KnowledgeEntry)
    | FromOffline(entry: OfflineEntry)
    | NoMatch

  /** The first database with a hit, in priority order, else the keyword table. */
  function ChooseLocal(r: AllResults, searchPrompt: string, table: seq<OfflineEntry>): LocalMatch
  {
    if r.quran != [] then FromQuran(r.quran[0])
    else if r.hadith != [] then FromHadith(r.hadith[0])
    else if r.fiqh != [] then FromFiqh(r.fiqh[0])
    else if r.azkar != [] then FromAzkar(r.azkar[0])
    else if r.stories != [] then FromStory(r.stories[0])
    else if r.general != [] then FromGeneral(r.general[0])
    else match FirstOfflineMatch(table, searchPrompt)
      case Some(e) => FromOffline(e)
      case None => NoMatch
  }

  /** `items.map(c => `• ${c}`).join('\n')`. */
  function Bullets(items: seq<string>): string
  {
    if items == [] then ""
    else if |items| == 1 then "• " + items[0]
    else "• " + items[0] + "\n" + Bullets(items[1..])
  }

  const MECCAN_LABEL := "مكية"
  const MEDINAN_LABEL := "مدنية"

  function QuranAnswer(surah: KB.QuranEntry): string
  {
    "📖 **" + surah.surahNameArabic + "**\n" + surah.description
    + "\n📌 الموضوع: " + surah.theme
    + "\n📝 عدد الآيات: " + Text.IntToString(surah.versesCount)
    + "\n🕌 نوع السورة: " + (if surah.revelation == KB.Meccan then MECCAN_LABEL else MEDINAN_LABEL)
    + "\n**آية مهمة:** \"" + surah.keyVerse + "\""
  }

  function HadithAnswer(h: KB.HadithEntry): string
  {
    "🕌 **الحديث الشريف**\n\"" + h.text + "\"\n📖 المصدر: " + h.source
    + "\n👤 الراوي: " + h.narrator + "\n⭐ درجة الحديث: " + h.degree
    + "\n📌 الموضوع: " + h.topic + "\n💡 المعنى: " + h.meaning
  }

  /** The fiqh answer; a present list is truthy even when empty, so its heading is added. */
  function FiqhAnswer(f: KB.FiqhEntry): string
  {
    "⚖️ **" + f.titleArabic + "**\n📚 التعريف: " + f.definition + "\n📖 الحكم: " + f.ruling
    + (if f.conditions.Some? then "\n✅ الشروط:\n" + Bullets(f.conditions.value) else "")
    + (if f.examples.Some? then "\n📝 أمثلة:\n" + Bullets(f.examples.value) else "")
  }

  function AzkarAnswer(z: KB.AzkarEntry): string
  {
    "📿 **" + z.titleArabic + "**\n🎯 الذكر: \"" + z.zikr + "\"\n📖 المعنى: " + z.meaning
    + "\n🏆 الفضل: " + z.reward
  }

  function StoryAnswer(s: KB.StoryEntry): string
  {
    "📖 **" + s.titleArabic + "**\n📜 القصة:\n" + s.fullStory + "\n💡 الدرس: " + s.lesson
  }

  function GeneralAnswer(g: KB.KnowledgeEntry): string
  {
    "📌 **" + g.titleArabic + "**\n" + g.answer
  }

  function OfflineAnswer(e: OfflineEntry): string
  {
    "💬 **" + e.key + "**\n" + e.text
  }

  function LocalAnswer(m: LocalMatch): string
  {
    match m
    case FromQuran(surah) => QuranAnswer(surah)
    case FromHadith(h) => HadithAnswer(h)
    case FromFiqh(f) => FiqhAnswer(f)
    case FromAzkar(z) => AzkarAnswer(z)
    case FromStory(s) => StoryAnswer(s)
    case FromGeneral(g) => GeneralAnswer(g)
    case FromOffline(e) => OfflineAnswer(e)
    case NoMatch => ""
  }

  const AZKAR_TOPICS := ["تطبيق يومي", "أوقات مختلفة", "فضائل إضافية"]
  const STORY_TOPICS := ["دروس أخرى", "شخصيات إسلامية", "قصص مشابهة"]

  /** The topics the matching branch suggests, before any fallback. */
  function LocalTopics(m: LocalMatch): seq<string>
  {
    match m
    case FromQuran(surah) => surah.importantTopics
    case FromHadith(h) => [h.topic]
    case FromFiqh(f) => if f.practicalTips.Some? then Shuffle.TakeAtMost(f.practicalTips.value, 3) else []
    case FromAzkar(_) => AZKAR_TOPICS
    case FromStory(_) => STORY_TOPICS
    case FromGeneral(g) => g.suggestedTopics.GetOr([])
    case _ => []
  }

  datatype Related = Related(verses: seq<string>, hadiths: seq<string>, stories: seq<string>, azkar: seq<string>)

  const NO_RELATED := Related([], [], [], [])

  /** The related content the matching branch records. */
  function LocalRelated(m: LocalMatch): Related
  {
    match m
    case FromQuran(surah) => NO_RELATED.(verses := surah.importantTopics)
    case FromHadith(h) => NO_RELATED.(hadiths := h.relatedAhadith.GetOr([]))
    case FromFiqh(f) => NO_RELATED.(verses := f.relatedAyas.GetOr([]))
    case FromAzkar(z) => NO_RELATED.(azkar := [z.titleArabic])
    case FromStory(s) => NO_RELATED.(stories := [s.titleArabic])
    case _ => NO_RELATED
  }

  // ---------------------------------------------------------------- the response

  datatype Source = Online | Offline | Hybrid

  datatype AssistantResponse = AssistantResponse(
    answer: string, source: Source, suggestedTopics: seq<string>, relatedContent: Related,
    canReadAloud: bool)

  const ENRICHMENT_HEADING := "\n✨ معلومات إضافية:\n"
  const ONLINE_APOLOGY := "عذراً، لم أتمكن من استحضار الإجابة. حاول سؤال آخر."
  const OFFLINE_APOLOGY := "عذراً، لم أجد إجابة في القاعدة المحلية. يرجى الاتصال بالإنترنت."
  const LEARN_PREFIX := "تعلم: "
  const READ_STORY_PREFIX := "اقرأ قصة: "

  /** The source label: enriched when a local answer exists and the device is online. */
  function SourceOf(hasLocalMatch: bool, online: bool): (s: Source)
    ensures s == Hybrid <==> hasLocalMatch && online
    ensures s == Online <==> !hasLocalMatch && online
    ensures s == Offline <==> !online
  {
    if hasLocalMatch && online then Hybrid else if online then Online else Offline
  }

  /**
   * The answer after the online step. `enrichment` is the reply text of the
   * enrichment request, `None` when it failed; an empty reply adds nothing.
   */
  function FinalAnswer(local: string, hasLocalMatch: bool, online: bool, enrichment: Option<string>): string
  {
    if hasLocalMatch && online then
      (if enrichment.Some? && enrichment.value != "" then local + ENRICHMENT_HEADING + enrichment.value else local)
    else if !hasLocalMatch && online then ONLINE_APOLOGY
    else if !hasLocalMatch then OFFLINE_APOLOGY
    else local
  }

  /** The suggestions added when the branch suggested nothing: one random zikr and one random story. */
  function FallbackTopics(randomAzkar: seq<KB.AzkarEntry>, randomStories: seq<KB.StoryEntry>): (r: seq<string>)
    ensures |r| <= 2
  {
    (if randomAzkar != [] then [LEARN_PREFIX + randomAzkar[0].titleArabic] else [])
    + (if randomStories != [] then [READ_STORY_PREFIX + randomStories[0].titleArabic] else [])
  }

  /**
   * What `askReligiousAssistant` returns, stated by cases on the chosen local
   * match. `shuffledAzkar` and `shuffledStories` are the orders the two random
   * picks leave.
   */
  function Respond(db: KB.Databases, table: seq<OfflineEntry>, prompt: string, online: bool, enrichment: Option<string>,
                   shuffledAzkar: seq<KB.AzkarEntry>, shuffledStories: seq<KB.StoryEntry>): AssistantResponse
    requires Shuffle.IsShuffleOf(shuffledAzkar, db.azkar) && Shuffle.IsShuffleOf(shuffledStories, db.stories)
  {
    var m := ChooseLocal(SearchAllBases(db, prompt), Text.Trim(Text.Lower(prompt)), table);
    var hasLocalMatch := !m.NoMatch?;
    var topics := LocalTopics(m);
    var suggested := if topics == [] then
                       FallbackTopics(KB.GetRandomAzkar(db, shuffledAzkar, 1), KB.GetRandomStories(db, shuffledStories, 1))
                     else topics;
    // In the Quran branch the verses and the suggestions are one array, so the fallback pushes show in both.
    var related := if m.FromQuran? then LocalRelated(m).(verses := suggested) else LocalRelated(m);
    AssistantResponse(FinalAnswer(LocalAnswer(m), hasLocalMatch, online, enrichment),
                      SourceOf(hasLocalMatch, online), Shuffle.TakeAtMost(suggested, 3), related, true)
  }

  /**
   * The priority chain: the answer comes from the first non-empty result
   * list in the order Quran, hadith, fiqh, azkar, stories, general, and from
   * the keyword table only when all of them are empty.
   */
  lemma PriorityChain(r: AllResults, searchPrompt: string, table: seq<OfflineEntry>)
    ensures var m := ChooseLocal(r, searchPrompt, table);
      && (m.FromQuran? <==> r.quran != [])
      && (m.FromHadith? <==> r.quran == [] && r.hadith != [])
      && (m.FromFiqh? <==> r.quran == [] && r.hadith == [] && r.fiqh != [])
      && (m.FromAzkar? <==> r.quran == [] && r.hadith == [] && r.fiqh == [] && r.azkar != [])
      && (m.FromStory? <==> r.quran == [] && r.hadith == [] && r.fiqh == [] && r.azkar == [] && r.stories != [])
      && (m.FromGeneral? <==> (r.quran == [] && r.hadith == [] && r.fiqh == [] && r.azkar == [] && r.stories == []
                               && r.general != []))
      && (m.FromOffline? <==> (r.quran == [] && r.hadith == [] && r.fiqh == [] && r.azkar == [] && r.stories == []
                               && r.general == [] && FirstOfflineMatch(table, searchPrompt).Some?))
      && (m.FromQuran? ==> m.surah == r.quran[0]) && (m.FromHadith? ==> m.hadith == r.hadith[0])
      && (m.FromFiqh? ==> m.fiqhEntry == r.fiqh[0]) && (m.FromAzkar? ==> m.zikr == r.azkar[0])
      && (m.FromStory? ==> m.story == r.stories[0]) && (m.FromGeneral? ==> m.general == r.general[0])
      && (m.FromOffline? ==> Some(m.entry) == FirstOfflineMatch(table, searchPrompt))
  {
  }

  /**
   * What every response satisfies: it can be read aloud, it suggests at most
   * three topics, its source is hybrid for a local answer while online,
   * online with a fixed apology for none while online, and offline
   * otherwise, and a local answer is kept as the start of the text.
   */
  lemma ResponseShape(db: KB.Databases, table: seq<OfflineEntry>, prompt: string, online: bool,
                      enrichment: Option<string>, shuffledAzkar: seq<KB.AzkarEntry>, shuffledStories: seq<KB.StoryEntry>)
    requires Shuffle.IsShuffleOf(shuffledAzkar, db.azkar) && Shuffle.IsShuffleOf(shuffledStories, db.stories)
    ensures var resp := Respond(db, table, prompt, online, enrichment, shuffledAzkar, shuffledStories);
      var m := ChooseLocal(SearchAllBases(db, prompt), Text.Trim(Text.Lower(prompt)), table);
      && resp.canReadAloud && |resp.suggestedTopics| <= 3
      && (resp.source == Hybrid <==> !m.NoMatch? && online)
      && (resp.source == Online <==> m.NoMatch? && online)
      && (resp.source == Offline <==> !online)
      && (m.NoMatch? && online ==> resp.answer == ONLINE_APOLOGY)
      && (m.NoMatch? && !online ==> resp.answer == OFFLINE_APOLOGY)
      && (!m.NoMatch? ==> LocalAnswer(m) <= resp.answer)
      && (!m.NoMatch? && !online ==> resp.answer == LocalAnswer(m))
      && (LocalTopics(m) != [] ==> resp.suggestedTopics == Shuffle.TakeAtMost(LocalTopics(m), 3))
      && (LocalTopics(m) == [] ==>
            resp.suggestedTopics
            == FallbackTopics(KB.GetRandomAzkar(db, shuffledAzkar, 1), KB.GetRandomStories(db, shuffledStories, 1)))
  {
    var m := ChooseLocal(SearchAllBases(db, prompt), Text.Trim(Text.Lower(prompt)), table);
    var local := LocalAnswer(m);
    assert local <= local + ENRICHMENT_HEADING + enrichment.GetOr("");
    var f := FallbackTopics(KB.GetRandomAzkar(db, shuffledAzkar, 1), KB.GetRandomStories(db, shuffledStories, 1));
    assert Shuffle.TakeAtMost(f, 3) == f;
  }

  /**
   * The fallback suggestions name one random zikr and one random story of the
   * databases, with the prefixes "تعلم: " and "اقرأ قصة: ", one for each
   * database that is not empty.
   */
  lemma FallbackNamesDatabaseEntries(db: KB.Databases, shuffledAzkar: seq<KB.AzkarEntry>,
                                     shuffledStories: seq<KB.StoryEntry>)
    requires Shuffle.IsShuffleOf(shuffledAzkar, db.azkar) && Shuffle.IsShuffleOf(shuffledStories, db.stories)
    ensures var f := FallbackTopics(KB.GetRandomAzkar(db, shuffledAzkar, 1), KB.GetRandomStories(db, shuffledStories, 1));
      && |f| == (if db.azkar != [] then 1 else 0) + (if db.stories != [] then 1 else 0)
      && forall t :: t in f ==>
           (exists z :: z in db.azkar && t == LEARN_PREFIX + z.titleArabic)
           || (exists st :: st in db.stories && t == READ_STORY_PREFIX + st.titleArabic)
  {
    var za := KB.GetRandomAzkar(db, shuffledAzkar, 1);
    var zs := KB.GetRandomStories(db, shuffledStories, 1);
    KB.RandomPicksDraw(db, shuffledAzkar, shuffledStories, 1);
    if za != [] {
      assert za[0] in multiset(za);
    }
    if zs != [] {
      assert zs[0] in multiset(zs);
    }
  }

  /**
   * `askReligiousAssistant`, step by step as the source takes them. The
   * history argument is unused by the source and left out.
   */
  method AskReligiousAssistant(db: KB.Databases, table: seq<OfflineEntry>, prompt: string, online: bool, enrichment: Option<string>,
                               shuffledAzkar: seq<KB.AzkarEntry>, shuffledStories: seq<KB.StoryEntry>)
    returns (response: AssistantResponse)
    requires Shuffle.IsShuffleOf(shuffledAzkar, db.azkar) && Shuffle.IsShuffleOf(shuffledStories, db.stories)
    ensures response == Respond(db, table, prompt, online, enrichment, shuffledAzkar, shuffledStories)
  {
    var searchPrompt := Text.Trim(Text.Lower(prompt));
    var allResults := SearchAllBases(db, prompt);
    var answer, suggestedTopics, relatedContent, hasLocalMatch, versesShareTopics :=
      FindLocalAnswer(allResults, searchPrompt, table);
    var source;
    answer, source := GoOnline(answer, hasLocalMatch, online, enrichment);
    suggestedTopics, relatedContent :=
      AddFallbackTopics(db, shuffledAzkar, shuffledStories, suggestedTopics, relatedContent, versesShareTopics);
    response := AssistantResponse(answer, source, Shuffle.TakeAtMost(suggestedTopics, 3), relatedContent, true);
  }

  /** The local part of the answer: the database branches, then the keyword table when none matched. */
  method FindLocalAnswer(allResults: AllResults, searchPrompt: string, table: seq<OfflineEntry>)
    returns (answer: string, suggestedTopics: seq<string>, relatedContent: Related, hasLocalMatch: bool,
             versesShareTopics: bool)
    ensures var m := ChooseLocal(allResults, searchPrompt, table);
      && hasLocalMatch == !m.NoMatch? && versesShareTopics == m.FromQuran?
      && (hasLocalMatch ==> answer == LocalAnswer(m))
      && suggestedTopics == LocalTopics(m) && relatedContent == LocalRelated(m)
  {
    answer, suggestedTopics, relatedContent, hasLocalMatch, versesShareTopics := SearchDatabases(allResults);
    if !hasLocalMatch {
      answer, hasLocalMatch := LookUpOffline(table, searchPrompt, answer);
    }
    ChooseLocalStages(allResults, searchPrompt, table);
  }

  /** The online step: label the source, then enrich a local answer or apologise for the lack of one. */
  method GoOnline(answer0: string, hasLocalMatch: bool, online: bool, enrichment: Option<string>)
    returns (answer: string, source: Source)
    ensures answer == FinalAnswer(answer0, hasLocalMatch, online, enrichment)
    ensures source == SourceOf(hasLocalMatch, online)
  {
    answer := answer0;
    source := Offline;
    if hasLocalMatch && online {
      source := Hybrid;
      if enrichment.Some? && enrichment.value != "" {
        answer := answer + ENRICHMENT_HEADING + enrichment.value;
      }
    } else if !hasLocalMatch && online {
      source := Online;
      answer := ONLINE_APOLOGY;
    } else if !hasLocalMatch {
      answer := OFFLINE_APOLOGY;
    }
  }

  /** With no suggestions yet, push one random zikr and one random story, as the shared verses array sees too. */
  method AddFallbackTopics(db: KB.Databases, shuffledAzkar: seq<KB.AzkarEntry>, shuffledStories: seq<KB.StoryEntry>,
                           topics0: seq<string>, related0: Related, versesShareTopics: bool)
    returns (suggestedTopics: seq<string>, relatedContent: Related)
    requires Shuffle.IsShuffleOf(shuffledAzkar, db.azkar) && Shuffle.IsShuffleOf(shuffledStories, db.stories)
    ensures topics0 != [] ==> suggestedTopics == topics0 && relatedContent == related0
    ensures topics0 == [] ==> suggestedTopics == FallbackTopics(KB.GetRandomAzkar(db, shuffledAzkar, 1), KB.GetRandomStories(db, shuffledStories, 1))
    ensures topics0 == [] ==> relatedContent == if versesShareTopics then related0.(verses := suggestedTopics) else related0
  {
    suggestedTopics := topics0;
    relatedContent := related0;
    if |suggestedTopics| == 0 {
      var randomAzkar := KB.GetRandomAzkar(db, shuffledAzkar, 1);
      var randomStories := KB.GetRandomStories(db, shuffledStories, 1);
      if |randomAzkar| > 0 {
        suggestedTopics := suggestedTopics + [LEARN_PREFIX + randomAzkar[0].titleArabic];
      }
      if |randomStories| > 0 {
        suggestedTopics := suggestedTopics + [READ_STORY_PREFIX + randomStories[0].titleArabic];
      }
      if versesShareTopics {
        relatedContent := relatedContent.(verses := suggestedTopics);
      }
    }
  }

  /** The keyword table is consulted only when no database matched. */
  lemma ChooseLocalStages(r: AllResults, searchPrompt: string, table: seq<OfflineEntry>)
    ensures var d := ChooseLocal(r, "", []);
      && (!d.NoMatch? ==> ChooseLocal(r, searchPrompt, table) == d)
      && (d.NoMatch? ==> (ChooseLocal(r, searchPrompt, table) ==
            match FirstOfflineMatch(table, searchPrompt)
            case Some(e) => FromOffline(e)
            case None => NoMatch))
  {
  }

  /**
   * The database branches of `askReligiousAssistant`: each runs only when no
   * earlier one matched. `versesShareTopics` records that the Quran branch
   * stored one array as both the verses and the suggestions.
   */
  method SearchDatabases(allResults: AllResults)
    returns (answer: string, suggestedTopics: seq<string>, relatedContent: Related, hasLocalMatch: bool,
             versesShareTopics: bool)
    ensures var m := ChooseLocal(allResults, "", []);
      && hasLocalMatch == !m.NoMatch? && versesShareTopics == m.FromQuran?
      && answer == LocalAnswer(m) && suggestedTopics == LocalTopics(m) && relatedContent == LocalRelated(m)
  {
    answer := "";
    suggestedTopics := [];
    relatedContent := NO_RELATED;
    hasLocalMatch := false;
    versesShareTopics := false;
    if |allResults.quran| > 0 {
      hasLocalMatch := true;
      var surah := allResults.quran[0];
      answer := QuranAnswer(surah);
      suggestedTopics := surah.importantTopics;
      relatedContent := relatedContent.(verses := surah.importantTopics);
      versesShareTopics := true;
    }
    if !hasLocalMatch && |allResults.hadith| > 0 {
      hasLocalMatch := true;
      var hadith := allResults.hadith[0];
      answer := HadithAnswer(hadith);
      suggestedTopics := [hadith.topic];
      relatedContent := relatedContent.(hadiths := hadith.relatedAhadith.GetOr([]));
    }
    if !hasLocalMatch && |allResults.fiqh| > 0 {
      hasLocalMatch := true;
      var fiqhEntry := allResults.fiqh[0];
      answer := FiqhAnswer(fiqhEntry);
      suggestedTopics := if fiqhEntry.practicalTips.Some? then Shuffle.TakeAtMost(fiqhEntry.practicalTips.value, 3) else [];
      relatedContent := relatedContent.(verses := fiqhEntry.relatedAyas.GetOr([]));
    }
    if !hasLocalMatch && |allResults.azkar| > 0 {
      hasLocalMatch := true;
      var zikr := allResults.azkar[0];
      answer := AzkarAnswer(zikr);
      suggestedTopics := AZKAR_TOPICS;
      relatedContent := relatedContent.(azkar := [zikr.titleArabic]);
    }
    if !hasLocalMatch && |allResults.stories| > 0 {
      hasLocalMatch := true;
      var story := allResults.stories[0];
      answer := StoryAnswer(story);
      suggestedTopics := STORY_TOPICS;
      relatedContent := relatedContent.(stories := [story.titleArabic]);
    }
    if !hasLocalMatch && |allResults.general| > 0 {
      hasLocalMatch := true;
      var general := allResults.general[0];
      answer := GeneralAnswer(general);
      suggestedTopics := general.suggestedTopics.GetOr([]);
    }
  }

  /** The `for … in OFFLINE_KNOWLEDGE` loop: the first key the prompt contains gives the answer. */
  method LookUpOffline(table: seq<OfflineEntry>, searchPrompt: string, answer0: string)
    returns (answer: string, found: bool)
    ensures found == FirstOfflineMatch(table, searchPrompt).Some?
    ensures found ==> answer == OfflineAnswer(FirstOfflineMatch(table, searchPrompt).value)
    ensures !found ==> answer == answer0
  {
    answer := answer0;
    found := false;
    var i := 0;
    while i < |table|
      invariant 0 <= i <= |table|
      invariant FirstOfflineMatch(table[i..], searchPrompt) == FirstOfflineMatch(table, searchPrompt)
      invariant answer == answer0
    {
      if KeyMatches(table[i], searchPrompt) {
        answer := OfflineAnswer(table[i]);
        found := true;
        break;
      }
      assert table[i..][1..] == table[i + 1..];
      i := i + 1;
    }
  }

  // ---------------------------------------------------------------- speech text

  predicate IsMarkup(c: char) { c == '#' || c == '*' || c == '`' }

  /** `replace(/[#*`]/g, '')`. */
  function StripMarkup(text: string): string
  {
    Seqs.Filter((c: char) => !IsMarkup(c), text)
  }

  /** `replace(/\n/g, '. ')`. */
  function NewlinesToStops(text: string): (r: string)
  {
    if text == [] then []
    else (if text[0] == '\n' then ". " else [text[0]]) + NewlinesToStops(text[1..])
  }

  /** Replacing the newlines leaves none, adds only full stops and spaces, and changes nothing in text without newlines. */
  lemma {:induction false} NewlinesToStopsProps(text: string)
    ensures '\n' !in NewlinesToStops(text)
    ensures forall c :: c in NewlinesToStops(text) ==> c in text || c == '.' || c == ' '
    ensures '\n' !in text ==> NewlinesToStops(text) == text
  {
    if text != [] {
      NewlinesToStopsProps(text[1..]);
      assert forall c :: c in text[1..] ==> c in text;
    }
  }

  const SPEECH_LIMIT := 500

  /** The text `speakText` hands to the speech engine: markup removed, newlines spoken as stops, at most 500 characters. */
  function SpeechText(text: string): string
  {
    var t := NewlinesToStops(StripMarkup(text));
    t[..if |t| < SPEECH_LIMIT then |t| else SPEECH_LIMIT]
  }

  /**
   * The speech text has at most 500 characters, no markup and no newline;
   * a plain text of at most 500 characters is spoken unchanged.
   */
  lemma SpeechTextClean(text: string)
    ensures |SpeechText(text)| <= SPEECH_LIMIT
    ensures forall c :: c in SpeechText(text) ==> !IsMarkup(c) && c != '\n'
    ensures (forall c :: c in text ==> !IsMarkup(c) && c != '\n') && |text| <= SPEECH_LIMIT
        ==> SpeechText(text) == text
  {
    var stripped := StripMarkup(text);
    var t := NewlinesToStops(stripped);
    NewlinesToStopsProps(stripped);
    var r := SpeechText(text);
    assert forall c :: c in r ==> c in t;
    if forall c :: c in text ==> !IsMarkup(c) && c != '\n' {
      Seqs.FilterAll((c: char) => !IsMarkup(c), text);
    }
  }

  // ---------------------------------------------------------------- generated quizzes

  /** A question as `generateSmartQuiz` maps it; the fields other than id and category keep the parsed values. */
  datatype SmartQuestion = SmartQuestion(
    id: string, question: Json.Access, options: Json.Value, answerIndex: Json.Value,
    explanation: Json.Value, category: string)

  const QUIZ_CATEGORY := "Islamic Knowledge"

  /** `q.field || fallback`. */
  function OrDefault(a: Json.Access, fallback: Json.Value): (v: Json.Value)
    ensures Json.AccessTruthy(a) ==> v == a.v
    ensures !Json.AccessTruthy(a) ==> v == fallback
  {
    if Json.AccessTruthy(a) then a.v else fallback
  }

  function QuizId(i: nat): string
  {
    "ai-quiz-" + Text.NatToString(i)
  }

  function ToSmartQuestion(q: Json.Value, i: nat): SmartQuestion
  {
    SmartQuestion(QuizId(i), Json.Get(q, "question"), OrDefault(Json.Get(q, "options"), Json.Arr([])),
                  OrDefault(Json.Get(q, "answerIndex"), Json.Num(0)),
                  OrDefault(Json.Get(q, "explanation"), Json.Str("")), QUIZ_CATEGORY)
  }

  /** `parsed.map(…)` over the items from index `from` on. */
  function MapQuestions(items: seq<Json.Value>, from: nat): (r: seq<SmartQuestion>)
    requires from <= |items|
    ensures |r| == |items| - from
    ensures forall k :: 0 <= k < |r| ==> r[k] == ToSmartQuestion(items[from + k], from + k)
    decreases |items| - from
  {
    if from == |items| then [] else [ToSmartQuestion(items[from], from)] + MapQuestions(items, from + 1)
  }

  /**
   * `generateSmartQuiz`. `reply` is the text of the model's reply, `None`
   * when the request failed; an empty or absent text falls back to "[]".
   * Every failure gives []: the request, `JSON.parse`, `map` on a value that
   * is not an array, or reading a property of a `null` item.
   */
  function GenerateSmartQuiz(online: bool, reply: Option<Json.Stored>): seq<SmartQuestion>
  {
    if !online || reply.None? then []
    else
      var text := if Json.StoredTruthy(reply.value) then reply.value else Json.Encoded(Json.Arr([]));
      match Json.Parse(text)
      case None => []
      case Some(parsed) =>
        if !parsed.Arr? then []
        else if exists k :: 0 <= k < |parsed.items| && parsed.items[k].Null? then []
        else MapQuestions(parsed.items, 0)
  }

  /** Offline, a failed request, text that does not parse and a reply that is not an array all give no questions. */
  lemma SmartQuizFailures(online: bool, reply: Option<Json.Stored>)
    ensures !online ==> GenerateSmartQuiz(online, reply) == []
    ensures reply.None? ==> GenerateSmartQuiz(online, reply) == []
    ensures reply.Some? && reply.value.Raw? ==> GenerateSmartQuiz(online, reply) == []
    ensures reply.Some? && reply.value.Encoded? && !reply.value.value.Arr? ==> GenerateSmartQuiz(online, reply) == []
  {
  }

  /**
   * An array reply without `null` items gives one question per item, with
   * distinct ids, the category "Islamic Knowledge", and options, answer
   * index and explanation defaulting to [], 0 and "" when missing or falsy.
   */
  lemma SmartQuizMapsItems(items: seq<Json.Value>)
    requires forall k :: 0 <= k < |items| ==> !items[k].Null?
    ensures var r := GenerateSmartQuiz(true, Some(Json.Encoded(Json.Arr(items))));
      && |r| == |items|
      && (forall i, j :: 0 <= i < j < |r| ==> r[i].id != r[j].id)
      && forall k :: 0 <= k < |r| ==>
           && r[k].category == QUIZ_CATEGORY
           && r[k].question == Json.Get(items[k], "question")
           && (!Json.AccessTruthy(Json.Get(items[k], "options")) ==> r[k].options == Json.Arr([]))
           && (!Json.AccessTruthy(Json.Get(items[k], "answerIndex")) ==> r[k].answerIndex == Json.Num(0))
           && (!Json.AccessTruthy(Json.Get(items[k], "explanation")) ==> r[k].explanation == Json.Str(""))
  {
    var r := GenerateSmartQuiz(true, Some(Json.Encoded(Json.Arr(items))));
    assert r == MapQuestions(items, 0);
    forall i, j | 0 <= i < j < |r| ensures r[i].id != r[j].id {
      QuizIdInjective(i, j);
    }
  }

  /** Distinct positions get distinct ids. */
  lemma QuizIdInjective(i: nat, j: nat)
    ensures QuizId(i) == QuizId(j) ==> i == j
  {
    if QuizId(i) == QuizId(j) {
      assert Text.NatToString(i) == QuizId(i)[8..];
      assert Text.NatToString(j) == QuizId(j)[8..];
      Text.NatToStringInjective(i, j);
    }
  }
}
