/**
 * The dictation corrector (tassem): a recording is compared with the expected
 * verse after stripping case, white space, punctuation and hamza; the score,
 * the listed differences, the suggestions and the feedback follow from that
 * comparison. The saved history is a field standing for the parsed value of
 * the storage key `tassem_sessions_v1`.
 */
module Tassem {
  import opened Wrappers
  import Seqs
  import Text
  import JsNumbers
  import EditDistance

  // ---------------------------------------------------------------- normalisation

  /** Unicode punctuation (`\p{P}`) as far as it occurs in Arabic and ASCII text. */
  predicate IsPunctuation(c: char)
  {
    || ('!' <= c <= '#') || ('%' <= c <= '*') || (',' <= c <= '/') || c == ':' || c == ';'
    || c == '?' || c == '@' || ('[' <= c <= ']') || c == '_' || c == '{' || c == '}'
    || c == '\U{00A1}' || c == '\U{00AB}' || c == '\U{00BB}' || c == '\U{00BF}'
    || c == '\U{060C}' || c == '\U{061B}' || c == '\U{061F}' || ('\U{066A}' <= c <= '\U{066D}')
    || c == '\U{06D4}' || ('\U{2010}' <= c <= '\U{2027}')
  }

  /** A character that survives both `replace` calls. */
  predicate Kept(c: char)
  {
    !Text.IsJsSpace(c) && !IsPunctuation(c) && c != 'ء'
  }

  /** The `normalize` arrow inside `calculateSimilarity`. */
  function Normalize(text: string): string
  {
    Seqs.Filter(Kept, Text.Lower(text))
  }

  /** A recording made only of white space normalises to nothing. */
  lemma {:induction false} NormalizeBlank(text: string)
    requires forall i :: 0 <= i < |text| ==> Text.IsJsSpace(text[i])
    ensures Normalize(text) == []
  {
    var l := Text.Lower(text);
    forall c | c in l ensures !Kept(c) {
      var i :| 0 <= i < |l| && l[i] == c;
      assert Text.LowerChar(text[i]) == c;
    }
    Seqs.FilterNone(Kept, l);
  }

  /** A text whose first character is a lower-case letter that is kept normalises to something. */
  lemma NormalizeNonEmpty(text: string)
    requires text != [] && Kept(text[0]) && !('A' <= text[0] <= 'Z')
    ensures Normalize(text) != []
  {
    assert Text.Lower(text)[0] in Text.Lower(text);
  }

  // ---------------------------------------------------------------- similarity

  /** What `calculateSimilarity` returns. */
  function Similarity(text1: string, text2: string): real
  {
    var n1 := Normalize(text1);
    var n2 := Normalize(text2);
    if n1 == n2 then 1.0
    else if |n1| == 0 || |n2| == 0 then 0.0
    else 1.0 - EditDistance.Distance(n1, n2) as real / EditDistance.Max(|n1|, |n2|) as real
  }

  /**
   * The two early returns agree with the plain edit-distance similarity of the
   * normalised texts, so the score lies in [0, 1] and is 1 exactly when the
   * normalised texts are equal.
   */
  lemma SimilarityAgrees(text1: string, text2: string)
    ensures Similarity(text1, text2) == EditDistance.Similarity(Normalize(text1), Normalize(text2))
    ensures 0.0 <= Similarity(text1, text2) <= 1.0
    ensures Similarity(text1, text2) == 1.0 <==> Normalize(text1) == Normalize(text2)
  {
    EditDistance.SimilarityRange(Normalize(text1), Normalize(text2));
  }

  /** `calculateSimilarity`, with `levenshteinDistance`'s table filled by copying the diagonal on a match. */
  method CalculateSimilarity(text1: string, text2: string) returns (s: real)
    ensures s == Similarity(text1, text2)
  {
    var n1 := Normalize(text1);
    var n2 := Normalize(text2);
    if n1 == n2 {
      return 1.0;
    }
    if |n1| == 0 || |n2| == 0 {
      return 0.0;
    }
    var distance := EditDistance.FillCopyingDiagonal(n1, n2);
    var maxLength := EditDistance.Max(|n1|, |n2|);
    s := 1.0 - distance as real / maxLength as real;
  }

  // ---------------------------------------------------------------- expected text

  /** `getExpectedText`: the sample verses, and "" for any other surah and verse. */
  function GetExpectedText(surahNumber: int, ayahNumber: int): string
  {
    if surahNumber == 1 then
      if ayahNumber == 1 then "الحمد لله رب العالمين"
      else if ayahNumber == 2 then "الرحمن الرحيم"
      else if ayahNumber == 3 then "مالك يوم الدين"
      else ""
    else if surahNumber == 112 then
      if ayahNumber == 1 then "قل هو الله أحد"
      else if ayahNumber == 2 then "الله الصمد"
      else if ayahNumber == 3 then "لم يلد ولم يولد"
      else if ayahNumber == 4 then "ولم يكن له كفوا أحد"
      else ""
    else ""
  }

  /** Exactly the three verses of al-Fatiha and the four of al-Ikhlas are known, and each normalises to something. */
  lemma ExpectedTextKnown(surahNumber: int, ayahNumber: int)
    ensures GetExpectedText(surahNumber, ayahNumber) != "" <==>
      (surahNumber == 1 && 1 <= ayahNumber <= 3) || (surahNumber == 112 && 1 <= ayahNumber <= 4)
    ensures GetExpectedText(surahNumber, ayahNumber) != "" ==> Normalize(GetExpectedText(surahNumber, ayahNumber)) != []
  {
    var t := GetExpectedText(surahNumber, ayahNumber);
    if t != "" {
      NormalizeNonEmpty(t);
    }
  }

  // ---------------------------------------------------------------- differences

  /** `text.split(' ').filter(w => w)`: the pieces between plain spaces, empty ones dropped. */
  function SpaceWords(text: string): seq<string>
  {
    Seqs.Filter((w: string) => w != [], Text.SplitOn(text, ' '))
  }

  function ShorterIssue(n: nat): string { "النص الموثق أقصر من المتوقع بـ " + Text.NatToString(n) + " حروف" }
  function LongerIssue(n: nat): string { "النص الموثق أطول من المتوقع بـ " + Text.NatToString(n) + " حروف" }
  function MissingIssue(w: string): string { "كلمة مفقودة: \"" + w + "\"" }
  function ExtraIssue(w: string): string { "كلمة إضافية: \"" + w + "\"" }

  /** The length issue, if the lengths differ. */
  function LengthIssues(recorded: string, expected: string): seq<string>
  {
    if |recorded| < |expected| then [ShorterIssue(|expected| - |recorded|)]
    else if |recorded| > |expected| then [LongerIssue(|recorded| - |expected|)]
    else []
  }

  /** What a for-of loop over `words` pushes for the words that `other` lacks. */
  function WordIssues(missing: bool, words: seq<string>, other: seq<string>): seq<string>
  {
    if words == [] then []
    else
      var w := words[|words| - 1];
      WordIssues(missing, words[..|words| - 1], other)
        + (if w in other then [] else [if missing then MissingIssue(w) else ExtraIssue(w)])
  }

  /** The words of `words` that `other` lacks, in order. */
  function Absent(words: seq<string>, other: seq<string>): seq<string>
  {
    Seqs.Filter((w: string) => w !in other, words)
  }

  /** One issue per absent word, in order. */
  lemma {:induction false} WordIssuesAbsent(missing: bool, words: seq<string>, other: seq<string>)
    ensures |WordIssues(missing, words, other)| == |Absent(words, other)|
    ensures forall i :: 0 <= i < |Absent(words, other)| ==>
      WordIssues(missing, words, other)[i] == if missing then MissingIssue(Absent(words, other)[i]) else ExtraIssue(Absent(words, other)[i])
    decreases |words|
  {
    if words != [] {
      var init := words[..|words| - 1];
      var w := words[|words| - 1];
      assert words == init + [w];
      WordIssuesAbsent(missing, init, other);
      Seqs.FilterConcat((x: string) => x !in other, init, [w]);
    }
  }

  /** No issues exactly when every word is in `other`. */
  lemma {:induction false} WordIssuesNone(missing: bool, words: seq<string>, other: seq<string>)
    ensures WordIssues(missing, words, other) == [] <==> forall w :: w in words ==> w in other
    decreases |words|
  {
    if words != [] {
      var init := words[..|words| - 1];
      var w := words[|words| - 1];
      assert words == init + [w];
      WordIssuesNone(missing, init, other);
      assert forall x :: x in words ==> x in init || x == w;
    }
  }

  /** `findDifferences`. */
  function Differences(recorded: string, expected: string): seq<string>
  {
    var rw := SpaceWords(recorded);
    var ew := SpaceWords(expected);
    LengthIssues(recorded, expected) + WordIssues(true, ew, rw) + WordIssues(false, rw, ew)
  }

  /** No differences exactly when the lengths agree and the two texts use the same set of words. */
  lemma DifferencesEmpty(recorded: string, expected: string)
    ensures Differences(recorded, expected) == [] <==>
      && |recorded| == |expected|
      && (forall w :: w in SpaceWords(expected) ==> w in SpaceWords(recorded))
      && (forall w :: w in SpaceWords(recorded) ==> w in SpaceWords(expected))
  {
    WordIssuesNone(true, SpaceWords(expected), SpaceWords(recorded));
    WordIssuesNone(false, SpaceWords(recorded), SpaceWords(expected));
  }

  /** The issues of one word loop appended to `issues`. */
  method PushWordIssues(issues: seq<string>, missing: bool, words: seq<string>, other: seq<string>)
    returns (r: seq<string>)
    ensures r == issues + WordIssues(missing, words, other)
  {
    r := issues;
    for i := 0 to |words|
      invariant r == issues + WordIssues(missing, words[..i], other)
    {
      var word := words[i];
      WordIssuesStep(missing, words, i, other);
      if word !in other {
        r := r + [if missing then MissingIssue(word) else ExtraIssue(word)];
      }
    }
    assert words[..|words|] == words;
  }

  /** One more word of the loop adds its issue, if `other` lacks it. */
  lemma WordIssuesStep(missing: bool, words: seq<string>, i: nat, other: seq<string>)
    requires i < |words|
    ensures WordIssues(missing, words[..i + 1], other) == WordIssues(missing, words[..i], other)
      + (if words[i] in other then [] else [if missing then MissingIssue(words[i]) else ExtraIssue(words[i])])
  {
    assert words[..i + 1][..i] == words[..i];
  }

  /** `findDifferences`: the length check, then one loop over the expected words and one over the recorded ones. */
  method FindDifferences(recorded: string, expected: string) returns (issues: seq<string>)
    ensures issues == Differences(recorded, expected)
  {
    issues := [];
    if |recorded| < |expected| {
      issues := issues + [ShorterIssue(|expected| - |recorded|)];
    } else if |recorded| > |expected| {
      issues := issues + [LongerIssue(|recorded| - |expected|)];
    }
    assert issues == LengthIssues(recorded, expected);
    var recordedWords := SpaceWords(recorded);
    var expectedWords := SpaceWords(expected);
    issues := PushWordIssues(issues, true, expectedWords, recordedWords);
    issues := PushWordIssues(issues, false, recordedWords, expectedWords);
  }

  // ---------------------------------------------------------------- suggestions and feedback

  const PRAISE := "ما شاء الله! النص صحيح تماماً"
  const RETRY_BLANK := "يبدو أن النص المسجل فارغ. حاول مرة أخرى"
  const GENERAL_TIPS := ["انتبه لتشكيل الكلمات والحروف", "تأكد من نطق جميع الحروف بشكل صحيح", "حاول مرة أخرى ببطء أكثر"]
  const DONT_SKIP := "تأكد من عدم تخطي أي كلمات"
  const DONT_ADD := "لا تضف كلمات زائدة عن النص"

  /** `issues.some(i => i.includes(needle))`. */
  predicate AnyContains(issues: seq<string>, needle: string)
  {
    exists i :: 0 <= i < |issues| && Text.Contains(issues[i], needle)
  }

  /** `generateSuggestions`. */
  function Suggestions(recorded: string, issues: seq<string>): seq<string>
  {
    if issues == [] then [PRAISE]
    else if Text.Trim(recorded) == "" then [RETRY_BLANK]
    else Tips(issues)
  }

  /** The three general tips, then the hints the kinds of issue call for. */
  function Tips(issues: seq<string>): (r: seq<string>)
    ensures 3 <= |r| <= 5 && r[..3] == GENERAL_TIPS
  {
    GENERAL_TIPS
      + (if AnyContains(issues, "مفقودة") then [DONT_SKIP] else [])
      + (if AnyContains(issues, "إضافية") then [DONT_ADD] else [])
  }

  /** No issues gives only the praise; a blank recording with issues gives only the retry hint; otherwise the three tips lead. */
  lemma SuggestionRules(recorded: string, issues: seq<string>)
    ensures issues == [] ==> Suggestions(recorded, issues) == [PRAISE]
    ensures issues != [] && (forall i :: 0 <= i < |recorded| ==> Text.IsJsSpace(recorded[i])) ==>
      Suggestions(recorded, issues) == [RETRY_BLANK]
    ensures issues != [] && (exists i :: 0 <= i < |recorded| && !Text.IsJsSpace(recorded[i])) ==>
      Suggestions(recorded, issues) == Tips(issues)
  {
    Text.TrimProps(recorded);
  }

  /** `generateSuggestions`: the early returns, then the pushes. */
  method GenerateSuggestions(recorded: string, expected: string, issues: seq<string>) returns (suggestions: seq<string>)
    ensures suggestions == Suggestions(recorded, issues)
  {
    suggestions := [];
    if |issues| == 0 {
      suggestions := suggestions + [PRAISE];
      return;
    }
    if Text.Trim(recorded) == "" {
      suggestions := suggestions + [RETRY_BLANK];
      return;
    }
    suggestions := PushTips(issues);
  }

  /** The pushes after the early returns of `generateSuggestions`. */
  method PushTips(issues: seq<string>) returns (suggestions: seq<string>)
    ensures suggestions == Tips(issues)
  {
    suggestions := [];
    suggestions := suggestions + [GENERAL_TIPS[0]];
    suggestions := suggestions + [GENERAL_TIPS[1]];
    suggestions := suggestions + [GENERAL_TIPS[2]];
    if AnyContains(issues, "مفقودة") {
      suggestions := suggestions + [DONT_SKIP];
    }
    if AnyContains(issues, "إضافية") {
      suggestions := suggestions + [DONT_ADD];
    }
  }

  const EXCELLENT := "ممتاز جداً! أداؤك متطابق مع المتوقع ✓"
  const VERY_GOOD := "جيد جداً! مع عدة نقاط صغيرة للتحسين ✓"
  const GOOD := "جيد! لكن هناك عدة نقاط تحتاج تحسين"
  const ACCEPTABLE := "مقبول. حاول مرة أخرى بتركيز أكثر"
  const PRACTICE := "يحتاج إلى مزيد من الممارسة. حاول مرة أخرى"

  /** `generateFeedback`: the message for the band the score falls in. */
  function Feedback(score: int): string
  {
    if score >= 95 then EXCELLENT
    else if score >= 85 then VERY_GOOD
    else if score >= 70 then GOOD
    else if score >= 50 then ACCEPTABLE
    else PRACTICE
  }

  /** The band of a score, 4 for the best. */
  function Band(score: int): nat
  {
    if score >= 95 then 4 else if score >= 85 then 3 else if score >= 70 then 2 else if score >= 50 then 1 else 0
  }

  /**
   * The message depends only on the band, a higher score never lands in a
   * lower band, and the two ticked messages are given exactly to the scores a
   * correct recording has.
   */
  lemma FeedbackBands(score: int, other: int)
    ensures Band(score) == Band(other) <==> Feedback(score) == Feedback(other)
    ensures score <= other ==> Band(score) <= Band(other)
    ensures score >= 85 <==> Feedback(score) == EXCELLENT || Feedback(score) == VERY_GOOD
  {
  }

  // ---------------------------------------------------------------- correction

  datatype MatchedAyah = MatchedAyah(ayah: string, similarity: real, issues: seq<string>)

  datatype CorrectionResult = CorrectionResult(
    score: int, correct: bool, matchedAyahs: seq<MatchedAyah>, suggestions: seq<string>, feedback: string)

  const NOT_FOUND := CorrectionResult(0, false, [], ["لم نتمكن من العثور على الآية المطلوبة"], "خطأ في البحث عن الآية")

  /**
   * `correctTassem`: an unknown verse gives the not-found result; otherwise the
   * score is the rounded percentage of the similarity, correct means at least
   * 85, and the one matched verse carries the differences.
   */
  method CorrectTassem(surahNumber: int, ayahNumber: int, recordedText: string) returns (r: CorrectionResult)
    ensures GetExpectedText(surahNumber, ayahNumber) == "" ==> r == NOT_FOUND
    ensures var expected := GetExpectedText(surahNumber, ayahNumber);
      expected != "" ==>
        && r.score == JsNumbers.Round(Similarity(recordedText, expected) * 100.0)
        && 0 <= r.score <= 100
        && (r.correct <==> r.score >= 85)
        && r.matchedAyahs == [MatchedAyah(expected, Similarity(recordedText, expected), Differences(recordedText, expected))]
        && r.suggestions == Suggestions(recordedText, Differences(recordedText, expected))
        && r.feedback == Feedback(r.score)
  {
    var expectedText := GetExpectedText(surahNumber, ayahNumber);
    if expectedText == "" {
      return NOT_FOUND;
    }
    var similarity := CalculateSimilarity(recordedText, expectedText);
    SimilarityAgrees(recordedText, expectedText);
    var score := JsNumbers.Round(similarity * 100.0);
    var issues := FindDifferences(recordedText, expectedText);
    var suggestions := GenerateSuggestions(recordedText, expectedText, issues);
    r := CorrectionResult(score, score >= 85, [MatchedAyah(expectedText, similarity, issues)], suggestions, Feedback(score));
  }

  /** A blank recording of a known verse scores 0; an empty one also gets only the retry hint. */
  lemma BlankRecording(surahNumber: int, ayahNumber: int, recordedText: string)
    requires GetExpectedText(surahNumber, ayahNumber) != ""
    requires forall i :: 0 <= i < |recordedText| ==> Text.IsJsSpace(recordedText[i])
    ensures JsNumbers.Round(Similarity(recordedText, GetExpectedText(surahNumber, ayahNumber)) * 100.0) == 0
    ensures recordedText == "" ==>
      Suggestions(recordedText, Differences(recordedText, GetExpectedText(surahNumber, ayahNumber))) == [RETRY_BLANK]
  {
    NormalizeBlank(recordedText);
    ExpectedTextKnown(surahNumber, ayahNumber);
  }

  // ---------------------------------------------------------------- history

  datatype TassemSession = TassemSession(
    surahId: int, ayahNumber: int, recordedText: string, score: int, timestamp: int, isCorrect: bool)

  const HISTORY_LIMIT := 100

  /** `history.slice(-n)`: the last `n` items, or all of them when there are fewer. */
  function LastItems<T>(history: seq<T>, n: nat): (r: seq<T>)
    requires n > 0
    ensures |r| == if |history| < n then |history| else n
    ensures r == history[|history| - |r|..]
  {
    history[JsNumbers.LastStart(|history|, n)..]
  }

  datatype TassemStatistics = TassemStatistics(
    totalSessions: nat, correctSessions: nat, successRate: int, averageScore: int, recentSessions: seq<TassemSession>)

  function Scores(sessions: seq<TassemSession>): (r: seq<int>)
    ensures |r| == |sessions| && forall i :: 0 <= i < |r| ==> r[i] == sessions[i].score
  {
    seq(|sessions|, i requires 0 <= i < |sessions| => sessions[i].score)
  }

  /** `getStatistics` over the saved history. */
  function Statistics(sessions: seq<TassemSession>): TassemStatistics
  {
    var total := |sessions|;
    var correct := |Seqs.Filter((s: TassemSession) => s.isCorrect, sessions)|;
    TassemStatistics(
      total, correct,
      if total > 0 then JsNumbers.Round(correct as real / total as real * 100.0) else 0,
      if total > 0 then JsNumbers.Round(Seqs.Sum(Scores(sessions)) as real / total as real) else 0,
      LastItems(sessions, 10))
  }

  /** The correct sessions never outnumber the sessions, and the success rate is a percentage, 0 for no sessions. */
  lemma SuccessRateBounds(sessions: seq<TassemSession>)
    ensures var st := Statistics(sessions);
      && st.totalSessions == |sessions| && st.correctSessions <= st.totalSessions
      && 0 <= st.successRate <= 100
      && (sessions == [] ==> st.successRate == 0)
  {
    var total := |sessions|;
    if total > 0 {
      var correct := |Seqs.Filter((s: TassemSession) => s.isCorrect, sessions)|;
      JsNumbers.RoundedQuotientBounds(correct, total, 0, 1);
    }
  }

  /** The average score lies among the scores, and is 0 for no sessions; the recent list is the last ten. */
  lemma AverageScoreBounds(sessions: seq<TassemSession>, lo: int, hi: int)
    requires forall s :: s in sessions ==> lo <= s.score <= hi
    ensures var st := Statistics(sessions);
      && (sessions == [] ==> st.averageScore == 0)
      && (sessions != [] ==> lo <= st.averageScore <= hi)
      && st.recentSessions == sessions[|sessions| - |st.recentSessions|..]
      && |st.recentSessions| == if |sessions| < 10 then |sessions| else 10
  {
    if sessions != [] {
      Seqs.SumBounds(Scores(sessions), lo, hi);
      JsNumbers.RoundedQuotientBounds(Seqs.Sum(Scores(sessions)), |sessions|, lo, hi);
    }
  }

  /** The saved history. */
  class TassemHistory {
    var sessions: seq<TassemSession>

    constructor(sessions: seq<TassemSession>)
      ensures this.sessions == sessions
    {
      this.sessions := sessions;
    }

    /** `getSessionHistory`. */
    function GetSessionHistory(): (r: seq<TassemSession>)
      reads this
      ensures r == sessions
    {
      sessions
    }

    /** `saveSession`: push, then keep the last hundred. */
    method SaveSession(session: TassemSession)
      modifies this
      ensures sessions == LastItems(old(sessions) + [session], HISTORY_LIMIT)
      ensures |sessions| <= HISTORY_LIMIT && sessions[|sessions| - 1] == session
      ensures |old(sessions)| < HISTORY_LIMIT ==> sessions == old(sessions) + [session]
    {
      var history := sessions + [session];
      sessions := LastItems(history, HISTORY_LIMIT);
    }

    /** `clearHistory`. */
    method ClearHistory()
      modifies this
      ensures sessions == []
    {
      sessions := [];
    }

    /** `getStatistics`. */
    function GetStatistics(): (r: TassemStatistics)
      reads this
      ensures r.totalSessions == |sessions| && r.correctSessions <= r.totalSessions && 0 <= r.successRate <= 100
    {
      SuccessRateBounds(sessions);
      Statistics(sessions)
    }
  }
}
