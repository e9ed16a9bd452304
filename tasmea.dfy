/**
 * The recitation checker (tasme'a): Arabic normalisation, the accuracy score
 * built on edit distance, the word-by-word error list, and sessions with
 * their averages. The saved session list is passed in rather than read from
 * storage; session ids and clock readings are parameters.
 */
module Tasmea {
  import opened Wrappers
  import Seqs
  import Text
  import JsNumbers
  import EditDistance

  // ---------------------------------------------------------------- normalisation

  /** The Arabic marks U+064B to U+0652 (tanwin, short vowels, shadda, sukun). */
  predicate IsMark(c: char)
  {
    '\U{064B}' <= c <= '\U{0652}'
  }

  /** One letter folded: hamza-bearing alef forms and waw with hamza to alef, alef maqsura to ya, ta marbuta to ha. */
  function FoldLetter(c: char): char
  {
    if c == 'أ' || c == 'ؤ' || c == 'إ' || c == 'آ' then 'ا'
    else if c == 'ى' then 'ي'
    else if c == 'ة' then 'ه'
    else c
  }

  /** A character that the first four replacements leave alone. */
  predicate Plain(c: char)
  {
    !IsMark(c) && FoldLetter(c) == c
  }

  /** The four `replace` calls before the white space is normalised: marks dropped, letters folded. */
  function Fold(s: string): (r: string)
    ensures |r| <= |s|
    ensures forall c :: c in r ==> Plain(c)
    decreases |s|
  {
    if s == [] then []
    else (if IsMark(s[0]) then [] else [FoldLetter(s[0])]) + Fold(s[1..])
  }

  lemma {:induction false} FoldPlain(s: string)
    requires forall c :: c in s ==> Plain(c)
    ensures Fold(s) == s
    decreases |s|
  {
    if s != [] {
      assert s[0] in s;
      assert forall c :: c in s[1..] ==> c in s;
      FoldPlain(s[1..]);
      assert [s[0]] + s[1..] == s;
    }
  }

  /** `normalizeText`. */
  function NormalizeText(text: string): string
  {
    Text.NormalizeSpaces(Fold(text))
  }

  /** Normalised text is single-spaced and made of plain characters only. */
  lemma NormalizeTextNormal(text: string)
    ensures Text.SpaceNormal(NormalizeText(text))
    ensures forall c :: c in NormalizeText(text) ==> Plain(c)
  {
    Text.NormalizeSpacesNormal(Fold(text));
  }

  /** Normalising normalised text changes nothing. */
  lemma NormalizeTextIdempotent(text: string)
    ensures NormalizeText(NormalizeText(text)) == NormalizeText(text)
  {
    var n := NormalizeText(text);
    NormalizeTextNormal(text);
    FoldPlain(n);
    Text.NormalizeSpacesFixed(n);
  }

  // ---------------------------------------------------------------- errors

  datatype ErrorKind = Missing | Spelling | Extra

  datatype TasmeaError = TasmeaError(position: nat, userWord: string, correctWord: string, kind: ErrorKind)

  function Abs(x: int): nat { if x < 0 then -x else x }

  /** What the pass over correct word `k` pushes; the user word it is compared with is the one at the same index. */
  function WordErrors(uw: seq<string>, cw: seq<string>, k: nat): (r: seq<TasmeaError>)
    requires k < |cw|
  {
    if k >= |uw| then [TasmeaError(k, "", cw[k], Missing)]
    else if EditDistance.Similarity(uw[k], cw[k]) < 0.6 && Abs(|uw[k]| - |cw[k]|) <= 2 then
      [TasmeaError(k, uw[k], cw[k], Spelling)]
    else []
  }

  /** The errors of the pass over the first `n` correct words. */
  function PassErrors(uw: seq<string>, cw: seq<string>, n: nat): (r: seq<TasmeaError>)
    requires n <= |cw|
  {
    if n == 0 then [] else PassErrors(uw, cw, n - 1) + WordErrors(uw, cw, n - 1)
  }

  /** The 'extra' errors for the user words at indices `|cw|` up to `n`. */
  function ExtraErrors(uw: seq<string>, cw: seq<string>, n: nat): (r: seq<TasmeaError>)
    requires n <= |uw|
  {
    if n <= |cw| then [] else ExtraErrors(uw, cw, n - 1) + [TasmeaError(|cw|, uw[n - 1], "", Extra)]
  }

  /** `identifyErrors` on the two word lists. */
  function Errors(uw: seq<string>, cw: seq<string>): seq<TasmeaError>
  {
    PassErrors(uw, cw, |cw|) + ExtraErrors(uw, cw, |uw|)
  }

  /** A flagged user word is the one at the correct word's index, dissimilar and of about the same length. */
  predicate Justified(uw: seq<string>, cw: seq<string>, e: TasmeaError)
  {
    match e.kind
    case Missing => |uw| <= e.position < |cw| && e.userWord == "" && e.correctWord == cw[e.position]
    case Spelling =>
      && e.position < |uw| && e.position < |cw|
      && e.userWord == uw[e.position] && e.correctWord == cw[e.position]
      && EditDistance.Similarity(e.userWord, e.correctWord) < 0.6
      && Abs(|e.userWord| - |e.correctWord|) <= 2
    case Extra => |cw| < |uw| && e.position == |cw| && e.correctWord == "" && e.userWord in uw[|cw|..]
  }

  lemma {:induction false} PassJustified(uw: seq<string>, cw: seq<string>, n: nat)
    requires n <= |cw|
    ensures forall e :: e in PassErrors(uw, cw, n) ==> Justified(uw, cw, e) && e.position < n
  {
    if n > 0 {
      PassJustified(uw, cw, n - 1);
    }
  }

  lemma {:induction false} ExtraJustified(uw: seq<string>, cw: seq<string>, n: nat)
    requires n <= |uw|
    ensures forall e :: e in ExtraErrors(uw, cw, n) ==> Justified(uw, cw, e)
  {
    if n > |cw| {
      ExtraJustified(uw, cw, n - 1);
      assert uw[n - 1] == uw[|cw|..][n - 1 - |cw|];
    }
  }

  /** Every reported error is backed by the two word lists. */
  lemma ErrorsJustified(uw: seq<string>, cw: seq<string>)
    ensures forall e :: e in Errors(uw, cw) ==> Justified(uw, cw, e)
  {
    PassJustified(uw, cw, |cw|);
    ExtraJustified(uw, cw, |uw|);
  }

  function Count(errors: seq<TasmeaError>, kind: ErrorKind): nat
  {
    if errors == [] then 0 else (if errors[0].kind == kind then 1 else 0) + Count(errors[1..], kind)
  }

  lemma {:induction false} CountAppend(a: seq<TasmeaError>, b: seq<TasmeaError>, kind: ErrorKind)
    ensures Count(a + b, kind) == Count(a, kind) + Count(b, kind)
    decreases |a|
  {
    if a == [] {
      assert a + b == b;
    } else {
      assert (a + b)[1..] == a[1..] + b;
      CountAppend(a[1..], b, kind);
    }
  }

  lemma {:induction false} PassCounts(uw: seq<string>, cw: seq<string>, n: nat)
    requires n <= |cw|
    ensures Count(PassErrors(uw, cw, n), Missing) == if n <= |uw| then 0 else n - |uw|
    ensures Count(PassErrors(uw, cw, n), Extra) == 0
  {
    if n > 0 {
      PassCounts(uw, cw, n - 1);
      var w := WordErrors(uw, cw, n - 1);
      CountAppend(PassErrors(uw, cw, n - 1), w, Missing);
      CountAppend(PassErrors(uw, cw, n - 1), w, Extra);
      assert w != [] ==> w[1..] == [];
    }
  }

  lemma {:induction false} ExtraCounts(uw: seq<string>, cw: seq<string>, n: nat)
    requires n <= |uw|
    ensures Count(ExtraErrors(uw, cw, n), Extra) == if n <= |cw| then 0 else n - |cw|
    ensures Count(ExtraErrors(uw, cw, n), Missing) == 0
  {
    if n > |cw| {
      ExtraCounts(uw, cw, n - 1);
      var e := TasmeaError(|cw|, uw[n - 1], "", Extra);
      CountAppend(ExtraErrors(uw, cw, n - 1), [e], Missing);
      CountAppend(ExtraErrors(uw, cw, n - 1), [e], Extra);
    }
  }

  /**
   * One 'missing' error for each correct word past the end of the user's
   * words, one 'extra' for each user word past the end of the correct ones;
   * missing words sit at their own index, extra ones all at the count of
   * correct words.
   */
  lemma ErrorCounts(uw: seq<string>, cw: seq<string>)
    ensures Count(Errors(uw, cw), Missing) == if |cw| <= |uw| then 0 else |cw| - |uw|
    ensures Count(Errors(uw, cw), Extra) == if |uw| <= |cw| then 0 else |uw| - |cw|
  {
    PassCounts(uw, cw, |cw|);
    ExtraCounts(uw, cw, |uw|);
    CountAppend(PassErrors(uw, cw, |cw|), ExtraErrors(uw, cw, |uw|), Missing);
    CountAppend(PassErrors(uw, cw, |cw|), ExtraErrors(uw, cw, |uw|), Extra);
  }

  /**
   * `calculateSimilarity` (and `calculateAccuracy`, which computes the same):
   * one minus the edit distance over the longer length, 1 for two empty strings.
   */
  method CalculateSimilarity(a: string, b: string) returns (s: real)
    ensures s == EditDistance.Similarity(a, b)
    ensures 0.0 <= s <= 1.0 && (s == 1.0 <==> a == b)
  {
    var distance := EditDistance.FillWithCost(a, b);
    var maxLength := EditDistance.Max(|a|, |b|);
    s := if maxLength == 0 then 1.0 else 1.0 - distance as real / maxLength as real;
    EditDistance.SimilarityRange(a, b);
  }

  /** The pass's step for correct word `correctIndex`, with the user index that has kept pace with it. */
  method CompareWord(userWords: seq<string>, correctWords: seq<string>, userIndex: nat, correctIndex: nat)
    returns (e: seq<TasmeaError>)
    requires correctIndex < |correctWords|
    requires userIndex == if correctIndex <= |userWords| then correctIndex else |userWords|
    ensures e == WordErrors(userWords, correctWords, correctIndex)
  {
    if userIndex >= |userWords| {
      return [TasmeaError(correctIndex, "", correctWords[correctIndex], Missing)];
    }
    var userWord := userWords[userIndex];
    var correctWord := correctWords[correctIndex];
    var similarity := CalculateSimilarity(userWord, correctWord);
    e := [];
    if similarity < 0.6 {
      if Abs(|userWord| - |correctWord|) <= 2 {
        e := [TasmeaError(correctIndex, userWord, correctWord, Spelling)];
      }
    }
  }

  /** `identifyErrors`: the two texts split into words, then compared word list against word list. */
  method IdentifyErrors(userText: string, correctText: string) returns (errors: seq<TasmeaError>)
    ensures errors == Errors(Text.Words(userText), Text.Words(correctText))
  {
    var userWords := Text.Words(userText);
    var correctWords := Text.Words(correctText);
    errors := CompareWords(userWords, correctWords);
  }

  /** The pass over the correct words with a moving user index, then the leftover user words. */
  method CompareWords(userWords: seq<string>, correctWords: seq<string>) returns (errors: seq<TasmeaError>)
    ensures errors == Errors(userWords, correctWords)
  {
    errors := [];
    var userIndex := 0;
    for correctIndex := 0 to |correctWords|
      invariant userIndex == if correctIndex <= |userWords| then correctIndex else |userWords|
      invariant errors == PassErrors(userWords, correctWords, correctIndex)
    {
      var step := CompareWord(userWords, correctWords, userIndex, correctIndex);
      errors := errors + step;
      if userIndex < |userWords| {
        userIndex := userIndex + 1;
      }
    }
    while userIndex < |userWords|
      invariant userIndex <= |userWords|
      invariant |correctWords| <= |userWords| ==> |correctWords| <= userIndex
      invariant errors == PassErrors(userWords, correctWords, |correctWords|)
                          + ExtraErrors(userWords, correctWords, userIndex)
    {
      errors := errors + [TasmeaError(|correctWords|, userWords[userIndex], "", Extra)];
      userIndex := userIndex + 1;
    }
  }

  // ---------------------------------------------------------------- accuracy

  datatype Report = Report(accuracy: int, errors: seq<TasmeaError>)

  /** A similarity in [0, 1] rounds to a percentage in [0, 100]. */
  lemma PercentRange(x: real)
    requires 0.0 <= x <= 1.0
    ensures 0 <= JsNumbers.Round(x * 100.0) <= 100
    ensures x == 1.0 ==> JsNumbers.Round(x * 100.0) == 100
  {
  }

  /** The percentage `checkAccuracy` reports for two texts. */
  function Accuracy(userText: string, correctText: string): int
  {
    JsNumbers.Round(EditDistance.Similarity(NormalizeText(userText), NormalizeText(correctText)) * 100.0)
  }

  /** The percentage lies in [0, 100] and is 100 whenever the normalised texts agree. */
  lemma AccuracyRange(userText: string, correctText: string)
    ensures 0 <= Accuracy(userText, correctText) <= 100
    ensures NormalizeText(userText) == NormalizeText(correctText) ==> Accuracy(userText, correctText) == 100
  {
    var u := NormalizeText(userText);
    var c := NormalizeText(correctText);
    EditDistance.SimilarityRange(u, c);
    PercentRange(EditDistance.Similarity(u, c));
  }

  /**
   * `checkAccuracy`: both texts normalised, the rounded percentage of their
   * similarity, and the errors between their words.
   */
  method CheckAccuracy(userText: string, correctText: string) returns (r: Report)
    ensures r.accuracy == Accuracy(userText, correctText)
    ensures r.errors == Errors(Text.Words(NormalizeText(userText)), Text.Words(NormalizeText(correctText)))
    ensures 0 <= r.accuracy <= 100
  {
    var normalizedUser := NormalizeText(userText);
    var normalizedCorrect := NormalizeText(correctText);
    var accuracy := CalculateSimilarity(normalizedUser, normalizedCorrect);
    AccuracyRange(userText, correctText);
    var errors := IdentifyErrors(normalizedUser, normalizedCorrect);
    r := Report(JsNumbers.Round(accuracy * 100.0), errors);
  }

  // ---------------------------------------------------------------- sessions

  datatype Session = Session(
    id: string, surahId: int, surahName: string, startAyah: int, endAyah: int,
    userText: string, correctText: string, accuracy: int, errors: seq<TasmeaError>,
    startTime: int, endTime: Option<int>, duration: Option<int>)

  /** `createSession` with the generated id and the clock reading given. */
  function CreateSession(id: string, surahId: int, surahName: string, startAyah: int, endAyah: int,
                         correctText: string, now: int): (s: Session)
    ensures s.id == id && s.surahId == surahId && s.surahName == surahName
    ensures s.startAyah == startAyah && s.endAyah == endAyah && s.correctText == correctText
    ensures s.userText == "" && s.accuracy == 0 && s.errors == [] && s.startTime == now
    ensures s.endTime.None? && s.duration.None?
  {
    Session(id, surahId, surahName, startAyah, endAyah, "", correctText, 0, [], now, None, None)
  }

  /**
   * `completeSession` at clock reading `endTime`: every other field kept, the
   * end time and the rounded duration in seconds set, and the session's texts
   * scored.
   */
  method CompleteSession(session: Session, endTime: int) returns (r: Session)
    ensures r == session.(endTime := r.endTime, duration := r.duration, accuracy := r.accuracy, errors := r.errors)
    ensures r.endTime == Some(endTime)
    ensures r.duration == Some(JsNumbers.Round((endTime - session.startTime) as real / 1000.0))
    ensures r.accuracy == Accuracy(session.userText, session.correctText)
    ensures r.errors == Errors(Text.Words(NormalizeText(session.userText)), Text.Words(NormalizeText(session.correctText)))
  {
    var accuracy := CheckAccuracy(session.userText, session.correctText);
    r := session.(endTime := Some(endTime),
                  duration := Some(JsNumbers.Round((endTime - session.startTime) as real / 1000.0)),
                  accuracy := accuracy.accuracy, errors := accuracy.errors);
  }

  function Accuracies(sessions: seq<Session>): (r: seq<int>)
    ensures |r| == |sessions| && forall i :: 0 <= i < |r| ==> r[i] == sessions[i].accuracy
  {
    seq(|sessions|, i requires 0 <= i < |sessions| => sessions[i].accuracy)
  }

  /** `Math.round` of the mean accuracy, 0 for no sessions. */
  function RoundedMean(sessions: seq<Session>): int
  {
    if |sessions| == 0 then 0 else JsNumbers.Round(Seqs.Sum(Accuracies(sessions)) as real / |sessions| as real)
  }

  /** The mean of accuracies that lie in [lo, hi] lies in [lo, hi]. */
  lemma RoundedMeanBounds(sessions: seq<Session>, lo: int, hi: int)
    requires forall s :: s in sessions ==> lo <= s.accuracy <= hi
    ensures sessions != [] ==> lo <= RoundedMean(sessions) <= hi
    ensures sessions == [] ==> RoundedMean(sessions) == 0
  {
    if sessions != [] {
      var a := Accuracies(sessions);
      Seqs.SumBounds(a, lo, hi);
      JsNumbers.RoundedQuotientBounds(Seqs.Sum(a), |a|, lo, hi);
    }
  }

  function SessionsBySurah(sessions: seq<Session>, surahId: int): (r: seq<Session>)
    ensures forall s :: s in r <==> s in sessions && s.surahId == surahId
  {
    Seqs.Filter((s: Session) => s.surahId == surahId, sessions)
  }

  /** `getAverageAccuracyForSurah` over the saved sessions. */
  function AverageAccuracyForSurah(sessions: seq<Session>, surahId: int): int
  {
    RoundedMean(SessionsBySurah(sessions, surahId))
  }

  /** A surah's average lies within the accuracies of its own sessions, and is 0 when it has none. */
  lemma AverageForSurahBounds(sessions: seq<Session>, surahId: int, lo: int, hi: int)
    requires forall s :: s in sessions && s.surahId == surahId ==> lo <= s.accuracy <= hi
    ensures (forall s :: s in sessions ==> s.surahId != surahId) ==> AverageAccuracyForSurah(sessions, surahId) == 0
    ensures (exists s :: s in sessions && s.surahId == surahId) ==> lo <= AverageAccuracyForSurah(sessions, surahId) <= hi
  {
    var f := SessionsBySurah(sessions, surahId);
    RoundedMeanBounds(f, lo, hi);
    if forall s :: s in sessions ==> s.surahId != surahId {
      assert f == [];
    }
    if exists s :: s in sessions && s.surahId == surahId {
      var s :| s in sessions && s.surahId == surahId;
      assert s in f;
    }
  }

  /** `Math.max(...s)` for a non-empty list. */
  function MaxOf(s: seq<int>): (m: int)
    requires s != []
    ensures m in s && forall x :: x in s ==> x <= m
  {
    if |s| == 1 then s[0]
    else
      var rest := MaxOf(s[1..]);
      assert forall x :: x in s ==> x == s[0] || x in s[1..];
      if s[0] >= rest then s[0] else rest
  }

  function Durations(sessions: seq<Session>): (r: seq<int>)
    ensures |r| == |sessions| && forall i :: 0 <= i < |r| ==> r[i] == sessions[i].duration.GetOr(0)
  {
    seq(|sessions|, i requires 0 <= i < |sessions| => sessions[i].duration.GetOr(0))
  }

  datatype Statistics = Statistics(totalSessions: nat, averageAccuracy: int, bestAccuracy: int, totalTime: int)

  /** `getStatistics`: all zero for no sessions; otherwise the count, rounded mean, best accuracy and total seconds. */
  function GetStatistics(sessions: seq<Session>): (r: Statistics)
    ensures sessions == [] ==> r == Statistics(0, 0, 0, 0)
    ensures sessions != [] ==>
      && r.totalSessions == |sessions| && r.averageAccuracy == RoundedMean(sessions)
      && (exists s :: s in sessions && s.accuracy == r.bestAccuracy)
      && (forall s :: s in sessions ==> s.accuracy <= r.bestAccuracy)
      && r.totalTime == Seqs.Sum(Durations(sessions))
  {
    if sessions == [] then Statistics(0, 0, 0, 0)
    else
      var best := MaxOf(Accuracies(sessions));
      assert forall s :: s in sessions ==> s.accuracy in Accuracies(sessions) by {
        forall s | s in sessions ensures s.accuracy in Accuracies(sessions) {
          var i :| 0 <= i < |sessions| && sessions[i] == s;
          assert Accuracies(sessions)[i] == s.accuracy;
        }
      }
      Statistics(|sessions|, RoundedMean(sessions), best, Seqs.Sum(Durations(sessions)))
  }
}
