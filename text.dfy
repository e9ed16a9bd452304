/**
 * JavaScript string operations the core relies on, over `seq<char>`:
 * white space as `\s` and `trim` define it, `includes`, `split`, decimal
 * formatting, ASCII case mapping and the space normalisation
 * `replace(/\s+/g, ' ').trim()` that several services share.
 */
module Text {
  import opened Wrappers

  /** JavaScript's WhiteSpace and LineTerminator characters: the class `\s`, and what `trim` removes. */
  predicate IsJsSpace(c: char)
  {
    c == '\t' || c == '\n' || c == '\U{000B}' || c == '\U{000C}' || c == '\r' || c == ' '
    || c == '\U{00A0}' || c == '\U{1680}' || ('\U{2000}' <= c <= '\U{200A}')
    || c == '\U{2028}' || c == '\U{2029}' || c == '\U{202F}' || c == '\U{205F}'
    || c == '\U{3000}' || c == '\U{FEFF}'
  }

  /** `hay.includes(needle)`. */
  predicate Contains(hay: string, needle: string)
    decreases |hay|
  {
    needle <= hay || (hay != [] && Contains(hay[1..], needle))
  }

  lemma {:induction false} ContainsSelf(s: string, t: string)
    ensures Contains(s + t, s) && Contains(s, "")
  {
  }

  /** An occurrence of `needle` in `hay` lies in `hay`: its characters are characters of `hay`. */
  lemma {:induction false} ContainsChars(hay: string, needle: string, c: char)
    requires Contains(hay, needle) && c in needle
    ensures c in hay
  {
    if !(needle <= hay) {
      ContainsChars(hay[1..], needle, c);
    }
  }

  /** `needle` occurs in `hay` at offset `k`. */
  predicate OccursAt(hay: string, needle: string, k: int)
  {
    0 <= k && k + |needle| <= |hay| && hay[k..k + |needle|] == needle
  }

  /** `includes` holds exactly when the needle occurs at some offset. */
  lemma {:induction false} ContainsIff(hay: string, needle: string)
    ensures Contains(hay, needle) <==> exists k :: OccursAt(hay, needle, k)
    decreases |hay|
  {
    if Contains(hay, needle) {
      if needle <= hay {
        assert OccursAt(hay, needle, 0);
      } else {
        ContainsIff(hay[1..], needle);
        var k :| OccursAt(hay[1..], needle, k);
        TailSlice(hay, k, |needle|);
        assert OccursAt(hay, needle, k + 1);
      }
    }
    if exists k :: OccursAt(hay, needle, k) {
      var k :| OccursAt(hay, needle, k);
      if k == 0 {
        assert needle <= hay;
      } else {
        TailSlice(hay, k - 1, |needle|);
        assert OccursAt(hay[1..], needle, k - 1);
        ContainsIff(hay[1..], needle);
      }
    }
  }

  /** A slice of a text's tail is the slice one further on in the text. */
  lemma TailSlice(hay: string, k: nat, m: nat)
    requires 1 + k + m <= |hay|
    ensures hay[1..][k..k + m] == hay[k + 1..k + 1 + m]
  {
    var x, y := hay[1..][k..k + m], hay[k + 1..k + 1 + m];
    forall i | 0 <= i < m ensures x[i] == y[i] {
      assert hay[1..][k + i] == hay[k + 1 + i];
    }
  }

  /** A text contains each of its suffixes. */
  lemma ContainsSuffix(p: string, s: string)
    ensures Contains(p + s, s)
  {
    ContainsIff(p + s, s);
    assert (p + s)[|p|..|p| + |s|] == s;
    assert OccursAt(p + s, s, |p|);
  }

  /** A text that contains `b` contains everything `b` contains. */
  lemma ContainsTransitive(a: string, b: string, c: string)
    requires Contains(a, b) && Contains(b, c)
    ensures Contains(a, c)
  {
    ContainsIff(a, b);
    ContainsIff(b, c);
    ContainsIff(a, c);
    var i :| OccursAt(a, b, i);
    var j :| OccursAt(b, c, j);
    forall t | 0 <= t < |c| ensures a[i + j + t] == c[t] {
      assert c[t] == b[j + t];
      assert b[j + t] == a[i..i + |b|][j + t];
    }
    assert a[i + j..i + j + |c|] == c;
    assert OccursAt(a, c, i + j);
  }

  // ---------------------------------------------------------------- decimal text

  predicate IsDigit(c: char) { '0' <= c <= '9' }

  predicate IsDigits(s: string) { forall i :: 0 <= i < |s| ==> IsDigit(s[i]) }

  function DigitChar(d: int): (c: char)
    requires 0 <= d < 10
    ensures IsDigit(c) && c as int - '0' as int == d
  {
    (48 + d) as char
  }

  /** `n.toString()` for a non-negative integer. */
  function NatToString(n: nat): (r: string)
    ensures |r| >= 1 && IsDigits(r)
    ensures n < 10 <==> |r| == 1
    decreases n
  {
    if n < 10 then [DigitChar(n)] else NatToString(n / 10) + [DigitChar(n % 10)]
  }

  /** `i.toString()` for an integer. */
  function IntToString(i: int): (r: string)
    ensures |r| >= 1
    ensures i >= 0 ==> r == NatToString(i)
  {
    if i < 0 then "-" + NatToString(-i) else NatToString(i)
  }

  /** The value of a string of decimal digits, `None` once a character is not a digit; `0` for the empty string. */
  function DigitsNumber(s: string): Option<nat>
    decreases |s|
  {
    if s == [] then Some(0)
    else if !IsDigit(s[|s| - 1]) then None
    else match DigitsNumber(s[..|s| - 1])
      case None => None
      case Some(v) => Some(v * 10 + (s[|s| - 1] as int - '0' as int))
  }

  lemma {:induction false} NatToStringRoundTrip(n: nat)
    ensures DigitsNumber(NatToString(n)) == Some(n)
  {
    var r := NatToString(n);
    if n >= 10 {
      assert r[..|r| - 1] == NatToString(n / 10);
      NatToStringRoundTrip(n / 10);
    } else {
      assert r[..0] == [];
    }
  }

  /** Distinct integers print differently. */
  lemma IntToStringInjective(a: int, b: int)
    requires IntToString(a) == IntToString(b)
    ensures a == b
  {
    SignOfString(a);
    SignOfString(b);
    if a < 0 {
      assert NatToString(-a) == IntToString(a)[1..] == NatToString(-b);
      NatToStringInjective(-a, -b);
    } else {
      NatToStringInjective(a, b);
    }
  }

  lemma NatToStringInjective(m: nat, n: nat)
    requires NatToString(m) == NatToString(n)
    ensures m == n
  {
    NatToStringRoundTrip(m);
    NatToStringRoundTrip(n);
  }

  lemma SignOfString(i: int)
    ensures IntToString(i)[0] == '-' <==> i < 0
  {
    if i >= 0 {
      assert IsDigit(NatToString(i)[0]);
    }
  }

  /** Equal strings with the same text around them have the same middle. */
  lemma FramedEqual(p: string, x: string, y: string, q: string)
    requires p + x + q == p + y + q
    ensures x == y
  {
    assert |x| == |y|;
    assert x == (p + x + q)[|p|..|p| + |x|];
    assert y == (p + y + q)[|p|..|p| + |y|];
  }

  /** A printed integer holds no space. */
  lemma IntToStringNoBlank(i: int)
    ensures ' ' !in IntToString(i)
  {
    var s := IntToString(i);
    var digits := if i < 0 then NatToString(-i) else NatToString(i);
    assert forall k :: 0 <= k < |digits| ==> digits[k] != ' ';
    assert forall k :: 0 <= k < |s| ==> s[k] == '-' || s[k] in digits;
  }

  /** The text before the first space is determined when it holds no space. */
  lemma BlankFreeHead(a: string, x: string, b: string, y: string)
    requires ' ' !in a && ' ' !in b
    requires a + " " + x == b + " " + y
    ensures a == b && x == y
  {
    var s := a + " " + x;
    assert s[|a|] == ' ' && s[|b|] == ' ';
    assert forall k :: 0 <= k < |a| ==> s[k] == a[k] != ' ';
    assert forall k :: 0 <= k < |b| ==> s[k] == b[k] != ' ';
    assert a == s[..|a|] && b == s[..|b|];
    assert x == s[|a| + 1..] && y == s[|b| + 1..];
  }

  /** The text after the last space is determined when it holds no space. */
  lemma BlankFreeTail(x: string, a: string, y: string, b: string)
    requires ' ' !in a && ' ' !in b
    requires x + " " + a == y + " " + b
    ensures a == b && x == y
  {
    var s := x + " " + a;
    assert a == s[|x| + 1..] && b == s[|y| + 1..];
    assert s[|x|] == ' ' && s[|y|] == ' ';
    assert forall k :: |x| + 1 <= k < |s| ==> s[k] in a;
    assert forall k :: |y| + 1 <= k < |s| ==> s[k] in b;
    assert x == s[..|x|] && y == s[..|y|];
  }

  /** A leading zero does not change the value of a digit string. */
  lemma {:induction false} LeadingZero(s: string)
    requires DigitsNumber(s).Some?
    ensures DigitsNumber("0" + s) == DigitsNumber(s)
    decreases |s|
  {
    var z := "0" + s;
    if s == [] {
      assert z[..0] == [];
    } else {
      assert z[..|z| - 1] == "0" + s[..|s| - 1];
      LeadingZero(s[..|s| - 1]);
    }
  }

  /**
   * `Number(s)` on the strings the model meets: surrounding white space is
   * ignored, the empty string is 0, a run of decimal digits is its value and
   * anything else is `NaN`, written `None`.
   */
  function ToNumber(s: string): Option<nat>
    decreases |s|
  {
    if s != [] && IsJsSpace(s[0]) then ToNumber(s[1..])
    else if s != [] && IsJsSpace(s[|s| - 1]) then ToNumber(s[..|s| - 1])
    else DigitsNumber(s)
  }

  /** `Number` reads back what `toString` and `padStart(2, '0')` wrote. */
  lemma NumberOfPadded(n: nat)
    ensures ToNumber(NatToString(n)) == Some(n)
    ensures ToNumber(PadStart2(NatToString(n))) == Some(n)
  {
    var s := NatToString(n);
    NatToStringRoundTrip(n);
    DigitsToNumber(s);
    if |s| < 2 {
      LeadingZero(s);
      assert PadStart2(s) == "0" + s;
      assert IsDigits("0" + s) by {
        assert forall i :: 1 <= i < |"0" + s| ==> ("0" + s)[i] == s[i - 1];
      }
      DigitsToNumber("0" + s);
    }
  }

  /** `Number` of a digit string is its decimal value: there is no white space to trim. */
  lemma DigitsToNumber(s: string)
    requires IsDigits(s)
    ensures ToNumber(s) == DigitsNumber(s)
  {
    if s != [] {
      assert IsDigit(s[0]) && IsDigit(s[|s| - 1]);
    }
  }

  /** `s.padStart(2, '0')`. */
  function PadStart2(s: string): (r: string)
    ensures |s| >= 2 ==> r == s
    ensures |s| < 2 ==> |r| == 2 && r[2 - |s|..] == s && (forall i :: 0 <= i < 2 - |s| ==> r[i] == '0')
  {
    if |s| >= 2 then s else if |s| == 1 then "0" + s else "00"
  }

  // ---------------------------------------------------------------- case

  /** `toLowerCase` restricted to ASCII letters; Arabic script has no case. */
  function LowerChar(c: char): (d: char)
    ensures !('A' <= d <= 'Z')
    ensures !('A' <= c <= 'Z') ==> d == c
  {
    if 'A' <= c <= 'Z' then (c as int + 32) as char else c
  }

  function Lower(s: string): (r: string)
    ensures |r| == |s|
    ensures forall i :: 0 <= i < |s| ==> r[i] == LowerChar(s[i])
  {
    seq(|s|, i requires 0 <= i < |s| => LowerChar(s[i]))
  }

  /** Lower-casing works character by character, so it distributes over concatenation. */
  lemma LowerConcat(a: string, b: string)
    ensures Lower(a + b) == Lower(a) + Lower(b)
  {
  }

  // ---------------------------------------------------------------- white space

  /** Drops the white space at the front of `s`. */
  function DropSpaces(s: string): (r: string)
    ensures |r| <= |s|
    ensures s != [] && IsJsSpace(s[0]) ==> |r| < |s|
  {
    if s != [] && IsJsSpace(s[0]) then DropSpaces(s[1..]) else s
  }

  /** What `DropSpaces` leaves is a suffix that starts with no white space, and all it drops is white space. */
  lemma {:induction false} DropSpacesProps(s: string)
    ensures var r := DropSpaces(s); r == s[|s| - |r|..] && (r == [] || !IsJsSpace(r[0]))
    ensures forall i :: 0 <= i < |s| - |DropSpaces(s)| ==> IsJsSpace(s[i])
    decreases |s|
  {
    if s != [] && IsJsSpace(s[0]) {
      DropSpacesProps(s[1..]);
      assert forall i :: 1 <= i < |s| ==> s[i] == s[1..][i - 1];
    }
  }

  /** Drops the white space at the back of `s`. */
  function DropTrailingSpaces(s: string): (r: string)
    ensures |r| <= |s|
  {
    if s != [] && IsJsSpace(s[|s| - 1]) then DropTrailingSpaces(s[..|s| - 1]) else s
  }

  /** What `DropTrailingSpaces` leaves is a prefix that ends with no white space, and all it drops is white space. */
  lemma {:induction false} DropTrailingSpacesProps(s: string)
    ensures var r := DropTrailingSpaces(s); r == s[..|r|] && (r == [] || !IsJsSpace(r[|r| - 1]))
    ensures forall i :: |DropTrailingSpaces(s)| <= i < |s| ==> IsJsSpace(s[i])
    decreases |s|
  {
    if s != [] && IsJsSpace(s[|s| - 1]) {
      DropTrailingSpacesProps(s[..|s| - 1]);
      assert forall i :: 0 <= i < |s| - 1 ==> s[i] == s[..|s| - 1][i];
    }
  }

  /** `String.prototype.trim`. */
  function Trim(s: string): string
  {
    DropTrailingSpaces(DropSpaces(s))
  }

  /** Trimming leaves no white space at either end, keeps only characters of `s`, and gives "" exactly for blank input. */
  lemma TrimProps(s: string)
    ensures var r := Trim(s); r == [] || (!IsJsSpace(r[0]) && !IsJsSpace(r[|r| - 1]))
    ensures forall c :: c in Trim(s) ==> c in s
    ensures (forall i :: 0 <= i < |s| ==> IsJsSpace(s[i])) <==> Trim(s) == []
  {
    var t := DropSpaces(s);
    var r := DropTrailingSpaces(t);
    DropSpacesProps(s);
    DropTrailingSpacesProps(t);
    assert forall c :: c in r ==> c in t;
    assert forall c :: c in t ==> c in s;
  }

  /** `s.replace(/\s+/g, ' ')`: every run of white space becomes one plain space. */
  function CollapseSpaces(s: string): string
    decreases |s|
  {
    if s == [] then []
    else if IsJsSpace(s[0]) then [' '] + CollapseSpaces(DropSpaces(s))
    else [s[0]] + CollapseSpaces(s[1..])
  }

  /** `s.replace(/\s+/g, ' ').trim()`. */
  function NormalizeSpaces(s: string): string
  {
    Trim(CollapseSpaces(s))
  }

  /** Every white-space character is a plain space and no two spaces are adjacent. */
  predicate SingleSpaced(s: string)
  {
    forall i :: 0 <= i < |s| && IsJsSpace(s[i]) ==> s[i] == ' ' && (i + 1 < |s| ==> s[i + 1] != ' ')
  }

  /** What `NormalizeSpaces` produces: single-spaced and without white space at either end. */
  predicate SpaceNormal(s: string)
  {
    SingleSpaced(s) && (s == [] || (!IsJsSpace(s[0]) && !IsJsSpace(s[|s| - 1])))
  }

  /** Prefixing a character that is not white space keeps a string single-spaced. */
  lemma ConsSingleSpaced(c: char, t: string)
    requires SingleSpaced(t)
    requires c == ' ' || !IsJsSpace(c)
    requires c == ' ' ==> t == [] || !IsJsSpace(t[0])
    ensures SingleSpaced([c] + t)
  {
    var r := [c] + t;
    forall i | 0 <= i < |r| && IsJsSpace(r[i])
      ensures r[i] == ' ' && (i + 1 < |r| ==> r[i + 1] != ' ')
    {
      if i > 0 {
        assert r[i] == t[i - 1];
        if i + 1 < |r| { assert r[i + 1] == t[i]; }
      } else if i + 1 < |r| {
        assert r[1] == t[0];
      }
    }
  }

  lemma {:induction false} CollapseSingleSpaced(s: string)
    ensures SingleSpaced(CollapseSpaces(s))
    ensures forall c :: c in CollapseSpaces(s) ==> c in s || c == ' '
    ensures s != [] && !IsJsSpace(s[0]) ==> CollapseSpaces(s)[0] == s[0]
    ensures s != [] && IsJsSpace(s[0]) ==> CollapseSpaces(s)[0] == ' '
    ensures s != [] ==> CollapseSpaces(s) != []
    decreases |s|
  {
    if s == [] {
    } else if IsJsSpace(s[0]) {
      var t := DropSpaces(s);
      DropSpacesProps(s);
      CollapseSingleSpaced(t);
      var R := CollapseSpaces(t);
      assert CollapseSpaces(s) == [' '] + R;
      assert R == [] || !IsJsSpace(R[0]);
      ConsSingleSpaced(' ', R);
      assert forall c :: c in t ==> c in s;
    } else {
      var R := CollapseSpaces(s[1..]);
      CollapseSingleSpaced(s[1..]);
      assert CollapseSpaces(s) == [s[0]] + R;
      ConsSingleSpaced(s[0], R);
      assert forall c :: c in s[1..] ==> c in s;
    }
  }

  lemma SubstringSingleSpaced(s: string, a: nat, b: nat)
    requires a <= b <= |s| && SingleSpaced(s)
    ensures SingleSpaced(s[a..b])
  {
    var t := s[a..b];
    forall i | 0 <= i < |t| && IsJsSpace(t[i])
      ensures t[i] == ' ' && (i + 1 < |t| ==> t[i + 1] != ' ')
    {
      assert t[i] == s[a + i];
      if i + 1 < |t| { assert t[i + 1] == s[a + i + 1]; }
    }
  }

  /** Trimming keeps a string single-spaced. */
  lemma TrimSingleSpaced(c: string)
    requires SingleSpaced(c)
    ensures SingleSpaced(Trim(c))
  {
    var t := DropSpaces(c);
    DropSpacesProps(c);
    DropTrailingSpacesProps(t);
    SubstringSingleSpaced(c, |c| - |t|, |c|);
    SubstringSingleSpaced(t, 0, |DropTrailingSpaces(t)|);
  }

  /** Whatever the input, `NormalizeSpaces` yields a space-normal string built from its characters. */
  lemma NormalizeSpacesNormal(s: string)
    ensures SpaceNormal(NormalizeSpaces(s))
    ensures forall c :: c in NormalizeSpaces(s) ==> c in s || c == ' '
  {
    CollapseSingleSpaced(s);
    TrimSingleSpaced(CollapseSpaces(s));
    TrimProps(CollapseSpaces(s));
  }

  lemma {:induction false} CollapseSingleSpacedFixed(s: string)
    requires SingleSpaced(s)
    ensures CollapseSpaces(s) == s
    decreases |s|
  {
    if s != [] {
      SubstringSingleSpaced(s, 1, |s|);
      CollapseSingleSpacedFixed(s[1..]);
      if IsJsSpace(s[0]) {
        assert s[0] == ' ';
        assert DropSpaces(s) == DropSpaces(s[1..]);
        if |s| > 1 { assert !IsJsSpace(s[1]); }
        assert DropSpaces(s[1..]) == s[1..];
      }
    }
  }

  /** A space-normal string is a fixed point of `NormalizeSpaces`. */
  lemma NormalizeSpacesFixed(s: string)
    requires SpaceNormal(s)
    ensures NormalizeSpaces(s) == s
  {
    CollapseSingleSpacedFixed(s);
    assert DropSpaces(s) == s;
    assert DropTrailingSpaces(s) == s;
  }

  // ---------------------------------------------------------------- words

  /** No white space at all. */
  predicate NoSpace(s: string) { forall i :: 0 <= i < |s| ==> !IsJsSpace(s[i]) }

  /** The longest prefix of `s` without white space. */
  function TakeWord(s: string): (w: string)
    ensures w <= s
    ensures NoSpace(w)
    ensures |w| == |s| || IsJsSpace(s[|w|])
  {
    if s != [] && !IsJsSpace(s[0]) then [s[0]] + TakeWord(s[1..]) else []
  }

  /** `s.split(/\s+/).filter(w => w.length > 0)`: the maximal runs of non-space characters. */
  function Words(s: string): seq<string>
    decreases |s|
  {
    var t := DropSpaces(s);
    if t == [] then []
    else
      var w := TakeWord(t);
      assert |w| >= 1 by {
        DropSpacesProps(s);
      }
      [w] + Words(t[|w|..])
  }

  /** Every word is non-empty and holds no white space. */
  lemma {:induction false} WordsNonEmpty(s: string)
    ensures forall k :: 0 <= k < |Words(s)| ==> Words(s)[k] != [] && NoSpace(Words(s)[k])
    decreases |s|
  {
    var t := DropSpaces(s);
    if t != [] {
      DropSpacesProps(s);
      var w := TakeWord(t);
      WordsNonEmpty(t[|w|..]);
      var rest := Words(t[|w|..]);
      assert Words(s) == [w] + rest;
      forall k | 0 <= k < |Words(s)| ensures Words(s)[k] != [] && NoSpace(Words(s)[k]) {
        if k > 0 { assert Words(s)[k] == rest[k - 1]; }
      }
    }
  }

  /** `s.split(sep)`: the pieces between occurrences of `sep`, empty pieces included. */
  function SplitOn(s: string, sep: char): (r: seq<string>)
    ensures |r| >= 1
    ensures forall k :: 0 <= k < |r| ==> sep !in r[k]
    decreases |s|
  {
    if s == [] then [[]]
    else if s[0] == sep then [[]] + SplitOn(s[1..], sep)
    else
      var rest := SplitOn(s[1..], sep);
      [[s[0]] + rest[0]] + rest[1..]
  }

  /** Every character other than the separator lands in one of the pieces. */
  lemma {:induction false} SplitOnKeeps(s: string, sep: char, c: char)
    requires c in s && c != sep
    ensures exists k :: 0 <= k < |SplitOn(s, sep)| && c in SplitOn(s, sep)[k]
    decreases |s|
  {
    var r := SplitOn(s, sep);
    if s[0] == c {
      assert c in r[0];
    } else {
      SplitOnKeeps(s[1..], sep, c);
      var rest := SplitOn(s[1..], sep);
      var k :| 0 <= k < |rest| && c in rest[k];
      if s[0] == sep {
        assert r[k + 1] == rest[k];
      } else if k == 0 {
        assert c in r[0];
      } else {
        assert r[k] == rest[k];
      }
    }
  }
}
