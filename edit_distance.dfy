/**
 * Levenshtein distance. `Distance` is the reference definition on prefixes;
 * the two methods are the dynamic-programming tables the services fill, one
 * taking the minimum of three moves with a substitution cost, the other
 * copying the diagonal when the characters agree.
 */
module EditDistance {

  function Min3(x: int, y: int, z: int): (m: int)
    ensures m <= x && m <= y && m <= z
    ensures m == x || m == y || m == z
  {
    if x <= y && x <= z then x else if y <= z then y else z
  }

  function Max(x: int, y: int): int { if x < y then y else x }

  function Cost(a: string, b: string): nat
    requires |a| > 0 && |b| > 0
  {
    if a[|a| - 1] == b[|b| - 1] then 0 else 1
  }

  /** The fewest single-character deletions, insertions and substitutions turning `a` into `b`. */
  function Distance(a: string, b: string): nat
    decreases |a| + |b|
  {
    if |a| == 0 then |b|
    else if |b| == 0 then |a|
    else Min3(Distance(a[..|a| - 1], b) + 1,
              Distance(a, b[..|b| - 1]) + 1,
              Distance(a[..|a| - 1], b[..|b| - 1]) + Cost(a, b))
  }

  /** The distance never exceeds the longer length and never falls below the difference of lengths. */
  lemma {:induction false} DistanceBounds(a: string, b: string)
    ensures Distance(a, b) <= Max(|a|, |b|)
    ensures |a| - |b| <= Distance(a, b) && |b| - |a| <= Distance(a, b)
    decreases |a| + |b|
  {
    if |a| > 0 && |b| > 0 {
      DistanceBounds(a[..|a| - 1], b);
      DistanceBounds(a, b[..|b| - 1]);
      DistanceBounds(a[..|a| - 1], b[..|b| - 1]);
    }
  }

  /** The distance is zero exactly when the strings are equal. */
  lemma {:induction false} DistanceZero(a: string, b: string)
    ensures Distance(a, b) == 0 <==> a == b
    decreases |a| + |b|
  {
    if |a| > 0 && |b| > 0 {
      var a', b' := a[..|a| - 1], b[..|b| - 1];
      DistanceZero(a', b');
      if a == b {
        assert a' == b';
      }
      if Distance(a, b) == 0 {
        assert Distance(a', b') + Cost(a, b) == 0;
        assert a == a' + [a[|a| - 1]] && b == b' + [b[|b| - 1]];
      }
    }
  }

  /** The distance does not depend on the order of its arguments. */
  lemma {:induction false} DistanceSymmetric(a: string, b: string)
    ensures Distance(a, b) == Distance(b, a)
    decreases |a| + |b|
  {
    if |a| > 0 && |b| > 0 {
      DistanceSymmetric(a[..|a| - 1], b);
      DistanceSymmetric(a, b[..|b| - 1]);
      DistanceSymmetric(a[..|a| - 1], b[..|b| - 1]);
    }
  }

  /** Removing the last character of `a` changes the distance by at most one. */
  lemma {:induction false} DropLastOfFirst(a: string, b: string)
    requires |a| > 0
    ensures Distance(a[..|a| - 1], b) <= Distance(a, b) + 1
    decreases |a| + |b|
  {
    if |b| > 0 {
      var a', b' := a[..|a| - 1], b[..|b| - 1];
      if Distance(a, b) == Distance(a, b') + 1 {
        DropLastOfFirst(a, b');
      }
      // either way the distance from a' to b is at most one more than from a' to b'
      assert Distance(a', b) <= Distance(a', b') + 1;
    }
  }

  /** Removing the last character of `b` changes the distance by at most one. */
  lemma {:induction false} DropLastOfSecond(a: string, b: string)
    requires |b| > 0
    ensures Distance(a, b[..|b| - 1]) <= Distance(a, b) + 1
    decreases |a| + |b|
  {
    if |a| > 0 {
      var a', b' := a[..|a| - 1], b[..|b| - 1];
      if Distance(a, b) == Distance(a', b) + 1 {
        DropLastOfSecond(a', b);
      }
      assert Distance(a, b') <= Distance(a', b') + 1;
    }
  }

  /** When the last characters agree, the distance is the distance of the shortened strings. */
  lemma EqualLastCharacters(a: string, b: string)
    requires |a| > 0 && |b| > 0 && a[|a| - 1] == b[|b| - 1]
    ensures Distance(a, b) == Distance(a[..|a| - 1], b[..|b| - 1])
  {
    DropLastOfSecond(a[..|a| - 1], b);
    DropLastOfFirst(a, b[..|b| - 1]);
  }

  /** `1 - distance / maxLength`, and 1 when both strings are empty. */
  function Similarity(a: string, b: string): real
  {
    if Max(|a|, |b|) == 0 then 1.0 else 1.0 - Distance(a, b) as real / Max(|a|, |b|) as real
  }

  lemma Ratio(d: nat, m: nat)
    requires 0 < m && d <= m
    ensures 0.0 <= 1.0 - d as real / m as real <= 1.0
    ensures 1.0 - d as real / m as real == 1.0 <==> d == 0
    ensures d == m ==> 1.0 - d as real / m as real == 0.0
  {
    var q := d as real / m as real;
    assert q * m as real == d as real;
    assert q <= 1.0;
    if d == m {
      assert q == 1.0;
    }
  }

  /** Similarity lies in [0, 1], is 1 exactly for equal strings, and 0 when exactly one is empty. */
  lemma SimilarityRange(a: string, b: string)
    ensures 0.0 <= Similarity(a, b) <= 1.0
    ensures Similarity(a, b) == 1.0 <==> a == b
    ensures (a == []) != (b == []) ==> Similarity(a, b) == 0.0
    ensures Similarity(a, b) == Similarity(b, a)
  {
    DistanceBounds(a, b);
    DistanceZero(a, b);
    DistanceSymmetric(a, b);
    if Max(|a|, |b|) != 0 {
      Ratio(Distance(a, b), Max(|a|, |b|));
    }
  }

  /** The cell of the table in row `i` (a prefix of `str2`) and column `j` (a prefix of `str1`). */
  function Cell(str1: string, str2: string, i: nat, j: nat): nat
    requires i <= |str2| && j <= |str1|
  {
    Distance(str1[..j], str2[..i])
  }

  /** The recurrence of the table, stated on cells. */
  lemma CellStep(str1: string, str2: string, i: nat, j: nat)
    requires 0 < i <= |str2| && 0 < j <= |str1|
    ensures Cell(str1, str2, i, j) ==
      Min3(Cell(str1, str2, i, j - 1) + 1, Cell(str1, str2, i - 1, j) + 1,
           Cell(str1, str2, i - 1, j - 1) + (if str1[j - 1] == str2[i - 1] then 0 else 1))
    ensures str1[j - 1] == str2[i - 1] ==> Cell(str1, str2, i, j) == Cell(str1, str2, i - 1, j - 1)
  {
    assert str1[..j][..j - 1] == str1[..j - 1] && str2[..i][..i - 1] == str2[..i - 1];
    if str1[j - 1] == str2[i - 1] {
      EqualLastCharacters(str1[..j], str2[..i]);
    }
  }

  /** The first row and column of the table. */
  lemma CellEdges(str1: string, str2: string)
    ensures forall j :: 0 <= j <= |str1| ==> Cell(str1, str2, 0, j) == j
    ensures forall i :: 0 <= i <= |str2| ==> Cell(str1, str2, i, 0) == i
  {
  }

  /** The bottom-right cell is the distance between the whole strings. */
  lemma CellCorner(str1: string, str2: string)
    ensures Cell(str1, str2, |str2|, |str1|) == Distance(str1, str2)
  {
    assert str1[..|str1|] == str1 && str2[..|str2|] == str2;
  }

  /** A table whose first row and column are filled and whose rows below `i` hold their cells. */
  ghost predicate RowsDone(m: array2<nat>, str1: string, str2: string, i: nat)
    reads m
    requires m.Length0 == |str2| + 1 && m.Length1 == |str1| + 1 && i <= |str2| + 1
  {
    (forall ii, jj :: 0 <= ii < i && 0 <= jj <= |str1| ==> m[ii, jj] == Cell(str1, str2, ii, jj))
    && (forall ii :: i <= ii <= |str2| ==> m[ii, 0] == ii)
  }

  /** Fills the first column with `i` and the first row with `j`, as both sources do. */
  method FillEdges(m: array2<nat>, str1: string, str2: string)
    requires m.Length0 == |str2| + 1 && m.Length1 == |str1| + 1
    modifies m
    ensures RowsDone(m, str1, str2, 1)
  {
    for i := 0 to |str2| + 1
      invariant forall ii :: 0 <= ii < i ==> m[ii, 0] == ii
    {
      m[i, 0] := i;
    }
    for j := 0 to |str1| + 1
      invariant forall ii :: 0 <= ii <= |str2| ==> m[ii, 0] == ii
      invariant forall jj :: 0 <= jj < j ==> m[0, jj] == jj
    {
      m[0, j] := j;
    }
    CellEdges(str1, str2);
  }

  /**
   * The table filled one row per character of `str2` and one column per
   * character of `str1`, each cell the least of a deletion, an insertion
   * and a substitution priced by whether the two characters differ.
   */
  method FillWithCost(str1: string, str2: string) returns (d: nat)
    ensures d == Distance(str1, str2)
  {
    var m := new nat[|str2| + 1, |str1| + 1];
    FillEdges(m, str1, str2);
    for i := 1 to |str2| + 1
      invariant RowsDone(m, str1, str2, i)
    {
      for j := 1 to |str1| + 1
        invariant forall ii, jj :: 0 <= ii < i && 0 <= jj <= |str1| ==> m[ii, jj] == Cell(str1, str2, ii, jj)
        invariant forall ii :: i < ii <= |str2| ==> m[ii, 0] == ii
        invariant forall jj :: 0 <= jj < j ==> m[i, jj] == Cell(str1, str2, i, jj)
      {
        var cost := if str1[j - 1] == str2[i - 1] then 0 else 1;
        m[i, j] := Min3(m[i, j - 1] + 1, m[i - 1, j] + 1, m[i - 1, j - 1] + cost);
        CellStep(str1, str2, i, j);
      }
    }
    CellCorner(str1, str2);
    d := m[|str2|, |str1|];
  }

  /**
   * The same table, filled by copying the diagonal cell when the two
   * characters agree and taking one more than the least neighbour otherwise.
   */
  method FillCopyingDiagonal(str1: string, str2: string) returns (d: nat)
    ensures d == Distance(str1, str2)
  {
    var m := new nat[|str2| + 1, |str1| + 1];
    FillEdges(m, str1, str2);
    for i := 1 to |str2| + 1
      invariant RowsDone(m, str1, str2, i)
    {
      for j := 1 to |str1| + 1
        invariant forall ii, jj :: 0 <= ii < i && 0 <= jj <= |str1| ==> m[ii, jj] == Cell(str1, str2, ii, jj)
        invariant forall ii :: i < ii <= |str2| ==> m[ii, 0] == ii
        invariant forall jj :: 0 <= jj < j ==> m[i, jj] == Cell(str1, str2, i, jj)
      {
        CellStep(str1, str2, i, j);
        if str2[i - 1] == str1[j - 1] {
          m[i, j] := m[i - 1, j - 1];
        } else {
          m[i, j] := Min3(m[i - 1, j - 1] + 1, m[i, j - 1] + 1, m[i - 1, j] + 1);
        }
      }
    }
    CellCorner(str1, str2);
    d := m[|str2|, |str1|];
  }
}
