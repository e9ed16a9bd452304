/** Sequence operations shared by the list-shaped parts of the model. */
module Seqs {

  /** `Array.prototype.filter`: the items that satisfy `p`, in their original order. */
  function Filter<T(!new)>(p: T -> bool, s: seq<T>): (r: seq<T>)
    ensures |r| <= |s|
    ensures forall x :: x in r <==> x in s && p(x)
  {
    if s == [] then [] else (if p(s[0]) then [s[0]] else []) + Filter(p, s[1..])
  }

  /** Filtering commutes with concatenation, so `Filter` keeps relative order. */
  lemma {:induction false} FilterConcat<T(!new)>(p: T -> bool, a: seq<T>, b: seq<T>)
    ensures Filter(p, a + b) == Filter(p, a) + Filter(p, b)
  {
    if a == [] {
      assert a + b == b;
    } else {
      assert (a + b)[1..] == a[1..] + b;
      FilterConcat(p, a[1..], b);
    }
  }

  /** Filtering with a predicate every item satisfies gives back the whole sequence. */
  lemma {:induction false} FilterAll<T(!new)>(p: T -> bool, s: seq<T>)
    requires forall x :: x in s ==> p(x)
    ensures Filter(p, s) == s
  {
    if s != [] {
      FilterAll(p, s[1..]);
    }
  }

  /** Filtering with a predicate no item satisfies gives nothing. */
  lemma {:induction false} FilterNone<T(!new)>(p: T -> bool, s: seq<T>)
    requires forall x :: x in s ==> !p(x)
    ensures Filter(p, s) == []
  {
    if s != [] {
      FilterNone(p, s[1..]);
    }
  }

  /** Filtering a sequence whose front satisfies `p` and whose back does not keeps the front. */
  lemma FilterFront<T(!new)>(p: T -> bool, a: seq<T>, b: seq<T>)
    requires forall x :: x in a ==> p(x)
    requires forall x :: x in b ==> !p(x)
    ensures Filter(p, a + b) == a
  {
    FilterConcat(p, a, b);
    FilterAll(p, a);
    FilterNone(p, b);
  }

  /** Filtering a sequence whose front fails `p` and whose back satisfies it keeps the back. */
  lemma FilterBack<T(!new)>(p: T -> bool, a: seq<T>, b: seq<T>)
    requires forall x :: x in a ==> !p(x)
    requires forall x :: x in b ==> p(x)
    ensures Filter(p, a + b) == b
  {
    FilterConcat(p, a, b);
    FilterNone(p, a);
    FilterAll(p, b);
  }

  /** The first item of a filtered sequence is the first item that satisfies `p`. */
  lemma {:induction false} FilterFirst<T(!new)>(p: T -> bool, s: seq<T>, i: nat)
    requires i < |s| && p(s[i])
    requires forall j :: 0 <= j < i ==> !p(s[j])
    ensures Filter(p, s) != [] && Filter(p, s)[0] == s[i]
  {
    if i > 0 {
      FilterFirst(p, s[1..], i - 1);
    }
  }

  /** The sum of the items of an integer sequence (`reduce((a, b) => a + b, 0)`). */
  function Sum(s: seq<int>): int
  {
    if s == [] then 0 else s[0] + Sum(s[1..])
  }

  lemma {:induction false} SumBounds(s: seq<int>, lo: int, hi: int)
    requires forall i :: 0 <= i < |s| ==> lo <= s[i] <= hi
    ensures |s| * lo <= Sum(s) <= |s| * hi
  {
    if s != [] {
      SumBounds(s[1..], lo, hi);
    }
  }

  lemma {:induction false} SumAppend(s: seq<int>, x: int)
    ensures Sum(s + [x]) == Sum(s) + x
  {
    if s == [] {
      assert [x][1..] == [];
    } else {
      assert (s + [x])[1..] == s[1..] + [x];
      SumAppend(s[1..], x);
    }
  }

  /** Each item occurs at most once. */
  predicate NoDuplicates<T(==)>(s: seq<T>)
  {
    forall i, j :: 0 <= i < j < |s| ==> s[i] != s[j]
  }

  /** A prefix of a sequence without duplicates has none either. */
  lemma PrefixNoDuplicates<T>(s: seq<T>, n: nat)
    requires n <= |s| && NoDuplicates(s)
    ensures NoDuplicates(s[..n])
  {
    forall i, j | 0 <= i < j < n ensures s[..n][i] != s[..n][j] {
      assert s[..n][i] == s[i] && s[..n][j] == s[j];
    }
  }

  /** A `Set` filled in order and read back with `Array.from`: each item once, at its first appearance. */
  function Distinct<T(==)>(s: seq<T>): seq<T>
  {
    if s == [] then []
    else
      var d := Distinct(s[..|s| - 1]);
      if s[|s| - 1] in d then d else d + [s[|s| - 1]]
  }

  /** The distinct items are exactly the items, each listed once. */
  lemma {:induction false} DistinctProps<T>(s: seq<T>)
    ensures NoDuplicates(Distinct(s))
    ensures forall x :: x in Distinct(s) <==> x in s
  {
    if s != [] {
      var init := s[..|s| - 1];
      DistinctProps(init);
      assert s == init + [s[|s| - 1]];
    }
  }

  /** `s.filter(x => x !== k)`: every occurrence of `k` removed. */
  function Without<T(==,!new)>(order: seq<T>, k: T): (r: seq<T>)
    ensures forall x :: x in r <==> x in order && x != k
  {
    Filter(x => x != k, order)
  }

  /** Removing the first item of a sequence without duplicates drops exactly that item. */
  lemma {:induction false} WithoutFirst<T(!new)>(order: seq<T>)
    requires order != [] && NoDuplicates(order)
    ensures Without(order, order[0]) == order[1..]
  {
    var k := order[0];
    assert order == [k] + order[1..];
    FilterConcat(x => x != k, [k], order[1..]);
    assert Filter(x => x != k, [k]) == [];
    assert forall x :: x in order[1..] ==> x != k by {
      forall x | x in order[1..] ensures x != k {
        var i :| 0 <= i < |order[1..]| && order[1..][i] == x;
        assert order[i + 1] == x;
      }
    }
    FilterAll(x => x != k, order[1..]);
  }

  /** Removing an item from a sequence without duplicates leaves none. */
  lemma {:induction false} WithoutNoDuplicates<T(!new)>(order: seq<T>, k: T)
    requires NoDuplicates(order)
    ensures NoDuplicates(Without(order, k))
  {
    if order != [] {
      assert NoDuplicates(order[1..]) by {
        forall i, j | 0 <= i < j < |order[1..]| ensures order[1..][i] != order[1..][j] {
          assert order[1..][i] == order[i + 1] && order[1..][j] == order[j + 1];
        }
      }
      WithoutNoDuplicates(order[1..], k);
      var rest := Filter(x => x != k, order[1..]);
      assert order[0] !in order[1..] by {
        forall i | 0 <= i < |order[1..]| ensures order[1..][i] != order[0] {
          assert order[1..][i] == order[i + 1];
        }
      }
      var head: seq<T> := if order[0] != k then [order[0]] else [];
      assert Filter(x => x != k, order) == head + rest;
      forall i, j | 0 <= i < j < |head + rest| ensures (head + rest)[i] != (head + rest)[j] {
        if head != [] && i == 0 {
          assert (head + rest)[j] == rest[j - 1];
          assert rest[j - 1] in rest;
        } else {
          var o := |head|;
          assert (head + rest)[i] == rest[i - o] && (head + rest)[j] == rest[j - o];
        }
      }
    }
  }

  /** Appending an absent item keeps a sequence free of duplicates. */
  lemma AppendNoDuplicates<T>(s: seq<T>, x: T)
    requires NoDuplicates(s) && x !in s
    ensures NoDuplicates(s + [x])
  {
    forall i, j | 0 <= i < j < |s + [x]| ensures (s + [x])[i] != (s + [x])[j] {
      assert (s + [x])[i] == s[i];
      if j == |s| {
        assert s[i] in s;
      } else {
        assert (s + [x])[j] == s[j];
      }
    }
  }

  /** Appending an absent item and then removing it gives back the sequence. */
  lemma WithoutAppended<T(!new)>(s: seq<T>, x: T)
    requires x !in s
    ensures Without(s + [x], x) == s
  {
    FilterFront(y => y != x, s, [x]);
  }
}
