/**
 * Random picks: a copy of a list sorted with a random comparator and then
 * sliced. The order the comparator leaves is not modelled; a shuffle is any
 * permutation, given as a parameter.
 */
module Shuffle {
  import JsNumbers

  /** `shuffled.slice(0, Math.min(count, shuffled.length))`. */
  function TakeAtMost<T>(shuffled: seq<T>, count: int): (r: seq<T>)
    ensures r <= shuffled
  {
    shuffled[..JsNumbers.SliceEnd(|shuffled|, if count < |shuffled| then count else |shuffled|)]
  }

  /** A permutation of `db`: what sorting a copy with a random comparator can leave. */
  predicate IsShuffleOf<T(==)>(shuffled: seq<T>, db: seq<T>)
  {
    multiset(shuffled) == multiset(db)
  }

  /**
   * A non-negative `count` takes `min(count, size)` elements of a shuffle,
   * drawn from the original without repetition: no entry appears more often
   * than it does in the original.
   */
  lemma TakeAtMostDraws<T>(db: seq<T>, shuffled: seq<T>, count: int)
    requires IsShuffleOf(shuffled, db)
    ensures count >= 0 ==> |TakeAtMost(shuffled, count)| == if count < |db| then count else |db|
    ensures multiset(TakeAtMost(shuffled, count)) <= multiset(db)
  {
    assert |shuffled| == |multiset(shuffled)| == |multiset(db)| == |db|;
    var r := TakeAtMost(shuffled, count);
    assert shuffled == r + shuffled[|r|..];
    assert multiset(shuffled) == multiset(r) + multiset(shuffled[|r|..]);
  }
}
