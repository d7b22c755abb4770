/**
 * The JavaScript array operations the components build their new state from:
 * `filter` and `find`, with the facts about them that the handlers rely on.
 */
module Lists {
  import opened Optional

  /** `s.filter(keep)`: the elements that satisfy `keep`, in their original order. */
  function Filter<T>(s: seq<T>, keep: T -> bool): (r: seq<T>)
    ensures |r| <= |s|
    ensures forall x | x in r :: x in s && keep(x)
    ensures forall x | x in s && keep(x) :: x in r
  {
    if s == [] then []
    else (if keep(s[0]) then [s[0]] else []) + Filter(s[1..], keep)
  }

  /** `a` is `b` with some elements deleted and the rest kept in order. */
  ghost predicate IsSubsequence<T>(a: seq<T>, b: seq<T>)
    decreases |b|
  {
    || a == []
    || (&& b != []
        && ((a[0] == b[0] && IsSubsequence(a[1..], b[1..])) || IsSubsequence(a, b[1..])))
  }

  /** Filtering keeps order: the result is a subsequence of the input. */
  lemma {:induction false} FilterIsSubsequence<T>(s: seq<T>, keep: T -> bool)
    ensures IsSubsequence(Filter(s, keep), s)
  {
    if s != [] {
      var rest := Filter(s[1..], keep);
      FilterIsSubsequence(s[1..], keep);
      if keep(s[0]) {
        assert Filter(s, keep) == [s[0]] + rest;
        assert ([s[0]] + rest)[1..] == rest;
      } else {
        assert Filter(s, keep) == rest;
      }
    }
  }

  /** Filtering with a test every element passes returns the input itself. */
  lemma {:induction false} FilterKeepsAll<T>(s: seq<T>, keep: T -> bool)
    requires forall x | x in s :: keep(x)
    ensures Filter(s, keep) == s
  {
    if s != [] {
      FilterKeepsAll(s[1..], keep);
      assert s == [s[0]] + s[1..];
    }
  }

  /** Two complementary filters split a list: their lengths add up to its length. */
  lemma {:induction false} FilterPartition<T>(s: seq<T>, p: T -> bool, q: T -> bool)
    requires forall x | x in s :: q(x) == !p(x)
    ensures |Filter(s, p)| + |Filter(s, q)| == |s|
  {
    if s != [] {
      FilterPartition(s[1..], p, q);
    }
  }

  /** A test some element passes keeps at least that element. */
  lemma {:induction false} FilterNonEmpty<T>(s: seq<T>, keep: T -> bool)
    ensures (exists x | x in s :: keep(x)) ==> |Filter(s, keep)| > 0
  {
    if exists x | x in s :: keep(x) {
      var x :| x in s && keep(x);
      assert x in Filter(s, keep);
    }
  }

  /**
   * The index `s.findIndex(p)` reports: the first element satisfying `p`,
   * or `None` when no element does.
   */
  function FindIndex<T>(s: seq<T>, p: T -> bool): (r: Option<nat>)
    ensures r.None? <==> forall i | 0 <= i < |s| :: !p(s[i])
    ensures r.Some? ==> r.value < |s| && p(s[r.value])
    ensures r.Some? ==> forall j | 0 <= j < r.value :: !p(s[j])
  {
    if s == [] then None
    else if p(s[0]) then Some(0)
    else match FindIndex(s[1..], p)
      case None => None
      case Some(i) => Some(i + 1)
  }

  /** `s.find(p)`: the first element satisfying `p`, or `undefined`. */
  function Find<T>(s: seq<T>, p: T -> bool): (r: Option<T>)
    ensures r.None? <==> forall x | x in s :: !p(x)
    ensures r.Some? ==> r.value in s && p(r.value)
    ensures r.Some? ==> exists i | 0 <= i < |s| :: s[i] == r.value && forall j | 0 <= j < i :: !p(s[j])
  {
    match FindIndex(s, p)
    case None => None
    case Some(i) => Some(s[i])
  }
}
