/** Helpers shared by the whole model: an Option type, and the meaning of the
    few JavaScript array operations the dashboard relies on (`slice` with a
    possibly negative start, `filter`), stated over Dafny sequences. */
module Common {

  datatype Option<+T> = None | Some(value: T)

  function Min(a: int, b: int): int
  {
    if a <= b then a else b
  }

  /** JavaScript `s.slice(start)` for an integer `start`: a negative start
      counts from the end, and both kinds are clamped to the array. */
  function SliceFrom<T>(s: seq<T>, start: int): (r: seq<T>)
    ensures start < 0 ==> r == s[|s| - Min(-start, |s|)..]
    ensures 0 <= start ==> r == s[Min(start, |s|)..]
  {
    if start < 0 then
      (if |s| + start < 0 then s else s[|s| + start..])
    else if start > |s| then []
    else s[start..]
  }

  /** `a` is obtained from `b` by deleting elements (order is kept). */
  ghost predicate IsSubsequence<T>(a: seq<T>, b: seq<T>)
    decreases |b|
  {
    if a == [] then true
    else if b == [] then false
    else (a[0] == b[0] && IsSubsequence(a[1..], b[1..])) || IsSubsequence(a, b[1..])
  }

  /** JavaScript `s.filter(keep)`: exactly the elements that pass, in order. */
  function Filter<T>(s: seq<T>, keep: T -> bool): (r: seq<T>)
    ensures |r| <= |s|
    ensures forall x :: x in r ==> x in s && keep(x)
    ensures forall x :: x in s && keep(x) ==> x in r
    ensures IsSubsequence(r, s)
  {
    if s == [] then []
    else if keep(s[0]) then [s[0]] + Filter(s[1..], keep)
    else Filter(s[1..], keep)
  }

  lemma {:induction false} SubsequenceOfTail<T>(a: seq<T>, b: seq<T>)
    requires b != [] && IsSubsequence(a, b[1..])
    ensures IsSubsequence(a, b)
  {
  }

  lemma {:induction false} SuffixIsSubsequence<T>(s: seq<T>, k: nat)
    requires k <= |s|
    ensures IsSubsequence(s[k..], s)
    decreases k
  {
    if k == 0 {
      SelfIsSubsequence(s);
    } else {
      SuffixIsSubsequence(s[1..], k - 1);
      assert s[1..][k - 1..] == s[k..];
      SubsequenceOfTail(s[k..], s);
    }
  }

  lemma {:induction false} SelfIsSubsequence<T>(s: seq<T>)
    ensures IsSubsequence(s, s)
    decreases |s|
  {
    if s != [] {
      SelfIsSubsequence(s[1..]);
    }
  }

  lemma {:induction false} SubsequenceTransitive<T>(a: seq<T>, b: seq<T>, c: seq<T>)
    requires IsSubsequence(a, b) && IsSubsequence(b, c)
    ensures IsSubsequence(a, c)
    decreases |c|
  {
    if a == [] {
    } else if b[0] == c[0] && IsSubsequence(b[1..], c[1..]) {
      if a[0] == b[0] && IsSubsequence(a[1..], b[1..]) {
        SubsequenceTransitive(a[1..], b[1..], c[1..]);
      } else {
        SubsequenceTransitive(a, b[1..], c[1..]);
      }
    } else {
      SubsequenceTransitive(a, b, c[1..]);
    }
  }

  /** Filtering twice is filtering once by both tests. */
  lemma {:induction false} FilterOfFilter<T>(s: seq<T>, p: T -> bool, q: T -> bool, both: T -> bool)
    requires forall x :: both(x) == (p(x) && q(x))
    ensures Filter(Filter(s, p), q) == Filter(s, both)
    decreases |s|
  {
    if s != [] {
      FilterOfFilter(s[1..], p, q, both);
    }
  }

  /** An element is either kept by a test or by its negation. */
  lemma {:induction false} FilterSplitsLength<T>(s: seq<T>, keep: T -> bool, drop: T -> bool)
    requires forall x :: drop(x) == !keep(x)
    ensures |Filter(s, keep)| + |Filter(s, drop)| == |s|
    decreases |s|
  {
    if s != [] {
      FilterSplitsLength(s[1..], keep, drop);
    }
  }

  /** A non-empty sequence is its front followed by its last element. */
  lemma SplitLast<T>(s: seq<T>)
    requires s != []
    ensures s == s[..|s| - 1] + [s[|s| - 1]]
  {
  }

  /** A non-empty sequence is its first element followed by the rest. */
  lemma SplitFirst<T>(s: seq<T>)
    requires s != []
    ensures s == [s[0]] + s[1..]
  {
  }

  /** Dropping the last element of `p + q`, with `q` non-empty, drops it
      from `q`. */
  lemma DropLastOfConcat<T>(p: seq<T>, q: seq<T>)
    requires q != []
    ensures (p + q)[..|p + q| - 1] == p + q[..|q| - 1]
    ensures (p + q)[|p + q| - 1] == q[|q| - 1]
  {
  }

  /** Filtering a concatenation filters each part. */
  lemma {:induction false} FilterConcat<T>(a: seq<T>, b: seq<T>, keep: T -> bool)
    ensures Filter(a + b, keep) == Filter(a, keep) + Filter(b, keep)
    decreases |a|
  {
    if a == [] {
      assert a + b == b;
    } else {
      var head := if keep(a[0]) then [a[0]] else [];
      assert Filter(a + b, keep) == head + Filter(a[1..] + b, keep) by {
        assert (a + b)[0] == a[0];
        assert (a + b)[1..] == a[1..] + b;
      }
      assert Filter(a, keep) == head + Filter(a[1..], keep);
      FilterConcat(a[1..], b, keep);
      ConcatAssociates(head, Filter(a[1..], keep), Filter(b, keep));
    }
  }

  /** Putting the same element in front of two lists keeps a relation
      between their filters. */
  lemma FilterOfCons<T>(x: T, s: seq<T>, u: seq<T>, extra: seq<T>, keep: T -> bool)
    requires Filter(s, keep) == Filter(u, keep) + extra
    ensures Filter([x] + s, keep) == Filter([x] + u, keep) + extra
  {
    var head := if keep(x) then [x] else [];
    assert Filter([x] + s, keep) == head + Filter(s, keep) by {
      assert ([x] + s)[0] == x && ([x] + s)[1..] == s;
    }
    assert Filter([x] + u, keep) == head + Filter(u, keep) by {
      assert ([x] + u)[0] == x && ([x] + u)[1..] == u;
    }
    ConcatAssociates(head, Filter(u, keep), extra);
  }

  lemma ConcatAssociates<T>(a: seq<T>, b: seq<T>, c: seq<T>)
    ensures a + (b + c) == (a + b) + c
  {
  }

  /** When the test fails before position `k` and holds from `k` on, the
      filter keeps exactly the suffix from `k`. */
  lemma {:induction false} FilterOfSplit<T>(s: seq<T>, keep: T -> bool, k: nat)
    requires k <= |s|
    requires forall i :: 0 <= i < k ==> !keep(s[i])
    requires forall i :: k <= i < |s| ==> keep(s[i])
    ensures Filter(s, keep) == s[k..]
    decreases |s|
  {
    if s != [] {
      if k == 0 {
        FilterOfSplit(s[1..], keep, 0);
        assert s == [s[0]] + s[1..];
      } else {
        FilterOfSplit(s[1..], keep, k - 1);
        assert s[1..][k - 1..] == s[k..];
      }
    }
  }
}
