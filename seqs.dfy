/** Small sequence utilities shared by the scan model: filtering, counting
    and the order-preserving "subsequence" relation used to state that a
    derived list keeps the order of its source list. */
module Seqs {

  function Min(a: int, b: int): (m: int)
    ensures m <= a && m <= b && (m == a || m == b)
  {
    if a <= b then a else b
  }

  /** `Array.prototype.filter`: the elements satisfying `f`, in order. */
  function Filter<T(==)>(s: seq<T>, f: T -> bool): (r: seq<T>)
    ensures |r| <= |s|
    decreases |s|
  {
    if s == [] then [] else (if f(s[0]) then [s[0]] else []) + Filter(s[1..], f)
  }

  /** The filtered list holds exactly the elements satisfying `f`. */
  lemma {:induction false} FilterMembers<T>(s: seq<T>, f: T -> bool)
    ensures forall i :: 0 <= i < |Filter(s, f)| ==> Filter(s, f)[i] in s && f(Filter(s, f)[i])
    ensures forall i :: 0 <= i < |s| && f(s[i]) ==> s[i] in Filter(s, f)
    decreases |s|
  {
    if s != [] {
      FilterMembers(s[1..], f);
      var head := if f(s[0]) then [s[0]] else [];
      var r, t := Filter(s, f), Filter(s[1..], f);
      assert r == head + t;
      forall i | 0 <= i < |r|
        ensures r[i] in s && f(r[i])
      {
        if i >= |head| {
          assert r[i] == t[i - |head|];
        }
      }
      forall i | 0 <= i < |s| && f(s[i])
        ensures s[i] in r
      {
        if i > 0 {
          assert s[i] == s[1..][i - 1];
        }
      }
    }
  }

  /** Number of elements satisfying `f`. */
  function Count<T>(s: seq<T>, f: T -> bool): (n: nat)
    ensures n <= |s|
    decreases |s|
  {
    if s == [] then 0 else (if f(s[0]) then 1 else 0) + Count(s[1..], f)
  }

  /** Some element is counted exactly when the count is positive. */
  lemma {:induction false} CountPositive<T>(s: seq<T>, f: T -> bool)
    ensures Count(s, f) > 0 <==> exists i :: 0 <= i < |s| && f(s[i])
    decreases |s|
  {
    if s != [] {
      CountPositive(s[1..], f);
      if exists i :: 0 <= i < |s| && f(s[i]) {
        var i :| 0 <= i < |s| && f(s[i]);
        assert i == 0 || s[1..][i - 1] == s[i];
      }
      if exists i :: 0 <= i < |s[1..]| && f(s[1..][i]) {
        var i :| 0 <= i < |s[1..]| && f(s[1..][i]);
        assert s[i + 1] == s[1..][i];
      }
    }
  }

  lemma {:induction false} FilterLength<T>(s: seq<T>, f: T -> bool)
    ensures |Filter(s, f)| == Count(s, f)
    decreases |s|
  {
    if s != [] { FilterLength(s[1..], f); }
  }

  lemma {:induction false} CountAppend<T>(a: seq<T>, b: seq<T>, f: T -> bool)
    ensures Count(a + b, f) == Count(a, f) + Count(b, f)
    decreases |a|
  {
    if a == [] {
      assert a + b == b;
    } else {
      assert (a + b)[0] == a[0] && (a + b)[1..] == a[1..] + b;
      CountAppend(a[1..], b, f);
    }
  }

  /** Counting a weaker predicate gives at least as many elements. */
  lemma {:induction false} CountMonotone<T>(s: seq<T>, f: T -> bool, g: T -> bool)
    requires forall x :: f(x) ==> g(x)
    ensures Count(s, f) <= Count(s, g)
    decreases |s|
  {
    if s != [] { CountMonotone(s[1..], f, g); }
  }

  /** Counting a predicate and its complement covers the whole sequence. */
  lemma {:induction false} CountComplement<T>(s: seq<T>, f: T -> bool, g: T -> bool)
    requires forall x :: g(x) == !f(x)
    ensures Count(s, f) + Count(s, g) == |s|
    decreases |s|
  {
    if s != [] { CountComplement(s[1..], f, g); }
  }

  /** `a` is obtained from `b` by deleting elements (order is kept). */
  predicate IsSubsequence<T(==)>(a: seq<T>, b: seq<T>)
    decreases |b|
  {
    if a == [] then true
    else if b == [] then false
    else if a[0] == b[0] then IsSubsequence(a[1..], b[1..])
    else IsSubsequence(a, b[1..])
  }

  lemma {:induction false} FilterIsSubsequence<T>(s: seq<T>, f: T -> bool)
    ensures IsSubsequence(Filter(s, f), s)
    decreases |s|
  {
    if s != [] {
      FilterIsSubsequence(s[1..], f);
      if f(s[0]) {
        assert Filter(s, f) == [s[0]] + Filter(s[1..], f);
        assert (Filter(s, f))[1..] == Filter(s[1..], f);
      } else {
        assert Filter(s, f) == Filter(s[1..], f);
        FilterMembers(s[1..], f);
      }
    }
  }

  lemma {:induction false} PrefixIsSubsequence<T>(a: seq<T>, b: seq<T>, k: nat)
    requires IsSubsequence(a, b) && k <= |a|
    ensures IsSubsequence(a[..k], b)
    decreases |b|
  {
    if k == 0 || a == [] {
    } else if a[0] == b[0] {
      assert a[..k][1..] == a[1..][..k - 1];
      PrefixIsSubsequence(a[1..], b[1..], k - 1);
    } else {
      PrefixIsSubsequence(a, b[1..], k);
    }
  }

  /** Deleting the first kept element keeps the relation. */
  lemma {:induction false} SubsequenceDropFirst<T>(a: seq<T>, b: seq<T>)
    requires a != [] && IsSubsequence(a, b)
    ensures IsSubsequence(a[1..], b)
    decreases |b|, |a|
  {
    if a[0] == b[0] {
      SubsequenceCons(a[1..], b);
    } else {
      SubsequenceDropFirst(a, b[1..]);
      SubsequenceCons(a[1..], b);
    }
  }

  /** A subsequence of the tail is a subsequence of the whole. */
  lemma {:induction false} SubsequenceCons<T>(a: seq<T>, b: seq<T>)
    requires b != [] && IsSubsequence(a, b[1..])
    ensures IsSubsequence(a, b)
    decreases |b|, |a|
  {
    if a != [] && a[0] == b[0] {
      SubsequenceDropFirst(a, b[1..]);
    }
  }

  /** Filtering a prefix gives a prefix of the filtered whole. */
  lemma {:induction false} FilterPrefix<T>(s: seq<T>, k: nat, f: T -> bool)
    requires k <= |s|
    ensures Filter(s[..k], f) <= Filter(s, f)
    decreases |s|
  {
    if k > 0 {
      var t := s[..k];
      assert t[0] == s[0] && t[1..] == s[1..][..k - 1];
      FilterPrefix(s[1..], k - 1, f);
      PrefixConcat(if f(s[0]) then [s[0]] else [], Filter(t[1..], f), Filter(s[1..], f));
    }
  }

  lemma PrefixConcat<T>(h: seq<T>, p: seq<T>, q: seq<T>)
    requires p <= q
    ensures h + p <= h + q
  {
    assert (h + q)[..|h + p|] == h + p;
  }

  /** Extending a prefix of `b` by one element. */
  lemma AppendNext<T>(a: seq<T>, b: seq<T>, j: nat)
    requires j < |b|
    ensures a + b[..j + 1] == (a + b[..j]) + [b[j]]
  {
    assert b[..j + 1] == b[..j] + [b[j]];
  }
}
