/** Sequence operations shared by the model: JavaScript's `filter`, `find`,
    `findIndex`, the stable `sort`, and the subsequence relation. */
module Seqs {
  import opened Common

  /** `s.filter(p)`: the elements satisfying `p`, in order. */
  function Filter<T>(s: seq<T>, p: T -> bool): (r: seq<T>)
    ensures |r| <= |s|
  {
    if s == [] then [] else (if p(s[0]) then [s[0]] else []) + Filter(s[1..], p)
  }

  /** Everything kept satisfies `p`, and nothing is dropped exactly when
      everything satisfies `p`. */
  lemma {:induction false} FilterSound<T>(s: seq<T>, p: T -> bool)
    ensures forall i :: 0 <= i < |Filter(s, p)| ==> p(Filter(s, p)[i])
    ensures |Filter(s, p)| == |s| <==> forall i :: 0 <= i < |s| ==> p(s[i])
  {
    if s != [] {
      FilterSound(s[1..], p);
      if p(s[0]) {
        assert Filter(s, p) == [s[0]] + Filter(s[1..], p);
      } else {
        assert Filter(s, p) == Filter(s[1..], p);
        assert |Filter(s, p)| < |s|;
      }
    }
  }

  lemma {:induction false} FilterMembership<T>(s: seq<T>, p: T -> bool, x: T)
    ensures x in Filter(s, p) <==> x in s && p(x)
  {
    if s != [] {
      FilterMembership(s[1..], p, x);
      assert s == [s[0]] + s[1..];
    }
  }

  lemma {:induction false} FilterConcat<T>(a: seq<T>, b: seq<T>, p: T -> bool)
    ensures Filter(a + b, p) == Filter(a, p) + Filter(b, p)
  {
    if a == [] {
      assert a + b == b;
    } else {
      var h := if p(a[0]) then [a[0]] else [];
      assert (a + b)[0] == a[0];
      assert (a + b)[1..] == a[1..] + b;
      FilterConcat(a[1..], b, p);
      assert Filter(a + b, p) == h + (Filter(a[1..], p) + Filter(b, p));
      assert Filter(a, p) == h + Filter(a[1..], p);
    }
  }

  lemma FilterSnoc<T>(a: seq<T>, x: T, p: T -> bool)
    ensures Filter(a + [x], p) == Filter(a, p) + (if p(x) then [x] else [])
  {
    FilterConcat(a, [x], p);
  }

  lemma {:induction false} FilterMultiset<T>(s: seq<T>, p: T -> bool)
    ensures multiset(Filter(s, p)) <= multiset(s)
  {
    if s != [] {
      FilterMultiset(s[1..], p);
      assert s == [s[0]] + s[1..];
    }
  }

  /** Filtering keeps everything when everything satisfies `p`. */
  lemma {:induction false} FilterAllKept<T>(s: seq<T>, p: T -> bool)
    requires forall i :: 0 <= i < |s| ==> p(s[i])
    ensures Filter(s, p) == s
  {
    if s != [] {
      FilterAllKept(s[1..], p);
      assert s == [s[0]] + s[1..];
    }
  }

  /** `s.filter(p)` keeps exactly the elements satisfying `p`, in order. */
  lemma FilterSpec<T>(s: seq<T>, p: T -> bool)
    ensures IsSubsequence(Filter(s, p), s)
    ensures forall x :: x in Filter(s, p) <==> x in s && p(x)
    ensures forall x :: multiset(Filter(s, p))[x] == if p(x) then multiset(s)[x] else 0
  {
    FilterIsSubsequence(s, p);
    forall x ensures x in Filter(s, p) <==> x in s && p(x) {
      FilterMembership(s, p, x);
    }
    forall x ensures multiset(Filter(s, p))[x] == if p(x) then multiset(s)[x] else 0 {
      FilterCount(s, p, x);
    }
  }

  /** Every element that passes keeps all its copies; the others keep none. */
  lemma {:induction false} FilterCount<T>(s: seq<T>, p: T -> bool, x: T)
    ensures multiset(Filter(s, p))[x] == if p(x) then multiset(s)[x] else 0
  {
    if s != [] {
      FilterCount(s[1..], p, x);
      assert s == [s[0]] + s[1..];
      assert multiset(s) == multiset([s[0]]) + multiset(s[1..]);
    }
  }

  /** The values `f` yields on the elements of `s`, in order, skipping the
      elements it yields nothing for: a loop that pushes `f(x)` when defined. */
  function Collect<A, B>(s: seq<A>, f: A -> Option<B>): (r: seq<B>)
    ensures |r| <= |s|
  {
    if s == [] then []
    else
      var last := f(s[|s| - 1]);
      Collect(s[..|s| - 1], f) + (if last.Some? then [last.value] else [])
  }

  /** Every collected value comes from some element. */
  lemma {:induction false} CollectSound<A, B>(s: seq<A>, f: A -> Option<B>, y: B)
    requires y in Collect(s, f)
    ensures exists i :: 0 <= i < |s| && f(s[i]) == Some(y)
  {
    var init := s[..|s| - 1];
    if y in Collect(init, f) {
      CollectSound(init, f, y);
      var i :| 0 <= i < |init| && f(init[i]) == Some(y);
      assert s[i] == init[i];
    } else {
      assert f(s[|s| - 1]) == Some(y);
    }
  }

  /** Every element `f` yields a value for contributes that value. */
  lemma {:induction false} CollectComplete<A, B>(s: seq<A>, f: A -> Option<B>, i: nat)
    requires i < |s| && f(s[i]).Some?
    ensures f(s[i]).value in Collect(s, f)
  {
    var init := s[..|s| - 1];
    if i < |init| {
      assert s[i] == init[i];
      CollectComplete(init, f, i);
    }
  }

  /** Collecting a prefix one element further appends that element's value. */
  lemma CollectSnoc<A, B>(s: seq<A>, f: A -> Option<B>, i: nat)
    requires i < |s|
    ensures Collect(s[..i + 1], f) == Collect(s[..i], f) + (if f(s[i]).Some? then [f(s[i]).value] else [])
  {
    assert s[..i + 1][..i] == s[..i];
  }

  /** Concatenation is associative. */
  lemma ConcatAssoc<T>(a: seq<T>, b: seq<T>, c: seq<T>)
    ensures a + (b + c) == (a + b) + c
  {
  }

  /** `s.map(f)`. */
  function Map<A, B>(s: seq<A>, f: A -> B): (r: seq<B>)
    ensures |r| == |s|
  {
    if s == [] then [] else [f(s[0])] + Map(s[1..], f)
  }

  lemma {:induction false} MapConcat<A, B>(a: seq<A>, b: seq<A>, f: A -> B)
    ensures Map(a + b, f) == Map(a, f) + Map(b, f)
  {
    if a == [] {
      assert a + b == b;
    } else {
      assert (a + b)[0] == a[0];
      assert (a + b)[1..] == a[1..] + b;
      MapConcat(a[1..], b, f);
    }
  }

  lemma {:induction false} MapIndex<A, B>(s: seq<A>, f: A -> B, i: nat)
    requires i < |s|
    ensures Map(s, f)[i] == f(s[i])
  {
    if i > 0 {
      MapIndex(s[1..], f, i - 1);
    }
  }

  /** No element occurs twice. */
  predicate Distinct<T(==)>(s: seq<T>) {
    forall i, j :: 0 <= i < j < |s| ==> s[i] != s[j]
  }

  lemma {:induction false} FilterDistinct<T>(s: seq<T>, p: T -> bool)
    requires Distinct(s)
    ensures Distinct(Filter(s, p))
  {
    if s != [] {
      assert Distinct(s[1..]);
      FilterDistinct(s[1..], p);
      if p(s[0]) {
        FilterMembership(s[1..], p, s[0]);
        assert Filter(s, p) == [s[0]] + Filter(s[1..], p);
      } else {
        assert Filter(s, p) == Filter(s[1..], p);
      }
    }
  }

  /** `s.findIndex(p)` with -1 rendered as `None`. */
  function FirstIndex<T>(s: seq<T>, p: T -> bool): (r: Option<nat>)
    ensures r.Some? ==> r.value < |s| && p(s[r.value]) && forall j :: 0 <= j < r.value ==> !p(s[j])
    ensures r.None? <==> forall j :: 0 <= j < |s| ==> !p(s[j])
  {
    if s == [] then None
    else if p(s[0]) then Some(0)
    else match FirstIndex(s[1..], p)
      case None => None
      case Some(i) => Some(i + 1)
  }

  /** `s.find(p)`: the first element satisfying `p`. */
  function Find<T>(s: seq<T>, p: T -> bool): (r: Option<T>)
    ensures r.Some? ==> r.value in s && p(r.value)
    ensures r.None? <==> forall j :: 0 <= j < |s| ==> !p(s[j])
  {
    match FirstIndex(s, p)
    case None => None
    case Some(i) => Some(s[i])
  }

  /** `a` can be obtained from `b` by deleting elements: at each step the first
      element of `b` is either used to match the first of `a`, or skipped. */
  predicate IsSubsequence<T(==)>(a: seq<T>, b: seq<T>)
    decreases |b|
  {
    a == [] || (b != [] && ((a[0] == b[0] && IsSubsequence(a[1..], b[1..])) || IsSubsequence(a, b[1..])))
  }

  lemma {:induction false} SubsequenceDropHead<T>(a: seq<T>, b: seq<T>)
    requires a != [] && IsSubsequence(a, b)
    ensures IsSubsequence(a[1..], b)
    decreases |b|
  {
    if a[1..] != [] {
      if a[0] == b[0] && IsSubsequence(a[1..], b[1..]) {
        SubsequenceDropHead(a[1..], b[1..]);
      } else {
        SubsequenceDropHead(a, b[1..]);
      }
    }
  }

  /** Matching equal heads greedily never loses a subsequence embedding. */
  lemma GreedyStep<T>(a: seq<T>, b: seq<T>)
    requires a != [] && b != [] && a[0] == b[0]
    ensures IsSubsequence(a, b) <==> IsSubsequence(a[1..], b[1..])
  {
    if IsSubsequence(a, b) && !IsSubsequence(a[1..], b[1..]) {
      assert IsSubsequence(a, b[1..]);
      SubsequenceDropHead(a, b[1..]);
    }
  }

  lemma {:induction false} SubsequenceRefl<T>(a: seq<T>)
    ensures IsSubsequence(a, a)
  {
    if a != [] {
      SubsequenceRefl(a[1..]);
    }
  }

  lemma {:induction false} SubsequenceExtendRight<T>(a: seq<T>, b: seq<T>, y: seq<T>)
    requires IsSubsequence(a, b)
    ensures IsSubsequence(a, b + y)
    decreases |b|
  {
    if a != [] {
      assert (b + y)[1..] == b[1..] + y;
      if a[0] == b[0] && IsSubsequence(a[1..], b[1..]) {
        SubsequenceExtendRight(a[1..], b[1..], y);
      } else {
        SubsequenceExtendRight(a, b[1..], y);
      }
    }
  }

  lemma {:induction false} SubsequenceExtendLeft<T>(a: seq<T>, x: seq<T>, b: seq<T>)
    requires IsSubsequence(a, b)
    ensures IsSubsequence(a, x + b)
    decreases |x|
  {
    if x != [] {
      var c := x + b;
      assert c[1..] == x[1..] + b;
      SubsequenceExtendLeft(a, x[1..], b);
      assert IsSubsequence(a, c[1..]);
      assert c != [];
    } else {
      assert x + b == b;
    }
  }

  lemma {:induction false} SubsequenceTrans<T>(a: seq<T>, b: seq<T>, c: seq<T>)
    requires IsSubsequence(a, b) && IsSubsequence(b, c)
    ensures IsSubsequence(a, c)
    decreases |c|
  {
    if a != [] {
      if b[0] == c[0] && IsSubsequence(b[1..], c[1..]) {
        if a[0] == b[0] && IsSubsequence(a[1..], b[1..]) {
          SubsequenceTrans(a[1..], b[1..], c[1..]);
        } else {
          SubsequenceTrans(a, b[1..], c[1..]);
        }
      } else {
        SubsequenceTrans(a, b, c[1..]);
      }
    }
  }

  /** A contiguous piece of `b` is in particular a subsequence of it. */
  lemma InfixIsSubsequence<T>(a: seq<T>, b: seq<T>, i: nat)
    requires i + |a| <= |b| && b[i..i + |a|] == a
    ensures IsSubsequence(a, b)
  {
    SubsequenceRefl(a);
    SubsequenceExtendRight(a, a, b[i + |a|..]);
    SubsequenceExtendLeft(a, b[..i], a + b[i + |a|..]);
    assert b == b[..i] + (a + b[i + |a|..]);
  }

  lemma {:induction false} FilterIsSubsequence<T>(s: seq<T>, p: T -> bool)
    ensures IsSubsequence(Filter(s, p), s)
  {
    if s != [] {
      FilterIsSubsequence(s[1..], p);
      if p(s[0]) {
        assert Filter(s, p) == [s[0]] + Filter(s[1..], p);
      } else {
        assert Filter(s, p) == Filter(s[1..], p);
      }
    }
  }

  // ---------------------------------------------------------------------
  // Stable sorting (Array.prototype.sort is stable since ECMAScript 2019)
  // ---------------------------------------------------------------------

  /** `le` is a total preorder: the relation a consistent comparator induces. */
  ghost predicate TotalPreorder<T(!new)>(le: (T, T) -> bool) {
    (forall a, b :: le(a, b) || le(b, a)) &&
    (forall a, b, c :: le(a, b) && le(b, c) ==> le(a, c))
  }

  ghost predicate SortedBy<T>(s: seq<T>, le: (T, T) -> bool) {
    forall i, j :: 0 <= i < j < |s| ==> le(s[i], s[j])
  }

  /** Inserts `x` in front of the first element that is not strictly below it. */
  function Insert<T>(x: T, s: seq<T>, le: (T, T) -> bool): (r: seq<T>)
    ensures multiset(r) == multiset(s) + multiset{x}
  {
    if s == [] || le(x, s[0]) then [x] + s
    else
      assert s == [s[0]] + s[1..];
      [s[0]] + Insert(x, s[1..], le)
  }

  /** Stable insertion sort with respect to `le`. */
  function SortBy<T>(s: seq<T>, le: (T, T) -> bool): (r: seq<T>)
    ensures multiset(r) == multiset(s)
    ensures |r| == |s|
  {
    if s == [] then []
    else
      assert s == [s[0]] + s[1..];
      Insert(s[0], SortBy(s[1..], le), le)
  }

  lemma {:induction false} InsertSorted<T(!new)>(x: T, s: seq<T>, le: (T, T) -> bool)
    requires TotalPreorder(le) && SortedBy(s, le)
    ensures SortedBy(Insert(x, s, le), le)
  {
    if s != [] && !le(x, s[0]) {
      InsertSorted(x, s[1..], le);
      var r := Insert(x, s, le);
      var t := Insert(x, s[1..], le);
      assert r == [s[0]] + t;
      assert multiset(t) == multiset(s[1..]) + multiset{x};
      forall j | 0 < j < |r| ensures le(r[0], r[j]) {
        assert r[j] in multiset(t);
        if r[j] == x {
        } else {
          assert r[j] in multiset(s[1..]);
          var k :| 0 <= k < |s[1..]| && s[1..][k] == r[j];
          assert s[k + 1] == r[j];
        }
      }
    }
  }

  lemma {:induction false} SortBySorted<T(!new)>(s: seq<T>, le: (T, T) -> bool)
    requires TotalPreorder(le)
    ensures SortedBy(SortBy(s, le), le)
  {
    if s != [] {
      SortBySorted(s[1..], le);
      InsertSorted(s[0], SortBy(s[1..], le), le);
    }
  }

  /** The elements equivalent to `t` under `le`. */
  function EquivTo<T>(t: T, le: (T, T) -> bool): T -> bool {
    y => le(t, y) && le(y, t)
  }

  /** Two elements equivalent to the same `t` are ordered both ways. */
  lemma EquivLe<T(!new)>(x: T, y: T, le: (T, T) -> bool, t: T)
    requires TotalPreorder(le) && EquivTo(t, le)(x) && EquivTo(t, le)(y)
    ensures le(x, y)
  {
    assert le(x, t) && le(t, y);
  }

  lemma {:induction false} InsertStable<T(!new)>(x: T, s: seq<T>, le: (T, T) -> bool, t: T)
    requires TotalPreorder(le)
    ensures Filter(Insert(x, s, le), EquivTo(t, le)) == Filter([x] + s, EquivTo(t, le))
  {
    if s != [] && !le(x, s[0]) {
      var p := EquivTo(t, le);
      var rest := Insert(x, s[1..], le);
      InsertStable(x, s[1..], le, t);
      if p(x) && p(s[0]) {
        EquivLe(x, s[0], le, t);
      }
      assert Insert(x, s, le) == [s[0]] + rest;
      FilterConcat([s[0]], rest, p);
      FilterConcat([x], s[1..], p);
      FilterConcat([s[0]], s[1..], p);
      FilterConcat([x], s, p);
      assert [s[0]] + s[1..] == s;
      SwapFilterSingletons(s[0], x, s[1..], p);
    }
  }

  lemma SwapFilterSingletons<T>(a: T, b: T, rest: seq<T>, p: T -> bool)
    requires !(p(a) && p(b))
    ensures Filter([a], p) + (Filter([b], p) + Filter(rest, p)) == Filter([b], p) + (Filter([a], p) + Filter(rest, p))
  {
  }

  /** Stability: the elements of every equivalence class keep their input order. */
  lemma {:induction false} SortByStable<T(!new)>(s: seq<T>, le: (T, T) -> bool, t: T)
    requires TotalPreorder(le)
    ensures Filter(SortBy(s, le), EquivTo(t, le)) == Filter(s, EquivTo(t, le))
  {
    if s != [] {
      var p := EquivTo(t, le);
      SortByStable(s[1..], le, t);
      InsertStable(s[0], SortBy(s[1..], le), le, t);
      FilterConcat([s[0]], SortBy(s[1..], le), p);
      FilterConcat([s[0]], s[1..], p);
      assert [s[0]] + s[1..] == s;
    }
  }

  /** A sequence that is already sorted is left unchanged. */
  lemma {:induction false} SortBySortedIdentity<T(!new)>(s: seq<T>, le: (T, T) -> bool)
    requires TotalPreorder(le) && SortedBy(s, le)
    ensures SortBy(s, le) == s
  {
    if s != [] {
      SortBySortedIdentity(s[1..], le);
      assert SortBy(s[1..], le) == s[1..];
      if |s| > 1 {
        assert le(s[0], s[1]);
      }
    }
  }
}
