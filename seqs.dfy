/** List operations shared by the models: first-match search, filtering, flattening and chunking. */
module Seqs {
  import opened Wrappers

  /**
   * Index of the first element satisfying `p` (the `for … : if …: return`
   * and `Array.prototype.some` idiom), or `None` when no element does.
   */
  function FirstIndex<T>(s: seq<T>, p: T -> bool): (r: Option<nat>)
    ensures r.Some? ==> r.value < |s| && p(s[r.value])
    ensures r.Some? ==> forall j :: 0 <= j < r.value ==> !p(s[j])
    ensures r.None? <==> forall j :: 0 <= j < |s| ==> !p(s[j])
  {
    if s == [] then None
    else if p(s[0]) then Some(0)
    else
      match FirstIndex(s[1..], p)
      case None => None
      case Some(k) => Some(k + 1)
  }

  /** The elements satisfying `p`, in their original order (`list.filter`). */
  function Filter<T>(s: seq<T>, p: T -> bool): (r: seq<T>)
    ensures |r| <= |s|
    ensures forall i :: 0 <= i < |r| ==> p(r[i])
    ensures forall x :: x in r ==> x in s
    decreases |s|
  {
    if s == [] then []
    else Filter(s[..|s| - 1], p) + (if p(s[|s| - 1]) then [s[|s| - 1]] else [])
  }

  lemma {:induction false} FilterAppend<T>(a: seq<T>, b: seq<T>, p: T -> bool)
    ensures Filter(a + b, p) == Filter(a, p) + Filter(b, p)
    decreases |b|
  {
    if b == [] {
      assert a + b == a;
    } else {
      var b' := b[..|b| - 1];
      assert (a + b)[..|a + b| - 1] == a + b';
      FilterAppend(a, b', p);
    }
  }

  /** Filtering a list extended by one element. */
  lemma FilterSnoc<T>(s: seq<T>, x: T, p: T -> bool)
    ensures Filter(s + [x], p) == Filter(s, p) + (if p(x) then [x] else [])
  {
    assert (s + [x])[..|s|] == s;
  }

  /** Every element of `s` lands in exactly one of the filters by `p` and by its negation `q`. */
  lemma {:induction false} FilterSplitsMultiset<T>(s: seq<T>, p: T -> bool, q: T -> bool)
    requires forall x :: q(x) == !p(x)
    ensures multiset(Filter(s, p)) + multiset(Filter(s, q)) == multiset(s)
    ensures |Filter(s, p)| + |Filter(s, q)| == |s|
    decreases |s|
  {
    if s != [] {
      var s' := s[..|s| - 1];
      FilterSplitsMultiset(s', p, q);
      assert s == s' + [s[|s| - 1]];
    }
  }

  /** Filtering elements that all satisfy `p` changes nothing. */
  lemma {:induction false} FilterAll<T>(s: seq<T>, p: T -> bool)
    requires forall i :: 0 <= i < |s| ==> p(s[i])
    ensures Filter(s, p) == s
    decreases |s|
  {
    if s != [] {
      FilterAll(s[..|s| - 1], p);
      assert s[..|s| - 1] + [s[|s| - 1]] == s;
    }
  }

  /** Filtering elements none of which satisfies `p` leaves nothing. */
  lemma {:induction false} FilterNone<T>(s: seq<T>, p: T -> bool)
    requires forall i :: 0 <= i < |s| ==> !p(s[i])
    ensures Filter(s, p) == []
    decreases |s|
  {
    if s != [] {
      FilterNone(s[..|s| - 1], p);
    }
  }

  /** Indexing a sequence framed by one element at each end. */
  lemma FramedAt<T>(first: T, middle: seq<T>, last: T, w: nat)
    requires w < |middle| + 2
    ensures |[first] + middle + [last]| == |middle| + 2
    ensures w == 0 ==> ([first] + middle + [last])[w] == first
    ensures 0 < w <= |middle| ==> ([first] + middle + [last])[w] == middle[w - 1]
    ensures w == |middle| + 1 ==> ([first] + middle + [last])[w] == last
  {
    var head := [first] + middle;
    assert [first] + middle + [last] == head + [last];
    if 0 < w <= |middle| {
      assert head[w] == middle[w - 1];
    }
  }

  /** Appending a framed sequence to `a` one piece at a time. */
  lemma AppendFramed<T>(a: seq<T>, first: T, middle: seq<T>, last: T)
    ensures a + [first] + middle + [last] == a + ([first] + middle + [last])
  {
  }

  /** The concatenation of the lists in `ss`. */
  function Flatten<T>(ss: seq<seq<T>>): seq<T>
    decreases |ss|
  {
    if ss == [] then [] else ss[0] + Flatten(ss[1..])
  }

  /** Cuts `s` into consecutive pieces of `n` elements (the last may be shorter). */
  function Chunk<T>(s: seq<T>, n: nat): (r: seq<seq<T>>)
    requires n > 0
    decreases |s|
  {
    if s == [] then []
    else if |s| <= n then [s]
    else [s[..n]] + Chunk(s[n..], n)
  }

  lemma {:induction false} FlattenLength<T>(ss: seq<seq<T>>, n: nat)
    requires forall k :: 0 <= k < |ss| ==> |ss[k]| == n
    ensures |Flatten(ss)| == n * |ss|
    decreases |ss|
  {
    if ss != [] { FlattenLength(ss[1..], n); }
  }

  /** Cutting a concatenation of `n`-element pieces into `n`-element pieces gives the pieces back. */
  lemma {:induction false} ChunkFlatten<T>(ss: seq<seq<T>>, n: nat)
    requires n > 0
    requires forall k :: 0 <= k < |ss| ==> |ss[k]| == n
    ensures Chunk(Flatten(ss), n) == ss
    decreases |ss|
  {
    if ss != [] {
      var rest := ss[1..];
      ChunkFlatten(rest, n);
      FlattenLength(rest, n);
      var f := Flatten(ss);
      assert f == ss[0] + Flatten(rest);
      assert f[..n] == ss[0];
      assert f[n..] == Flatten(rest);
      assert [ss[0]] + rest == ss;
      if rest == [] {
        assert f == ss[0];
      } else {
        assert |f| > n;
      }
    }
  }

  /** `[f(x, i + 1) for i, x in enumerate(s)]`: each element paired with its 1-based position. */
  function MapIndexed<A, B>(s: seq<A>, f: (A, nat) -> B): (r: seq<B>)
    ensures |r| == |s|
    decreases |s|
  {
    if s == [] then [] else MapIndexed(s[..|s| - 1], f) + [f(s[|s| - 1], |s|)]
  }

  lemma {:induction false} MapIndexedAt<A, B>(s: seq<A>, f: (A, nat) -> B, i: nat)
    requires i < |s|
    ensures MapIndexed(s, f)[i] == f(s[i], i + 1)
    decreases |s|
  {
    var prev := s[..|s| - 1];
    if i < |prev| {
      MapIndexedAt(prev, f, i);
      assert prev[i] == s[i];
    }
  }

  /** Extending the input by one element extends the result by that element's image. */
  lemma MapIndexedSnoc<A, B>(s: seq<A>, f: (A, nat) -> B, i: nat)
    requires i < |s|
    ensures MapIndexed(s[..i + 1], f) == MapIndexed(s[..i], f) + [f(s[i], i + 1)]
  {
    assert s[..i + 1][..i] == s[..i];
  }
}
