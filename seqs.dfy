/**
 * Sequence combinators shared by the extractors and the normaliser: the
 * "loop, test, append" and "loop, test, return first" shapes of the source,
 * stated once as functions, with the facts about them that the loops rely on.
 */
module Seqs {
  import opened Wrappers

  /** The zero- or one-element sequence holding the value of `o`. */
  function AsSeq<U>(o: Option<U>): seq<U>
  {
    match o
    case Some(u) => [u]
    case None => []
  }

  /** Applies `f` to every element in order and keeps the values it produces. */
  function FilterMap<T, U>(s: seq<T>, f: T -> Option<U>): (r: seq<U>)
    ensures |r| <= |s|
    decreases |s|
  {
    if s == [] then [] else FilterMap(s[..|s| - 1], f) + AsSeq(f(s[|s| - 1]))
  }

  /** Keeps the elements that satisfy `p`, in order. */
  function Filter<T>(s: seq<T>, p: T -> bool): (r: seq<T>)
    ensures |r| <= |s|
    ensures forall i :: 0 <= i < |r| ==> p(r[i])
    decreases |s|
  {
    if s == [] then [] else Filter(s[..|s| - 1], p) + (if p(s[|s| - 1]) then [s[|s| - 1]] else [])
  }

  /** Maps every element to a sequence and concatenates the results in order. */
  function FlatMap<T, U>(s: seq<T>, f: T -> seq<U>): seq<U>
    decreases |s|
  {
    if s == [] then [] else FlatMap(s[..|s| - 1], f) + f(s[|s| - 1])
  }

  /** The value of the first element for which `f` produces one. */
  function FirstSome<T, U>(s: seq<T>, f: T -> Option<U>): (r: Option<U>)
    ensures r.None? <==> forall i :: 0 <= i < |s| ==> f(s[i]).None?
    decreases |s|
  {
    if s == [] then None
    else if f(s[0]).Some? then f(s[0])
    else FirstSome(s[1..], f)
  }

  /** The first `n` elements of `s`, or all of them when there are fewer. */
  function Take<T>(s: seq<T>, n: nat): (r: seq<T>)
    ensures |r| <= n && r <= s
    ensures |s| <= n ==> r == s
    ensures n <= |s| ==> |r| == n
  {
    if |s| <= n then s else s[..n]
  }

  /** Python's `sep.join(parts)`. */
  function Join(sep: string, parts: seq<string>): string
    decreases |parts|
  {
    if parts == [] then ""
    else if |parts| == 1 then parts[0]
    else parts[0] + sep + Join(sep, parts[1..])
  }

  lemma {:induction false} FilterMapAppend<T, U>(a: seq<T>, b: seq<T>, f: T -> Option<U>)
    ensures FilterMap(a + b, f) == FilterMap(a, f) + FilterMap(b, f)
    decreases |b|
  {
    if b == [] {
      assert a + b == a;
    } else {
      var b' := b[..|b| - 1];
      assert (a + b)[..|a + b| - 1] == a + b';
      assert (a + b)[|a + b| - 1] == b[|b| - 1];
      FilterMapAppend(a, b', f);
    }
  }

  /** Every value kept comes from an element of the input. */
  lemma {:induction false} FilterMapSound<T, U>(s: seq<T>, f: T -> Option<U>, k: nat)
    requires k < |FilterMap(s, f)|
    ensures exists i :: 0 <= i < |s| && f(s[i]) == Some(FilterMap(s, f)[k])
    decreases |s|
  {
    var s' := s[..|s| - 1];
    if k < |FilterMap(s', f)| {
      FilterMapSound(s', f, k);
      var i :| 0 <= i < |s'| && f(s'[i]) == Some(FilterMap(s', f)[k]);
      assert s[i] == s'[i];
    } else {
      assert f(s[|s| - 1]) == Some(FilterMap(s, f)[k]);
    }
  }

  /** No value is lost: every element `f` accepts contributes its value. */
  lemma {:induction false} FilterMapComplete<T, U>(s: seq<T>, f: T -> Option<U>, i: nat)
    requires i < |s| && f(s[i]).Some?
    ensures f(s[i]).value in FilterMap(s, f)
    decreases |s|
  {
    var s' := s[..|s| - 1];
    if i < |s'| {
      assert s'[i] == s[i];
      FilterMapComplete(s', f, i);
    }
  }

  /** The result is empty exactly when `f` accepts nothing. */
  lemma {:induction false} FilterMapEmpty<T, U>(s: seq<T>, f: T -> Option<U>)
    ensures FilterMap(s, f) == [] <==> forall i :: 0 <= i < |s| ==> f(s[i]).None?
    decreases |s|
  {
    if s != [] {
      var s' := s[..|s| - 1];
      FilterMapEmpty(s', f);
      assert forall i :: 0 <= i < |s'| ==> s'[i] == s[i];
    }
  }

  /** A prefix of the input yields a prefix of the output: order is kept. */
  lemma {:induction false} FilterMapPrefix<T, U>(s: seq<T>, f: T -> Option<U>, n: nat)
    requires n <= |s|
    ensures FilterMap(s[..n], f) <= FilterMap(s, f)
  {
    assert s == s[..n] + s[n..];
    FilterMapAppend(s[..n], s[n..], f);
  }

  lemma {:induction false} FlatMapAppend<T, U>(a: seq<T>, b: seq<T>, f: T -> seq<U>)
    ensures FlatMap(a + b, f) == FlatMap(a, f) + FlatMap(b, f)
    decreases |b|
  {
    if b == [] {
      assert a + b == a;
    } else {
      var b' := b[..|b| - 1];
      assert (a + b)[..|a + b| - 1] == a + b';
      assert (a + b)[|a + b| - 1] == b[|b| - 1];
      FlatMapAppend(a, b', f);
    }
  }

  /** The first value over `a + b` is the first over `a`, else the first over `b`. */
  lemma {:induction false} FirstSomeAppend<T, U>(a: seq<T>, b: seq<T>, f: T -> Option<U>)
    ensures FirstSome(a + b, f) == if FirstSome(a, f).Some? then FirstSome(a, f) else FirstSome(b, f)
    decreases |a|
  {
    if a == [] {
      assert a + b == b;
    } else {
      assert (a + b)[0] == a[0];
      assert (a + b)[1..] == a[1..] + b;
      FirstSomeAppend(a[1..], b, f);
    }
  }

  /** The value found is that of an element all of whose predecessors produce none. */
  lemma {:induction false} FirstSomeWitness<T, U>(s: seq<T>, f: T -> Option<U>)
    requires FirstSome(s, f).Some?
    ensures exists i :: 0 <= i < |s| && f(s[i]) == FirstSome(s, f) && forall j :: 0 <= j < i ==> f(s[j]).None?
    decreases |s|
  {
    if f(s[0]).None? {
      FirstSomeWitness(s[1..], f);
      var i :| 0 <= i < |s[1..]| && f(s[1..][i]) == FirstSome(s[1..], f) && forall j :: 0 <= j < i ==> f(s[1..][j]).None?;
      assert f(s[i + 1]) == FirstSome(s, f);
      forall j | 0 <= j < i + 1 ensures f(s[j]).None? {
        if j > 0 { assert s[j] == s[1..][j - 1]; }
      }
    } else {
      assert f(s[0]) == FirstSome(s, f);
    }
  }

  /** A property of every value `f` produces holds of every element of the result. */
  lemma {:induction false} FilterMapAll<T, U>(s: seq<T>, f: T -> Option<U>, P: U -> bool)
    requires forall x :: f(x).Some? ==> P(f(x).value)
    ensures forall k :: 0 <= k < |FilterMap(s, f)| ==> P(FilterMap(s, f)[k])
  {
    forall k | 0 <= k < |FilterMap(s, f)| ensures P(FilterMap(s, f)[k]) {
      FilterMapSound(s, f, k);
    }
  }

  lemma {:induction false} PrefixTransitive<T>(a: seq<T>, b: seq<T>, c: seq<T>)
    requires a <= b && b <= c
    ensures a <= c
  {
    assert c[..|b|][..|a|] == c[..|a|];
  }

  /**
   * Runs `step` over `s` in order; each call sees the values kept so far and
   * may produce one more. The "loop, test against what we have, append" shape.
   */
  function Accumulate<T, U>(s: seq<T>, step: (seq<U>, T) -> Option<U>): (r: seq<U>)
    ensures |r| <= |s|
    decreases |s|
  {
    if s == [] then []
    else
      var prev := Accumulate(s[..|s| - 1], step);
      prev + AsSeq(step(prev, s[|s| - 1]))
  }

  lemma {:induction false} AccumulateStep<T, U>(s: seq<T>, x: T, step: (seq<U>, T) -> Option<U>)
    ensures Accumulate(s + [x], step) == Accumulate(s, step) + AsSeq(step(Accumulate(s, step), x))
  {
    assert (s + [x])[..|s|] == s;
  }

  /** One more element of `b` extends the run over `a + b[..i]` by what `step` makes of it. */
  lemma {:induction false} AccumulateNext<T, U>(a: seq<T>, b: seq<T>, i: nat, step: (seq<U>, T) -> Option<U>, prev: seq<U>)
    requires i < |b| && prev == Accumulate(a + b[..i], step)
    ensures Accumulate(a + b[..i + 1], step) == prev + AsSeq(step(prev, b[i]))
  {
    assert a + b[..i + 1] == (a + b[..i]) + [b[i]];
    AccumulateStep(a + b[..i], b[i], step);
  }

  /** A prefix of the input yields a prefix of the output. */
  lemma {:induction false} AccumulatePrefix<T, U>(s: seq<T>, step: (seq<U>, T) -> Option<U>, n: nat)
    requires n <= |s|
    ensures Accumulate(s[..n], step) <= Accumulate(s, step)
    decreases |s| - n
  {
    if n < |s| {
      var m := |s| - 1;
      assert s[..m][..n] == s[..n];
      AccumulatePrefix(s[..m], step, n);
      PrefixTransitive(Accumulate(s[..n], step), Accumulate(s[..m], step), Accumulate(s, step));
    } else {
      assert s[..n] == s;
    }
  }

  /**
   * Value `k` of the result is what `step` produced at some element `i`,
   * having seen exactly the `k` values kept before it.
   */
  lemma {:induction false} AccumulateOrigin<T, U>(s: seq<T>, step: (seq<U>, T) -> Option<U>, k: nat)
    requires k < |Accumulate(s, step)|
    ensures exists i :: 0 <= i < |s| && Accumulate(s[..i], step) == Accumulate(s, step)[..k] &&
                        step(Accumulate(s[..i], step), s[i]) == Some(Accumulate(s, step)[k])
    decreases |s|
  {
    var m := |s| - 1;
    var prev := Accumulate(s[..m], step);
    var last := AsSeq(step(prev, s[m]));
    assert Accumulate(s, step) == prev + last;
    TakeConcat(prev, last, k);
    if k < |prev| {
      AccumulateOrigin(s[..m], step, k);
      var i :| 0 <= i < m && Accumulate(s[..m][..i], step) == prev[..k] &&
               step(Accumulate(s[..m][..i], step), s[..m][i]) == Some(prev[k]);
      TakeTake(s, m, i);
    } else {
      assert prev[..k] == prev;
    }
  }

  /** When no step produces a value whose key is already taken, the keys of the result are distinct. */
  lemma {:induction false} AccumulateDistinct<T, U, K>(s: seq<T>, step: (seq<U>, T) -> Option<U>, key: U -> K)
    requires forall prev, x, j :: step(prev, x).Some? && 0 <= j < |prev| ==> key(prev[j]) != key(step(prev, x).value)
    ensures forall i, j :: 0 <= i < j < |Accumulate(s, step)| ==> key(Accumulate(s, step)[i]) != key(Accumulate(s, step)[j])
    decreases |s|
  {
    if s != [] {
      var prev := Accumulate(s[..|s| - 1], step);
      AccumulateDistinct(s[..|s| - 1], step, key);
      var r := Accumulate(s, step);
      var x := s[|s| - 1];
      assert r == prev + AsSeq(step(prev, x));
      forall i, j | 0 <= i < j < |r| ensures key(r[i]) != key(r[j]) {
        assert r[i] == prev[i];
        if j < |prev| {
          assert r[j] == prev[j];
          assert key(prev[i]) != key(prev[j]);
        } else {
          assert r[j] == step(prev, x).value;
          assert key(prev[i]) != key(step(prev, x).value);
        }
      }
    }
  }

  /** Splits the flattening around element `i`. */
  lemma {:induction false} FlatMapAt<T, U>(s: seq<T>, f: T -> seq<U>, i: nat)
    requires i < |s|
    ensures FlatMap(s, f) == FlatMap(s[..i], f) + f(s[i]) + FlatMap(s[i + 1..], f)
  {
    assert s == s[..i + 1] + s[i + 1..];
    FlatMapAppend(s[..i + 1], s[i + 1..], f);
    assert s[..i + 1][..i] == s[..i];
  }

  /** A prefix of `a + b` no longer than `a` is a prefix of `a`. */
  lemma TakeConcat<T>(a: seq<T>, b: seq<T>, k: nat)
    requires k <= |a|
    ensures (a + b)[..k] == a[..k]
  {
  }

  /** A prefix of a prefix. */
  lemma TakeTake<T>(s: seq<T>, m: nat, i: nat)
    requires i <= m <= |s|
    ensures s[..m][..i] == s[..i]
  {
  }

  lemma {:induction false} PrefixOfConcat<T>(a: seq<T>, b: seq<T>, c: seq<T>, n: nat)
    requires n <= |b|
    ensures a + b[..n] <= a + b + c
  {
    assert (a + b + c)[..|a| + n] == a + b[..n];
  }

  /** Folds `f` over `s` from the left, starting from `init`. */
  function Fold<T, A>(init: A, s: seq<T>, f: (A, T) -> A): A
    decreases |s|
  {
    if s == [] then init else f(Fold(init, s[..|s| - 1], f), s[|s| - 1])
  }

  /** The first value `f` gives an element from index `i` on, passing over the one at `skip`. */
  function FirstSomeSkip<T, U>(s: seq<T>, f: T -> Option<U>, skip: int, i: nat): (r: Option<U>)
    requires i <= |s|
    ensures r.None? <==> forall k :: i <= k < |s| && k != skip ==> f(s[k]).None?
    ensures r.Some? ==> exists k :: i <= k < |s| && k != skip && r == f(s[k])
    decreases |s| - i
  {
    if i == |s| then None
    else if i != skip && f(s[i]).Some? then f(s[i])
    else FirstSomeSkip(s, f, skip, i + 1)
  }

  /** The value found is that of the first element, other than the skipped one, that gives one. */
  lemma {:induction false} FirstSomeSkipIs<T, U>(s: seq<T>, f: T -> Option<U>, skip: int, i: nat, k: nat)
    requires i <= k < |s| && k != skip && f(s[k]).Some?
    requires forall j :: i <= j < k && j != skip ==> f(s[j]).None?
    ensures FirstSomeSkip(s, f, skip, i) == f(s[k])
    decreases k - i
  {
    if i < k {
      FirstSomeSkipIs(s, f, skip, i + 1, k);
    }
  }

  /** Concatenation is associative. */
  lemma Assoc<T>(x: seq<T>, y: seq<T>, z: seq<T>)
    ensures x + y + z == x + (y + z)
  {
  }

  /** One more element of `s` applies `f` once more to the fold over the prefix. */
  lemma {:induction false} FoldNext<T, A>(init: A, s: seq<T>, i: nat, f: (A, T) -> A)
    requires i < |s|
    ensures Fold(init, s[..i + 1], f) == f(Fold(init, s[..i], f), s[i])
  {
    assert s[..i + 1][..i] == s[..i];
  }

  /** Folding over `a + b` is folding over `b` from the fold over `a`. */
  lemma {:induction false} FoldAppend<T, A>(init: A, a: seq<T>, b: seq<T>, f: (A, T) -> A)
    ensures Fold(init, a + b, f) == Fold(Fold(init, a, f), b, f)
    decreases |b|
  {
    if b == [] {
      assert a + b == a;
    } else {
      var b' := b[..|b| - 1];
      assert (a + b)[..|a + b| - 1] == a + b';
      FoldAppend(init, a, b', f);
    }
  }

  /** An element that contributes nothing can be dropped from a flattening. */
  lemma {:induction false} FlatMapSkip<T, U>(s: seq<T>, f: T -> seq<U>, k: nat)
    requires k < |s| && f(s[k]) == []
    ensures FlatMap(s, f) == FlatMap(s[..k] + s[k + 1..], f)
  {
    FlatMapAt(s, f, k);
    FlatMapAppend(s[..k], s[k + 1..], f);
  }

  /** The value found is that of the first element producing one. */
  lemma {:induction false} FirstSomeAt<T, U>(s: seq<T>, f: T -> Option<U>, i: nat)
    requires i < |s| && f(s[i]).Some?
    requires forall j :: 0 <= j < i ==> f(s[j]).None?
    ensures FirstSome(s, f) == f(s[i])
    decreases i
  {
    if i > 0 {
      forall j | 0 <= j < i - 1 ensures f(s[1..][j]).None? {
        assert s[1..][j] == s[j + 1];
      }
      FirstSomeAt(s[1..], f, i - 1);
    }
  }

  /** The value of the last element for which `f` produces one. */
  function LastSome<T, U>(s: seq<T>, f: T -> Option<U>): (r: Option<U>)
    ensures r.None? <==> forall i :: 0 <= i < |s| ==> f(s[i]).None?
    decreases |s|
  {
    if s == [] then None
    else if f(s[|s| - 1]).Some? then f(s[|s| - 1])
    else LastSome(s[..|s| - 1], f)
  }

  /** One more element flattens one more piece onto the end. */
  lemma FlatMapNext<T, U>(s: seq<T>, f: T -> seq<U>, i: nat)
    requires i < |s|
    ensures FlatMap(s[..i + 1], f) == FlatMap(s[..i], f) + f(s[i])
  {
    assert s[..i + 1][..i] == s[..i];
  }

  /** One more element adds its value, if it has one, to the end. */
  lemma FilterMapNext<T, U>(s: seq<T>, f: T -> Option<U>, i: nat)
    requires i < |s|
    ensures FilterMap(s[..i + 1], f) == FilterMap(s[..i], f) + AsSeq(f(s[i]))
  {
    assert s[..i + 1][..i] == s[..i];
  }

  /** Applies `f` to every element. */
  function Map<T, U>(s: seq<T>, f: T -> U): (r: seq<U>)
    ensures |r| == |s| && forall i :: 0 <= i < |s| ==> r[i] == f(s[i])
  {
    seq(|s|, i requires 0 <= i < |s| => f(s[i]))
  }

  /** A prefix of length `n` is what `Take` keeps. */
  lemma TakePrefix<T>(s: seq<T>, p: seq<T>)
    requires p <= s
    ensures Take(s, |p|) == p
  {
  }

  /** One more element: the first value so far, or else the new element's. */
  lemma {:induction false} FirstSomeNext<T, U>(s: seq<T>, f: T -> Option<U>, i: nat)
    requires i < |s|
    ensures FirstSome(s[..i + 1], f) == if FirstSome(s[..i], f).Some? then FirstSome(s[..i], f) else f(s[i])
  {
    assert s[..i + 1] == s[..i] + [s[i]];
    FirstSomeAppend(s[..i], [s[i]], f);
    assert FirstSome([s[i]], f) == f(s[i]) by {
      assert [s[i]][1..] == [];
    }
  }

  /** A value found in a prefix is the value found in the whole. */
  lemma {:induction false} FirstSomeExtend<T, U>(s: seq<T>, f: T -> Option<U>, i: nat)
    requires i <= |s| && FirstSome(s[..i], f).Some?
    ensures FirstSome(s, f) == FirstSome(s[..i], f)
  {
    assert s == s[..i] + s[i..];
    FirstSomeAppend(s[..i], s[i..], f);
  }

  /** Once a prefix has produced `k` values, those are the first `k` of the whole. */
  lemma {:induction false} FilterMapTake<T, U>(s: seq<T>, f: T -> Option<U>, n: nat, k: nat)
    requires n <= |s| && |FilterMap(s[..n], f)| == k
    ensures Take(FilterMap(s, f), k) == FilterMap(s[..n], f)
  {
    FilterMapPrefix(s, f, n);
    TakePrefix(FilterMap(s, f), FilterMap(s[..n], f));
  }
}
