/** Sequence bookkeeping shared by the tokenizer model: concatenation of
    groups, order-preserving filtering, and Python's `s[:k]` slice. */
module Seqs {

  /** Concatenation of a sequence of sequences, in order (`"".join`, or a
      sequence of `list.extend` calls). */
  function Flatten<T>(ss: seq<seq<T>>): (r: seq<T>)
  {
    if ss == [] then [] else Flatten(ss[..|ss| - 1]) + ss[|ss| - 1]
  }

  lemma FlattenSnoc<T>(ss: seq<seq<T>>, x: seq<T>)
    ensures Flatten(ss + [x]) == Flatten(ss) + x
  {
    assert (ss + [x])[..|ss|] == ss;
  }

  /** Extending the last group extends the concatenation. */
  lemma FlattenExtendLast<T>(ss: seq<seq<T>>, x: seq<T>)
    requires ss != []
    ensures var m := |ss| - 1;
            Flatten(ss[..m] + [ss[m] + x]) == Flatten(ss) + x
  {
    var m := |ss| - 1;
    var front, last := Flatten(ss[..m]), ss[m];
    calc {
      Flatten(ss[..m] + [last + x]);
      { FlattenSnoc(ss[..m], last + x); }
      front + (last + x);
      front + last + x;
      Flatten(ss) + x;
    }
  }

  /** The concatenation of the first `n + 1` groups. */
  lemma FlattenPrefixStep<T>(ss: seq<seq<T>>, n: nat)
    requires n < |ss|
    ensures Flatten(ss[..n + 1]) == Flatten(ss[..n]) + ss[n]
  {
    assert ss[..n + 1][..n] == ss[..n];
  }

  /** A single group, joined, is itself. */
  lemma FlattenSingle<T>(x: seq<T>)
    ensures Flatten([x]) == x
  {
    assert [x][..0] == [];
  }

  /** The concatenation of the groups from `a` up to `c + 1`. */
  lemma FlattenSliceStep<T>(ss: seq<seq<T>>, a: nat, c: nat)
    requires a <= c < |ss|
    ensures Flatten(ss[a..c + 1]) == Flatten(ss[a..c]) + ss[c]
  {
    assert ss[a..c + 1][..c - a] == ss[a..c];
  }

  /** The indices `i < n` with `flags[i]` set, in increasing order. */
  ghost function TrueIndices(flags: seq<bool>, n: nat): seq<nat>
    requires n <= |flags|
  {
    if n == 0 then [] else TrueIndices(flags, n - 1) + (if flags[n - 1] then [n - 1] else [])
  }

  /** `r` lists exactly the indices `i < n` with `flags[i]` set, in strictly
      increasing order. */
  ghost predicate IndicesOf(flags: seq<bool>, n: nat, r: seq<nat>)
    requires n <= |flags|
  {
    && |r| <= n
    && (n > 0 && flags[0] ==> |r| >= 1 && r[0] == 0)
    && (forall j :: 0 <= j < |r| ==> r[j] < n)
    && (forall j :: 0 < j < |r| ==> r[j - 1] < r[j])
    && (forall i :: 0 <= i < n ==> (i in r <==> flags[i]))
  }

  lemma TrueIndicesStep(flags: seq<bool>, n: nat)
    requires 0 < n <= |flags|
    requires IndicesOf(flags, n - 1, TrueIndices(flags, n - 1))
    ensures IndicesOf(flags, n, TrueIndices(flags, n))
  {
    var prev := TrueIndices(flags, n - 1);
    var r := TrueIndices(flags, n);
    assert n - 1 !in prev;
    forall j | 0 <= j < |r| ensures r[j] < n {
      if j < |prev| { assert r[j] == prev[j]; }
    }
    forall j | 0 < j < |r| ensures r[j - 1] < r[j] {
      assert r[j - 1] == prev[j - 1];
    }
    forall i | 0 <= i < n ensures i in r <==> flags[i] {
      if i < n - 1 {
        assert i in r <==> i in prev;
      }
    }
    if n > 1 && flags[0] {
      assert r[0] == prev[0];
    }
  }

  /** `TrueIndices` lists exactly the set flags below `n`, in strictly
      increasing order. */
  lemma {:induction false} TrueIndicesShape(flags: seq<bool>, n: nat)
    requires n <= |flags|
    ensures IndicesOf(flags, n, TrueIndices(flags, n))
  {
    if n > 0 {
      TrueIndicesShape(flags, n - 1);
      TrueIndicesStep(flags, n);
    }
  }

  /** The elements of `s` that are below `bound`, in their original order
      (the list comprehension `[t for t in s if t < bound]`). */
  function Below(s: seq<int>, bound: int): (r: seq<int>)
    ensures |r| <= |s|
    ensures forall x :: x in r <==> x in s && x < bound
  {
    if s == [] then []
    else
      var front := s[..|s| - 1];
      assert forall x :: x in s <==> x in front || x == s[|s| - 1];
      Below(front, bound) + (if s[|s| - 1] < bound then [s[|s| - 1]] else [])
  }

  lemma {:induction false} BelowAppend(a: seq<int>, b: seq<int>, bound: int)
    ensures Below(a + b, bound) == Below(a, bound) + Below(b, bound)
    decreases |b|
  {
    if b == [] {
      assert a + b == a;
    } else {
      var b' := b[..|b| - 1];
      assert (a + b)[..|a + b| - 1] == a + b';
      BelowAppend(a, b', bound);
    }
  }

  /** Filtering keeps a sequence whose elements are all below the bound intact. */
  lemma {:induction false} BelowKeepsAll(s: seq<int>, bound: int)
    ensures (forall i :: 0 <= i < |s| ==> s[i] < bound) ==> Below(s, bound) == s
  {
    if s != [] {
      BelowKeepsAll(s[..|s| - 1], bound);
    }
  }

  /** Filtering removes an element that is not below the bound. */
  lemma BelowDropsSingle(t: int, bound: int)
    requires t >= bound
    ensures Below([t], bound) == []
  {
    assert [t][..0] == [];
  }

  /** Filtering one more element of `s` keeps it exactly when it is below
      the bound. */
  lemma BelowPrefixStep(s: seq<int>, n: nat, bound: int)
    requires n < |s|
    ensures s[n] < bound ==> Below(s[..n + 1], bound) == Below(s[..n], bound) + [s[n]]
    ensures s[n] >= bound ==> Below(s[..n + 1], bound) == Below(s[..n], bound)
  {
    assert s[..n + 1][..n] == s[..n];
    if s[n] >= bound {
      assert Below(s[..n], bound) + [] == Below(s[..n], bound);
    }
  }

  function Min(a: int, b: int): int { if a <= b then a else b }
  function Max(a: int, b: int): int { if a >= b then a else b }

  /** Python's `s[:k]`: a prefix of `s`; a negative `k` counts from the end. */
  function SliceTo<T>(s: seq<T>, k: int): (r: seq<T>)
    ensures r <= s
    ensures |r| == if k >= 0 then Min(k, |s|) else Max(0, |s| + k)
  {
    if k >= |s| then s
    else if k >= 0 then s[..k]
    else if |s| + k >= 0 then s[..|s| + k]
    else []
  }
}
