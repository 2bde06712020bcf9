/** Sequence utilities: concatenation of nested sequences, position bookkeeping and scatter. */
module Seqs {

  /** The concatenation of all sequences of `ss`, in order. */
  function Flatten<T>(ss: seq<seq<T>>): seq<T>
  {
    if ss == [] then [] else ss[0] + Flatten(ss[1..])
  }

  /** The position in Flatten(ss) at which ss[k] starts. */
  function Offset<T>(ss: seq<seq<T>>, k: nat): nat
    requires k <= |ss|
  {
    |Flatten(ss[..k])|
  }

  /** The sequence 0, 1, ..., n - 1. */
  function Iota(n: nat): (r: seq<nat>)
    ensures |r| == n
    ensures forall i :: 0 <= i < n ==> r[i] == i
  {
    if n == 0 then [] else Iota(n - 1) + [n - 1]
  }

  predicate Distinct<T(==)>(s: seq<T>)
  {
    forall a, b :: 0 <= a < b < |s| ==> s[a] != s[b]
  }

  /** Two nested sequences whose inner sequences have pairwise equal lengths. */
  predicate SameShape<T, U>(a: seq<seq<T>>, b: seq<seq<U>>)
  {
    |a| == |b| && forall k :: 0 <= k < |a| ==> |a[k]| == |b[k]|
  }

  /** Writes vals[m] at position idx[m] of acc, for m = 0, 1, ... in turn. */
  function Scatter<T>(acc: seq<T>, idx: seq<nat>, vals: seq<T>): (r: seq<T>)
    requires |idx| == |vals|
    requires forall m :: 0 <= m < |idx| ==> idx[m] < |acc|
    ensures |r| == |acc|
  {
    if idx == [] then acc
    else
      var last := |idx| - 1;
      Scatter(acc, idx[..last], vals[..last])[idx[last] := vals[last]]
  }

  lemma {:induction false} FlattenConcat<T>(a: seq<seq<T>>, b: seq<seq<T>>)
    ensures Flatten(a + b) == Flatten(a) + Flatten(b)
  {
    if a != [] {
      assert (a + b)[1..] == a[1..] + b;
      FlattenConcat(a[1..], b);
    } else {
      assert a + b == b;
    }
  }

  lemma FlattenCons<T>(c: seq<T>, rest: seq<seq<T>>)
    ensures Flatten([c] + rest) == c + Flatten(rest)
  {
    assert ([c] + rest)[1..] == rest;
  }

  lemma FlattenSnoc<T>(ss: seq<seq<T>>, k: nat)
    requires k < |ss|
    ensures Flatten(ss[..k + 1]) == Flatten(ss[..k]) + ss[k]
  {
    assert ss[..k + 1] == ss[..k] + [ss[k]];
    FlattenConcat(ss[..k], [ss[k]]);
    assert Flatten([ss[k]]) == ss[k] + Flatten([]);
  }

  lemma OffsetSucc<T>(ss: seq<seq<T>>, k: nat)
    requires k < |ss|
    ensures Offset(ss, k + 1) == |ss[0]| + Offset(ss[1..], k)
  {
    assert ss[..k + 1] == [ss[0]] + ss[1..][..k];
    FlattenConcat([ss[0]], ss[1..][..k]);
    assert Flatten([ss[0]]) == ss[0] + Flatten([]);
  }

  /** The entry j of ss[k] sits at position Offset(ss, k) + j of the concatenation. */
  lemma {:induction false} FlattenAt<T>(ss: seq<seq<T>>, k: nat, j: nat)
    requires k < |ss| && j < |ss[k]|
    ensures Offset(ss, k) + j < |Flatten(ss)|
    ensures Flatten(ss)[Offset(ss, k) + j] == ss[k][j]
  {
    assert Flatten(ss) == ss[0] + Flatten(ss[1..]);
    if k == 0 {
      assert ss[..0] == [];
    } else {
      FlattenAt(ss[1..], k - 1, j);
      OffsetSucc(ss, k - 1);
    }
  }

  /** Which inner sequence, and which entry of it, position p of the concatenation comes from. */
  function Locate<T>(ss: seq<seq<T>>, p: nat): (kj: (nat, nat))
    requires p < |Flatten(ss)|
    ensures kj.0 < |ss| && kj.1 < |ss[kj.0]|
    ensures Offset(ss, kj.0) + kj.1 == p
  {
    assert ss != [];
    if p < |ss[0]| then
      assert ss[..0] == [];
      (0, p)
    else
      var kj := Locate(ss[1..], p - |ss[0]|);
      OffsetSucc(ss, kj.0);
      (kj.0 + 1, kj.1)
  }

  /** Nested sequences of the same shape have the same offsets and the same total length. */
  lemma {:induction false} SameShapeOffset<T, U>(a: seq<seq<T>>, b: seq<seq<U>>, k: nat)
    requires SameShape(a, b) && k <= |a|
    ensures Offset(a, k) == Offset(b, k)
    ensures |Flatten(a)| == |Flatten(b)|
  {
    if a != [] {
      assert SameShape(a[1..], b[1..]);
      if k > 0 {
        SameShapeOffset(a[1..], b[1..], k - 1);
        OffsetSucc(a, k - 1);
        OffsetSucc(b, k - 1);
      } else {
        SameShapeOffset(a[1..], b[1..], 0);
      }
    } else {
      assert b == [];
    }
  }

  /** ss[k] occupies positions Offset(ss, k) up to Offset(ss, k + 1) of the concatenation. */
  lemma OffsetNext<T>(ss: seq<seq<T>>, k: nat)
    requires k < |ss|
    ensures Offset(ss, k + 1) == Offset(ss, k) + |ss[k]|
    ensures Offset(ss, k + 1) <= |Flatten(ss)|
  {
    FlattenSnoc(ss, k);
    assert ss == ss[..k + 1] + ss[k + 1..];
    FlattenConcat(ss[..k + 1], ss[k + 1..]);
  }

  lemma TakeSnoc<T>(s: seq<T>, p: nat)
    requires p < |s|
    ensures s[..p + 1] == s[..p] + [s[p]]
  {
  }

  /** The first p writes of Scatter(acc, idx, vals). */
  function ScatterPrefix<T>(acc: seq<T>, idx: seq<nat>, vals: seq<T>, p: nat): (r: seq<T>)
    requires |idx| == |vals| && p <= |idx|
    requires forall m :: 0 <= m < |idx| ==> idx[m] < |acc|
    ensures |r| == |acc|
  {
    Scatter(acc, idx[..p], vals[..p])
  }

  /** No writes leave acc as it is; all of them are the whole scatter. */
  lemma ScatterPrefixEnds<T>(acc: seq<T>, idx: seq<nat>, vals: seq<T>)
    requires |idx| == |vals|
    requires forall m :: 0 <= m < |idx| ==> idx[m] < |acc|
    ensures ScatterPrefix(acc, idx, vals, 0) == acc
    ensures ScatterPrefix(acc, idx, vals, |idx|) == Scatter(acc, idx, vals)
  {
    assert idx[..0] == [] && vals[..0] == [];
    assert idx[..|idx|] == idx && vals[..|vals|] == vals;
  }

  /** One more write. */
  lemma ScatterTakeStep<T>(acc: seq<T>, idx: seq<nat>, vals: seq<T>, p: nat)
    requires |idx| == |vals| && p < |idx|
    requires forall m :: 0 <= m < |idx| ==> idx[m] < |acc|
    ensures ScatterPrefix(acc, idx, vals, p + 1) == ScatterPrefix(acc, idx, vals, p)[idx[p] := vals[p]]
  {
    TakeSnoc(idx, p);
    TakeSnoc(vals, p);
    ScatterSnoc(acc, idx[..p], vals[..p], idx[p], vals[p]);
  }

  /**
   * One more write from a nested sequence: entry j of ss[k] is write Offset(ss, k) + j
   * of the concatenation.
   */
  lemma ScatterFlattenStep<T>(acc: seq<T>, idx: seq<seq<nat>>, vals: seq<seq<T>>, k: nat, j: nat)
    requires SameShape(idx, vals)
    requires forall m :: 0 <= m < |Flatten<nat>(idx)| ==> Flatten<nat>(idx)[m] < |acc|
    requires k < |idx| && j < |idx[k]|
    ensures |Flatten<nat>(idx)| == |Flatten(vals)| && j < |vals[k]|
    ensures Offset(idx, k) + j < |Flatten<nat>(idx)| && idx[k][j] < |acc|
    ensures ScatterPrefix(acc, Flatten<nat>(idx), Flatten(vals), Offset(idx, k) + j + 1)
            == ScatterPrefix(acc, Flatten<nat>(idx), Flatten(vals), Offset(idx, k) + j)[idx[k][j] := vals[k][j]]
  {
    SameShapeOffset(idx, vals, k);
    FlattenAt(idx, k, j);
    FlattenAt(vals, k, j);
    ScatterTakeStep(acc, Flatten<nat>(idx), Flatten(vals), Offset(idx, k) + j);
  }

  /** With distinct positions, the last write to a position is its only write. */
  lemma {:induction false} ScatterAt<T>(acc: seq<T>, idx: seq<nat>, vals: seq<T>, m: nat)
    requires |idx| == |vals|
    requires forall q :: 0 <= q < |idx| ==> idx[q] < |acc|
    requires Distinct(idx) && m < |idx|
    ensures Scatter(acc, idx, vals)[idx[m]] == vals[m]
  {
    var last := |idx| - 1;
    if m < last {
      assert Distinct(idx[..last]);
      ScatterAt(acc, idx[..last], vals[..last], m);
    }
  }

  lemma ScatterSnoc<T>(acc: seq<T>, idx: seq<nat>, vals: seq<T>, p: nat, v: T)
    requires |idx| == |vals| && p < |acc|
    requires forall q :: 0 <= q < |idx| ==> idx[q] < |acc|
    ensures Scatter(acc, idx + [p], vals + [v]) == Scatter(acc, idx, vals)[p := v]
  {
    assert (idx + [p])[..|idx|] == idx;
    assert (vals + [v])[..|vals|] == vals;
  }

  /** A multiset of positions equal to that of 0..n-1 names every position below n. */
  lemma IotaMembers(s: seq<nat>, n: nat, i: nat)
    requires multiset(s) == multiset(Iota(n)) && i < n
    ensures i in s
  {
    assert Iota(n)[i] == i;
    assert i in multiset(Iota(n));
  }

  /** A sequence with the multiset of 0..n-1 holds only positions below n. */
  lemma IotaBound(s: seq<nat>, n: nat)
    requires multiset(s) == multiset(Iota(n))
    ensures forall m :: 0 <= m < |s| ==> s[m] < n
  {
    forall m | 0 <= m < |s| ensures s[m] < n {
      assert s[m] in multiset(Iota(n));
    }
  }

  /**
   * Scattering the concatenation of same-shaped position and value groups, with distinct
   * positions, leaves value vals[k][j] at position idx[k][j].
   */
  lemma ScatterFlattenAt<T>(acc: seq<T>, idx: seq<seq<nat>>, vals: seq<seq<T>>, k: nat, j: nat)
    requires SameShape(idx, vals) && Distinct(Flatten<nat>(idx))
    requires forall m :: 0 <= m < |Flatten<nat>(idx)| ==> Flatten<nat>(idx)[m] < |acc|
    requires k < |idx| && j < |idx[k]|
    ensures |Flatten<nat>(idx)| == |Flatten(vals)|
    ensures idx[k][j] < |acc|
    ensures Scatter(acc, Flatten<nat>(idx), Flatten(vals))[idx[k][j]] == vals[k][j]
  {
    SameShapeOffset(idx, vals, k);
    FlattenAt(idx, k, j);
    FlattenAt(vals, k, j);
    ScatterAt(acc, Flatten<nat>(idx), Flatten(vals), Offset(idx, k) + j);
  }
}
