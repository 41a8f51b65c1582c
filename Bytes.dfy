/**
 * Bytes and the two searches over a byte array that the recorder uses
 * (Guava's `Bytes.indexOf(byte[], byte)` and `Bytes.indexOf(byte[], byte[])`).
 */
module Bytes {

  /** A Java `byte`, taken by its bit pattern. */
  newtype byte = x: int | 0 <= x < 256

  /** `n` zero bytes: what `new byte[n]` holds in Java. */
  function Zeros(n: nat): (z: seq<byte>)
    ensures |z| == n
    ensures forall i :: 0 <= i < n ==> z[i] == 0
  {
    seq(n, _ => 0)
  }

  /**
   * Index of the first `x` in `a`, scanning from index 0, or -1 when `a`
   * holds no `x`.
   */
  function IndexOf(a: seq<byte>, x: byte): (r: int)
    ensures -1 <= r < |a|
    ensures r == -1 <==> x !in a
    ensures r >= 0 ==> a[r] == x && x !in a[..r]
  {
    if |a| == 0 then -1
    else if a[0] == x then 0
    else
      var k := IndexOf(a[1..], x);
      assert a == [a[0]] + a[1..];
      if k == -1 then -1
      else
        assert a[..k + 1] == [a[0]] + a[1..][..k];
        k + 1
  }

  /** The first `x` in `a` is the only index that IndexOf can report. */
  lemma IndexOfIsFirst(a: seq<byte>, x: byte, k: int)
    requires 0 <= k < |a| && a[k] == x && x !in a[..k]
    ensures IndexOf(a, x) == k
  {
  }

  /** A search that finds nothing in `a` continues into what follows it. */
  lemma IndexOfAppend(a: seq<byte>, b: seq<byte>, x: byte)
    requires x !in a && x in b
    ensures IndexOf(a + b, x) == |a| + IndexOf(b, x)
  {
    var k := IndexOf(b, x);
    var ab := a + b;
    assert ab[|a| + k] == x;
    assert ab[..|a| + k] == a + b[..k];
    IndexOfIsFirst(ab, x, |a| + k);
  }

  /** `t` occurs in `a` starting at index `i`. */
  predicate OccursAt(a: seq<byte>, t: seq<byte>, i: int) {
    0 <= i && i + |t| <= |a| && a[i..i + |t|] == t
  }

  /** `t` occurs in `a` at `i + 1` exactly when it occurs in `a[1..]` at `i`. */
  lemma OccursAtShift(a: seq<byte>, t: seq<byte>, i: int)
    requires |a| > 0 && 0 <= i
    ensures OccursAt(a[1..], t, i) <==> OccursAt(a, t, i + 1)
  {
    if i + 1 + |t| <= |a| {
      assert a[1..][i..i + |t|] == a[i + 1..i + 1 + |t|];
    }
  }

  /**
   * Index of the first occurrence of `t` in `a`, or -1 when there is none;
   * an empty `t` is found at 0.
   */
  function IndexOfSlice(a: seq<byte>, t: seq<byte>): (r: int)
    ensures -1 <= r <= |a|
    decreases |a|
  {
    if |t| == 0 then 0
    else if |a| < |t| then -1
    else if a[..|t|] == t then 0
    else
      var k := IndexOfSlice(a[1..], t);
      if k == -1 then -1 else k + 1
  }

  /** IndexOfSlice finds the first occurrence, and reports -1 exactly when there is none. */
  lemma {:induction false} IndexOfSliceFindsFirst(a: seq<byte>, t: seq<byte>)
    ensures IndexOfSlice(a, t) == -1 <==> forall i :: !OccursAt(a, t, i)
    ensures IndexOfSlice(a, t) != -1 ==>
      OccursAt(a, t, IndexOfSlice(a, t)) && forall i :: 0 <= i < IndexOfSlice(a, t) ==> !OccursAt(a, t, i)
    decreases |a|
  {
    if |t| == 0 {
      assert OccursAt(a, t, 0);
    } else if |a| < |t| {
    } else if a[..|t|] == t {
      assert a[0..|t|] == a[..|t|] && OccursAt(a, t, 0);
    } else {
      IndexOfSliceFindsFirst(a[1..], t);
      assert !OccursAt(a, t, 0);
      forall i | 0 <= i ensures OccursAt(a[1..], t, i) <==> OccursAt(a, t, i + 1) {
        OccursAtShift(a, t, i);
      }
      assert forall i :: OccursAt(a, t, i) ==> i >= 1 && OccursAt(a[1..], t, i - 1);
    }
  }
}
