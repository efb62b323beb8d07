/** The two raw memory primitives the backing store is built on, `memmove` and `memset`,
    over byte arrays, each specified by a function on the array's contents. */
module Memory {

  /** `s` with the bytes `[at, at + |t|)` replaced by `t`. */
  function Splice(s: seq<bv8>, at: nat, t: seq<bv8>): (r: seq<bv8>)
    requires at + |t| <= |s|
    ensures |r| == |s|
    ensures forall i :: at <= i < at + |t| ==> r[i] == t[i - at]
    ensures forall i :: 0 <= i < |s| && !(at <= i < at + |t|) ==> r[i] == s[i]
  {
    s[..at] + t + s[at + |t|..]
  }

  /** `s` with the bytes `[at, at + n)` set to `v`. */
  function Fill(s: seq<bv8>, at: nat, n: nat, v: bv8): (r: seq<bv8>)
    requires at + n <= |s|
    ensures |r| == |s|
    ensures forall i :: at <= i < at + n ==> r[i] == v
    ensures forall i :: 0 <= i < |s| && !(at <= i < at + n) ==> r[i] == s[i]
  {
    s[..at] + seq(n, _ => v) + s[at + n..]
  }

  /** Reading back the window a splice wrote returns exactly what was written. */
  lemma SpliceThenSlice(s: seq<bv8>, at: nat, t: seq<bv8>)
    requires at + |t| <= |s|
    ensures Splice(s, at, t)[at..at + |t|] == t
  {
    var r := Splice(s, at, t);
    forall i | 0 <= i < |t|
      ensures r[at..at + |t|][i] == t[i]
    {
      assert r[at + i] == t[at + i - at];
    }
  }

  /** `memmove(dst + dstAt, src + srcAt, n)`: copies as if through a temporary buffer,
      so `dst` and `src` may be the same array. */
  method Memmove(dst: array<bv8>, dstAt: nat, src: array<bv8>, srcAt: nat, n: nat)
    requires dstAt + n <= dst.Length && srcAt + n <= src.Length
    modifies dst
    ensures dst[..] == Splice(old(dst[..]), dstAt, old(src[srcAt..srcAt + n]))
  {
    var t := src[srcAt..srcAt + n];
    var i := 0;
    while i < n
      invariant 0 <= i <= n
      invariant forall k :: 0 <= k < dst.Length && dstAt <= k < dstAt + i ==> dst[k] == t[k - dstAt]
      invariant forall k :: 0 <= k < dst.Length && !(dstAt <= k < dstAt + i) ==> dst[k] == old(dst[k])
    {
      dst[dstAt + i] := t[i];
      i := i + 1;
    }
    assert dst[..] == Splice(old(dst[..]), dstAt, t);
  }

  /** `memset(dst + at, v, n)` */
  method Memset(dst: array<bv8>, at: nat, n: nat, v: bv8)
    requires at + n <= dst.Length
    modifies dst
    ensures dst[..] == Fill(old(dst[..]), at, n, v)
  {
    var i := 0;
    while i < n
      invariant 0 <= i <= n
      invariant forall k :: 0 <= k < dst.Length && at <= k < at + i ==> dst[k] == v
      invariant forall k :: 0 <= k < dst.Length && !(at <= k < at + i) ==> dst[k] == old(dst[k])
    {
      dst[at + i] := v;
      i := i + 1;
    }
    assert dst[..] == Fill(old(dst[..]), at, n, v);
  }
}
