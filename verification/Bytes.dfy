/** Bytes, little-endian words, and what it means for bytes to lie at an address. */
module Bytes {

  type byte = x: int | 0 <= x < 256

  const WORD: nat := 0x1_0000_0000_0000_0000
  const SIZE_MAX: nat := WORD - 1

  function Pow256(n: nat): (r: nat)
    ensures r >= 1
  {
    if n == 0 then 1 else 256 * Pow256(n - 1)
  }

  // The first `n` little-endian bytes of `w`.
  function Encode(w: nat, n: nat): (bs: seq<byte>)
    ensures |bs| == n
  {
    if n == 0 then [] else [w % 256] + Encode(w / 256, n - 1)
  }

  function Decode(bs: seq<byte>): nat {
    if bs == [] then 0 else bs[0] + 256 * Decode(bs[1..])
  }

  lemma {:induction false} DecodeEncode(w: nat, n: nat)
    requires w < Pow256(n)
    ensures Decode(Encode(w, n)) == w
  {
    if n > 0 {
      DecodeEncode(w / 256, n - 1);
      assert Encode(w, n)[1..] == Encode(w / 256, n - 1);
    }
  }

  lemma WordFits(w: nat)
    ensures w < WORD ==> w < Pow256(8)
    ensures w < 0x1_0000_0000 ==> w < Pow256(4)
  {
    assert Pow256(2) == 0x1_0000;
    assert Pow256(4) == 0x1_0000_0000;
    assert Pow256(6) == 0x1_0000_0000_0000;
    assert Pow256(8) == WORD;
  }

  // ----- bytes in memory -----

  ghost predicate At(m: seq<byte>, at: nat, bs: seq<byte>) {
    at + |bs| <= |m| && m[at..at + |bs|] == bs
  }

  // `m'` agrees with `m` from `lo` up to `hi`.
  ghost predicate Same(m: seq<byte>, m': seq<byte>, lo: int, hi: int) {
    |m'| == |m| && forall i :: 0 <= i < |m| && lo <= i < hi ==> m'[i] == m[i]
  }

  // `m'` agrees with `m` outside [lo, hi).
  ghost predicate SameOutside(m: seq<byte>, m': seq<byte>, lo: int, hi: int) {
    |m'| == |m| && forall i :: 0 <= i < |m| && !(lo <= i < hi) ==> m'[i] == m[i]
  }

  lemma AtStays(m: seq<byte>, m': seq<byte>, at: nat, bs: seq<byte>)
    requires At(m, at, bs) && Same(m, m', at, at + |bs|)
    ensures At(m', at, bs)
  {
    assert m'[at..at + |bs|] == m[at..at + |bs|];
  }

  lemma AtAppend(m: seq<byte>, at: nat, xs: seq<byte>, ys: seq<byte>)
    ensures At(m, at, xs + ys) <==> At(m, at, xs) && At(m, at + |xs|, ys)
  {
    if at + |xs| + |ys| <= |m| {
      assert m[at..at + |xs + ys|] == m[at..at + |xs|] + m[at + |xs|..at + |xs| + |ys|];
      if m[at..at + |xs + ys|] == xs + ys {
        assert (xs + ys)[..|xs|] == xs && (xs + ys)[|xs|..] == ys;
        assert m[at..at + |xs + ys|][..|xs|] == m[at..at + |xs|];
        assert m[at..at + |xs + ys|][|xs|..] == m[at + |xs|..at + |xs| + |ys|];
      }
    }
  }

  // A part of bytes that lie at an address lies where it belongs.
  lemma AtSlice(m: seq<byte>, at: nat, bs: seq<byte>, lo: nat, hi: nat)
    requires At(m, at, bs) && lo <= hi <= |bs|
    ensures m[at + lo..at + hi] == bs[lo..hi]
  {
    var x := m[at..at + |bs|];
    assert forall i :: lo <= i < hi ==> x[i] == m[at + i];
    assert x[lo..hi] == m[at + lo..at + hi];
  }

  lemma ByteAt(m: seq<byte>, at: nat, bs: seq<byte>, k: nat)
    requires At(m, at, bs) && k < |bs|
    ensures m[at + k] == bs[k]
  {
    assert m[at..at + |bs|][k] == m[at + k];
  }

  // ----- reading and writing -----

  // memcpy
  method Put(mem: array<byte>, at: nat, bs: seq<byte>)
    requires at + |bs| <= mem.Length
    modifies mem
    ensures At(mem[..], at, bs)
    ensures SameOutside(old(mem[..]), mem[..], at, at + |bs|)
  {
    var k := 0;
    while k < |bs|
      invariant k <= |bs|
      invariant forall i :: 0 <= i < k ==> mem[at + i] == bs[i]
      invariant forall i :: 0 <= i < mem.Length && !(at <= i < at + k) ==> mem[i] == old(mem[i])
    {
      mem[at + k] := bs[k];
      k := k + 1;
    }
    assert forall i :: 0 <= i < |bs| ==> mem[..][at + i] == bs[i];
  }

  method ReadWord(mem: array<byte>, at: nat, ghost w: nat) returns (r: nat)
    requires At(mem[..], at, Encode(w, 8)) && w < WORD
    ensures r == w
  {
    WordFits(w);
    DecodeEncode(w, 8);
    assert mem[..][at..at + 8] == mem[at..at + 8];
    r := Decode(mem[at..at + 8]);
  }
}
