/**
 Key bytes, their 32-bit node-local surrogates and 64-bit descent hints
 (include/aparajita/surrogate.hpp). A big-endian load is the number its bytes
 spell; padding on the right with 0x00 is a multiplication by a power of 256.
 */
module Surrogate {

  type byte = x: int | 0 <= x < 256
  type Bytes = seq<byte>
  type uint32 = x: int | 0 <= x < 0x1_0000_0000
  type uint64 = x: int | 0 <= x < 0x1_0000_0000_0000_0000

  const EMPTY_KEY: uint32 := 0xFFFF_FFFF

  /** 256 to the power `n`: a shift by n bytes. */
  function Shift(n: nat): (p: nat)
    ensures p > 0
  {
    if n == 0 then 1 else 256 * Shift(n - 1)
  }

  /** Byte `i` of a key read through its zero padding. */
  function At(s: Bytes, i: nat): byte
  {
    if i < |s| then s[i] else 0
  }

  /** The number spelled by the first `w` bytes of the zero-padded key. */
  function Spelled(s: Bytes, w: nat): (n: nat)
    ensures n < Shift(w)
  {
    if w == 0 then 0 else Spelled(s, w - 1) * 256 + At(s, w - 1)
  }

  lemma Widths()
    ensures Shift(4) == 0x1_0000_0000 && Shift(8) == 0x1_0000_0000_0000_0000
  {
    assert Shift(2) == 65536;
    assert Shift(4) == 256 * (256 * Shift(2));
    assert Shift(6) == 256 * (256 * Shift(4));
    assert Shift(8) == 256 * (256 * Shift(6));
  }

  lemma {:induction false} SpelledPadding(s: Bytes, n: nat, w: nat)
    requires |s| <= n <= w
    ensures Spelled(s, w) == Spelled(s, n) * Shift(w - n)
    decreases w
  {
    if n < w {
      SpelledPadding(s, n, w - 1);
      assert Shift(w - n) == 256 * Shift(w - 1 - n);
      MulShift(Spelled(s, n), Shift(w - 1 - n));
    } else {
      assert Shift(0) == 1;
    }
  }

  /** Byte `i` from the top of a word `w` bytes wide. */
  function ByteOf(n: nat, w: nat, i: nat): nat
    requires i < w
  {
    n / Shift(w - 1 - i) % 256
  }

  /** Every byte of the word is there: none is dropped, moved or invented. */
  lemma {:induction false} SpelledByte(s: Bytes, w: nat, i: nat)
    requires i < w
    ensures ByteOf(Spelled(s, w), w, i) == At(s, i)
    decreases w
  {
    assert Shift(0) == 1;
    if i + 1 < w {
      SpelledByte(s, w - 1, i);
      assert Shift(w - 1 - i) == 256 * Shift(w - 2 - i);
      DropByte(Spelled(s, w - 1), At(s, w - 1), Shift(w - 2 - i));
    }
  }

  lemma DropByte(x: nat, b: byte, y: nat)
    requires y > 0
    ensures (x * 256 + b) / (256 * y) == x / y
  {
    var q, r := x / y, x % y;
    assert x == y * q + r;
    assert x * 256 + b == 256 * y * q + (r * 256 + b);
    assert r * 256 + b < 256 * y;
    QuotientIs(x * 256 + b, 256 * y, q, r * 256 + b);
  }

  lemma QuotientIs(x: nat, a: nat, q: nat, r: nat)
    requires a > 0 && x == a * q + r && r < a
    ensures x / a == q
  {
    var d := q - x / a;
    assert x == a * (x / a) + x % a;
    assert a * d == a * q - a * (x / a);
    AtLeastOne(a, d);
  }

  lemma AtLeastOne(a: int, d: int)
    requires a > 0
    ensures d >= 1 ==> a * d >= a
    ensures d <= -1 ==> a * d <= -a
  {
    if d >= 1 { assert a * d == a * (d - 1) + a; }
    if d <= -1 { assert a * d == a * (d + 1) - a; }
  }

  /** Two spellings are one exactly when the padded bytes are. */
  lemma {:induction false} SpelledAgrees(a: Bytes, b: Bytes, w: nat)
    ensures Spelled(a, w) == Spelled(b, w) <==> forall i :: 0 <= i < w ==> At(a, i) == At(b, i)
    decreases w
  {
    if w > 0 { SpelledAgrees(a, b, w - 1); }
  }

  lemma MulShift(a: nat, b: nat)
    ensures a * b * 256 == a * (256 * b)
  {
  }

  /** surrogate and descent_hint share this loop: shift the bytes in, then pad to `w` bytes. */
  method LoadBigEndian(key: Bytes, w: nat) returns (s: nat)
    ensures s == Spelled(key, w)
  {
    var n := if |key| < w then |key| else w;
    s := 0;
    var i := 0;
    while i < n
      invariant 0 <= i <= n
      invariant s == Spelled(key, i)
    {
      s := s * 256 + key[i];
      i := i + 1;
    }
    if n < w {
      SpelledPadding(key, n, w);
    } else {
      assert Shift(0) == 1;
    }
    s := s * Shift(w - n);
  }

  /** The four-byte surrogate of a key. */
  function Surrogate(key: Bytes): uint32
  {
    Widths();
    Spelled(key, 4)
  }

  /** The four bytes of the word are the first four of the zero-padded key. */
  lemma SurrogateBytes(key: Bytes, i: nat)
    requires i < 4
    ensures ByteOf(Surrogate(key), 4, i) == At(key, i)
  {
    SpelledByte(key, 4, i);
  }

  method ComputeSurrogate(key: Bytes) returns (s: uint32)
    ensures s == Surrogate(key)
    ensures forall i :: 0 <= i < 4 ==> ByteOf(s, 4, i) == At(key, i)
  {
    Widths();
    s := LoadBigEndian(key, 4);
    forall i | 0 <= i < 4
      ensures ByteOf(s, 4, i) == At(key, i)
    {
      SurrogateBytes(key, i);
    }
  }

  /** The same four bytes taken from `offset`. */
  function SurrogateAt(key: Bytes, offset: nat): uint32
  {
    if offset >= |key| then 0 else Surrogate(key[offset..])
  }

  lemma SurrogateAtBytes(key: Bytes, offset: nat, i: nat)
    requires i < 4
    ensures ByteOf(SurrogateAt(key, offset), 4, i) == At(key, i + offset)
  {
    if offset < |key| {
      SurrogateBytes(key[offset..], i);
      assert At(key[offset..], i) == At(key, i + offset);
    }
  }

  /** Past an offset two keys have one surrogate exactly when the four padded bytes there agree. */
  lemma SameSurrogateIff(a: Bytes, b: Bytes, offset: nat)
    ensures SurrogateAt(a, offset) == SurrogateAt(b, offset)
            <==> forall j :: offset <= j < offset + 4 ==> At(a, j) == At(b, j)
  {
    var x := TailOf(a, offset);
    var y := TailOf(b, offset);
    SpelledAgrees(x, y, 4);
    if forall i :: 0 <= i < 4 ==> At(x, i) == At(y, i) {
      forall j | offset <= j < offset + 4
        ensures At(a, j) == At(b, j)
      {
        assert At(x, j - offset) == At(y, j - offset);
      }
    }
    if forall j :: offset <= j < offset + 4 ==> At(a, j) == At(b, j) {
      forall i | 0 <= i < 4
        ensures At(x, i) == At(y, i)
      {
        assert At(a, i + offset) == At(b, i + offset);
      }
    }
  }

  lemma TailOf(key: Bytes, offset: nat) returns (s: Bytes)
    ensures SurrogateAt(key, offset) == Spelled(s, 4)
    ensures forall i :: 0 <= i < 4 ==> At(s, i) == At(key, i + offset)
  {
    s := if offset < |key| then key[offset..] else [];
    SpelledPadding([], 0, 4);
  }

  method ComputeSurrogateAt(key: Bytes, offset: nat) returns (s: uint32)
    ensures s == SurrogateAt(key, offset)
    ensures forall i :: 0 <= i < 4 ==> ByteOf(s, 4, i) == At(key, i + offset)
  {
    if offset >= |key| { s := 0; } else { s := ComputeSurrogate(key[offset..]); }
    forall i | 0 <= i < 4
      ensures ByteOf(s, 4, i) == At(key, i + offset)
    {
      SurrogateAtBytes(key, offset, i);
    }
  }

  /** The eight-byte hint a tower hop compares. */
  function DescentHint(key: Bytes): uint64
  {
    Widths();
    Spelled(key, 8)
  }

  /** The eight bytes of the hint are the first eight of the zero-padded key. */
  lemma HintBytes(key: Bytes, i: nat)
    requires i < 8
    ensures ByteOf(DescentHint(key), 8, i) == At(key, i)
  {
    SpelledByte(key, 8, i);
  }

  /** Two keys have one hint exactly when their first eight padded bytes agree. */
  lemma SameHintIff(a: Bytes, b: Bytes)
    ensures DescentHint(a) == DescentHint(b) <==> forall i :: 0 <= i < 8 ==> At(a, i) == At(b, i)
  {
    SpelledAgrees(a, b, 8);
  }

  method ComputeDescentHint(key: Bytes) returns (h: uint64)
    ensures h == DescentHint(key)
    ensures forall i :: 0 <= i < 8 ==> ByteOf(h, 8, i) == At(key, i)
  {
    Widths();
    h := LoadBigEndian(key, 8);
    forall i | 0 <= i < 8
      ensures ByteOf(h, 8, i) == At(key, i)
    {
      HintBytes(key, i);
    }
  }

  // ---- the byte order -----------------------------------------------------

  /** memcmp over the first `n` bytes of both: the sign of the first difference. */
  function MemCmp(a: Bytes, b: Bytes, n: nat): (c: int)
    requires n <= |a| && n <= |b|
    decreases n
  {
    if n == 0 then 0
    else if a[0] != b[0] then a[0] - b[0]
    else MemCmp(a[1..], b[1..], n - 1)
  }

  /** Bytewise order with a length tiebreak. */
  function CompareKeys(a: Bytes, b: Bytes): (c: int)
  {
    var n := if |a| < |b| then |a| else |b|;
    var c := MemCmp(a, b, n);
    if n != 0 && c != 0 then c
    else if |a| == |b| then 0
    else if |a| < |b| then -1 else 1
  }

  /** a and b agree below `j`, and there a's byte is the smaller one (or a has ended). */
  ghost predicate SplitAt(a: Bytes, b: Bytes, j: int)
  {
    && 0 <= j <= |a| && j < |b|
    && (forall i :: 0 <= i < j ==> a[i] == b[i])
    && (j == |a| || a[j] < b[j])
  }

  lemma {:induction false} MemCmpFirst(a: Bytes, b: Bytes, n: nat)
    requires n <= |a| && n <= |b|
    ensures MemCmp(a, b, n) == 0 <==> a[..n] == b[..n]
    ensures MemCmp(a, b, n) < 0 ==> exists j :: 0 <= j < n && SplitAt(a, b, j)
    ensures MemCmp(a, b, n) > 0 ==> exists j :: 0 <= j < n && SplitAt(b, a, j)
    decreases n
  {
    if n > 0 {
      if a[0] != b[0] {
        assert a[0] < b[0] ==> SplitAt(a, b, 0);
        assert b[0] < a[0] ==> SplitAt(b, a, 0);
        assert a[..n][0] != b[..n][0];
      } else {
        MemCmpFirst(a[1..], b[1..], n - 1);
        assert a[..n] == [a[0]] + a[1..][..n - 1] && b[..n] == [b[0]] + b[1..][..n - 1];
        assert forall j :: SplitAt(a[1..], b[1..], j) ==> SplitAt(a, b, j + 1) by {
          forall j | SplitAt(a[1..], b[1..], j) ensures SplitAt(a, b, j + 1) { SplitTail(a, b, j); }
        }
        assert forall j :: SplitAt(b[1..], a[1..], j) ==> SplitAt(b, a, j + 1) by {
          forall j | SplitAt(b[1..], a[1..], j) ensures SplitAt(b, a, j + 1) { SplitTail(b, a, j); }
        }
      }
    }
  }

  lemma SplitTail(a: Bytes, b: Bytes, j: int)
    requires |a| > 0 && |b| > 0 && a[0] == b[0] && SplitAt(a[1..], b[1..], j)
    ensures SplitAt(a, b, j + 1)
  {
    forall i | 0 <= i < j + 1
      ensures a[i] == b[i]
    {
      if i > 0 {
        assert a[1..][i - 1] == b[1..][i - 1];
      }
    }
  }

  /** compare_keys is lexicographic: it is decided at one place, the first difference or the shorter end. */
  lemma CompareKeysMeaning(a: Bytes, b: Bytes)
    ensures CompareKeys(a, b) == 0 <==> a == b
    ensures CompareKeys(a, b) < 0 <==> exists j :: SplitAt(a, b, j)
    ensures CompareKeys(a, b) > 0 <==> exists j :: SplitAt(b, a, j)
  {
    var n := if |a| < |b| then |a| else |b|;
    MemCmpFirst(a, b, n);
    if MemCmp(a, b, n) == 0 {
      assert forall i :: 0 <= i < n ==> a[..n][i] == a[i] && b[..n][i] == b[i];
      if |a| < |b| { assert SplitAt(a, b, n); }
      if |b| < |a| { assert SplitAt(b, a, n); }
      if |a| == |b| { assert a[..n] == a && b[..n] == b; }
    }
    forall i, j
      ensures !(SplitAt(a, b, i) && SplitAt(b, a, j))
    {
    }
    assert !exists j :: SplitAt(a, a, j);
  }

  /** compare_keys is a total order on byte strings. */
  lemma CompareKeysTotal(a: Bytes, b: Bytes, c: Bytes)
    ensures CompareKeys(a, b) < 0 <==> CompareKeys(b, a) > 0
    ensures CompareKeys(a, b) == 0 <==> a == b
    ensures CompareKeys(a, b) < 0 && CompareKeys(b, c) < 0 ==> CompareKeys(a, c) < 0
  {
    CompareKeysMeaning(a, b);
    CompareKeysMeaning(b, a);
    CompareKeysMeaning(b, c);
    CompareKeysMeaning(a, c);
    if CompareKeys(a, b) < 0 && CompareKeys(b, c) < 0 {
      var i :| SplitAt(a, b, i);
      var j :| SplitAt(b, c, j);
      assert SplitAt(a, c, if i < j then i else j);
    }
  }

  lemma CompareKeysWeak(a: Bytes, b: Bytes, c: Bytes)
    requires CompareKeys(a, b) <= 0 && CompareKeys(b, c) <= 0
    ensures CompareKeys(a, c) <= 0
  {
    CompareKeysTotal(a, b, c);
    CompareKeysTotal(b, c, c);
  }

  // ---- the fast forms agree with it ---------------------------------------

  lemma {:induction false} SpelledDiffers(a: Bytes, b: Bytes, w: nat)
    requires Spelled(a, w) < Spelled(b, w)
    ensures exists j :: 0 <= j < w && At(a, j) < At(b, j) && forall i :: 0 <= i < j ==> At(a, i) == At(b, i)
    decreases w
  {
    if Spelled(a, w - 1) < Spelled(b, w - 1) {
      SpelledDiffers(a, b, w - 1);
      var j :| 0 <= j < w - 1 && At(a, j) < At(b, j) && forall i :: 0 <= i < j ==> At(a, i) == At(b, i);
      assert 0 <= j < w && At(a, j) < At(b, j);
    } else {
      assert Spelled(a, w - 1) == Spelled(b, w - 1);
      SpelledAgrees(a, b, w - 1);
      assert 0 <= w - 1 < w && At(a, w - 1) < At(b, w - 1);
    }
  }

  /** Zero padding can only create ties: a smaller padded load means a smaller key. */
  lemma SpelledOrder(a: Bytes, b: Bytes, w: nat)
    requires Spelled(a, w) < Spelled(b, w)
    ensures CompareKeys(a, b) < 0
  {
    SpelledDiffers(a, b, w);
    var j :| 0 <= j < w && At(a, j) < At(b, j) && forall i :: 0 <= i < j ==> At(a, i) == At(b, i);
    var k := if j < |a| then j else |a|;
    forall i | 0 <= i < k
      ensures a[i] == b[i]
    {
      assert At(a, i) == At(b, i);
    }
    assert SplitAt(a, b, k);
    CompareKeysMeaning(a, b);
  }

  /** For any two keys, differing descent hints order as compare_keys does. */
  lemma HintOrder(a: Bytes, b: Bytes)
    ensures DescentHint(a) < DescentHint(b) ==> CompareKeys(a, b) < 0
    ensures CompareKeys(a, b) <= 0 ==> DescentHint(a) <= DescentHint(b)
  {
    Widths();
    if DescentHint(a) < DescentHint(b) { SpelledOrder(a, b, 8); }
    if DescentHint(b) < DescentHint(a) {
      SpelledOrder(b, a, 8);
      CompareKeysTotal(b, a, a);
    }
  }

  /** a carries the first `n` bytes of b. */
  predicate SharesPrefix(a: Bytes, b: Bytes, n: nat)
  {
    n <= |a| && n <= |b| && a[..n] == b[..n]
  }

  lemma DropPrefix(a: Bytes, b: Bytes, off: nat)
    requires SharesPrefix(a, b, off) && CompareKeys(a[off..], b[off..]) < 0
    ensures CompareKeys(a, b) < 0
  {
    CompareKeysMeaning(a[off..], b[off..]);
    var j :| SplitAt(a[off..], b[off..], j);
    forall i | 0 <= i < off + j
      ensures a[i] == b[i]
    {
      if i < off { assert a[..off][i] == b[..off][i]; } else { assert a[off..][i - off] == b[off..][i - off]; }
    }
    assert SplitAt(a, b, off + j);
    CompareKeysMeaning(a, b);
  }

  /** Keys agreeing on their first `off` bytes: differing surrogates at `off` order as compare_keys does. */
  lemma SurrogateOrder(a: Bytes, b: Bytes, off: nat)
    requires SharesPrefix(a, b, off)
    ensures SurrogateAt(a, off) < SurrogateAt(b, off) ==> CompareKeys(a, b) < 0
    ensures CompareKeys(a, b) <= 0 ==> SurrogateAt(a, off) <= SurrogateAt(b, off)
  {
    if SurrogateAt(a, off) < SurrogateAt(b, off) { SurrogateBelow(a, b, off); }
    if SurrogateAt(b, off) < SurrogateAt(a, off) { SurrogateBelow(b, a, off); }
    CompareKeysTotal(b, a, b);
  }

  lemma SurrogateBelow(a: Bytes, b: Bytes, off: nat)
    requires SharesPrefix(a, b, off) && SurrogateAt(a, off) < SurrogateAt(b, off)
    ensures CompareKeys(a, b) < 0
  {
    Widths();
    EmptySpells(4);
    assert SurrogateAt(a, off) == Spelled(a[off..], 4) && SurrogateAt(b, off) == Spelled(b[off..], 4);
    SpelledOrder(a[off..], b[off..], 4);
    DropPrefix(a, b, off);
  }

  lemma {:induction false} EmptySpells(w: nat)
    ensures Spelled([], w) == 0
  {
    if w > 0 { EmptySpells(w - 1); }
  }

  // ---- the common prefix --------------------------------------------------

  /** Length of the longest common prefix. */
  method CommonPrefixLen(a: Bytes, b: Bytes) returns (i: nat)
    ensures i == CommonPrefix(a, b)
  {
    var n := if |a| < |b| then |a| else |b|;
    i := 0;
    while i < n && a[i] == b[i]
      invariant 0 <= i <= n
      invariant a[..i] == b[..i]
    {
      i := i + 1;
    }
    CommonPrefixIs(a, b, i);
  }

  function CommonPrefix(a: Bytes, b: Bytes): (n: nat)
    ensures SharesPrefix(a, b, n)
    ensures n < |a| && n < |b| ==> a[n] != b[n]
  {
    if a == [] || b == [] || a[0] != b[0] then 0
    else
      var n := CommonPrefix(a[1..], b[1..]);
      assert a[..n + 1] == [a[0]] + a[1..][..n] && b[..n + 1] == [b[0]] + b[1..][..n];
      n + 1
  }

  /** The longest shared prefix is the one that stops at a difference or an end. */
  lemma CommonPrefixIs(a: Bytes, b: Bytes, n: nat)
    requires SharesPrefix(a, b, n) && (n < |a| && n < |b| ==> a[n] != b[n])
    ensures n == CommonPrefix(a, b)
  {
    var m := CommonPrefix(a, b);
    assert forall k :: 0 <= k < n ==> a[..n][k] == a[k] && b[..n][k] == b[k];
    assert forall k :: 0 <= k < m ==> a[..m][k] == a[k] && b[..m][k] == b[k];
  }

  /** Everything between two keys carries the prefix those two share. */
  lemma BetweenSharesPrefix(lo: Bytes, mid: Bytes, hi: Bytes, n: nat)
    requires SharesPrefix(lo, hi, n)
    requires CompareKeys(lo, mid) <= 0 && CompareKeys(mid, hi) <= 0
    ensures SharesPrefix(mid, lo, n)
  {
    CompareKeysMeaning(lo, mid);
    CompareKeysMeaning(mid, hi);
    if lo != mid && mid != hi {
      var i :| SplitAt(lo, mid, i);
      var j :| SplitAt(mid, hi, j);
      assert forall k :: 0 <= k < n ==> lo[..n][k] == lo[k] && hi[..n][k] == hi[k];
      assert mid[..n] == lo[..n] by {
        forall k | 0 <= k < n
          ensures mid[k] == lo[k]
        {
        }
      }
    }
  }

  /**
   A key outside the prefix lies outside the whole block of keys carrying it: if it
   is above one of them it is above all of them.
   */
  lemma OutsideIsAbove(first: Bytes, out: Bytes, in_: Bytes, n: nat)
    requires n <= |first| && SharesPrefix(in_, first, n) && !SharesPrefix(out, first, n)
    requires CompareKeys(first, out) < 0
    ensures CompareKeys(in_, out) < 0
  {
    CompareKeysMeaning(first, out);
    var j :| SplitAt(first, out, j);
    assert n <= |out| && (forall i :: 0 <= i < n ==> out[i] == first[i]) ==> out[..n] == first[..n];
    assert forall i :: 0 <= i < n ==> in_[i] == first[i] by {
      forall i | 0 <= i < n ensures in_[i] == first[i] { assert in_[..n][i] == first[..n][i]; }
    }
    assert SplitAt(in_, out, j);
    CompareKeysMeaning(in_, out);
  }
}
