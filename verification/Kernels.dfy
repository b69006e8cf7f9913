/**
 The ordered search kernels (include/aparajita/search.hpp): lower_bound over the
 sixteen lanes of a node whose lanes are in slot order. Vector registers are
 lane sequences and compare masks are bit sequences, lane 0 first.
 */
module Kernels {
  import opened OrderWord
  import opened Surrogate

  type Line = s: seq<uint32> | |s| == 16 witness seq(16, i => 0)

  /** The reference: how many live lanes, that is slots below `count`, hold less than `key`. */
  function LiveBelow(lanes: seq<uint32>, count: nat, key: uint32): (n: nat)
    requires count <= |lanes|
    ensures n <= count
  {
    if count == 0 then 0
    else LiveBelow(lanes, count - 1, key) + if lanes[count - 1] < key then 1 else 0
  }

  // ---- scalar: walks ranks through the order word --------------------------

  /** lower_bound_perm_scalar: the first rank whose lane is not below `key`. */
  method LowerBoundPermScalar(n: Line, key: uint32, order: Word, ghost p: seq<nat>) returns (rank: nat)
    requires Decodes(order, p)
    ensures rank <= |p|
    ensures forall r :: 0 <= r < rank ==> n[p[r]] < key
    ensures rank < |p| ==> n[p[rank]] >= key
  {
    hide OrderSlot, OrderCount;
    CountOfDecoded(order, p);
    var count := OrderCount(order);
    rank := 0;
    while rank < count && n[OrderSlot(order, rank)] < key
      invariant 0 <= rank <= count
      invariant forall r :: 0 <= r < rank ==> n[p[r]] < key
    {
      rank := rank + 1;
    }
  }

  // ---- AVX-512: one masked load, one unsigned compare ----------------------

  function PopCount(mask: seq<bool>): nat
  {
    if mask == [] then 0 else (if mask[|mask| - 1] then 1 else 0) + PopCount(mask[..|mask| - 1])
  }

  /** (1u << count) - 1 as sixteen mask bits. */
  function LowMask(count: nat): (m: seq<bool>)
    ensures |m| == 16
  {
    seq(16, i => i < count)
  }

  /** Lanes outside the mask come from `pad` and are never read. */
  function MaskLoad512(pad: uint32, live: seq<bool>, base: Line): Line
    requires |live| == 16
  {
    seq(16, i requires 0 <= i < 16 => if live[i] then base[i] else pad)
  }

  function CmpLtUnsigned(a: Line, b: uint32): (m: seq<bool>)
    ensures |m| == 16
  {
    seq(16, i requires 0 <= i < 16 => a[i] < b)
  }

  function LowerBoundPermAvx512(n: Line, key: uint32, order: Word): nat
  {
    PopCount(CmpLtUnsigned(MaskLoad512(EMPTY_KEY, LowMask(OrderCount(order)), n), key))
  }

  // ---- AVX2: two halves, signed compare ------------------------------------

  type int32 = x: int | -0x8000_0000 <= x < 0x8000_0000

  function Signed(x: uint32): int32
  {
    if x < 0x8000_0000 then x else x - 0x1_0000_0000
  }

  /** Exclusive-or with 0x80000000 flips the top bit. */
  function FlipTop(x: uint32): uint32
  {
    if x < 0x8000_0000 then x + 0x8000_0000 else x - 0x8000_0000
  }

  /** Signed `a > b`, lane by lane: the only compare the instruction set has. */
  function CmpGtSigned(a: seq<int32>, b: seq<int32>): (m: seq<bool>)
    requires |a| == |b| == 8
    ensures |m| == 8
  {
    seq(8, i requires 0 <= i < 8 => a[i] > b[i])
  }

  /** maskload leaves zero, not the pad, in a lane outside the mask. */
  function MaskLoad256(live: seq<bool>, base: Line, off: nat): (v: seq<uint32>)
    requires |live| == 8 && off <= 8
    ensures |v| == 8
  {
    seq(8, i requires 0 <= i < 8 => if live[i] then base[off + i] else 0)
  }

  function Blend(a: uint32, b: seq<uint32>, pick: seq<bool>): (v: seq<uint32>)
    requires |b| == |pick| == 8
    ensures |v| == 8
  {
    seq(8, i requires 0 <= i < 8 => if pick[i] then b[i] else a)
  }

  function HalfMask(n: Line, key: uint32, count: nat, off: nat): (m: seq<bool>)
    requires off <= 8 && count <= 16
    ensures |m| == 8
  {
    var live := CmpGtSigned(seq(8, i => count), seq(8, i requires 0 <= i < 8 => off + i));
    var src := Blend(EMPTY_KEY, MaskLoad256(live, n, off), live);
    CmpGtSigned(seq(8, i => Signed(FlipTop(key))),
                seq(8, i requires 0 <= i < 8 => Signed(FlipTop(src[i]))))
  }

  function LowerBoundPermAvx2(n: Line, key: uint32, order: Word): nat
  {
    PopCount(HalfMask(n, key, OrderCount(order), 0) + HalfMask(n, key, OrderCount(order), 8))
  }

  // ---- the fast forms refine the reference ---------------------------------

  /** The bias maps the unsigned order onto the signed one. */
  lemma BiasedCompare(a: uint32, b: uint32)
    ensures Signed(FlipTop(a)) > Signed(FlipTop(b)) <==> a > b
  {
  }

  lemma {:induction false} PopCountIs(mask: seq<bool>, lanes: Line, count: nat, key: uint32)
    requires count <= 16 && |mask| <= 16
    requires forall i :: 0 <= i < |mask| ==> (mask[i] <==> i < count && lanes[i] < key)
    ensures PopCount(mask) == LiveBelow(lanes, if |mask| < count then |mask| else count, key)
    decreases |mask|
  {
    if mask != [] {
      PopCountIs(mask[..|mask| - 1], lanes, count, key);
    }
  }

  lemma Avx512Counts(n: Line, key: uint32, order: Word, p: seq<nat>)
    requires Decodes(order, p)
    ensures LowerBoundPermAvx512(n, key, order) == LiveBelow(n, |p|, key)
  {
    hide OrderCount, OrderSlot;
    CountOfDecoded(order, p);
    PopCountIs(CmpLtUnsigned(MaskLoad512(EMPTY_KEY, LowMask(|p|), n), key), n, |p|, key);
  }

  lemma Avx2Counts(n: Line, key: uint32, order: Word, p: seq<nat>)
    requires Decodes(order, p)
    ensures LowerBoundPermAvx2(n, key, order) == LiveBelow(n, |p|, key)
  {
    hide OrderCount, OrderSlot;
    CountOfDecoded(order, p);
    var mask := HalfMask(n, key, |p|, 0) + HalfMask(n, key, |p|, 8);
    forall i | 0 <= i < 16
      ensures mask[i] <==> i < |p| && n[i] < key
    {
      if i < 8 { HalfMaskLane(n, key, |p|, 0, i); } else { HalfMaskLane(n, key, |p|, 8, i - 8); }
    }
    PopCountIs(mask, n, |p|, key);
  }

  lemma HalfMaskLane(n: Line, key: uint32, count: nat, off: nat, i: nat)
    requires off <= 8 && count <= 15 && i < 8
    ensures HalfMask(n, key, count, off)[i] <==> off + i < count && n[off + i] < key
  {
    BiasedCompare(key, if off + i < count then n[off + i] else EMPTY_KEY);
  }

  /** What a concurrent writer stores into slot `count` or above never changes an answer. */
  lemma {:induction false} LiveBelowFrame(a: seq<uint32>, b: seq<uint32>, count: nat, key: uint32)
    requires count <= |a| && count <= |b|
    requires forall i :: 0 <= i < count ==> a[i] == b[i]
    ensures LiveBelow(a, count, key) == LiveBelow(b, count, key)
    decreases count
  {
    if count > 0 {
      LiveBelowFrame(a, b, count - 1, key);
    }
  }

  lemma KernelsIgnoreUnpublishedLanes(a: Line, b: Line, key: uint32, order: Word, p: seq<nat>)
    requires Decodes(order, p)
    requires forall i :: 0 <= i < |p| ==> a[i] == b[i]
    ensures LowerBoundPermAvx512(a, key, order) == LowerBoundPermAvx512(b, key, order)
    ensures LowerBoundPermAvx2(a, key, order) == LowerBoundPermAvx2(b, key, order)
  {
    hide OrderCount, OrderSlot, LowerBoundPermAvx2, LowerBoundPermAvx512;
    Avx2Counts(a, key, order, p);
    Avx2Counts(b, key, order, p);
    Avx512Counts(a, key, order, p);
    Avx512Counts(b, key, order, p);
    LiveBelowFrame(a, b, |p|, key);
  }

  // ---- counting is blind to the permutation --------------------------------

  /** Lanes below `key` among the slots a list of ranks names. */
  function RanksBelow(lanes: seq<uint32>, p: seq<nat>, key: uint32): nat
    requires forall i :: 0 <= i < |p| ==> p[i] < |lanes|
  {
    if p == [] then 0 else RanksBelow(lanes, p[..|p| - 1], key) + if lanes[p[|p| - 1]] < key then 1 else 0
  }

  function Without(p: seq<nat>, i: nat): (q: seq<nat>)
    requires i < |p|
    ensures |q| == |p| - 1
  {
    p[..i] + p[i + 1..]
  }

  lemma {:induction false} RanksBelowDrop(lanes: seq<uint32>, p: seq<nat>, i: nat, key: uint32)
    requires i < |p| && forall j :: 0 <= j < |p| ==> p[j] < |lanes|
    ensures forall j :: 0 <= j < |p| - 1 ==> Without(p, i)[j] < |lanes|
    ensures RanksBelow(lanes, p, key) == RanksBelow(lanes, Without(p, i), key) + if lanes[p[i]] < key then 1 else 0
    decreases |p|
  {
    var q := Without(p, i);
    if i == |p| - 1 {
      assert q == p[..|p| - 1];
    } else {
      var init := p[..|p| - 1];
      RanksBelowDrop(lanes, init, i, key);
      assert q[..|q| - 1] == Without(init, i);
    }
  }

  /** A permutation's ranks and its slots hold the same number of lanes below `key`. */
  lemma {:induction false} RanksBelowIsLiveBelow(lanes: seq<uint32>, p: seq<nat>, key: uint32)
    requires Permutation(p) && |p| <= |lanes|
    ensures RanksBelow(lanes, p, key) == LiveBelow(lanes, |p|, key)
    decreases |p|
  {
    if |p| > 0 {
      PermutationCovers(p, |p| - 1);
      var i :| 0 <= i < |p| && p[i] == |p| - 1;
      DropLargest(p, i);
      RanksBelowDrop(lanes, p, i, key);
      RanksBelowIsLiveBelow(lanes, Without(p, i), key);
    }
  }

  lemma DropLargest(p: seq<nat>, i: nat)
    requires Permutation(p) && i < |p| && p[i] == |p| - 1
    ensures Permutation(Without(p, i))
  {
    var q := Without(p, i);
    forall j | 0 <= j < |q|
      ensures q[j] < |q|
    {
      var k := if j < i then j else j + 1;
      assert q[j] == p[k] && p[k] != p[i];
    }
  }

  lemma {:induction false} PrefixRanksBelow(lanes: seq<uint32>, p: seq<nat>, r: nat, key: uint32)
    requires forall i :: 0 <= i < |p| ==> p[i] < |lanes|
    requires r <= |p|
    requires forall i :: 0 <= i < r ==> lanes[p[i]] < key
    requires forall i :: r <= i < |p| ==> lanes[p[i]] >= key
    ensures RanksBelow(lanes, p, key) == r
    decreases |p|
  {
    if p != [] {
      PrefixRanksBelow(lanes, p[..|p| - 1], if r == |p| then r - 1 else r, key);
    }
  }

  /** Lanes sorted when read in rank order. */
  ghost predicate RankSorted(lanes: seq<uint32>, p: seq<nat>)
  {
    && (forall i :: 0 <= i < |p| ==> p[i] < |lanes|)
    && (forall i, j :: 0 <= i < j < |p| ==> lanes[p[i]] <= lanes[p[j]])
  }

  /** On lanes sorted in rank order the counting kernels and the rank walk give the same answer. */
  lemma KernelsAgree(n: Line, key: uint32, order: Word, p: seq<nat>, rank: nat)
    requires Decodes(order, p) && Permutation(p) && RankSorted(n, p)
    requires rank <= |p| && (forall r :: 0 <= r < rank ==> n[p[r]] < key) && (rank < |p| ==> n[p[rank]] >= key)
    ensures LowerBoundPermAvx512(n, key, order) == LowerBoundPermAvx2(n, key, order) == rank
  {
    hide OrderCount, OrderSlot, LowerBoundPermAvx2, LowerBoundPermAvx512;
    Avx2Counts(n, key, order, p);
    Avx512Counts(n, key, order, p);
    PrefixRanksBelow(n, p, rank, key);
    RanksBelowIsLiveBelow(n, p, key);
  }

  // ---- dispatch ------------------------------------------------------------

  datatype Isa = Scalar | Avx2 | Avx512

  ghost function FirstNotBelow(lanes: seq<uint32>, p: seq<nat>, key: uint32): (rank: nat)
    requires forall i :: 0 <= i < |p| ==> p[i] < |lanes|
    ensures rank <= |p|
    ensures forall r :: 0 <= r < rank ==> lanes[p[r]] < key
    ensures rank < |p| ==> lanes[p[rank]] >= key
  {
    if p == [] || lanes[p[0]] >= key then 0
    else
      var rest := FirstNotBelow(lanes, p[1..], key);
      assert forall r :: 1 <= r < rest + 1 ==> p[r] == p[1..][r - 1];
      1 + rest
  }

  /** lower_bound_perm_dispatch: the same question on whichever unit the machine has. */
  method LowerBoundPerm(isa: Isa, n: Line, key: uint32, order: Word, ghost p: seq<nat>) returns (rank: nat)
    requires Decodes(order, p) && Permutation(p)
    ensures rank <= |p|
    ensures RankSorted(n, p) ==> rank == LiveBelow(n, |p|, key)
    ensures RankSorted(n, p) ==> (forall r :: 0 <= r < rank ==> n[p[r]] < key) && (rank < |p| ==> n[p[rank]] >= key)
  {
    hide OrderCount, OrderSlot, LowerBoundPermAvx2, LowerBoundPermAvx512;
    Avx2Counts(n, key, order, p);
    Avx512Counts(n, key, order, p);
    if RankSorted(n, p) {
      KernelsAgree(n, key, order, p, FirstNotBelow(n, p, key));
    }
    match isa
    case Scalar => rank := LowerBoundPermScalar(n, key, order, p);
    case Avx2 => rank := LowerBoundPermAvx2(n, key, order);
    case Avx512 => rank := LowerBoundPermAvx512(n, key, order);
  }
}
