/**
 BasicNodeData and the node-local operations of BasicMemTable
 (include/aparajita/memtable.hpp): shares_prefix, sorted_position, fill, merge and
 append, on arrays in slot order behind a packed order word.
 */
module NodeDatas {
  import opened OrderWord
  import opened Surrogate
  import opened Ordering
  import opened Kernels
  import opened Payloads

  class NodeData<E(!new)> {
    const surrogates: array<uint32>
    const keys: array<E>
    var order: Word
    var prefixLen: nat
    var next: Option<NodeId>
    ghost var perm: seq<nat>  // the permutation `order` decodes to

    /** The arrays are there; the order word may be anything. */
    predicate Sized()
      reads this
    {
      surrogates.Length == NODE_KEYS && keys.Length == NODE_KEYS
    }

    ghost predicate Valid()
      reads this, surrogates, keys
    {
      Sized() && surrogates as object != keys as object && Decodes(order, perm) && Permutation(perm)
    }

    /** The payload as the order word names it, be it a permutation or not. */
    ghost function Raw(): Payload<E>
      reads this, surrogates, keys
      requires Sized()
    {
      Payload(keys[..], surrogates[..], SlotsOf(order), prefixLen, next)
    }

    ghost function Value(): (p: Payload<E>)
      reads this, surrogates, keys
      requires Valid()
      ensures p.Shaped()
    {
      Payload(keys[..], surrogates[..], perm, prefixLen, next)
    }

    /** The payload as a reader holding an earlier snapshot of the order word sees it. */
    ghost function Seen(p: seq<nat>): (q: Payload<E>)
      reads this, surrogates, keys
      requires Valid() && Permutation(p) && |p| <= NODE_CAPACITY
      ensures q.Shaped()
    {
      Value().(order := p)
    }

    /** fresh_data: every lane EMPTY_KEY, every slot null, no prefix, no successor. */
    constructor (t: Traits<E>)
      ensures Valid() && fresh(surrogates) && fresh(keys)
      ensures Value() == FreshPayload(t)
    {
      surrogates := new uint32[NODE_KEYS](i => EMPTY_KEY);
      keys := new E[NODE_KEYS](i => t.nullEntry);
      order, prefixLen, next, perm := 0, 0, None, [];
      new;
      EmptyDecodes();
      assert surrogates[..] == FreshPayload(t).lanes;
      assert keys[..] == FreshPayload(t).keys;
    }

    function KeyAt(order: Word, rank: nat): E
      reads this, surrogates, keys
      requires Sized() && rank < NODE_KEYS
    {
      keys[OrderSlot(order, rank)]
    }

    function SurrogateAtRank(order: Word, rank: nat): uint32
      reads this, surrogates, keys
      requires Sized() && rank < NODE_KEYS
    {
      surrogates[OrderSlot(order, rank)]
    }

    method SharesNodePrefix(t: Traits<E>, order: Word, bytes: Bytes, ghost p: seq<nat>) returns (b: bool)
      requires Sized()
      ensures Valid() && Decodes(order, p) && Permutation(p) ==> b == Shares(t, Seen(p), bytes)
      ensures order == this.order && Raw().Shaped() ==> b == Shares(t, Raw(), bytes)
    {
      hide OrderSlot, OrderCount;
      if Decodes(order, p) && Permutation(p) { CountOfDecoded(order, p); }
      if OrderCount(order) == 0 || prefixLen == 0 { return true; }
      if |bytes| < prefixLen { return false; }
      var first := t.orderBytes(KeyAt(order, 0));
      b := prefixLen <= |first| && bytes[..prefixLen] == first[..prefixLen];
    }

    /**
     The fast half of sorted_position: take any answer a kernel may have given, scan
     past equal surrogates, and confirm both neighbours against the comparator.
     A confirmed answer is the lower bound whatever the lanes and the kernel said; and
     when the lanes are exact and the kernel counted them, confirmation cannot fail.
     */
    method ConfirmCandidate(t: Traits<E>, order: Word, n: nat, key: E, s: uint32, candidate: nat, ghost p: seq<nat>)
      returns (ok: bool, pos: nat)
      requires Valid() && Decodes(order, p) && Permutation(p) && n == |p|
      requires t.TotalOrder() && InOrder(t, Seen(p).Run())
      ensures ok ==> pos == LowerBound(t, Seen(p).Run(), key)
      ensures CandidateIsGood(t, Seen(p), key, s) && candidate == LiveBelow(surrogates[..], n, s) ==> ok
    {
      hide OrderSlot, OrderCount, LowerBound, InOrder, Permutation, LiveBelow, CandidateIsGood, Sorted, LanesExact;
      ghost var run := Seen(p).Run();
      pos := if candidate > n then n else candidate;
      ghost var good := CandidateIsGood(t, Seen(p), key, s) && candidate == LiveBelow(surrogates[..], n, s);
      if good { CandidateStart(t, Seen(p), key, s, pos); }
      while pos < n && SurrogateAtRank(order, pos) == s && t.Lt(KeyAt(order, pos), key)
        invariant pos <= n
        invariant good ==> (pos == 0 || t.Lt(run[pos - 1], key))
        invariant good && pos < n ==> Seen(p).LaneAt(pos) >= s
        decreases n - pos
      {
        if good { GoodLanesSorted(t, Seen(p), key, s); }
        pos := pos + 1;
      }
      var leftOk := pos == 0 || t.Lt(KeyAt(order, pos - 1), key);
      var rightOk := pos >= n || !t.Lt(KeyAt(order, pos), key);
      ok := leftOk && rightOk;
      if ok { ConfirmedIsLowerBound(t, run, key, pos); }
      if good && pos < n && Seen(p).LaneAt(pos) > s { LaneAboveIsAbove(t, Seen(p), key, s, pos); }
    }

    /** The slow half of sorted_position: a binary search by the comparator alone. */
    method BinarySearch(t: Traits<E>, order: Word, n: nat, key: E, ghost p: seq<nat>) returns (lo: nat)
      requires Valid() && Decodes(order, p) && Permutation(p) && n == |p|
      requires t.TotalOrder() && InOrder(t, Seen(p).Run())
      ensures lo == LowerBound(t, Seen(p).Run(), key)
    {
      hide OrderSlot, OrderCount, LowerBound, InOrder, Permutation;
      ghost var run := Seen(p).Run();
      lo := 0;
      var hi := n;
      while lo < hi
        invariant 0 <= lo <= hi <= n
        invariant lo == 0 || t.Lt(run[lo - 1], key)
        invariant hi == n || !t.Lt(run[hi], key)
      {
        var mid := lo + (hi - lo) / 2;
        if t.Lt(KeyAt(order, mid), key) {
          lo := mid + 1;
        } else {
          hi := mid;
        }
      }
      ConfirmedIsLowerBound(t, run, key, lo);
    }

    /**
     sorted_position: the lower bound, for arbitrary lane contents and on every
     instruction set. `fast` reports that the binary search did not run, which is
     certain for a target on the alphabet of a node with exact lanes.
     */
    method SortedPosition(t: Traits<E>, isa: Isa, order: Word, n: nat, key: E, bytes: Bytes, ghost p: seq<nat>)
      returns (pos: nat, fast: bool)
      requires Valid() && Decodes(order, p) && Permutation(p) && n == |p|
      requires t.TotalOrder() && InOrder(t, Seen(p).Run()) && bytes == t.orderBytes(key)
      ensures pos == LowerBound(t, Seen(p).Run(), key)
      ensures t.Bytewise() && Sorted(t, Seen(p).Run()) && LanesExact(t, Seen(p)) && Shares(t, Seen(p), bytes) ==> fast
    {
      hide OrderSlot, OrderCount;
      var shares := SharesNodePrefix(t, order, bytes, p);
      if shares {
        var s := ComputeSurrogateAt(bytes, prefixLen);
        var candidate := LowerBoundPerm(isa, surrogates[..], s, order, p);
        ghost var good := t.Bytewise() && Sorted(t, Seen(p).Run()) && LanesExact(t, Seen(p));
        if good { LanesSorted(t, Seen(p)); }
        fast, pos := ConfirmCandidate(t, order, n, key, s, candidate, p);
        if fast { return pos, true; }
      }
      pos := BinarySearch(t, order, n, key, p);
      fast := false;
    }

    method FillSlots(t: Traits<E>, src: array<E>, off: nat, n: nat)
      requires keys.Length == surrogates.Length == NODE_KEYS && surrogates as object != keys as object
      requires n <= NODE_CAPACITY && off + n <= src.Length
      requires src as object != keys && src as object != surrogates as object
      modifies keys, surrogates
      ensures forall k :: 0 <= k < n ==> keys[k] == src[off + k] && surrogates[k] == SurrogateAt(t.orderBytes(src[off + k]), prefixLen)
    {
      hide SurrogateAt;
      var i := 0;
      while i < n
        invariant i <= n
        invariant forall k :: 0 <= k < i ==> keys[k] == src[off + k]
        invariant forall k :: 0 <= k < i ==> surrogates[k] == SurrogateAt(t.orderBytes(src[off + k]), prefixLen)
      {
        keys[i] := src[off + i];
        surrogates[i] := ComputeSurrogateAt(t.orderBytes(src[off + i]), prefixLen);
        i := i + 1;
      }
    }

    method PadSlots(t: Traits<E>, n: nat)
      requires keys.Length == surrogates.Length == NODE_KEYS && surrogates as object != keys as object
      requires n <= NODE_CAPACITY
      modifies keys, surrogates
      ensures forall k :: 0 <= k < n ==> keys[k] == old(keys[k]) && surrogates[k] == old(surrogates[k])
      ensures forall k :: n <= k < NODE_KEYS ==> keys[k] == t.nullEntry && surrogates[k] == EMPTY_KEY
    {
      var i := n;
      while i < NODE_KEYS
        invariant n <= i <= NODE_KEYS
        invariant forall k :: 0 <= k < n ==> keys[k] == old(keys[k]) && surrogates[k] == old(surrogates[k])
        invariant forall k :: n <= k < i ==> keys[k] == t.nullEntry && surrogates[k] == EMPTY_KEY
      {
        keys[i] := t.nullEntry;
        surrogates[i] := EMPTY_KEY;
        i := i + 1;
      }
    }

    /** fill: slot order and sorted order coincide, and the shared prefix is computed here and only here. */
    method Fill(t: Traits<E>, src: array<E>, off: nat, n: nat, succ: Option<NodeId>)
      requires Valid() && n <= NODE_CAPACITY && off + n <= src.Length
      requires src as object != keys && src as object != surrogates as object
      modifies this, keys, surrogates
      ensures Valid() && Value() == Filled(t, src[off..off + n], succ)
    {
      hide SurrogateAt, OrderSlot, CommonPrefix, FilledLane, Permutation;
      ghost var ks := src[off..off + n];
      next := succ;
      if n > 1 {
        prefixLen := CommonPrefixLen(t.orderBytes(src[off]), t.orderBytes(src[off + n - 1]));
      } else {
        prefixLen := 0;
      }
      FillSlots(t, src, off, n);
      PadSlots(t, n);
      order := OrderIdentity(n);
      perm := Identity(n);
      IdentityPermutes(n);
      FilledArrays(t, ks, succ, keys[..], surrogates[..]);
    }

    /** One loop of merge: ranks lo..hi, copied `shift` places further on. */
    method CopyRanks(order: Word, lo: nat, hi: nat, shift: nat, out: array<E>, ghost p: seq<nat>)
      requires Valid() && Decodes(order, p) && Permutation(p) && lo <= hi <= |p|
      requires hi + shift <= out.Length && out as object != keys && out as object != surrogates as object
      modifies out
      ensures forall k :: lo <= k < hi ==> out[k + shift] == Seen(p).Run()[k]
      ensures forall k :: 0 <= k < out.Length && !(lo + shift <= k < hi + shift) ==> out[k] == old(out[k])
    {
      hide OrderSlot, OrderCount, Permutation;
      ghost var run := Seen(p).Run();
      var i := lo;
      while i < hi
        invariant lo <= i <= hi
        invariant Valid() && Seen(p).Run() == run
        invariant forall k :: lo <= k < i ==> out[k + shift] == run[k]
        invariant forall k :: 0 <= k < out.Length && !(lo + shift <= k < i + shift) ==> out[k] == old(out[k])
      {
        out[i + shift] := KeyAt(order, i);
        i := i + 1;
      }
    }

    /** merge: the sorted run with `key` at its place, written to `out`. */
    method Merge(t: Traits<E>, isa: Isa, order: Word, n: nat, key: E, bytes: Bytes, out: array<E>, ghost p: seq<nat>)
      returns (total: nat)
      requires Valid() && Decodes(order, p) && Permutation(p) && n == |p|
      requires t.TotalOrder() && InOrder(t, Seen(p).Run()) && bytes == t.orderBytes(key)
      requires out.Length > n && out as object != keys && out as object != surrogates as object
      modifies out
      ensures total == n + 1
      ensures out[..total] == Splice(Seen(p).Run(), LowerBound(t, Seen(p).Run(), key), key)
    {
      hide OrderSlot, OrderCount, LowerBound, InOrder, Permutation, Sorted;
      ghost var run := Seen(p).Run();
      var pos, _ := SortedPosition(t, isa, order, n, key, bytes, p);
      CopyRanks(order, 0, pos, 0, out, p);
      out[pos] := key;
      CopyRanks(order, pos, n, 1, out, p);
      total := n + 1;
      assert Seen(p).Run() == run;
      assert forall k :: 0 <= k < pos ==> out[k + 0] == run[k];
      assert forall k :: pos <= k < n ==> out[k + 1] == run[k];
      assert out[..total] == Splice(run, pos, key);
    }

    /** append: two stores into the free slot, one store to republish the order. */
    method Append(t: Traits<E>, isa: Isa, n: nat, key: E, bytes: Bytes) returns (rank: nat)
      requires Valid() && n == |perm| < NODE_CAPACITY && bytes == t.orderBytes(key)
      requires t.TotalOrder() && InOrder(t, Value().Run())
      modifies this`order, this`perm, keys, surrogates
      ensures Valid()
      ensures rank == LowerBound(t, old(Value().Run()), key)
      ensures Value() == Appended(t, old(Value()), key)
    {
      hide OrderSlot, OrderCount, OrderInsert;
      ghost var before := Value();
      assert Seen(perm) == before;
      var pos, _ := SortedPosition(t, isa, order, n, key, bytes, perm);
      rank := pos;
      var slot := n;
      var shares := SharesNodePrefix(t, order, bytes, perm);
      var lane;
      if shares { lane := ComputeSurrogateAt(bytes, prefixLen); } else { lane := if rank == 0 then 0 else EMPTY_KEY; }
      keys[slot] := key;
      surrogates[slot] := lane;
      InsertDecodes(order, perm, rank);
      SplicePermutation(perm, rank);
      order, perm := OrderInsert(order, rank, slot), Splice(perm, rank, slot);
      assert keys[..] == before.keys[slot := key];
      assert surrogates[..] == before.lanes[slot := lane];
    }
  }

  lemma IdentityPermutes(n: nat)
    ensures Permutation(Identity(n))
  {
  }

  lemma FilledArrays<E(!new)>(t: Traits<E>, ks: seq<E>, succ: Option<NodeId>, keys: seq<E>, lanes: seq<uint32>)
    requires |ks| <= NODE_CAPACITY && |keys| == |lanes| == NODE_KEYS
    requires forall k :: 0 <= k < |ks| ==> keys[k] == ks[k]
    requires forall k :: 0 <= k < |ks| ==> lanes[k] == SurrogateAt(t.orderBytes(ks[k]), PrefixOf(t, ks))
    requires forall k :: |ks| <= k < NODE_KEYS ==> keys[k] == t.nullEntry && lanes[k] == EMPTY_KEY
    ensures keys == Filled(t, ks, succ).keys && lanes == Filled(t, ks, succ).lanes
  {
  }

  // ---- why a candidate is confirmed ----------------------------------------

  /** Everything the kernel's count relies on: a sorted node, exact lanes, and a target on the node's alphabet. */
  ghost predicate CandidateIsGood<E(!new)>(t: Traits<E>, p: Payload<E>, key: E, s: uint32)
    requires p.Shaped()
  {
    && t.TotalOrder() && t.Bytewise() && Sorted(t, p.Run()) && LanesExact(t, p)
    && Shares(t, p, t.orderBytes(key)) && s == SurrogateAt(t.orderBytes(key), p.prefixLen)
  }

  lemma TargetCarries<E(!new)>(t: Traits<E>, p: Payload<E>, key: E, s: uint32)
    requires p.Shaped() && CandidateIsGood(t, p, key, s)
    ensures SharesPrefix(t.orderBytes(key), t.orderBytes(p.KeyAt(0)), p.prefixLen)
  {
    if p.prefixLen == 0 {
      assert t.orderBytes(key)[..0] == t.orderBytes(p.KeyAt(0))[..0];
    }
  }

  lemma GoodLanesSorted<E(!new)>(t: Traits<E>, p: Payload<E>, key: E, s: uint32)
    requires p.Shaped() && CandidateIsGood(t, p, key, s)
    ensures forall i, j :: 0 <= i < j < p.Count() ==> p.LaneAt(i) <= p.LaneAt(j)
  {
    LanesSorted(t, p);
  }

  /** A lane below the target's surrogate belongs to a key below the target. */
  lemma LaneBelowIsBelow<E(!new)>(t: Traits<E>, p: Payload<E>, key: E, s: uint32, i: nat)
    requires p.Shaped() && CandidateIsGood(t, p, key, s) && i < p.Count() && p.LaneAt(i) < s
    ensures t.Lt(p.KeyAt(i), key)
  {
    TargetCarries(t, p, key, s);
    assert LaneExact(t, p, i);
    SurrogateOrder(t.orderBytes(p.KeyAt(i)), t.orderBytes(key), p.prefixLen);
  }

  /** A lane above the target's surrogate belongs to a key above the target. */
  lemma LaneAboveIsAbove<E(!new)>(t: Traits<E>, p: Payload<E>, key: E, s: uint32, i: nat)
    requires p.Shaped() && CandidateIsGood(t, p, key, s) && i < p.Count() && p.LaneAt(i) > s
    ensures !t.Lt(p.KeyAt(i), key)
  {
    TargetCarries(t, p, key, s);
    assert LaneExact(t, p, i);
    if Carries(t, p, i) {
      SurrogateOrder(t.orderBytes(key), t.orderBytes(p.KeyAt(i)), p.prefixLen);
    } else {
      CarriersAreBelow(t, p, i, key);
    }
    t.Order3(key, p.KeyAt(i), key);
  }

  /** The kernel's count lands on the first lane not below the surrogate. */
  lemma CandidateStart<E(!new)>(t: Traits<E>, p: Payload<E>, key: E, s: uint32, c: nat)
    requires p.Shaped() && CandidateIsGood(t, p, key, s) && c == LiveBelow(p.lanes, p.Count(), s)
    ensures c == 0 || t.Lt(p.KeyAt(c - 1), key)
    ensures c < p.Count() ==> p.LaneAt(c) >= s
  {
    LanesSorted(t, p);
    var f := FirstNotBelow(p.lanes, p.order, s);
    PrefixRanksBelow(p.lanes, p.order, f, s);
    RanksBelowIsLiveBelow(p.lanes, p.order, s);
    if c > 0 { LaneBelowIsBelow(t, p, key, s, c - 1); }
  }
}
