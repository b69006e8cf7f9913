/**
 A node's payload as a value (BasicNodeData in include/aparajita/memtable.hpp)
 with what fill and append make of it. `order` is the permutation the packed
 word decodes to; class NodeData holds the word itself.
 */
module Payloads {
  import opened OrderWord
  import opened Surrogate
  import opened Ordering
  import opened Kernels

  datatype Option<+T> = None | Some(value: T)

  type NodeId = nat

  datatype Payload<E(!new)> = Payload(
    keys: seq<E>,
    lanes: seq<uint32>,
    order: seq<nat>,
    prefixLen: nat,
    next: Option<NodeId>)
  {
    ghost predicate Shaped()
    {
      |keys| == NODE_KEYS && |lanes| == NODE_KEYS && |order| <= NODE_CAPACITY && Permutation(order)
    }

    function Count(): nat
    {
      |order|
    }

    function KeyAt(rank: nat): E
      requires rank < |order| && order[rank] < |keys|
    {
      keys[order[rank]]
    }

    function LaneAt(rank: nat): uint32
      requires rank < |order| && order[rank] < |lanes|
    {
      lanes[order[rank]]
    }

    /** The keys in rank order. */
    ghost function Run(): (s: seq<E>)
      requires Shaped()
      ensures |s| == |order|
      ensures forall r :: 0 <= r < |order| ==> s[r] == KeyAt(r)
    {
      seq(|order|, r requires 0 <= r < |order| => KeyAt(r))
    }
  }

  // ---- sorted runs ---------------------------------------------------------

  /** Strictly increasing. */
  ghost predicate Sorted<E(!new)>(t: Traits<E>, s: seq<E>)
  {
    forall i, j :: 0 <= i < j < |s| ==> t.Lt(s[i], s[j])
  }

  /** In comparator order, ties allowed. */
  ghost predicate InOrder<E(!new)>(t: Traits<E>, s: seq<E>)
  {
    forall i, j :: 0 <= i < j < |s| ==> !t.Lt(s[j], s[i])
  }

  /** The first position whose entry is not below `key`. */
  function LowerBound<E(!new)>(t: Traits<E>, s: seq<E>, key: E): (p: nat)
    ensures p <= |s|
  {
    if s == [] || !t.Lt(s[0], key) then 0 else 1 + LowerBound(t, s[1..], key)
  }

  lemma SortedInOrder<E(!new)>(t: Traits<E>, s: seq<E>)
    requires t.TotalOrder() && Sorted(t, s)
    ensures InOrder(t, s)
  {
    forall i, j | 0 <= i < j < |s|
      ensures !t.Lt(s[j], s[i])
    {
      t.Order3(s[i], s[j], s[i]);
    }
  }

  lemma {:induction false} LowerBoundSplits<E(!new)>(t: Traits<E>, s: seq<E>, key: E)
    requires t.TotalOrder() && InOrder(t, s)
    ensures forall i :: 0 <= i < LowerBound(t, s, key) ==> t.Lt(s[i], key)
    ensures forall i :: LowerBound(t, s, key) <= i < |s| ==> !t.Lt(s[i], key)
    decreases |s|
  {
    if s == [] {
    } else if t.Lt(s[0], key) {
      LowerBoundSplits(t, s[1..], key);
    } else {
      forall i | 0 <= i < |s|
        ensures !t.Lt(s[i], key)
      {
        t.Order3(key, s[0], s[i]);
      }
    }
  }

  /** Confirming the neighbours is enough: only the lower bound has them on the right sides. */
  lemma ConfirmedIsLowerBound<E(!new)>(t: Traits<E>, s: seq<E>, key: E, p: nat)
    requires t.TotalOrder() && InOrder(t, s) && p <= |s|
    requires p == 0 || t.Lt(s[p - 1], key)
    requires p == |s| || !t.Lt(s[p], key)
    ensures p == LowerBound(t, s, key)
  {
    LowerBoundSplits(t, s, key);
    forall i | 0 <= i < |s|
      ensures i < p ==> t.Lt(s[i], key)
      ensures p <= i ==> !t.Lt(s[i], key)
    {
      if i < p { t.Order3(s[i], s[p - 1], key); } else { t.Order3(key, s[p], s[i]); }
    }
  }

  /** No entry of `s` compares equal to `key`. */
  ghost predicate Fresh<E(!new)>(t: Traits<E>, s: seq<E>, key: E)
  {
    forall i :: 0 <= i < |s| ==> t.compare(s[i], key) != 0
  }

  lemma SpliceSorted<E(!new)>(t: Traits<E>, s: seq<E>, key: E)
    requires t.TotalOrder() && Sorted(t, s) && Fresh(t, s, key)
    ensures Sorted(t, Splice(s, LowerBound(t, s, key), key))
    ensures forall i :: 0 <= i < LowerBound(t, s, key) ==> t.Lt(s[i], key)
    ensures forall i :: LowerBound(t, s, key) <= i < |s| ==> t.Lt(key, s[i])
  {
    SortedInOrder(t, s);
    LowerBoundSplits(t, s, key);
    forall i | LowerBound(t, s, key) <= i < |s|
      ensures t.Lt(key, s[i])
    {
      assert t.compare(s[i], key) != 0;
    }
  }

  // ---- fill and append -----------------------------------------------------

  /** shares_prefix: whether `bytes` has a surrogate on this node's alphabet. */
  predicate Shares<E(!new)>(t: Traits<E>, p: Payload<E>, bytes: Bytes)
    requires p.Shaped()
  {
    p.Count() == 0 || p.prefixLen == 0 || SharesPrefix(bytes, t.orderBytes(p.KeyAt(0)), p.prefixLen)
  }

  function LaneFor<E(!new)>(t: Traits<E>, p: Payload<E>, rank: nat, bytes: Bytes): uint32
    requires p.Shaped()
  {
    if Shares(t, p, bytes) then SurrogateAt(bytes, p.prefixLen)
    else if rank == 0 then 0 else EMPTY_KEY
  }

  /** What append makes of a payload with room. */
  ghost function Appended<E(!new)>(t: Traits<E>, p: Payload<E>, key: E): (q: Payload<E>)
    requires p.Shaped() && p.Count() < NODE_CAPACITY
    ensures q.Shaped() && q.Count() == p.Count() + 1
    ensures q.Run() == Splice(p.Run(), LowerBound(t, p.Run(), key), key)
    ensures q.prefixLen == p.prefixLen && q.next == p.next
  {
    var rank, slot := LowerBound(t, p.Run(), key), p.Count();
    SplicePermutation(p.order, rank);
    var q := p.(keys := p.keys[slot := key],
                lanes := p.lanes[slot := LaneFor(t, p, rank, t.orderBytes(key))],
                order := Splice(p.order, rank, slot));
    assert q.Run() == Splice(p.Run(), rank, key);
    q
  }

  function PrefixOf<E(!new)>(t: Traits<E>, ks: seq<E>): nat
  {
    if |ks| > 1 then CommonPrefix(t.orderBytes(ks[0]), t.orderBytes(ks[|ks| - 1])) else 0
  }

  function FilledLane<E(!new)>(t: Traits<E>, ks: seq<E>, i: nat): uint32
  {
    if i < |ks| then SurrogateAt(t.orderBytes(ks[i]), PrefixOf(t, ks)) else EMPTY_KEY
  }

  /** What fill makes of a sorted key run. */
  function Filled<E(!new)>(t: Traits<E>, ks: seq<E>, next: Option<NodeId>): (q: Payload<E>)
    requires |ks| <= NODE_CAPACITY
    ensures q.Shaped() && q.Count() == |ks| && q.Run() == ks && q.next == next
  {
    var q := Payload(
      seq(NODE_KEYS, i requires 0 <= i < NODE_KEYS => if i < |ks| then ks[i] else t.nullEntry),
      seq(NODE_KEYS, i requires 0 <= i < NODE_KEYS => FilledLane(t, ks, i)),
      Identity(|ks|), PrefixOf(t, ks), next);
    assert q.Run() == ks;
    q
  }

  /** A fresh payload: empty, nothing stripped. */
  function FreshPayload<E(!new)>(t: Traits<E>): (q: Payload<E>)
    ensures q.Shaped() && q.Count() == 0 && q.next == None
  {
    Filled(t, [], None)
  }

  // ---- lanes ---------------------------------------------------------------

  ghost predicate Carries<E(!new)>(t: Traits<E>, p: Payload<E>, rank: nat)
    requires p.Shaped() && rank < p.Count()
  {
    SharesPrefix(t.orderBytes(p.KeyAt(rank)), t.orderBytes(p.KeyAt(0)), p.prefixLen)
  }

  ghost predicate LaneExact<E(!new)>(t: Traits<E>, p: Payload<E>, r: nat)
    requires p.Shaped() && r < p.Count()
  {
    p.LaneAt(r) == if Carries(t, p, r) then SurrogateAt(t.orderBytes(p.KeyAt(r)), p.prefixLen) else EMPTY_KEY
  }

  /**
   Every lane is exact: the rank-0 key carries the stored prefix, keys carrying it hold
   their surrogate past it, and all others hold EMPTY_KEY.
   */
  ghost predicate LanesExact<E(!new)>(t: Traits<E>, p: Payload<E>)
    requires p.Shaped()
  {
    && p.Count() > 0
    && p.prefixLen <= |t.orderBytes(p.KeyAt(0))|
    && (forall r :: 0 <= r < p.Count() ==> LaneExact(t, p, r))
  }

  /** Nothing stripped: every named lane is the surrogate of its key's first four bytes. */
  ghost predicate Unstripped<E(!new)>(t: Traits<E>, p: Payload<E>)
    requires p.Shaped()
  {
    p.prefixLen == 0 && forall r :: 0 <= r < p.Count() ==> p.LaneAt(r) == SurrogateAt(t.orderBytes(p.KeyAt(r)), 0)
  }

  /** With nothing stripped every key is on the alphabet, so any append, at rank 0 too, keeps it so. */
  lemma AppendedUnstripped<E(!new)>(t: Traits<E>, p: Payload<E>, key: E)
    requires p.Shaped() && p.Count() < NODE_CAPACITY && Unstripped(t, p)
    ensures Unstripped(t, Appended(t, p, key))
  {
    hide LowerBound, SurrogateAt;
    var q, rank := Appended(t, p, key), LowerBound(t, p.Run(), key);
    forall r | 0 <= r < q.Count()
      ensures q.LaneAt(r) == SurrogateAt(t.orderBytes(q.KeyAt(r)), 0)
    {
      if r != rank {
        var o := if r < rank then r else r - 1;
        assert q.order[r] == p.order[o];
        assert q.KeyAt(r) == p.KeyAt(o) && q.LaneAt(r) == p.LaneAt(o);
      }
    }
  }

  lemma UnstrippedExact<E(!new)>(t: Traits<E>, p: Payload<E>)
    requires p.Shaped() && p.Count() > 0 && Unstripped(t, p)
    ensures LanesExact(t, p)
  {
    forall r | 0 <= r < p.Count()
      ensures LaneExact(t, p, r)
    {
      assert t.orderBytes(p.KeyAt(r))[..0] == t.orderBytes(p.KeyAt(0))[..0];
    }
  }

  /** At build time every key of the run carries the stored prefix. */
  lemma FilledCarries<E(!new)>(t: Traits<E>, ks: seq<E>, next: Option<NodeId>, r: nat)
    requires t.TotalOrder() && t.Bytewise() && Sorted(t, ks) && r < |ks| <= NODE_CAPACITY
    ensures Carries(t, Filled(t, ks, next), r)
  {
    var n := |ks|;
    if n > 1 {
      var lo, hi := t.orderBytes(ks[0]), t.orderBytes(ks[n - 1]);
      SortedInOrder(t, ks);
      t.BytesFollow(ks[0], ks[r]);
      t.BytesFollow(ks[r], ks[n - 1]);
      CompareKeysTotal(lo, lo, lo);
      BetweenSharesPrefix(lo, t.orderBytes(ks[r]), hi, CommonPrefix(lo, hi));
    }
  }

  lemma FilledLanes<E(!new)>(t: Traits<E>, ks: seq<E>, next: Option<NodeId>)
    requires t.TotalOrder() && t.Bytewise() && Sorted(t, ks) && 0 < |ks| <= NODE_CAPACITY
    ensures LanesExact(t, Filled(t, ks, next))
  {
    var q := Filled(t, ks, next);
    forall r | 0 <= r < |ks|
      ensures LaneExact(t, q, r)
    {
      FilledCarries(t, ks, next, r);
    }
    FilledCarries(t, ks, next, 0);
  }

  /** An append above rank 0 keeps every lane exact, under any comparator. */
  lemma AppendedLanes<E(!new)>(t: Traits<E>, p: Payload<E>, key: E)
    requires p.Shaped() && p.Count() < NODE_CAPACITY && LanesExact(t, p)
    requires LowerBound(t, p.Run(), key) > 0
    ensures LanesExact(t, Appended(t, p, key))
  {
    var q := Appended(t, p, key);
    var rank := LowerBound(t, p.Run(), key);
    assert q.KeyAt(0) == p.KeyAt(0);
    forall r | 0 <= r < q.Count()
      ensures LaneExact(t, q, r)
    {
      if r != rank {
        var o := if r < rank then r else r - 1;
        assert q.order[r] == p.order[o];
        assert q.KeyAt(r) == p.KeyAt(o) && q.LaneAt(r) == p.LaneAt(o);
        assert LaneExact(t, p, o);
      }
    }
  }

  /** Keys outside the prefix are an upper block. */
  lemma CarriersAreBelow<E(!new)>(t: Traits<E>, p: Payload<E>, i: nat, target: E)
    requires p.Shaped() && t.TotalOrder() && t.Bytewise() && Sorted(t, p.Run()) && LanesExact(t, p)
    requires i < p.Count() && !Carries(t, p, i)
    requires SharesPrefix(t.orderBytes(target), t.orderBytes(p.KeyAt(0)), p.prefixLen)
    ensures t.Lt(target, p.KeyAt(i))
  {
    var first, out := t.orderBytes(p.KeyAt(0)), t.orderBytes(p.KeyAt(i));
    assert first == out ==> SharesPrefix(out, first, p.prefixLen);
    assert i > 0;
    assert t.Lt(p.Run()[0], p.Run()[i]);
    t.Order3(p.KeyAt(0), p.KeyAt(i), p.KeyAt(i));
    t.BytesFollow(p.KeyAt(0), p.KeyAt(i));
    CompareKeysTotal(first, out, out);
    OutsideIsAbove(first, out, t.orderBytes(target), p.prefixLen);
  }

  /** Lanes read in rank order are sorted: exact surrogates below, EMPTY_KEY above. */
  lemma LanesSorted<E(!new)>(t: Traits<E>, p: Payload<E>)
    requires p.Shaped() && t.TotalOrder() && t.Bytewise() && Sorted(t, p.Run()) && LanesExact(t, p)
    ensures RankSorted(p.lanes, p.order)
    ensures forall i, j :: 0 <= i < j < p.Count() && Carries(t, p, j) ==> Carries(t, p, i)
  {
    forall i, j | 0 <= i < j < p.Count()
      ensures p.lanes[p.order[i]] <= p.lanes[p.order[j]]
      ensures Carries(t, p, j) ==> Carries(t, p, i)
    {
      var a, b := p.KeyAt(i), p.KeyAt(j);
      assert t.Lt(p.Run()[i], p.Run()[j]);
      t.Order3(a, b, a);
      assert LaneExact(t, p, i) && LaneExact(t, p, j);
      if Carries(t, p, j) {
        if !Carries(t, p, i) { CarriersAreBelow(t, p, i, b); }
        t.BytesFollow(a, b);
        SurrogateOrder(t.orderBytes(a), t.orderBytes(b), p.prefixLen);
      }
    }
  }

  // ---- the stored prefix ---------------------------------------------------

  /** The stored prefix is never shorter than what the first and last key share. */
  ghost predicate PrefixLongEnough<E(!new)>(t: Traits<E>, p: Payload<E>)
    requires p.Shaped()
  {
    p.Count() > 1 ==>
      CommonPrefix(t.orderBytes(p.KeyAt(0)), t.orderBytes(p.KeyAt(p.Count() - 1))) <= p.prefixLen
  }

  lemma NarrowerSharesMore(a: Bytes, b: Bytes, c: Bytes, d: Bytes)
    requires CompareKeys(a, b) <= 0 && CompareKeys(b, c) <= 0 && CompareKeys(c, d) <= 0
    ensures CommonPrefix(a, d) <= CommonPrefix(b, c)
  {
    var n := CommonPrefix(a, d);
    CompareKeysWeak(b, c, d);
    CompareKeysWeak(a, b, c);
    BetweenSharesPrefix(a, b, d, n);
    BetweenSharesPrefix(a, c, d, n);
    var m := CommonPrefix(b, c);
    assert forall k :: 0 <= k < n ==> b[..n][k] == b[k] && c[..n][k] == c[k];
  }

  /** Appends only widen the range, so the frozen prefix stays long enough; a node needs two keys to begin with. */
  lemma AppendedPrefixLong<E(!new)>(t: Traits<E>, p: Payload<E>, key: E)
    requires t.TotalOrder() && t.Bytewise()
    requires p.Shaped() && 2 <= p.Count() < NODE_CAPACITY && Sorted(t, p.Run()) && Fresh(t, p.Run(), key)
    requires PrefixLongEnough(t, p)
    ensures PrefixLongEnough(t, Appended(t, p, key))
  {
    var q, n := Appended(t, p, key), p.Count();
    var s, u := p.Run(), q.Run();
    SpliceSorted(t, s, key);
    assert u[0] == s[0] || t.Lt(u[0], s[0]);
    assert u[n] == s[n - 1] || t.Lt(s[n - 1], u[n]);
    t.Order3(u[0], s[0], u[0]);
    t.Order3(s[n - 1], u[n], s[n - 1]);
    assert t.Lt(s[0], s[n - 1]);
    t.Order3(s[0], s[n - 1], s[0]);
    t.BytesFollow(s[0], s[n - 1]);
    WeaklyBelow(t, u[0], s[0]);
    WeaklyBelow(t, s[n - 1], u[n]);
    NarrowerSharesMore(t.orderBytes(u[0]), t.orderBytes(s[0]), t.orderBytes(s[n - 1]), t.orderBytes(u[n]));
  }

  lemma WeaklyBelow<E(!new)>(t: Traits<E>, a: E, b: E)
    requires t.TotalOrder() && t.Bytewise() && (a == b || t.Lt(a, b))
    ensures CompareKeys(t.orderBytes(a), t.orderBytes(b)) <= 0
  {
    if a == b {
      CompareKeysTotal(t.orderBytes(a), t.orderBytes(a), t.orderBytes(a));
    } else {
      t.Order3(a, b, a);
      t.BytesFollow(a, b);
    }
  }
}
