/**
 The structure between operations of a single writer: nothing locked, every node
 published. What one append, one split and one tower link make of it, and how its
 contents change. The steps are the machine's own, taken by thread 0 with no other
 thread in between.
 */
module Quiet {
  import opened OrderWord
  import opened Surrogate
  import opened Ordering
  import opened Payloads
  import opened Machine
  import opened Invariant
  import opened Mutations
  import opened Publishing
  import opened NodeSplit
  import opened WriterSteps
  import opened ReaderSteps
  import opened LevelZero
  import Reachable

  ghost predicate AtRest<E(!new)>(t: Traits<E>, sh: Shared<E>)
  {
    && SharedInv(t, sh) && Distinct(t, sh) && HintExact(t, sh, 0) && FirstPayloadUnlinked(sh)
    && forall n :: 0 <= n < |sh.nodes| ==> n in sh.chain && sh.nodes[n].lock.None?
  }

  /** The one payload fill did not build: the head's, until its first split. */
  ghost predicate FirstPayloadUnlinked<E(!new)>(sh: Shared<E>)
  {
    0 < |sh.payloads| && sh.payloads[0].home == 0 && sh.payloads[0].d.next.None?
  }

  /** The node's hint is that of its first key, if it holds one. Between operations even the head's is. */
  ghost predicate HintExact<E(!new)>(t: Traits<E>, sh: Shared<E>, n: NodeId)
  {
    var p := PayloadAt(t, sh, DataOf(t, sh, n));
    |p.order| > 0 ==> NodeAt(t, sh, n).hint == t.Hint(FirstOf(t, p))
  }

  /** Between operations every node's hint is that of its first key. */
  lemma HintsExact<E(!new)>(t: Traits<E>, sh: Shared<E>, n: NodeId)
    requires AtRest(t, sh) && n < |sh.nodes|
    ensures var p := PayloadAt(t, sh, DataOf(t, sh, n)); |p.order| > 0 ==> sh.nodes[n].hint == t.Hint(FirstOf(t, p))
  {
    hide SharedInv, Distinct, FirstOf;
    if n != 0 {
      Reachable.FirstKeys(t, sh, n);
      PublishedHint(t, sh, n);
    }
  }

  /** The entries the structure holds, in order. */
  ghost function Contents<E(!new)>(t: Traits<E>, sh: Shared<E>): seq<E>
  {
    Reads(t, sh, Some(0), |sh.chain|)
  }

  /** `cur` is where an insert of `key` belongs, and `d` is its payload. */
  ghost predicate Chosen<E(!new)>(t: Traits<E>, sh: Shared<E>, key: E, cur: NodeId, d: PayloadId)
  {
    && AtOrBelow(t, sh, cur, key) && cur < |sh.nodes| && sh.nodes[cur].data == Some(d) && d < |sh.payloads|
    && Above(t, sh, sh.payloads[d].d.next, key)
  }

  lemma ContentsExact<E(!new)>(t: Traits<E>, sh: Shared<E>)
    requires t.TotalOrder() && AtRest(t, sh)
    ensures Sorted(t, Contents(t, sh)) && multiset(Contents(t, sh)) == multiset(sh.published)
  {
    hide SharedInv, Distinct, Reads;
    ReadsExact(t, sh, |sh.chain|);
  }

  /** Publishing one fresh key puts it in its place among the contents. */
  lemma ContentsGain<E(!new)>(t: Traits<E>, a: Shared<E>, b: Shared<E>, key: E)
    requires t.TotalOrder() && AtRest(t, a) && AtRest(t, b)
    requires Unpublished(t, a, key) && b.published == a.published + [key]
    ensures Contents(t, b) == Splice(Contents(t, a), LowerBound(t, Contents(t, a), key), key)
  {
    hide AtRest, Contents, Sorted;
    ContentsExact(t, a);
    ContentsExact(t, b);
    var before, after := Contents(t, a), Contents(t, b);
    FreshInBag(t, a.published, before, key);
    SpliceSorted(t, before, key);
    SpliceBag(before, LowerBound(t, before, key), key);
    assert multiset(a.published + [key]) == multiset(a.published) + multiset{key};
    SortedUnique(t, after, Splice(before, LowerBound(t, before, key), key));
  }

  lemma ContentsSame<E(!new)>(t: Traits<E>, a: Shared<E>, b: Shared<E>)
    requires t.TotalOrder() && AtRest(t, a) && AtRest(t, b) && b.published == a.published
    ensures Contents(t, b) == Contents(t, a)
  {
    hide AtRest, Contents, Sorted;
    ContentsExact(t, a);
    ContentsExact(t, b);
    SortedUnique(t, Contents(t, b), Contents(t, a));
  }

  lemma StaysDistinct<E(!new)>(t: Traits<E>, a: Shared<E>, b: Shared<E>, key: E)
    requires Distinct(t, a) && Unpublished(t, a, key) && b.published == a.published + [key]
    ensures Distinct(t, b)
  {
  }

  lemma RestParts<E(!new)>(t: Traits<E>, sh: Shared<E>)
    requires AtRest(t, sh)
    ensures SharedInv(t, sh) && Distinct(t, sh) && HintExact(t, sh, 0) && FirstPayloadUnlinked(sh)
    ensures forall n :: 0 <= n < |sh.nodes| ==> n in sh.chain && sh.nodes[n].lock.None?
  {
  }

  lemma Locked<E(!new)>(t: Traits<E>, sh: Shared<E>, key: E, cur: NodeId, d: PayloadId) returns (a: Shared<E>)
    requires AtRest(t, sh) && Chosen(t, sh, key, cur, d)
    ensures a == sh.(nodes := sh.nodes[cur := sh.nodes[cur].(lock := Some(0))])
    ensures SharedInv(t, a) && BelongsTo(t, 0, a, key, cur, d)
  {
    RestParts(t, sh);
    assert !LockedByOther(0, sh, cur);
    LockEdit(t, 0, sh, cur, Some(0));
    a := SetLock(t, sh, cur, Some(0));
    LockedData(t, 0, a, cur);
  }

  // ---- append ------------------------------------------------------------------------------

  /** The payload with its free slot written and not yet named. */
  ghost function WithSlot<E(!new)>(t: Traits<E>, p: Payload<E>, key: E): (q: Payload<E>)
    requires p.Shaped() && p.Count() < NODE_CAPACITY
    ensures q.Shaped() && SameNames(p, q)
  {
    p.(keys := p.keys[p.Count() := key], lanes := p.lanes[p.Count() := LaneOf(t, p, p.order, key)])
  }

  lemma WithSlotAppends<E(!new)>(t: Traits<E>, p: Payload<E>, key: E)
    requires p.Shaped() && p.Count() < NODE_CAPACITY
    ensures var q := WithSlot(t, p, key);
      && q.keys[q.Count()] == key && q.lanes[q.Count()] == LaneOf(t, q, q.order, key)
      && q.(order := Splice(q.order, RankIn(t, q, q.order, key), q.Count())) == Appended(t, p, key)
      && RankIn(t, q, q.order, key) == LowerBound(t, p.Run(), key)
  {
    hide LowerBound, SurrogateAt;
    var q := WithSlot(t, p, key);
    SameNamesSame(t, p, q);
    SeenIsRun(t, p);
    SeenIsRun(t, q);
    AppendValue(t, q, key);
    assert Appended(t, q, key).keys == Appended(t, p, key).keys;
    assert Appended(t, q, key).lanes == Appended(t, p, key).lanes;
  }

  lemma WroteSlot<E(!new)>(t: Traits<E>, a: Shared<E>, key: E, cur: NodeId, d: PayloadId) returns (b: Shared<E>)
    requires t.TotalOrder() && SharedInv(t, a) && BelongsTo(t, 0, a, key, cur, d) && Unpublished(t, a, key)
    requires a.payloads[d].d.Shaped() && a.payloads[d].d.Count() < NODE_CAPACITY
    ensures b == a.(payloads := a.payloads[d := a.payloads[d].(d := WithSlot(t, a.payloads[d].d, key))])
    ensures SharedInv(t, b) && BelongsTo(t, 0, b, key, cur, d) && SlotReady(t, b, d, b.payloads[d].d.order, key)
    ensures RankIn(t, b.payloads[d].d, b.payloads[d].d.order, key) == LowerBound(t, a.payloads[d].d.Run(), key)
  {
    hide SharedInv, LowerBound, LaneOf, RankIn, Appended;
    b := a.(payloads := a.payloads[d := a.payloads[d].(d := WithSlot(t, a.payloads[d].d, key))]);
    WithSlotAppends(t, a.payloads[d].d, key);
    EditSlot(t, 0, a, b, cur, d);
  }

  /** publish_hint: only a key taking rank 0 stores one, and only the head ever meets that case. */
  lemma Hinted<E(!new)>(t: Traits<E>, a: Shared<E>, key: E, cur: NodeId, d: PayloadId) returns (b: Shared<E>)
    requires t.TotalOrder() && t.HintPromise() && SharedInv(t, a) && BelongsTo(t, 0, a, key, cur, d) && Unpublished(t, a, key)
    requires SlotReady(t, a, d, a.payloads[d].d.order, key)
    ensures var rank := RankIn(t, a.payloads[d].d, a.payloads[d].d.order, key);
      b == if rank == 0 then a.(nodes := a.nodes[cur := a.nodes[cur].(hint := t.Hint(key))]) else a
    ensures SharedInv(t, b) && BelongsTo(t, 0, b, key, cur, d) && SlotReady(t, b, d, b.payloads[d].d.order, key)
    ensures RankIn(t, b.payloads[d].d, b.payloads[d].d.order, key) == 0 ==> HintLowered(t, b, cur, key)
  {
    hide SharedInv, LaneOf, RankIn;
    b := a;
    if RankIn(t, a.payloads[d].d, a.payloads[d].d.order, key) == 0 {
      RankZeroIsHead(t, 0, a, key, cur, d);
      HeadHintMayFall(t, a, key, d);
      HintEdit(t, 0, a, 0, t.Hint(key));
      b := SetHint(t, a, 0, t.Hint(key));
    }
  }

  lemma HeadHintMayFall<E(!new)>(t: Traits<E>, a: Shared<E>, key: E, d: PayloadId)
    requires t.TotalOrder() && t.HintPromise() && 0 < |a.nodes| && a.nodes[0].data == Some(d) && d < |a.payloads|
    requires |a.payloads[d].d.order| > 0 ==> !t.Lt(FirstOf(t, a.payloads[d].d), key)
    ensures HeadHintLow(t, SetHint(t, a, 0, t.Hint(key)))
  {
    if t.hintOrdering && |a.payloads[d].d.order| > 0 { t.HintFollows(key, FirstOf(t, a.payloads[d].d)); }
  }

  /** One append, start to finish. */
  lemma AppendAtRest<E(!new)>(t: Traits<E>, sh: Shared<E>, key: E, cur: NodeId, d: PayloadId) returns (b: Shared<E>)
    requires t.TotalOrder() && t.HintPromise() && AtRest(t, sh) && Unpublished(t, sh, key) && Chosen(t, sh, key, cur, d)
    requires sh.payloads[d].d.Shaped() && sh.payloads[d].d.Count() < NODE_CAPACITY
    ensures AtRest(t, b) && b.chain == sh.chain && b.published == sh.published + [key]
    ensures b.payloads == sh.payloads[d := sh.payloads[d].(d := Appended(t, sh.payloads[d].d, key))]
    ensures b.nodes == sh.nodes[cur := sh.nodes[cur].(hint :=
      if LowerBound(t, sh.payloads[d].d.Run(), key) == 0 then t.Hint(key) else sh.nodes[cur].hint)]
  {
    hide SharedInv, LowerBound, Appended, BelongsTo, SlotReady, RankIn, WithSlot, HintLowered, Distinct, HintExact;
    RestParts(t, sh);
    var s1 := Locked(t, sh, key, cur, d);
    var s2 := WroteSlot(t, s1, key, cur, d);
    var s3 := Hinted(t, s2, key, cur, d);
    WithSlotAppends(t, s1.payloads[d].d, key);
    BelongsHeld(t, s3, key, cur, d);
    PublishAppend(t, 0, s3, key, cur, d);
    var s4 := AfterAppend(t, s3, d, key);
    LockEdit(t, 0, s4, cur, None);
    b := SetLock(t, s4, cur, None);
    StaysDistinct(t, sh, b, key);
    AppendHint(t, sh, b, key, cur, d);
  }

  lemma AppendHint<E(!new)>(t: Traits<E>, a: Shared<E>, b: Shared<E>, key: E, cur: NodeId, d: PayloadId)
    requires SharedInv(t, a) && HintExact(t, a, 0) && Chosen(t, a, key, cur, d)
    requires a.payloads[d].d.Shaped() && a.payloads[d].d.Count() < NODE_CAPACITY
    requires b.payloads == a.payloads[d := a.payloads[d].(d := Appended(t, a.payloads[d].d, key))]
    requires b.nodes == a.nodes[cur := a.nodes[cur].(hint :=
      if LowerBound(t, a.payloads[d].d.Run(), key) == 0 then t.Hint(key) else a.nodes[cur].hint)]
    ensures HintExact(t, b, 0)
  {
    var p, q := a.payloads[d].d, Appended(t, a.payloads[d].d, key);
    SeenIsRun(t, p);
    SeenIsRun(t, q);
    assert q.Run()[0] == if LowerBound(t, p.Run(), key) == 0 then key else p.Run()[0];
    hide LowerBound, Appended, SharedInv;
    HeadFirst(t, a);
    DataIs(t, a, 0);
    if cur != 0 { DataIs(t, a, cur); }
  }

  /** A node's data pointer and the payload behind it. */
  lemma DataIs<E(!new)>(t: Traits<E>, sh: Shared<E>, n: NodeId)
    requires SharedInv(t, sh) && n in sh.chain
    ensures n < |sh.nodes| && sh.nodes[n].data.Some? && sh.nodes[n].data.value < |sh.payloads|
    ensures DataOf(t, sh, n) == sh.nodes[n].data.value && IsPayloadOf(sh, DataOf(t, sh, n), n)
    ensures PayloadAt(t, sh, DataOf(t, sh, n)) == sh.payloads[sh.nodes[n].data.value].d
  {
    hide PayloadsOk, TowersOk, AllLocated, HeadHintLow, Occupied;
    assert NodeOk(t, sh, n);
  }

  lemma BelongsHeld<E(!new)>(t: Traits<E>, a: Shared<E>, key: E, cur: NodeId, d: PayloadId)
    requires BelongsTo(t, 0, a, key, cur, d)
    ensures cur in a.chain && cur < |a.nodes| && a.nodes[cur].lock == Some(0) && d < |a.payloads|
  {
  }

  // ---- split -------------------------------------------------------------------------------

  /** The full node's run with the key in it. */
  ghost function FullRun<E(!new)>(t: Traits<E>, p: Payload<E>, key: E): (m: seq<E>)
    requires p.Shaped() && p.Count() == NODE_CAPACITY
    ensures |m| == NODE_CAPACITY + 1
  {
    Splice(p.Run(), LowerBound(t, p.Run(), key), key)
  }

  /** The split up to its second publishing store. */
  lemma Prepared<E(!new)>(t: Traits<E>, sh: Shared<E>, key: E, cur: NodeId, d: PayloadId, h: nat) returns (b: Shared<E>)
    requires t.TotalOrder() && t.HintPromise() && AtRest(t, sh) && Unpublished(t, sh, key) && Chosen(t, sh, key, cur, d)
    requires sh.payloads[d].d.Shaped() && sh.payloads[d].d.Count() == NODE_CAPACITY && 1 <= h <= MAX_HEIGHT
    ensures SwapReady(t, 0, b, key, cur, d, |sh.nodes|, |sh.payloads|, |sh.payloads| + 1)
    ensures b.chain == sh.chain && b.published == sh.published
    ensures var m := FullRun(t, sh.payloads[d].d, key);
      && b.payloads == sh.payloads + [Cell(Filled(t, m[MID..], sh.payloads[d].d.next), |sh.nodes|, 0),
                                      Cell(Filled(t, m[..MID], Some(|sh.nodes|)), cur, 0)]
      && b.nodes == sh.nodes[cur := sh.nodes[cur].(lock := Some(0), hint := t.Hint(m[0]))]
                    + [Node(Some(|sh.payloads|), t.Hint(m[MID]), None, h, seq(MAX_HEIGHT, i => None), m[MID], 0)]
  {
    hide SharedInv, LowerBound, BelongsTo, Filled, Distinct, Unpublished, Splitting, SiblingReady, FirstOf;
    RestParts(t, sh);
    var sib, right, left := |sh.nodes|, |sh.payloads|, |sh.payloads| + 1;
    var s1 := Locked(t, sh, key, cur, d);
    BuildShared(t, 0, s1, key, cur, d, h);
    BuildGuarantee(t, 0, s1, key, cur, d, h);
    var s2 := AfterBuild(t, 0, s1, key, cur, d, h);
    Built(t, s1, key, cur, d, h);
    var m := FullRun(t, sh.payloads[d].d, key);
    SamePublished(t, sh, s2, key);
    HalvesBegin(t, 0, s2, key, cur, d, sib, right, left);
    var s3 := s2.(nodes := s2.nodes[sib := s2.nodes[sib].(hint := t.Hint(m[MID]), data := Some(right))]);
    SiblingEdit(t, 0, s2, s3, key, cur, d, sib, right, left);
    SamePublished(t, sh, s3, key);
    HalfFirst(t, m, sib);
    LeftHintKeeps(t, 0, s3, key, cur, d, sib, right, left, t.Hint(m[0]));
    b := SetHint(t, s3, cur, t.Hint(m[0]));
    SiblingSettled(t, s3, sib, right);
    HeaderEdit(t, 0, s3, b, key, cur, d, sib, right, left, t.Hint(m[0]));
    SamePublished(t, sh, b, key);
  }

  lemma SiblingSettled<E(!new)>(t: Traits<E>, a: Shared<E>, sib: NodeId, right: PayloadId)
    requires sib < |a.nodes| && a.nodes[sib].hint == t.Hint(a.nodes[sib].low) && a.nodes[sib].data == Some(right)
    ensures SiblingReady(t, a, sib, right)
  {
  }

  lemma SamePublished<E(!new)>(t: Traits<E>, a: Shared<E>, b: Shared<E>, key: E)
    requires Unpublished(t, a, key) && b.published == a.published
    ensures Unpublished(t, b, key)
  {
  }

  lemma HalfFirst<E(!new)>(t: Traits<E>, m: seq<E>, sib: NodeId)
    requires |m| == NODE_CAPACITY + 1
    ensures FirstOf(t, Filled(t, m[..MID], Some(sib))) == m[0]
  {
    SeenIsRun(t, Filled(t, m[..MID], Some(sib)));
  }

  /** What create_node, fresh_data and fill leave behind. */
  lemma Built<E(!new)>(t: Traits<E>, a: Shared<E>, key: E, cur: NodeId, d: PayloadId, h: nat)
    requires d < |a.payloads| && a.payloads[d].d.Shaped() && a.payloads[d].d.Count() == NODE_CAPACITY
    ensures var b, m := AfterBuild(t, 0, a, key, cur, d, h), FullRun(t, a.payloads[d].d, key);
      && b.chain == a.chain && b.published == a.published && b.installed == a.installed
      && b.payloads == a.payloads + [Cell(Filled(t, m[MID..], a.payloads[d].d.next), |a.nodes|, 0),
                                     Cell(Filled(t, m[..MID], Some(|a.nodes|)), cur, 0)]
      && b.nodes == a.nodes + [Node(None, 0, None, h, seq(MAX_HEIGHT, i => None), m[MID], 0)]
  {
    hide Filled, LowerBound;
    SeenIsRun(t, a.payloads[d].d);
  }

  /** One split, start to finish, before its sibling is linked into any tower. */
  lemma SplitAtRest<E(!new)>(t: Traits<E>, sh: Shared<E>, key: E, cur: NodeId, d: PayloadId, h: nat) returns (b: Shared<E>)
    requires t.TotalOrder() && t.HintPromise() && AtRest(t, sh) && Unpublished(t, sh, key) && Chosen(t, sh, key, cur, d)
    requires sh.payloads[d].d.Shaped() && sh.payloads[d].d.Count() == NODE_CAPACITY && 1 <= h <= MAX_HEIGHT
    ensures AtRest(t, b) && b.published == sh.published + [key] && b.chain == ChainWith(sh.chain, cur, |sh.nodes|)
    ensures var m := FullRun(t, sh.payloads[d].d, key);
      && b.payloads == sh.payloads + [Cell(Filled(t, m[MID..], sh.payloads[d].d.next), |sh.nodes|, 0),
                                      Cell(Filled(t, m[..MID], Some(|sh.nodes|)), cur, 0)]
      && b.nodes == sh.nodes[cur := sh.nodes[cur].(hint := t.Hint(m[0]), data := Some(|sh.payloads| + 1))]
                    + [Node(Some(|sh.payloads|), t.Hint(m[MID]), None, h, seq(MAX_HEIGHT, i => None), m[MID], 0)]
  {
    hide SharedInv, LowerBound, Filled, Distinct, SwapReady, ChainWith, FullRun, HintExact;
    RestParts(t, sh);
    var s := Prepared(t, sh, key, cur, d, h);
    PublishSplit(t, 0, s, key, cur, d, |sh.nodes|, |sh.payloads|, |sh.payloads| + 1);
    var s' := AfterSwap(t, s, key, cur, |sh.nodes|, |sh.payloads|, |sh.payloads| + 1);
    ChainGrows(sh.chain, cur, |sh.nodes|);
    LockEdit(t, 0, s', cur, None);
    b := SetLock(t, s', cur, None);
    StaysDistinct(t, sh, b, key);
    SplitHint(t, sh, b, key, cur, d);
  }

  lemma SplitHint<E(!new)>(t: Traits<E>, a: Shared<E>, b: Shared<E>, key: E, cur: NodeId, d: PayloadId)
    requires SharedInv(t, a) && HintExact(t, a, 0) && Chosen(t, a, key, cur, d)
    requires a.payloads[d].d.Shaped() && a.payloads[d].d.Count() == NODE_CAPACITY
    requires var m := FullRun(t, a.payloads[d].d, key);
      && |b.payloads| == |a.payloads| + 2 && |b.nodes| == |a.nodes| + 1
      && b.payloads[..|a.payloads|] == a.payloads
      && b.payloads[|a.payloads| + 1].d == Filled(t, m[..MID], Some(|a.nodes|))
      && b.nodes[cur] == a.nodes[cur].(hint := t.Hint(m[0]), data := Some(|a.payloads| + 1))
      && (cur != 0 ==> b.nodes[0] == a.nodes[0])
    ensures HintExact(t, b, 0)
  {
    hide SharedInv, Filled, FullRun;
    HeadFirst(t, a);
    DataIs(t, a, 0);
    HalfFirst(t, FullRun(t, a.payloads[d].d, key), |a.nodes|);
    assert cur != 0 ==> b.payloads[a.nodes[0].data.value] == b.payloads[..|a.payloads|][a.nodes[0].data.value];
  }

  // ---- towers ------------------------------------------------------------------------------

  /** Any forward tower store leaves the structure at rest with the same contents. */
  lemma TowerAtRest<E(!new)>(t: Traits<E>, sh: Shared<E>, n: NodeId, lv: nat, v: Option<NodeId>)
    requires AtRest(t, sh) && n < |sh.nodes| && Forward(t, sh, n, v)
    ensures AtRest(t, SetTower(t, sh, n, lv, v))
  {
    hide SharedInv;
    RestParts(t, sh);
    TowerEdit(t, 0, sh, n, lv, v);
    var b := SetTower(t, sh, n, lv, v);
    assert b.published == sh.published && b.chain == sh.chain && |b.nodes| == |sh.nodes|;
    assert NodeAt(t, b, 0).hint == NodeAt(t, sh, 0).hint && DataOf(t, b, 0) == DataOf(t, sh, 0);
  }
}
