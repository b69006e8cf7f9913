/**
 The split: private allocation, then one store that swaps a node's payload and its
 link to the new sibling together.
 */
module NodeSplit {
  import opened OrderWord
  import opened Ordering
  import opened Payloads
  import opened Machine
  import opened Invariant
  import opened Mutations
  import opened Publishing

  // ---- private allocation --------------------------------------------------------------

  ghost predicate BuildReady<E(!new)>(t: Traits<E>, me: Tid, a: Shared<E>, key: E, cur: NodeId, d: PayloadId)
  {
    SharedInv(t, a) && BelongsTo(t, me, a, key, cur, d) && |a.payloads[d].d.order| == NODE_CAPACITY
  }

  ghost function AfterBuild<E(!new)>(t: Traits<E>, me: Tid, a: Shared<E>, key: E, cur: NodeId, d: PayloadId, h: nat): Shared<E>
    requires d < |a.payloads| && |a.payloads[d].d.order| == NODE_CAPACITY
  {
    Build(t, me, a, cur, d, Merged(t, a.payloads[d].d, a.payloads[d].d.order, key), h)
  }

  lemma BuildChain<E(!new)>(t: Traits<E>, me: Tid, a: Shared<E>, key: E, cur: NodeId, d: PayloadId, h: nat)
    requires BuildReady(t, me, a, key, cur, d) && 1 <= h <= MAX_HEIGHT
    ensures d < |a.payloads|
    ensures ChainOk(t, AfterBuild(t, me, a, key, cur, d, h))
  {
    hide Merged, PayloadsOk, TowersOk, AllLocated, HeadHintLow, Occupied, Filled, Above;
    var b := AfterBuild(t, me, a, key, cur, d, h);
    forall m | m in b.chain
      ensures NodeOk(t, b, m)
    {
      assert NodeOk(t, a, m);
    }
    forall i | 0 <= i < |b.chain|
      ensures NodeAt(t, b, b.chain[i]).low == NodeAt(t, a, a.chain[i]).low
      ensures LinkAt(t, b, i)
    {
      assert LinkAt(t, a, i) && NodeOk(t, a, a.chain[i]);
    }
  }

  lemma BuildPayloads<E(!new)>(t: Traits<E>, me: Tid, a: Shared<E>, key: E, cur: NodeId, d: PayloadId, h: nat)
    requires BuildReady(t, me, a, key, cur, d) && 1 <= h <= MAX_HEIGHT
    ensures d < |a.payloads|
    ensures PayloadsOk(t, AfterBuild(t, me, a, key, cur, d, h))
  {
    hide LanesOk, Sorted, Merged, TowersOk, AllLocated, HeadHintLow, Occupied, Filled, ChainOk, Above;
    var b := AfterBuild(t, me, a, key, cur, d, h);
    forall p | p in b.installed
      ensures p < |b.payloads| && PayloadOk(t, b, p) && OnlyPublished(b, p) && LanesOk(t, b, p)
    {
      assert p < |a.payloads| && PayloadOk(t, a, p) && OnlyPublished(a, p) && LanesOk(t, a, p);
      var x := a.payloads[p].d;
      assert x.next.Some? ==> BelowNext(t, a, x) && BelowNext(t, b, x);
      SameLanes(t, a, b, p);
    }
  }

  lemma BuildRest<E(!new)>(t: Traits<E>, me: Tid, a: Shared<E>, key: E, cur: NodeId, d: PayloadId, h: nat)
    requires BuildReady(t, me, a, key, cur, d) && 1 <= h <= MAX_HEIGHT
    ensures d < |a.payloads|
    ensures var b := AfterBuild(t, me, a, key, cur, d, h);
      TowersOk(t, b) && AllLocated(t, b) && HeadHintLow(t, b) && Occupied(b)
  {
    hide Merged, PayloadsOk, Filled, Above;
    var b := AfterBuild(t, me, a, key, cur, d, h);
    forall m | 0 <= m < |b.nodes|
      ensures TowerOk(t, b, m)
    {
      if m < |a.nodes| {
        assert TowerOk(t, a, m);
        forall lv | 0 <= lv < MAX_HEIGHT
          ensures Forward(t, b, m, b.nodes[m].tower[lv])
        {
          assert Forward(t, a, m, a.nodes[m].tower[lv]);
        }
      }
    }
    forall i | 0 <= i < |b.published|
      ensures Located(t, b, b.published[i])
    {
      assert Located(t, a, a.published[i]);
      var m :| m in a.chain && HeldBy(t, a, a.published[i], m);
      assert NodeOk(t, a, m);
      assert HeldBy(t, b, b.published[i], m);
    }
    assert NodeOk(t, a, 0);
    assert forall p :: p in b.installed && p < |b.payloads| ==> p < |a.payloads| by { InstalledInRange(t, a); }
  }

  lemma ChainInRange<E(!new)>(t: Traits<E>, a: Shared<E>)
    requires SharedInv(t, a)
    ensures forall n :: n in a.chain ==> n < |a.nodes|
    ensures 0 in a.chain && 0 < |a.payloads|
  {
    forall n | n in a.chain
      ensures n < |a.nodes|
    {
      assert NodeOk(t, a, n);
    }
    assert a.chain[0] == 0 && NodeOk(t, a, 0);
  }

  lemma InstalledInRange<E(!new)>(t: Traits<E>, a: Shared<E>)
    requires SharedInv(t, a)
    ensures forall p :: p in a.installed ==> p < |a.payloads|
  {
  }

  lemma BuildGuarantee<E(!new)>(t: Traits<E>, me: Tid, a: Shared<E>, key: E, cur: NodeId, d: PayloadId, h: nat)
    requires BuildReady(t, me, a, key, cur, d) && 1 <= h <= MAX_HEIGHT
    ensures d < |a.payloads|
    ensures Guarantee(t, me, a, AfterBuild(t, me, a, key, cur, d, h))
    ensures Splitting(t, me, AfterBuild(t, me, a, key, cur, d, h), key, cur, d, |a.nodes|, |a.payloads|, |a.payloads| + 1)
  {
    hide LanesExact, PrefixLongEnough, Sorted, Merged, PayloadOk, TowersOk, LanesOk;
    var b := AfterBuild(t, me, a, key, cur, d, h);
    forall m | 0 <= m < |a.nodes|
      ensures NodeGrows(me, a, b, m)
    {
    }
    forall p | 0 <= p < |a.payloads|
      ensures CellGrows(me, a, b, p)
    {
      SamePayloadGrows(a.payloads[p].d);
    }
    ChainInRange(t, a);
    InstalledInRange(t, a);
  }

  // ---- the swap --------------------------------------------------------------------------

  ghost predicate SwapReady<E(!new)>(t: Traits<E>, me: Tid, a: Shared<E>, key: E, cur: NodeId, d: PayloadId,
                                     sib: NodeId, right: PayloadId, left: PayloadId)
  {
    && t.TotalOrder() && t.HintPromise()
    && SharedInv(t, a) && Unpublished(t, a, key)
    && Splitting(t, me, a, key, cur, d, sib, right, left)
    && SiblingReady(t, a, sib, right)
    && HintLowered(t, a, cur, FirstOf(t, a.payloads[left].d))
  }

  ghost function AfterSwap<E(!new)>(t: Traits<E>, a: Shared<E>, key: E, cur: NodeId, sib: NodeId,
                                    right: PayloadId, left: PayloadId): Shared<E>
  {
    SetData(t, a, cur, left).(chain := ChainWith(a.chain, cur, sib),
                              installed := a.installed + {left, right},
                              published := a.published + [key])
  }

  ghost function MergedRun<E(!new)>(t: Traits<E>, a: Shared<E>, key: E, d: PayloadId): (m: seq<E>)
    requires d < |a.payloads| && |a.payloads[d].d.order| == NODE_CAPACITY
    ensures |m| == NODE_CAPACITY + 1
  {
    Merged(t, a.payloads[d].d, a.payloads[d].d.order, key)
  }

  lemma SpliceMembers<E(!new)>(s: seq<E>, r: nat, key: E)
    requires r <= |s|
    ensures forall i :: 0 <= i < |s| + 1 ==> Splice(s, r, key)[i] in s || Splice(s, r, key)[i] == key
    ensures key in Splice(s, r, key) && forall e :: e in s ==> e in Splice(s, r, key)
  {
    var m := Splice(s, r, key);
    assert m[r] == key;
    forall e | e in s
      ensures e in m
    {
      var k :| 0 <= k < |s| && s[k] == e;
      assert m[if k < r then k else k + 1] == e;
    }
  }

  /** The run is made of the node's keys and the new one. */
  ghost predicate SwapRunIs<E(!new)>(t: Traits<E>, a: Shared<E>, key: E, d: PayloadId, m: seq<E>)
    requires d < |a.payloads| && a.payloads[d].d.Shaped()
  {
    && (forall i :: 0 <= i < |m| ==> m[i] in a.payloads[d].d.Run() || m[i] == key)
    && key in m && (forall e :: e in a.payloads[d].d.Run() ==> e in m)
  }

  ghost predicate SwapBelow<E(!new)>(t: Traits<E>, a: Shared<E>, d: PayloadId, m: seq<E>)
    requires d < |a.payloads|
  {
    a.payloads[d].d.next.Some? ==>
      (a.payloads[d].d.next.value < |a.nodes| && forall e :: e in m ==> t.Lt(e, a.nodes[a.payloads[d].d.next.value].low))
  }

  /** The merged run: sorted, inside the node's range, made of the node's keys and the new one. */
  lemma MergedFacts<E(!new)>(t: Traits<E>, me: Tid, a: Shared<E>, key: E, cur: NodeId, d: PayloadId,
                             sib: NodeId, right: PayloadId, left: PayloadId)
    requires SwapReady(t, me, a, key, cur, d, sib, right, left)
    ensures d in a.installed && d < |a.payloads| && |a.payloads[d].d.order| == NODE_CAPACITY && a.payloads[d].d.Shaped()
    ensures var m := MergedRun(t, a, key, d);
      && Sorted(t, m)
      && (cur != 0 ==> m[0] == a.nodes[cur].low)
      && SwapRunIs(t, a, key, d, m) && SwapBelow(t, a, d, m)
  {
    hide LanesOk, HeadHintLow, TowersOk, AllLocated, SiblingReady, HintLowered, ChainOk, Occupied, LowerBound;
    assert d < |a.payloads| && PayloadOk(t, a, d) && OnlyPublished(a, d);
    var p, m := a.payloads[d].d, MergedRun(t, a, key, d);
    SeenIsRun(t, p);
    FreshInNode(t, a, d, key);
    SpliceSorted(t, p.Run(), key);
    SpliceMembers(p.Run(), LowerBound(t, p.Run(), key), key);
    if cur != 0 {
      assert p.Run()[0] == a.nodes[cur].low && t.compare(p.Run()[0], key) != 0;
    }
    forall e | e in m && p.next.Some?
      ensures t.Lt(e, a.nodes[p.next.value].low)
    {
      if e in p.Run() {
        RunOnlyNames(p, e);
        assert BelowNext(t, a, p);
      }
    }
  }

  lemma FilledFacts<E(!new)>(t: Traits<E>, m: seq<E>, lo: nat, hi: nat, next: Option<NodeId>)
    requires t.TotalOrder() && Sorted(t, m) && lo + 2 <= hi <= |m| && hi - lo <= NODE_CAPACITY
    ensures var q := Filled(t, m[lo..hi], next);
      && q.Shaped() && q.Count() == hi - lo && q.Run() == m[lo..hi] && Sorted(t, q.Run()) && q.KeyAt(0) == m[lo]
      && SeenRun(t, q, q.order) == m[lo..hi] && FirstOf(t, q) == m[lo]
      && (forall s :: 0 <= s < q.Count() ==> q.keys[s] == m[lo + s])
      && (t.Bytewise() ==> LanesExact(t, q) && PrefixLongEnough(t, q))
  {
    hide LanesExact;
    var q := Filled(t, m[lo..hi], next);
    SeenIsRun(t, q);
    assert Sorted(t, m[lo..hi]);
    if t.Bytewise() { FilledLanes(t, m[lo..hi], next); }
  }

  /** One half of the merged run, as a payload. */
  ghost predicate Half<E(!new)>(t: Traits<E>, q: Payload<E>, ks: seq<E>)
  {
    && q.Shaped() && q.Count() == |ks| == MID && q.Run() == ks && SeenRun(t, q, q.order) == ks
    && Sorted(t, ks) && q.KeyAt(0) == ks[0] && FirstOf(t, q) == ks[0]
    && (forall s :: 0 <= s < MID ==> q.keys[s] == ks[s])
    && (t.Bytewise() ==> LanesExact(t, q) && PrefixLongEnough(t, q))
  }

  lemma FilledHalf<E(!new)>(t: Traits<E>, m: seq<E>, lo: nat, hi: nat, next: Option<NodeId>)
    requires t.TotalOrder() && Sorted(t, m) && hi == lo + MID <= |m|
    ensures Half(t, Filled(t, m[lo..hi], next), m[lo..hi]) && Filled(t, m[lo..hi], next).next == next
    ensures FirstOf(t, Filled(t, m[lo..hi], next)) == m[lo]
  {
    FilledFacts(t, m, lo, hi, next);
  }

  ghost predicate SwapNodesAre<E(!new)>(t: Traits<E>, a: Shared<E>, cur: NodeId, d: PayloadId,
                                        sib: NodeId, right: PayloadId, left: PayloadId, m: seq<E>)
  {
    && |m| == NODE_CAPACITY + 1
    && cur in a.chain && cur < |a.nodes| && a.nodes[cur].data == Some(d) && d in a.installed && d < |a.payloads|
    && a.payloads[d].home == cur && a.payloads[d].d.Shaped() && a.payloads[d].d.Count() == NODE_CAPACITY
    && sib < |a.nodes| && sib !in a.chain && sib != 0 && a.nodes[sib].low == m[MID]
    && a.nodes[sib].data == Some(right) && a.nodes[sib].hint == t.Hint(m[MID])
    && right < |a.payloads| && left < |a.payloads| && left != right && left != 0 && right != 0
    && right !in a.installed && left !in a.installed
    && a.payloads[right].home == sib && a.payloads[right].d.next == a.payloads[d].d.next
    && a.payloads[left].home == cur && a.payloads[left].d.next == Some(sib)
    && (cur != 0 ==> m[0] == a.nodes[cur].low)
    && (cur == 0 ==> a.nodes[0].hint == t.Hint(m[0]))
  }

  /** The state just before the swap, in the terms the proofs below use. */
  ghost predicate SwapShape<E(!new)>(t: Traits<E>, a: Shared<E>, b: Shared<E>, key: E, cur: NodeId, d: PayloadId,
                                     sib: NodeId, right: PayloadId, left: PayloadId, m: seq<E>)
  {
    && SharedInv(t, a) && t.TotalOrder() && Sorted(t, m)
    && SwapNodesAre(t, a, cur, d, sib, right, left, m)
    && SwapRunIs(t, a, key, d, m) && SwapBelow(t, a, d, m)
    && Half(t, a.payloads[left].d, m[..MID]) && Half(t, a.payloads[right].d, m[MID..])
    && b == AfterSwap(t, a, key, cur, sib, right, left)
  }

  lemma SwapNodesHold<E(!new)>(t: Traits<E>, me: Tid, a: Shared<E>, key: E, cur: NodeId, d: PayloadId,
                               sib: NodeId, right: PayloadId, left: PayloadId)
    requires SwapReady(t, me, a, key, cur, d, sib, right, left)
    ensures d < |a.payloads| && |a.payloads[d].d.order| == NODE_CAPACITY
    ensures SwapNodesAre(t, a, cur, d, sib, right, left, MergedRun(t, a, key, d))
  {
    hide Filled, ChainOk, PayloadsOk, TowersOk, AllLocated, HeadHintLow, Occupied, SharedInv;
    hide Merged, Half, LanesExact, PrefixLongEnough, Unpublished;
    MergedFacts(t, me, a, key, cur, d, sib, right, left);
    var m := MergedRun(t, a, key, d);
    assert m[MID..] == m[MID..|m|] && m[..MID] == m[0..MID];
    FilledHalf(t, m, 0, MID, Some(sib));
    FilledHalf(t, m, MID, |m|, a.payloads[d].d.next);
  }

  lemma SwapShapeHolds<E(!new)>(t: Traits<E>, me: Tid, a: Shared<E>, key: E, cur: NodeId, d: PayloadId,
                                sib: NodeId, right: PayloadId, left: PayloadId)
    requires SwapReady(t, me, a, key, cur, d, sib, right, left)
    ensures d < |a.payloads| && |a.payloads[d].d.order| == NODE_CAPACITY
    ensures SwapShape(t, a, AfterSwap(t, a, key, cur, sib, right, left), key, cur, d, sib, right, left, MergedRun(t, a, key, d))
  {
    hide Filled, ChainOk, PayloadsOk, TowersOk, AllLocated, HeadHintLow, Occupied, SharedInv;
    hide Merged, Half, LanesExact, PrefixLongEnough, Unpublished, SwapNodesAre, SwapRunIs, SwapBelow, AfterSwap, BelongsTo;
    SwapNodesHold(t, me, a, key, cur, d, sib, right, left);
    MergedFacts(t, me, a, key, cur, d, sib, right, left);
    var m := MergedRun(t, a, key, d);
    assert m[MID..] == m[MID..|m|] && m[..MID] == m[0..MID];
    FilledHalf(t, m, 0, MID, Some(sib));
    FilledHalf(t, m, MID, |m|, a.payloads[d].d.next);
  }

  lemma MergedPublished<E(!new)>(t: Traits<E>, a: Shared<E>, b: Shared<E>, key: E, cur: NodeId, d: PayloadId,
                                 sib: NodeId, right: PayloadId, left: PayloadId, m: seq<E>)
    requires SwapShape(t, a, b, key, cur, d, sib, right, left, m)
    ensures forall i :: 0 <= i < |m| ==> m[i] in b.published
  {
    hide Half, SwapBelow, LanesOk, ChainOk, TowersOk, AllLocated, HeadHintLow, Occupied, Sorted;
    assert OnlyPublished(a, d);
    forall i | 0 <= i < |m|
      ensures m[i] in b.published
    {
      if m[i] in a.payloads[d].d.Run() { RunOnlyNames(a.payloads[d].d, m[i]); }
    }
  }

  lemma SwapLeft<E(!new)>(t: Traits<E>, a: Shared<E>, b: Shared<E>, key: E, cur: NodeId, d: PayloadId,
                          sib: NodeId, right: PayloadId, left: PayloadId, m: seq<E>)
    requires SwapShape(t, a, b, key, cur, d, sib, right, left, m)
    ensures |b.payloads| == |a.payloads|
    ensures PayloadOk(t, b, left) && OnlyPublished(b, left) && LanesOk(t, b, left)
  {
    hide SharedInv, LanesExact, PrefixLongEnough, Sorted, SwapRunIs, SwapBelow;
    ChainGrows(a.chain, cur, sib);
    MergedPublished(t, a, b, key, cur, d, sib, right, left, m);
    SortedAt(t, m);
  }

  lemma SwapRight<E(!new)>(t: Traits<E>, a: Shared<E>, b: Shared<E>, key: E, cur: NodeId, d: PayloadId,
                           sib: NodeId, right: PayloadId, left: PayloadId, m: seq<E>)
    requires SwapShape(t, a, b, key, cur, d, sib, right, left, m)
    ensures |b.payloads| == |a.payloads|
    ensures PayloadOk(t, b, right) && OnlyPublished(b, right) && LanesOk(t, b, right)
  {
    hide SharedInv, LanesExact, PrefixLongEnough, Sorted, SwapRunIs, ChainWith, Unpublished;
    InstalledNext(t, a, d);
    ChainGrows(a.chain, cur, sib);
    MergedPublished(t, a, b, key, cur, d, sib, right, left, m);
    var q := b.payloads[right].d;
    forall s | 0 <= s < q.Count()
      ensures q.keys[s] in b.published
      ensures q.next.Some? ==> t.Lt(q.keys[s], b.nodes[q.next.value].low)
    {
      assert q.keys[s] == m[MID + s];
    }
    assert q.next.Some? ==> t.Lt(m[MID], b.nodes[q.next.value].low);
  }

  lemma InstalledNext<E(!new)>(t: Traits<E>, a: Shared<E>, d: PayloadId)
    requires SharedInv(t, a) && d in a.installed
    ensures d < |a.payloads|
    ensures var v := a.payloads[d].d.next; v.Some? ==> v.value in a.chain && v.value != 0 && v.value < |a.nodes|
  {
    assert PayloadOk(t, a, d);
  }

  /** What the chain says about position j. */
  lemma ChainPosition<E(!new)>(t: Traits<E>, a: Shared<E>, i: nat, j: nat)
    requires SharedInv(t, a) && i < |a.chain| && j < |a.chain|
    ensures LinkAt(t, a, j) && a.chain[j] < |a.nodes| && (i != j ==> a.chain[i] != a.chain[j])
    ensures DataOf(t, a, a.chain[j]) in a.installed && DataOf(t, a, a.chain[j]) < |a.payloads|
  {
    hide PayloadsOk, TowersOk, AllLocated, HeadHintLow, Occupied, Ascending;
    assert NodeOk(t, a, a.chain[j]);
  }

  lemma SortedAt<E(!new)>(t: Traits<E>, m: seq<E>)
    requires Sorted(t, m)
    ensures forall i, j :: 0 <= i < j < |m| ==> t.Lt(m[i], m[j])
  {
  }

  lemma ChainGrows(chain: seq<NodeId>, cur: NodeId, sib: NodeId)
    requires cur in chain
    ensures forall n :: n in ChainWith(chain, cur, sib) <==> n in chain || n == sib
    ensures |ChainWith(chain, cur, sib)| == |chain| + 1
  {
    var i, c := IndexOf(chain, cur), ChainWith(chain, cur, sib);
    assert chain == chain[..i + 1] + chain[i + 1..];
  }

  lemma SwapPayloads<E(!new)>(t: Traits<E>, a: Shared<E>, b: Shared<E>, key: E, cur: NodeId, d: PayloadId,
                              sib: NodeId, right: PayloadId, left: PayloadId, m: seq<E>)
    requires SwapShape(t, a, b, key, cur, d, sib, right, left, m)
    ensures PayloadsOk(t, b)
  {
    hide Half, LanesExact, PrefixLongEnough, TowersOk, AllLocated, HeadHintLow, Occupied, Sorted, ChainOk, SwapRunIs, SwapBelow;
    SwapLeft(t, a, b, key, cur, d, sib, right, left, m);
    SwapRight(t, a, b, key, cur, d, sib, right, left, m);
    ChainGrows(a.chain, cur, sib);
    forall p | p in b.installed
      ensures p < |b.payloads| && PayloadOk(t, b, p) && OnlyPublished(b, p) && LanesOk(t, b, p)
    {
      if p in a.installed {
        assert p < |a.payloads| && PayloadOk(t, a, p) && OnlyPublished(a, p) && LanesOk(t, a, p);
        var x := a.payloads[p].d;
        assert x.next.Some? ==> BelowNext(t, a, x) && BelowNext(t, b, x);
        SameLanes(t, a, b, p);
      }
    }
  }

  lemma SwapNodes<E(!new)>(t: Traits<E>, a: Shared<E>, b: Shared<E>, key: E, cur: NodeId, d: PayloadId,
                           sib: NodeId, right: PayloadId, left: PayloadId, m: seq<E>)
    requires SwapShape(t, a, b, key, cur, d, sib, right, left, m)
    ensures forall n :: n in b.chain ==> NodeOk(t, b, n)
    ensures TowersOk(t, b)
  {
    hide Half, PayloadsOk, AllLocated, SwapRunIs, SwapBelow, Linked, Ascending, HeadHintLow, Occupied, Sorted;
    ChainGrows(a.chain, cur, sib);
    forall n | n in b.chain
      ensures NodeOk(t, b, n)
    {
      if n in a.chain { assert NodeOk(t, a, n); }
    }
    TowersFrame(t, a, b);
  }

  lemma SwapHeadHint<E(!new)>(t: Traits<E>, a: Shared<E>, b: Shared<E>, key: E, cur: NodeId, d: PayloadId,
                              sib: NodeId, right: PayloadId, left: PayloadId, m: seq<E>)
    requires SwapShape(t, a, b, key, cur, d, sib, right, left, m)
    ensures HeadHintLow(t, b)
  {
    hide LanesExact, PrefixLongEnough, PayloadsOk, AllLocated, SwapRunIs, SwapBelow, Linked, Ascending, TowersOk, Sorted, Occupied;
    assert NodeOk(t, a, 0);
  }

  lemma SwapCounts<E(!new)>(t: Traits<E>, a: Shared<E>, b: Shared<E>, key: E, cur: NodeId, d: PayloadId,
                            sib: NodeId, right: PayloadId, left: PayloadId, m: seq<E>)
    requires SwapShape(t, a, b, key, cur, d, sib, right, left, m)
    ensures Occupied(b)
  {
    hide LanesExact, PrefixLongEnough, LanesOk, OnlyPublished, AllLocated, SwapRunIs, SwapBelow;
    hide ChainOk, TowersOk, Sorted, HeadHintLow;
    ChainGrows(a.chain, cur, sib);
    forall p | p in b.installed && p < |b.payloads|
      ensures |b.payloads[p].d.order| >= MID
    {
      if p in a.installed {
        assert PayloadOk(t, a, p);
        OnlyHead(a.chain, a.payloads[p].home, cur);
      }
    }
  }

  lemma OnlyHead(chain: seq<NodeId>, x: NodeId, y: NodeId)
    requires x in chain && y in chain
    ensures |chain| == 1 ==> x == y
  {
  }

  lemma SwapChain<E(!new)>(t: Traits<E>, a: Shared<E>, b: Shared<E>, key: E, cur: NodeId, d: PayloadId,
                           sib: NodeId, right: PayloadId, left: PayloadId, m: seq<E>)
    requires SwapShape(t, a, b, key, cur, d, sib, right, left, m)
    ensures ChainOk(t, b)
  {
    SwapNodes(t, a, b, key, cur, d, sib, right, left, m);
    SwapLinks(t, a, b, key, cur, d, sib, right, left, m);
    SwapAscending(t, a, b, key, cur, d, sib, right, left, m);
  }

  /** Position j of the longer chain, in terms of the shorter one; the sibling sits at i + 1. */
  lemma ChainAt(chain: seq<NodeId>, cur: NodeId, sib: NodeId, j: nat)
    requires cur in chain && j <= |chain|
    ensures |ChainWith(chain, cur, sib)| == |chain| + 1
    ensures var i, c := IndexOf(chain, cur), ChainWith(chain, cur, sib);
      c[j] == if j <= i then chain[j] else if j == i + 1 then sib else chain[j - 1]
  {
  }

  lemma SwapLinks<E(!new)>(t: Traits<E>, a: Shared<E>, b: Shared<E>, key: E, cur: NodeId, d: PayloadId,
                           sib: NodeId, right: PayloadId, left: PayloadId, m: seq<E>)
    requires SwapShape(t, a, b, key, cur, d, sib, right, left, m)
    ensures |b.chain| > 0 && b.chain[0] == 0 && Linked(t, b)
    ensures forall i, j :: 0 <= i < j < |b.chain| ==> b.chain[i] != b.chain[j]
  {
    hide Half, SwapRunIs, SwapBelow, TowersOk, AllLocated, HeadHintLow, Occupied, PayloadsOk, Sorted;
    var i := IndexOf(a.chain, cur);
    forall j | 0 <= j < |b.chain|
      ensures LinkAt(t, b, j)
    {
      ChainAt(a.chain, cur, sib, j);
      if j + 1 < |b.chain| { ChainAt(a.chain, cur, sib, j + 1); }
      SwapLink(t, a, b, key, cur, d, sib, right, left, m, j);
    }
    ChainAt(a.chain, cur, sib, 0);
    forall j, k | 0 <= j < k < |b.chain|
      ensures b.chain[j] != b.chain[k]
    {
      ChainAt(a.chain, cur, sib, j);
      ChainAt(a.chain, cur, sib, k);
    }
  }

  lemma SwapLink<E(!new)>(t: Traits<E>, a: Shared<E>, b: Shared<E>, key: E, cur: NodeId, d: PayloadId,
                          sib: NodeId, right: PayloadId, left: PayloadId, m: seq<E>, j: nat)
    requires SwapShape(t, a, b, key, cur, d, sib, right, left, m) && j < |b.chain|
    ensures LinkAt(t, b, j)
  {
    hide Half, SwapRunIs, SwapBelow, SharedInv, Sorted, ChainWith, IndexOf;
    var i := IndexOf(a.chain, cur);
    ChainGrows(a.chain, cur, sib);
    ChainAt(a.chain, cur, sib, j);
    if j + 1 < |b.chain| { ChainAt(a.chain, cur, sib, j + 1); }
    ChainPosition(t, a, i, i);
    if j <= i { ChainPosition(t, a, i, j); } else if j > i + 1 { ChainPosition(t, a, i, j - 1); }
  }

  lemma SwapAscending<E(!new)>(t: Traits<E>, a: Shared<E>, b: Shared<E>, key: E, cur: NodeId, d: PayloadId,
                               sib: NodeId, right: PayloadId, left: PayloadId, m: seq<E>)
    requires SwapShape(t, a, b, key, cur, d, sib, right, left, m)
    ensures Ascending(t, b)
  {
    hide SwapShape;
    forall j, k | 1 <= j < k < |b.chain|
      ensures t.Lt(NodeAt(t, b, b.chain[j]).low, NodeAt(t, b, b.chain[k]).low)
    {
      SwapPair(t, a, b, key, cur, d, sib, right, left, m, j, k);
    }
  }

  lemma SwapLow<E(!new)>(t: Traits<E>, a: Shared<E>, b: Shared<E>, key: E, cur: NodeId, d: PayloadId,
                         sib: NodeId, right: PayloadId, left: PayloadId, m: seq<E>, j: nat)
    requires SwapShape(t, a, b, key, cur, d, sib, right, left, m) && j < |b.chain|
    ensures |b.chain| == |a.chain| + 1 && cur in a.chain
    ensures IndexOf(a.chain, cur) < |a.chain|
    ensures NodeAt(t, b, b.chain[j]).low ==
            if j <= IndexOf(a.chain, cur) then NodeAt(t, a, a.chain[j]).low
            else if j == IndexOf(a.chain, cur) + 1 then m[MID] else NodeAt(t, a, a.chain[j - 1]).low
  {
    hide Half, SwapRunIs, SwapBelow, SharedInv, Sorted, ChainWith, IndexOf;
    ChainGrows(a.chain, cur, sib);
    ChainAt(a.chain, cur, sib, j);
  }

  lemma SwapPair<E(!new)>(t: Traits<E>, a: Shared<E>, b: Shared<E>, key: E, cur: NodeId, d: PayloadId,
                          sib: NodeId, right: PayloadId, left: PayloadId, m: seq<E>, j: nat, k: nat)
    requires SwapShape(t, a, b, key, cur, d, sib, right, left, m) && 1 <= j < k < |b.chain|
    ensures t.Lt(NodeAt(t, b, b.chain[j]).low, NodeAt(t, b, b.chain[k]).low)
  {
    hide Half, SwapRunIs, SwapBelow, SwapNodesAre, TowersOk, AllLocated, HeadHintLow, Occupied, PayloadsOk, Linked, Sorted;
    var i := IndexOf(a.chain, cur);
    SwapLow(t, a, b, key, cur, d, sib, right, left, m, j);
    SwapLow(t, a, b, key, cur, d, sib, right, left, m, k);
    if k == i + 1 {
      SiblingAbove(t, a, b, key, cur, d, sib, right, left, m, j);
    } else if j == i + 1 {
      SiblingBelow(t, a, b, key, cur, d, sib, right, left, m, k - 1);
    }
  }

  lemma SiblingAbove<E(!new)>(t: Traits<E>, a: Shared<E>, b: Shared<E>, key: E, cur: NodeId, d: PayloadId,
                              sib: NodeId, right: PayloadId, left: PayloadId, m: seq<E>, j: nat)
    requires SwapShape(t, a, b, key, cur, d, sib, right, left, m)
    requires 1 <= j <= IndexOf(a.chain, cur)
    ensures t.Lt(NodeAt(t, a, a.chain[j]).low, m[MID])
  {
    hide Half, SwapRunIs, SwapBelow, TowersOk, AllLocated, HeadHintLow, Occupied, PayloadsOk, Linked;
    var i := IndexOf(a.chain, cur);
    assert cur != 0 && t.Lt(m[0], m[MID]);
    if j < i { t.Order3(NodeAt(t, a, a.chain[j]).low, m[0], m[MID]); t.Order3(m[0], m[MID], m[0]); }
  }

  lemma SiblingBelow<E(!new)>(t: Traits<E>, a: Shared<E>, b: Shared<E>, key: E, cur: NodeId, d: PayloadId,
                              sib: NodeId, right: PayloadId, left: PayloadId, m: seq<E>, k: nat)
    requires SwapShape(t, a, b, key, cur, d, sib, right, left, m)
    requires IndexOf(a.chain, cur) < k < |a.chain|
    ensures t.Lt(m[MID], NodeAt(t, a, a.chain[k]).low)
  {
    hide Half, SwapRunIs, TowersOk, AllLocated, HeadHintLow, Occupied, PayloadsOk;
    var i := IndexOf(a.chain, cur);
    assert LinkAt(t, a, i);
    var nx := NodeAt(t, a, a.chain[i + 1]).low;
    assert m[MID] in m && t.Lt(m[MID], nx);
    if i + 1 < k {
      t.Order3(m[MID], nx, NodeAt(t, a, a.chain[k]).low);
      t.Order3(nx, NodeAt(t, a, a.chain[k]).low, nx);
    }
  }

  lemma SwapLocated<E(!new)>(t: Traits<E>, a: Shared<E>, b: Shared<E>, key: E, cur: NodeId, d: PayloadId,
                             sib: NodeId, right: PayloadId, left: PayloadId, m: seq<E>)
    requires SwapShape(t, a, b, key, cur, d, sib, right, left, m)
    ensures AllLocated(t, b)
  {
    hide Half, SwapBelow, TowersOk, HeadHintLow, Occupied, PayloadsOk, HeldBy, ChainOk;
    ChainGrows(a.chain, cur, sib);
    forall i | 0 <= i < |b.published|
      ensures Located(t, b, b.published[i])
    {
      var e := b.published[i];
      if e in m {
        SwapHolds(t, a, b, key, cur, d, sib, right, left, m, e);
      } else {
        assert Located(t, a, a.published[i]);
        var n :| n in a.chain && HeldBy(t, a, e, n);
        SwapStillHolds(t, a, b, key, cur, d, sib, right, left, m, e, n);
      }
    }
  }

  lemma HalfHolds<E(!new)>(t: Traits<E>, q: Payload<E>, ks: seq<E>, e: E)
    requires Half(t, q, ks) && e in ks
    ensures e in SeenRun(t, q, q.order)
  {
  }

  lemma SwapHolds<E(!new)>(t: Traits<E>, a: Shared<E>, b: Shared<E>, key: E, cur: NodeId, d: PayloadId,
                           sib: NodeId, right: PayloadId, left: PayloadId, m: seq<E>, e: E)
    requires SwapShape(t, a, b, key, cur, d, sib, right, left, m) && e in m
    ensures HeldBy(t, b, e, cur) || HeldBy(t, b, e, sib)
  {
    hide SharedInv, Sorted, SwapRunIs, SwapBelow, Half, ChainWith;
    assert m == m[..MID] + m[MID..];
    if e in m[..MID] {
      HalfHolds(t, a.payloads[left].d, m[..MID], e);
    } else {
      HalfHolds(t, a.payloads[right].d, m[MID..], e);
    }
  }

  lemma SwapStillHolds<E(!new)>(t: Traits<E>, a: Shared<E>, b: Shared<E>, key: E, cur: NodeId, d: PayloadId,
                                sib: NodeId, right: PayloadId, left: PayloadId, m: seq<E>, e: E, n: NodeId)
    requires SwapShape(t, a, b, key, cur, d, sib, right, left, m) && e !in m
    requires n in a.chain && HeldBy(t, a, e, n)
    ensures HeldBy(t, b, e, n)
  {
    hide Half, SwapBelow, TowersOk, HeadHintLow, Occupied, PayloadsOk, Sorted, AllLocated;
    SeenIsRun(t, a.payloads[d].d);
    assert n != cur && n != sib;
  }

  lemma SwapGuarantee<E(!new)>(t: Traits<E>, me: Tid, a: Shared<E>, key: E, cur: NodeId, d: PayloadId,
                               sib: NodeId, right: PayloadId, left: PayloadId)
    requires SwapReady(t, me, a, key, cur, d, sib, right, left)
    ensures Guarantee(t, me, a, AfterSwap(t, a, key, cur, sib, right, left))
  {
    hide Filled, TowersOk, HeadHintLow, Occupied, PayloadsOk, ChainOk, Merged, AllLocated;
    var b := AfterSwap(t, a, key, cur, sib, right, left);
    ChainGrows(a.chain, cur, sib);
    forall n | 0 <= n < |a.nodes|
      ensures NodeGrows(me, a, b, n)
    {
    }
    forall p | 0 <= p < |a.payloads|
      ensures CellGrows(me, a, b, p)
    {
      SamePayloadGrows(a.payloads[p].d);
    }
  }

  /** The split's payload store: contents and successor change together, and nothing is lost or doubled. */
  lemma PublishSplit<E(!new)>(t: Traits<E>, me: Tid, a: Shared<E>, key: E, cur: NodeId, d: PayloadId,
                              sib: NodeId, right: PayloadId, left: PayloadId)
    requires SwapReady(t, me, a, key, cur, d, sib, right, left)
    ensures SharedInv(t, AfterSwap(t, a, key, cur, sib, right, left))
    ensures Guarantee(t, me, a, AfterSwap(t, a, key, cur, sib, right, left))
  {
    hide SwapReady, AfterSwap, Guarantee, SwapShape, MergedRun;
    SwapShapeHolds(t, me, a, key, cur, d, sib, right, left);
    var b, m := AfterSwap(t, a, key, cur, sib, right, left), MergedRun(t, a, key, d);
    SwapChain(t, a, b, key, cur, d, sib, right, left, m);
    SwapPayloads(t, a, b, key, cur, d, sib, right, left, m);
    SwapCounts(t, a, b, key, cur, d, sib, right, left, m);
    SwapHeadHint(t, a, b, key, cur, d, sib, right, left, m);
    SwapNodes(t, a, b, key, cur, d, sib, right, left, m);
    SwapLocated(t, a, b, key, cur, d, sib, right, left, m);
    SwapGuarantee(t, me, a, key, cur, d, sib, right, left);
  }
}
