/**
 Every way a step changes the shared structure keeps its invariant and keeps the
 Guarantee towards all other threads.
 */
module Mutations {
  import opened Ordering
  import opened Payloads
  import opened Machine
  import opened Invariant

  // ---- a node's lock, hint or tower --------------------------------------------------

  /** A store to a node that is not its publication: a published node keeps its payload. */
  ghost predicate NodeEdit<E(!new)>(t: Traits<E>, a: Shared<E>, b: Shared<E>, n: NodeId)
  {
    && n < |a.nodes| && |b.nodes| == |a.nodes|
    && b == a.(nodes := a.nodes[n := b.nodes[n]])
    && b.nodes[n].low == a.nodes[n].low && b.nodes[n].maker == a.nodes[n].maker && b.nodes[n].height == a.nodes[n].height
    && |b.nodes[n].tower| == |a.nodes[n].tower|
    && (n in a.chain ==> b.nodes[n].data == a.nodes[n].data)
    && (n in a.chain && n != 0 ==> b.nodes[n].hint == a.nodes[n].hint)
  }

  lemma EditNode<E(!new)>(t: Traits<E>, me: Tid, a: Shared<E>, b: Shared<E>, n: NodeId)
    requires SharedInv(t, a) && NodeEdit(t, a, b, n)
    requires forall lv :: 0 <= lv < |b.nodes[n].tower| ==> Forward(t, a, n, b.nodes[n].tower[lv])
    requires n == 0 ==> HeadHintLow(t, b)
    requires n in a.chain && LockedByOther(me, a, n) ==> b.nodes[n].lock == a.nodes[n].lock && b.nodes[n].hint == a.nodes[n].hint
    requires n !in a.chain ==> a.nodes[n].maker == me
    ensures SharedInv(t, b) && Guarantee(t, me, a, b)
  {
    EditChain(t, a, b, n);
    EditPayloads(t, a, b, n);
    EditTowers(t, a, b, n);
    EditLocated(t, a, b, n);
    if n != 0 { assert NodeOk(t, a, 0); assert DataOf(t, b, 0) == DataOf(t, a, 0); }
    EditGuarantee(t, me, a, b, n);
  }

  lemma EditData<E(!new)>(t: Traits<E>, a: Shared<E>, b: Shared<E>, n: NodeId, m: NodeId)
    requires ChainOk(t, a) && NodeEdit(t, a, b, n) && m in a.chain
    ensures DataOf(t, b, m) == DataOf(t, a, m) && PayloadAt(t, b, DataOf(t, b, m)) == PayloadAt(t, a, DataOf(t, a, m))
    ensures m < |a.nodes| && NodeAt(t, b, m).low == NodeAt(t, a, m).low
  {
    assert NodeOk(t, a, m);
  }

  lemma EditChain<E(!new)>(t: Traits<E>, a: Shared<E>, b: Shared<E>, n: NodeId)
    requires ChainOk(t, a) && NodeEdit(t, a, b, n)
    ensures ChainOk(t, b)
  {
    forall m | m in b.chain
      ensures NodeOk(t, b, m)
    {
      assert NodeOk(t, a, m);
    }
    forall i | 0 <= i < |b.chain|
      ensures NodeAt(t, b, b.chain[i]).low == NodeAt(t, a, a.chain[i]).low
      ensures LinkAt(t, b, i)
    {
      assert LinkAt(t, a, i);
      EditData(t, a, b, n, a.chain[i]);
    }
  }

  lemma EditPayloads<E(!new)>(t: Traits<E>, a: Shared<E>, b: Shared<E>, n: NodeId)
    requires ChainOk(t, a) && PayloadsOk(t, a) && NodeEdit(t, a, b, n)
    ensures PayloadsOk(t, b)
  {
    hide LanesOk, Sorted;
    forall p | p in b.installed
      ensures p < |b.payloads| && PayloadOk(t, b, p) && OnlyPublished(b, p) && LanesOk(t, b, p)
    {
      assert p < |a.payloads| && PayloadOk(t, a, p) && OnlyPublished(a, p) && LanesOk(t, a, p);
      var d := a.payloads[p].d;
      assert d.next.Some? ==> BelowNext(t, a, d) && BelowNext(t, b, d);
      SameLanes(t, a, b, p);
    }
  }

  lemma SameLanes<E(!new)>(t: Traits<E>, a: Shared<E>, b: Shared<E>, p: PayloadId)
    requires p < |a.payloads| && p < |b.payloads| && b.payloads[p] == a.payloads[p]
    requires a.payloads[p].d.Shaped() && LanesOk(t, a, p)
    ensures LanesOk(t, b, p)
  {
  }

  lemma EditTowers<E(!new)>(t: Traits<E>, a: Shared<E>, b: Shared<E>, n: NodeId)
    requires TowersOk(t, a) && NodeEdit(t, a, b, n)
    requires forall lv :: 0 <= lv < |b.nodes[n].tower| ==> Forward(t, a, n, b.nodes[n].tower[lv])
    ensures TowersOk(t, b)
  {
    forall m | 0 <= m < |b.nodes|
      ensures TowerOk(t, b, m)
    {
      assert TowerOk(t, a, m);
      forall lv | 0 <= lv < MAX_HEIGHT
        ensures Forward(t, b, m, b.nodes[m].tower[lv])
      {
        assert Forward(t, a, m, b.nodes[m].tower[lv]);
      }
    }
  }

  /** Towers untouched over a chain that only grew. */
  lemma TowersFrame<E(!new)>(t: Traits<E>, a: Shared<E>, b: Shared<E>)
    requires TowersOk(t, a) && |b.nodes| == |a.nodes|
    requires forall n :: n in a.chain ==> n in b.chain
    requires forall n :: 0 <= n < |a.nodes| ==>
      b.nodes[n].tower == a.nodes[n].tower && b.nodes[n].low == a.nodes[n].low && b.nodes[n].height == a.nodes[n].height
    ensures TowersOk(t, b)
  {
    forall m | 0 <= m < |b.nodes|
      ensures TowerOk(t, b, m)
    {
      assert TowerOk(t, a, m);
      forall lv | 0 <= lv < MAX_HEIGHT
        ensures Forward(t, b, m, b.nodes[m].tower[lv])
      {
        assert Forward(t, a, m, a.nodes[m].tower[lv]);
      }
    }
  }

  lemma EditLocated<E(!new)>(t: Traits<E>, a: Shared<E>, b: Shared<E>, n: NodeId)
    requires ChainOk(t, a) && AllLocated(t, a) && NodeEdit(t, a, b, n)
    ensures AllLocated(t, b)
  {
    forall i | 0 <= i < |b.published|
      ensures Located(t, b, b.published[i])
    {
      assert Located(t, a, a.published[i]);
      var m :| m in a.chain && HeldBy(t, a, a.published[i], m);
      EditData(t, a, b, n, m);
      assert HeldBy(t, b, b.published[i], m);
    }
  }

  lemma EditGuarantee<E(!new)>(t: Traits<E>, me: Tid, a: Shared<E>, b: Shared<E>, n: NodeId)
    requires ChainOk(t, a) && NodeEdit(t, a, b, n)
    requires n in a.chain && LockedByOther(me, a, n) ==> b.nodes[n].lock == a.nodes[n].lock && b.nodes[n].hint == a.nodes[n].hint
    requires n !in a.chain ==> a.nodes[n].maker == me
    ensures Guarantee(t, me, a, b)
  {
    forall m | 0 <= m < |a.nodes|
      ensures NodeGrows(me, a, b, m)
    {
    }
    forall p | 0 <= p < |a.payloads|
      ensures CellGrows(me, a, b, p)
    {
      SamePayloadGrows(a.payloads[p].d);
    }
  }

  lemma SamePayloadGrows<E(!new)>(p: Payload<E>)
    ensures PayloadGrows(p, p)
  {
  }

  // ---- the free slot of a payload ------------------------------------------------------

  /** A store to a slot no order word names yet. */
  ghost predicate SlotEdit<E(!new)>(a: Shared<E>, b: Shared<E>, d: PayloadId)
  {
    && d < |a.payloads| && |b.payloads| == |a.payloads|
    && b == a.(payloads := a.payloads[d := a.payloads[d].(d := b.payloads[d].d)])
    && a.payloads[d].d.Shaped()
    && SameNames(a.payloads[d].d, b.payloads[d].d)
  }

  ghost predicate SameNames<E(!new)>(p: Payload<E>, q: Payload<E>)
    requires p.Shaped()
  {
    && q.order == p.order && q.next == p.next && q.prefixLen == p.prefixLen
    && |q.keys| == |p.keys| && |q.lanes| == |p.lanes|
    && (forall s :: 0 <= s < p.Count() ==> q.keys[s] == p.keys[s] && q.lanes[s] == p.lanes[s])
  }

  lemma SameNamesSame<E(!new)>(t: Traits<E>, p: Payload<E>, q: Payload<E>)
    requires p.Shaped() && SameNames(p, q)
    ensures q.Shaped() && q.Run() == p.Run() && PayloadGrows(p, q)
    ensures SeenRun(t, q, q.order) == SeenRun(t, p, p.order)
    ensures LanesExact(t, p) ==> LanesExact(t, q)
    ensures PrefixLongEnough(t, p) ==> PrefixLongEnough(t, q)
    ensures Unstripped(t, p) ==> Unstripped(t, q)
  {
    assert q.Run() == p.Run();
    assert forall r :: 0 <= r < p.Count() ==> q.KeyAt(r) == p.KeyAt(r) && q.LaneAt(r) == p.LaneAt(r);
    if LanesExact(t, p) {
      forall r | 0 <= r < q.Count()
        ensures LaneExact(t, q, r)
      {
        assert LaneExact(t, p, r);
      }
    }
  }

  lemma EditSlot<E(!new)>(t: Traits<E>, me: Tid, a: Shared<E>, b: Shared<E>, cur: NodeId, d: PayloadId)
    requires SharedInv(t, a) && SlotEdit(a, b, d) && HoldsData(t, me, a, cur, d)
    ensures SharedInv(t, b) && Guarantee(t, me, a, b)
  {
    hide LanesExact, PrefixLongEnough, Sorted;
    SameNamesSame(t, a.payloads[d].d, b.payloads[d].d);
    ChainFrame(t, a, b);
    SlotPayloads(t, a, b, d);
    SlotRest(t, a, b, d);
    SlotGuarantee(t, me, a, b, cur, d);
  }

  lemma SlotSame<E(!new)>(t: Traits<E>, a: Shared<E>, b: Shared<E>, d: PayloadId, m: NodeId)
    requires SlotEdit(a, b, d)
    ensures DataOf(t, b, m) == DataOf(t, a, m) && NodeAt(t, b, m) == NodeAt(t, a, m)
    ensures PayloadAt(t, b, DataOf(t, b, m)).next == PayloadAt(t, a, DataOf(t, a, m)).next
    ensures PayloadAt(t, b, DataOf(t, b, m)).order == PayloadAt(t, a, DataOf(t, a, m)).order
    ensures SeenRun(t, PayloadAt(t, b, DataOf(t, b, m)), PayloadAt(t, b, DataOf(t, b, m)).order)
         == SeenRun(t, PayloadAt(t, a, DataOf(t, a, m)), PayloadAt(t, a, DataOf(t, a, m)).order)
  {
    SameNamesSame(t, a.payloads[d].d, b.payloads[d].d);
  }

  /** Payloads may change what they name, not where they live or link to. */
  lemma ChainFrame<E(!new)>(t: Traits<E>, a: Shared<E>, b: Shared<E>)
    requires ChainOk(t, a) && TowersOk(t, a) && Occupied(a)
    requires b.nodes == a.nodes && b.chain == a.chain && b.installed == a.installed && |b.payloads| == |a.payloads|
    requires forall p :: 0 <= p < |a.payloads| ==>
      b.payloads[p].home == a.payloads[p].home && b.payloads[p].d.next == a.payloads[p].d.next
      && |a.payloads[p].d.order| <= |b.payloads[p].d.order|
    ensures ChainOk(t, b) && TowersOk(t, b) && Occupied(b)
  {
    forall m | m in b.chain
      ensures NodeOk(t, b, m)
    {
      assert NodeOk(t, a, m);
    }
    forall i | 0 <= i < |b.chain|
      ensures NodeAt(t, b, b.chain[i]).low == NodeAt(t, a, a.chain[i]).low
      ensures LinkAt(t, b, i)
    {
      assert LinkAt(t, a, i) && NodeOk(t, a, a.chain[i]);
    }
    TowersFrame(t, a, b);
  }

  lemma SlotPayloads<E(!new)>(t: Traits<E>, a: Shared<E>, b: Shared<E>, d: PayloadId)
    requires PayloadsOk(t, a) && SlotEdit(a, b, d)
    ensures PayloadsOk(t, b)
  {
    hide LanesExact, PrefixLongEnough, Sorted, Unstripped;
    forall p | p in b.installed
      ensures p < |b.payloads| && PayloadOk(t, b, p) && OnlyPublished(b, p) && LanesOk(t, b, p)
    {
      assert p < |a.payloads| && PayloadOk(t, a, p) && OnlyPublished(a, p) && LanesOk(t, a, p);
      SameNamesSame(t, a.payloads[d].d, b.payloads[d].d);
      var x, y := a.payloads[p].d, b.payloads[p].d;
      assert x.next.Some? ==> BelowNext(t, a, x) && BelowNext(t, b, y);
      assert x.Count() > 0 ==> y.KeyAt(0) == x.KeyAt(0);
      assert OnlyPublished(b, p);
      assert LanesOk(t, b, p);
    }
  }

  lemma SlotRest<E(!new)>(t: Traits<E>, a: Shared<E>, b: Shared<E>, d: PayloadId)
    requires SharedInv(t, a) && SlotEdit(a, b, d)
    ensures AllLocated(t, b) && HeadHintLow(t, b)
  {
    forall i | 0 <= i < |b.published|
      ensures Located(t, b, b.published[i])
    {
      assert Located(t, a, a.published[i]);
      var m :| m in a.chain && HeldBy(t, a, a.published[i], m);
      SlotSame(t, a, b, d, m);
      assert HeldBy(t, b, b.published[i], m);
    }
    SlotSame(t, a, b, d, 0);
  }

  lemma SlotGuarantee<E(!new)>(t: Traits<E>, me: Tid, a: Shared<E>, b: Shared<E>, cur: NodeId, d: PayloadId)
    requires SlotEdit(a, b, d) && HoldsData(t, me, a, cur, d)
    ensures Guarantee(t, me, a, b)
  {
    forall m | 0 <= m < |a.nodes|
      ensures NodeGrows(me, a, b, m)
    {
    }
    forall p | 0 <= p < |a.payloads|
      ensures CellGrows(me, a, b, p)
    {
      SameNamesSame(t, a.payloads[d].d, b.payloads[d].d);
      SamePayloadGrows(a.payloads[p].d);
    }
  }
}
