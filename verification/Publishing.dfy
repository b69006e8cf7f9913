/**
 The two publishing stores of an insert, append's order word and split's payload
 pointer, and the private allocation before a split.
 */
module Publishing {
  import opened OrderWord
  import opened Surrogate
  import opened Ordering
  import opened Payloads
  import opened Machine
  import opened Invariant
  import opened Mutations

  // ---- append ----------------------------------------------------------------------

  lemma SeenIsRun<E(!new)>(t: Traits<E>, p: Payload<E>)
    requires p.Shaped()
    ensures SeenRun(t, p, p.order) == p.Run()
    ensures p.Count() > 0 ==> FirstOf(t, p) == p.KeyAt(0)
  {
  }

  /** With the slot written, republishing the order is exactly the append. */
  lemma AppendValue<E(!new)>(t: Traits<E>, p: Payload<E>, key: E)
    requires p.Shaped() && p.Count() < NODE_CAPACITY
    requires p.keys[p.Count()] == key && p.lanes[p.Count()] == LaneOf(t, p, p.order, key)
    ensures p.(order := Splice(p.order, RankIn(t, p, p.order, key), p.Count())) == Appended(t, p, key)
    ensures RankIn(t, p, p.order, key) == LowerBound(t, p.Run(), key)
  {
    hide LowerBound, SurrogateAt;
    SeenIsRun(t, p);
    var n := p.Count();
    assert p.keys[n := key] == p.keys;
    assert LaneOf(t, p, p.order, key) == LaneFor(t, p, LowerBound(t, p.Run(), key), t.orderBytes(key));
    assert p.lanes[n := LaneFor(t, p, LowerBound(t, p.Run(), key), t.orderBytes(key))] == p.lanes;
  }

  lemma RunNames<E(!new)>(p: Payload<E>, s: nat)
    requires p.Shaped() && s < p.Count()
    ensures p.keys[s] in p.Run()
  {
    PermutationCovers(p.order, s);
    var r :| 0 <= r < |p.order| && p.order[r] == s;
    assert p.Run()[r] == p.keys[s];
  }

  lemma RunOnlyNames<E(!new)>(p: Payload<E>, e: E)
    requires p.Shaped() && e in p.Run()
    ensures exists s :: 0 <= s < p.Count() && p.keys[s] == e
  {
    var r :| 0 <= r < |p.Run()| && p.Run()[r] == e;
    assert p.keys[p.order[r]] == e;
  }

  /** What is named was published, so a pending key differs from all of it. */
  lemma FreshInNode<E(!new)>(t: Traits<E>, sh: Shared<E>, d: PayloadId, key: E)
    requires d < |sh.payloads| && sh.payloads[d].d.Shaped() && OnlyPublished(sh, d) && Unpublished(t, sh, key)
    ensures Fresh(t, sh.payloads[d].d.Run(), key)
  {
    var p := sh.payloads[d].d;
    forall r | 0 <= r < |p.Run()|
      ensures t.compare(p.Run()[r], key) != 0
    {
      assert p.keys[p.order[r]] in sh.published;
    }
  }

  ghost function AfterAppend<E(!new)>(t: Traits<E>, a: Shared<E>, d: PayloadId, key: E): Shared<E>
    requires d < |a.payloads|
  {
    var p := a.payloads[d].d;
    SetPayload(a, d, p.(order := Splice(p.order, RankIn(t, p, p.order, key), |p.order|))).(published := a.published + [key])
  }

  /** Everything a publishing append needs to know. */
  ghost predicate AppendReady<E(!new)>(t: Traits<E>, me: Tid, a: Shared<E>, key: E, cur: NodeId, d: PayloadId)
  {
    && t.TotalOrder() && t.HintPromise()
    && SharedInv(t, a) && Unpublished(t, a, key)
    && BelongsTo(t, me, a, key, cur, d) && |a.payloads[d].d.order| < NODE_CAPACITY
    && SlotReady(t, a, d, a.payloads[d].d.order, key)
    && (RankIn(t, a.payloads[d].d, a.payloads[d].d.order, key) == 0 ==> HintLowered(t, a, cur, key))
  }

  /** The appended payload: sorted, with the key in its place, and the first key of a non-head node unmoved. */
  lemma AppendedPayload<E(!new)>(t: Traits<E>, me: Tid, a: Shared<E>, key: E, cur: NodeId, d: PayloadId)
    requires AppendReady(t, me, a, key, cur, d)
    ensures d in a.installed && d < |a.payloads| && PayloadOk(t, a, d) && OnlyPublished(a, d) && LanesOk(t, a, d)
    ensures a.payloads[d].home == cur
    ensures var p, q := a.payloads[d].d, AfterAppend(t, a, d, key).payloads[d].d;
      && q == Appended(t, p, key) && Sorted(t, q.Run())
      && (cur != 0 ==> LowerBound(t, p.Run(), key) > 0 && q.KeyAt(0) == p.KeyAt(0))
  {
    hide LanesExact, PrefixLongEnough, LaneOf, RankIn;
    assert d < |a.payloads| && PayloadOk(t, a, d) && OnlyPublished(a, d) && LanesOk(t, a, d);
    var p := a.payloads[d].d;
    AppendValue(t, p, key);
    FreshInNode(t, a, d, key);
    SpliceSorted(t, p.Run(), key);
    if cur != 0 {
      assert p.Run()[0] == a.nodes[cur].low;
      assert t.compare(p.Run()[0], key) != 0;
      assert Appended(t, p, key).Run()[0] == p.Run()[0];
    }
  }

  lemma AppendGrows<E(!new)>(t: Traits<E>, p: Payload<E>, key: E)
    requires p.Shaped() && p.Count() < NODE_CAPACITY
    requires p.keys[p.Count()] == key && p.lanes[p.Count()] == LaneOf(t, p, p.order, key)
    ensures PayloadGrows(p, Appended(t, p, key))
    ensures key in Appended(t, p, key).Run()
  {
    hide LaneOf, LowerBound;
    AppendValue(t, p, key);
    var q, k := Appended(t, p, key), LowerBound(t, p.Run(), key);
    assert q.Run()[k] == key;
    forall e | e in p.Run()
      ensures e in q.Run()
    {
      var r :| 0 <= r < |p.Run()| && p.Run()[r] == e;
      assert q.Run()[if r < k then r else r + 1] == e;
    }
  }

  lemma AppendPayloadOk<E(!new)>(t: Traits<E>, me: Tid, a: Shared<E>, key: E, cur: NodeId, d: PayloadId)
    requires AppendReady(t, me, a, key, cur, d)
    ensures d < |a.payloads|
    ensures var b := AfterAppend(t, a, d, key); PayloadOk(t, b, d) && OnlyPublished(b, d) && LanesOk(t, b, d)
  {
    hide LanesExact, PrefixLongEnough, LaneOf, RankIn, Unpublished, Sorted, Unstripped;
    AppendedPayload(t, me, a, key, cur, d);
    if d == 0 { AppendedUnstripped(t, a.payloads[d].d, key); }
    var b := AfterAppend(t, a, d, key);
    var p, q := a.payloads[d].d, b.payloads[d].d;
    AppendGrows(t, p, key);
    forall s | 0 <= s < q.Count()
      ensures q.keys[s] in b.published
      ensures q.next.Some? ==> t.Lt(q.keys[s], b.nodes[q.next.value].low)
    {
      if s < p.Count() {
        assert p.keys[s] in a.published;
        if p.next.Some? { assert BelowNext(t, a, p); }
      } else {
        assert q.keys[s] == key && key in [key];
      }
    }
    if t.Bytewise() {
      if cur != 0 { AppendedLanes(t, p, key); }
      if d != 0 {
        FreshInNode(t, a, d, key);
        AppendedPrefixLong(t, p, key);
      }
    }
  }

  lemma AppendFrame<E(!new)>(t: Traits<E>, me: Tid, a: Shared<E>, key: E, cur: NodeId, d: PayloadId)
    requires AppendReady(t, me, a, key, cur, d)
    ensures d < |a.payloads|
    ensures var b := AfterAppend(t, a, d, key); PayloadsOk(t, b)
  {
    hide LanesExact, PrefixLongEnough, LaneOf, RankIn, Sorted;
    AppendPayloadOk(t, me, a, key, cur, d);
    var b := AfterAppend(t, a, d, key);
    forall p | p in b.installed
      ensures p < |b.payloads| && PayloadOk(t, b, p) && OnlyPublished(b, p) && LanesOk(t, b, p)
    {
      assert p < |a.payloads| && PayloadOk(t, a, p) && OnlyPublished(a, p) && LanesOk(t, a, p);
      if p != d {
        var x := a.payloads[p].d;
        assert x.next.Some? ==> BelowNext(t, a, x) && BelowNext(t, b, x);
        SameLanes(t, a, b, p);
      }
    }
  }

  lemma AppendChain<E(!new)>(t: Traits<E>, me: Tid, a: Shared<E>, key: E, cur: NodeId, d: PayloadId)
    requires AppendReady(t, me, a, key, cur, d)
    ensures d < |a.payloads|
    ensures var b := AfterAppend(t, a, d, key); ChainOk(t, b) && TowersOk(t, b) && Occupied(b)
  {
    hide ChainOk, TowersOk, Occupied, PayloadsOk, AllLocated, HeadHintLow, Unpublished, SlotReady, HintLowered, RankIn;
    ChainFrame(t, a, AfterAppend(t, a, d, key));
  }

  lemma AppendHeld<E(!new)>(t: Traits<E>, me: Tid, a: Shared<E>, key: E, cur: NodeId, d: PayloadId, e: E, m: NodeId)
    requires AppendReady(t, me, a, key, cur, d)
    ensures d < |a.payloads|
    ensures HeldBy(t, a, e, m) ==> HeldBy(t, AfterAppend(t, a, d, key), e, m)
    ensures HeldBy(t, AfterAppend(t, a, d, key), key, cur)
  {
    hide LaneOf, RankIn, Unpublished, SharedInv, LowerBound;
    AppendedPayload(t, me, a, key, cur, d);
    var b := AfterAppend(t, a, d, key);
    AppendGrows(t, a.payloads[d].d, key);
    SeenIsRun(t, a.payloads[d].d);
    SeenIsRun(t, b.payloads[d].d);
  }

  lemma AppendLocated<E(!new)>(t: Traits<E>, me: Tid, a: Shared<E>, key: E, cur: NodeId, d: PayloadId)
    requires AppendReady(t, me, a, key, cur, d)
    ensures d < |a.payloads|
    ensures AllLocated(t, AfterAppend(t, a, d, key))
  {
    hide HeldBy, RankIn, Unpublished, ChainOk, PayloadsOk, TowersOk, HeadHintLow, Occupied, SlotReady;
    var b := AfterAppend(t, a, d, key);
    forall i | 0 <= i < |b.published|
      ensures Located(t, b, b.published[i])
    {
      AppendHeld(t, me, a, key, cur, d, key, cur);
      if i < |a.published| {
        assert Located(t, a, a.published[i]);
        var m :| m in a.chain && HeldBy(t, a, a.published[i], m);
        AppendHeld(t, me, a, key, cur, d, a.published[i], m);
      }
    }
  }

  lemma AppendHeadHint<E(!new)>(t: Traits<E>, me: Tid, a: Shared<E>, key: E, cur: NodeId, d: PayloadId)
    requires AppendReady(t, me, a, key, cur, d)
    ensures d < |a.payloads| && HeadHintLow(t, AfterAppend(t, a, d, key))
  {
    hide LanesExact, PrefixLongEnough, LaneOf, Sorted, LowerBound;
    AppendedPayload(t, me, a, key, cur, d);
    var b := AfterAppend(t, a, d, key);
    var p, q := a.payloads[d].d, b.payloads[d].d;
    assert NodeOk(t, a, 0);
    if cur == 0 {
      SeenIsRun(t, p);
      SeenIsRun(t, q);
      AppendValue(t, p, key);
      var k := LowerBound(t, p.Run(), key);
      assert q.Run()[0] == if k == 0 then key else p.Run()[0];
    } else {
      assert DataOf(t, a, 0) != d;
    }
  }

  lemma AppendGuarantee<E(!new)>(t: Traits<E>, me: Tid, a: Shared<E>, key: E, cur: NodeId, d: PayloadId)
    requires AppendReady(t, me, a, key, cur, d)
    ensures d < |a.payloads| && Guarantee(t, me, a, AfterAppend(t, a, d, key))
  {
    hide LanesExact, PrefixLongEnough, LaneOf, RankIn, Sorted, LowerBound;
    AppendedPayload(t, me, a, key, cur, d);
    var b := AfterAppend(t, a, d, key);
    AppendGrows(t, a.payloads[d].d, key);
    forall m | 0 <= m < |a.nodes|
      ensures NodeGrows(me, a, b, m)
    {
    }
    forall p | 0 <= p < |a.payloads|
      ensures CellGrows(me, a, b, p)
    {
      SamePayloadGrows(a.payloads[p].d);
    }
  }

  /** Append's order store. */
  lemma PublishAppend<E(!new)>(t: Traits<E>, me: Tid, a: Shared<E>, key: E, cur: NodeId, d: PayloadId)
    requires AppendReady(t, me, a, key, cur, d)
    ensures d < |a.payloads|
    ensures SharedInv(t, AfterAppend(t, a, d, key)) && Guarantee(t, me, a, AfterAppend(t, a, d, key))
  {
    hide AppendReady, AfterAppend, Guarantee;
    AppendFrame(t, me, a, key, cur, d);
    AppendChain(t, me, a, key, cur, d);
    AppendLocated(t, me, a, key, cur, d);
    AppendHeadHint(t, me, a, key, cur, d);
    AppendGuarantee(t, me, a, key, cur, d);
  }
}
