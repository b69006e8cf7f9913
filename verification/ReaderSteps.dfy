/**
 Every step of a lookup and of a forward walk. Both rest on one fact about level
 0: an entry at or above a node's first key is named by the payload the node holds,
 or lies at or above its successor's first key.
 */
module ReaderSteps {
  import opened OrderWord
  import opened Ordering
  import opened Payloads
  import opened Machine
  import opened Invariant
  import opened Publishing
  import opened NodeSplit
  import opened Descents

  /** Below its node's successor: anything named by a payload linking to `v`. */
  lemma NamedBelowNext<E(!new)>(t: Traits<E>, sh: Shared<E>, p: PayloadId, e: E)
    requires SharedInv(t, sh) && p in sh.installed
    requires p < |sh.payloads| && sh.payloads[p].d.Shaped() && e in sh.payloads[p].d.Run()
    ensures e in sh.published
    ensures var v := sh.payloads[p].d.next; v.Some? ==> v.value < |sh.nodes| && t.Lt(e, sh.nodes[v.value].low)
    ensures var h := sh.payloads[p].home; h != 0 ==> h < |sh.nodes| && (e == sh.nodes[h].low || t.Lt(sh.nodes[h].low, e))
  {
    hide ChainOk, TowersOk, AllLocated, HeadHintLow, Occupied, LanesOk;
    assert PayloadOk(t, sh, p) && OnlyPublished(sh, p);
    var d := sh.payloads[p].d;
    RunOnlyNames(d, e);
    if d.next.Some? { assert BelowNext(t, sh, d); }
    var r :| 0 <= r < |d.Run()| && d.Run()[r] == e;
    if sh.payloads[p].home != 0 { assert d.Run()[0] == sh.nodes[sh.payloads[p].home].low; }
  }

  lemma HeldRun<E(!new)>(t: Traits<E>, sh: Shared<E>, n: NodeId)
    requires SharedInv(t, sh) && n in sh.chain
    ensures IsPayloadOf(sh, DataOf(t, sh, n), n) && n < |sh.nodes|
    ensures sh.payloads[DataOf(t, sh, n)].d.Shaped()
    ensures forall e :: HeldBy(t, sh, e, n) <==> e in sh.payloads[DataOf(t, sh, n)].d.Run()
  {
    BaseSound(t, sh, n);
    assert NodeOk(t, sh, n) && PayloadOk(t, sh, DataOf(t, sh, n));
    SeenIsRun(t, sh.payloads[DataOf(t, sh, n)].d);
  }

  /** The first keys along the chain from position i up to position j. */
  lemma LowsAscend<E(!new)>(t: Traits<E>, sh: Shared<E>, i: nat, j: nat)
    requires t.TotalOrder() && SharedInv(t, sh) && 1 <= i <= j < |sh.chain|
    ensures sh.chain[i] != 0 && sh.chain[j] != 0
    ensures !t.Lt(NodeAt(t, sh, sh.chain[j]).low, NodeAt(t, sh, sh.chain[i]).low)
  {
    hide PayloadsOk, TowersOk, AllLocated, HeadHintLow, Occupied;
    t.Order3(NodeAt(t, sh, sh.chain[i]).low, NodeAt(t, sh, sh.chain[j]).low, NodeAt(t, sh, sh.chain[i]).low);
  }

  lemma Coverage<E(!new)>(t: Traits<E>, sh: Shared<E>, n: NodeId, e: E)
    requires t.TotalOrder() && SharedInv(t, sh) && n in sh.chain && e in sh.published && AtOrBelow(t, sh, n, e)
    ensures IsPayloadOf(sh, DataOf(t, sh, n), n) && sh.payloads[DataOf(t, sh, n)].d.Shaped()
    ensures e in sh.payloads[DataOf(t, sh, n)].d.Run() || NextAtOrBelow(t, sh, sh.payloads[DataOf(t, sh, n)].d.next, e)
  {
    hide ChainOk, PayloadsOk, TowersOk, HeadHintLow, Occupied, HeldBy;
    HeldRun(t, sh, n);
    var k :| 0 <= k < |sh.published| && sh.published[k] == e;
    assert Located(t, sh, sh.published[k]);
    var m :| m in sh.chain && HeldBy(t, sh, e, m);
    HeldRun(t, sh, m);
    if m != n { CoverageElsewhere(t, sh, n, m, e); }
  }

  lemma CoverageElsewhere<E(!new)>(t: Traits<E>, sh: Shared<E>, n: NodeId, m: NodeId, e: E)
    requires t.TotalOrder() && SharedInv(t, sh) && n in sh.chain && m in sh.chain && m != n && AtOrBelow(t, sh, n, e)
    requires IsPayloadOf(sh, DataOf(t, sh, m), m) && sh.payloads[DataOf(t, sh, m)].d.Shaped()
    requires e in sh.payloads[DataOf(t, sh, m)].d.Run()
    ensures IsPayloadOf(sh, DataOf(t, sh, n), n) && NextAtOrBelow(t, sh, sh.payloads[DataOf(t, sh, n)].d.next, e)
  {
    hide SharedInv;
    var i :| 0 <= i < |sh.chain| && sh.chain[i] == n;
    var j :| 0 <= j < |sh.chain| && sh.chain[j] == m;
    BaseSound(t, sh, n);
    ChainPosition(t, sh, 0, i);
    ChainPosition(t, sh, 0, j);
    NamedBelowNext(t, sh, DataOf(t, sh, m), e);
    HeadFirst(t, sh);
    if j < i {
      LowsAscend(t, sh, j + 1, i);
      t.Order3(e, NodeAt(t, sh, sh.chain[j + 1]).low, NodeAt(t, sh, n).low);
      assert false;
    } else {
      LowsAscend(t, sh, i + 1, j);
      var nx := NodeAt(t, sh, sh.chain[i + 1]).low;
      t.Order3(nx, NodeAt(t, sh, m).low, e);
      t.Order3(nx, e, nx);
    }
  }

  lemma HeadFirst<E(!new)>(t: Traits<E>, sh: Shared<E>)
    requires SharedInv(t, sh)
    ensures |sh.chain| > 0 && sh.chain[0] == 0
    ensures forall i :: 0 < i < |sh.chain| ==> sh.chain[i] != 0
  {
  }

  // ---- lookups ---------------------------------------------------------------------------

  lemma EqualsOrder<E(!new)>(t: Traits<E>, a: E, b: E, x: E)
    requires t.TotalOrder() && t.compare(a, b) == 0
    ensures t.Lt(a, x) <==> t.Lt(b, x)
    ensures t.Lt(x, a) <==> t.Lt(x, b)
  {
    t.Order3(a, b, x);
    t.Order3(b, a, x);
    t.Order3(x, a, b);
    t.Order3(x, b, a);
  }

  /** contains_target's answer on a sorted snapshot is membership. */
  lemma ContainsIff<E(!new)>(t: Traits<E>, p: Payload<E>, key: E)
    requires t.TotalOrder() && p.Shaped() && Sorted(t, p.Run())
    ensures Contains(t, p, p.order, key) <==> NamesKey(t, p, key)
  {
    SeenIsRun(t, p);
    var run, r := p.Run(), LowerBound(t, p.Run(), key);
    SortedInOrder(t, run);
    LowerBoundSplits(t, run, key);
    if NamesKey(t, p, key) {
      var s :| 0 <= s < p.Count() && t.compare(p.keys[s], key) == 0;
      RunNames(p, s);
      var k :| 0 <= k < |run| && run[k] == p.keys[s];
      if r < k { EqualsOrder(t, run[k], key, run[r]); }
    }
    if Contains(t, p, p.order, key) { assert t.compare(p.keys[p.order[r]], key) == 0; }
  }

  ghost predicate ReaderBefore<E(!new)>(t: Traits<E>, sh: Shared<E>, th: Thread<E>)
  {
    && t.TotalOrder() && t.HintPromise() && SharedInv(t, sh) && th.Lookup? && ReaderOk(t, sh, th.key, th.r, th.known)
  }

  lemma KnownCovered<E(!new)>(t: Traits<E>, sh: Shared<E>, cur: NodeId, key: E, known: nat)
    requires t.TotalOrder() && SharedInv(t, sh) && AtOrBelow(t, sh, cur, key) && KnownKey(t, sh, key, known)
    ensures IsPayloadOf(sh, DataOf(t, sh, cur), cur) && sh.payloads[DataOf(t, sh, cur)].d.Shaped()
    ensures NamesKey(t, sh.payloads[DataOf(t, sh, cur)].d, key) || NextReaches(t, sh, sh.payloads[DataOf(t, sh, cur)].d.next, key)
  {
    hide SharedInv;
    var i :| 0 <= i < known && i < |sh.published| && t.compare(sh.published[i], key) == 0;
    var e := sh.published[i];
    if cur != 0 { EqualsOrder(t, e, key, sh.nodes[cur].low); }
    Coverage(t, sh, cur, e);
    var p := sh.payloads[DataOf(t, sh, cur)].d;
    if e in p.Run() {
      RunOnlyNames(p, e);
    } else {
      EqualsOrder(t, e, key, sh.nodes[p.next.value].low);
    }
  }

  lemma StepReloading<E(!new)>(t: Traits<E>, sh: Shared<E>, th: Thread<E>)
    requires ReaderBefore(t, sh, th) && th.r.Reloading?
    ensures var th' := ReaderStep(t, sh, th); th'.Lookup? && ReaderOk(t, sh, th'.key, th'.r, th'.known)
  {
    hide SharedInv, KnownKey;
    HeldRun(t, sh, th.r.cur);
    if KnownKey(t, sh, th.key, th.known) { KnownCovered(t, sh, th.r.cur, th.key, th.known); }
  }

  lemma StepSnapshotting<E(!new)>(t: Traits<E>, sh: Shared<E>, th: Thread<E>)
    requires ReaderBefore(t, sh, th) && th.r.Snapshotting?
    ensures var th' := ReaderStep(t, sh, th); th'.Lookup? && ReaderOk(t, sh, th'.key, th'.r, th'.known)
  {
    hide SharedInv, KnownKey, Contains;
    var d, key := th.r.d, th.key;
    var p := sh.payloads[d].d;
    ShapedSorted(t, sh, d);
    ContainsIff(t, p, key);
    if NamesKey(t, p, key) {
      var s :| 0 <= s < p.Count() && t.compare(p.keys[s], key) == 0;
      RunNames(p, s);
      NamedBelowNext(t, sh, d, p.keys[s]);
      if p.next.Some? { EqualsOrder(t, p.keys[s], key, sh.nodes[p.next.value].low); }
    }
    AboveNotReached(t, sh, sh.payloads[th.r.base].d.next, key);
  }

  lemma AboveNotReached<E(!new)>(t: Traits<E>, sh: Shared<E>, v: Option<NodeId>, key: E)
    requires Above(t, sh, v, key)
    ensures !NextReaches(t, sh, v, key)
  {
  }

  lemma ShapedSorted<E(!new)>(t: Traits<E>, sh: Shared<E>, d: PayloadId)
    requires SharedInv(t, sh) && d in sh.installed
    ensures d < |sh.payloads| && sh.payloads[d].d.Shaped() && Sorted(t, sh.payloads[d].d.Run())
  {
    assert PayloadOk(t, sh, d);
  }

  lemma StepReader<E(!new)>(t: Traits<E>, sh: Shared<E>, th: Thread<E>)
    requires ReaderBefore(t, sh, th)
    ensures var th' := ReaderStep(t, sh, th); th' == Idle || (th'.Lookup? && ReaderOk(t, sh, th'.key, th'.r, th'.known))
  {
    hide SharedInv, KnownKey, DescentOk, DescentStep, Landed;
    match th.r
    case Seeking(at) => DescentSound(t, sh, th.key, at);
    case Reloading(_, _) => StepReloading(t, sh, th);
    case Snapshotting(_, _, _) => StepSnapshotting(t, sh, th);
    case Answered(_, _, _) =>
  }

  // ---- the forward walk ------------------------------------------------------------------

  ghost predicate WalkerBefore<E(!new)>(t: Traits<E>, sh: Shared<E>, th: Thread<E>)
  {
    t.TotalOrder() && SharedInv(t, sh) && th.Walk? && WalkerOk(t, sh, th.k, th.known, th.yielded)
  }

  ghost predicate WalkerAfter<E(!new)>(t: Traits<E>, sh: Shared<E>, th: Thread<E>)
  {
    th == Idle || (th.Walk? && WalkerOk(t, sh, th.k, th.known, th.yielded))
  }

  lemma StepAdopting<E(!new)>(t: Traits<E>, sh: Shared<E>, th: Thread<E>)
    requires WalkerBefore(t, sh, th) && th.k.Adopting?
    ensures WalkerAfter(t, sh, WalkerStep(t, sh, th))
  {
    hide SharedInv, Sorted;
    var n := th.k.n;
    HeldRun(t, sh, n);
    var p := sh.payloads[DataOf(t, sh, n)].d;
    forall i | 0 <= i < th.known
      ensures sh.published[i] in th.yielded || NextAtOrBelow(t, sh, p.next, sh.published[i]) || sh.published[i] in p.Run()
    {
      if sh.published[i] !in th.yielded { Coverage(t, sh, n, sh.published[i]); }
    }
  }

  lemma StepAdoptingOrder<E(!new)>(t: Traits<E>, sh: Shared<E>, th: Thread<E>)
    requires WalkerBefore(t, sh, th) && th.k.AdoptingOrder?
    ensures WalkerAfter(t, sh, WalkerStep(t, sh, th))
  {
    hide SharedInv;
    var n, d := th.k.n, th.k.d;
    ShapedSorted(t, sh, d);
    var p := sh.payloads[d].d;
    SeenIsRun(t, p);
    assert p.Run()[0..] == p.Run();
    if n != 0 { FirstIsLow(t, sh, d, n); WalkEnters(t, sh, d, th.yielded); } else { InstalledNext(t, sh, d); }
  }

  /** Everything yielded before a node lies below all that follows it. */
  lemma WalkEnters<E(!new)>(t: Traits<E>, sh: Shared<E>, d: PayloadId, ys: seq<E>)
    requires t.TotalOrder() && SharedInv(t, sh) && d in sh.installed && d < |sh.payloads|
    requires sh.payloads[d].home != 0 && sh.payloads[d].home < |sh.nodes| && YieldsBelow(t, ys, sh.nodes[sh.payloads[d].home].low)
    ensures var v := sh.payloads[d].d.next; v.Some? ==> v.value < |sh.nodes| && YieldsBelow(t, ys, sh.nodes[v.value].low)
  {
    hide ChainOk, TowersOk, AllLocated, HeadHintLow, Occupied, LanesOk;
    assert PayloadOk(t, sh, d);
    var v := sh.payloads[d].d.next;
    if v.Some? {
      var lo, hi := sh.nodes[sh.payloads[d].home].low, sh.nodes[v.value].low;
      forall i | 0 <= i < |ys|
        ensures t.Lt(ys[i], hi)
      {
        t.Order3(ys[i], lo, hi);
        t.Order3(lo, hi, lo);
      }
    }
  }

  lemma StepYield<E(!new)>(t: Traits<E>, sh: Shared<E>, th: Thread<E>)
    requires WalkerBefore(t, sh, th) && th.k.Standing? && th.k.pos < |th.k.o|
    ensures WalkerAfter(t, sh, WalkerStep(t, sh, th))
  {
    hide SharedInv;
    var d, o, pos := th.k.d, th.k.o, th.k.pos;
    var p := sh.payloads[d].d;
    var run := SeenRun(t, p, o);
    var ys, y := th.yielded, run[pos];
    SeenIsNamed(t, p, o, pos);
    NamedBelowNext(t, sh, d, y);
    forall i | 0 <= i < |ys|
      ensures pos + 1 < |run| ==> t.Lt(ys[i], run[pos + 1])
    {
      if pos + 1 < |run| { t.Order3(ys[i], y, run[pos + 1]); t.Order3(y, run[pos + 1], y); }
    }
    assert Sorted(t, ys + [y]);
    assert run[pos..] == [y] + run[pos + 1..];
  }

  /** A snapshot's names are names of the payload now. */
  lemma SeenIsNamed<E(!new)>(t: Traits<E>, p: Payload<E>, o: seq<nat>, r: nat)
    requires p.Shaped() && Permutation(o) && |o| <= p.Count() && r < |o|
    ensures SeenRun(t, p, o)[r] in p.Run()
  {
    RunNames(p, o[r]);
  }

  lemma StepLeave<E(!new)>(t: Traits<E>, sh: Shared<E>, th: Thread<E>)
    requires WalkerBefore(t, sh, th) && th.k.Standing? && th.k.pos >= |th.k.o|
    ensures WalkerAfter(t, sh, WalkerStep(t, sh, th))
  {
    hide SharedInv, Sorted;
    InstalledNext(t, sh, th.k.d);
  }

  lemma StepWalker<E(!new)>(t: Traits<E>, sh: Shared<E>, th: Thread<E>)
    requires WalkerBefore(t, sh, th)
    ensures WalkerAfter(t, sh, WalkerStep(t, sh, th))
  {
    hide WalkerBefore, WalkerAfter, WalkerStep;
    IsWalk(t, sh, th);
    match th.k
    case Adopting(_) => StepAdopting(t, sh, th);
    case AdoptingOrder(_, _) => StepAdoptingOrder(t, sh, th);
    case Standing(_, _, o, pos) => if pos < |o| { StepYield(t, sh, th); } else { StepLeave(t, sh, th); }
    case Ended => WalkEnds(t, sh, th);
  }

  lemma IsWalk<E(!new)>(t: Traits<E>, sh: Shared<E>, th: Thread<E>)
    requires WalkerBefore(t, sh, th)
    ensures th.Walk?
  {
  }

  lemma WalkEnds<E(!new)>(t: Traits<E>, sh: Shared<E>, th: Thread<E>)
    requires WalkerBefore(t, sh, th) && th.k.Ended?
    ensures WalkerAfter(t, sh, WalkerStep(t, sh, th))
  {
  }
}
