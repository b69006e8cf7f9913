/**
 Non-interference: whatever a thread knows at its program counter survives any
 step of another thread, because every step keeps the Guarantee.
 */
module Stability {
  import opened OrderWord
  import opened Ordering
  import opened Payloads
  import opened Machine
  import opened Invariant

  lemma SeenRunFrozen<E(!new)>(t: Traits<E>, p: Payload<E>, q: Payload<E>, o: seq<nat>)
    requires PayloadGrows(p, q) && |o| <= |p.order| && Permutation(o)
    ensures SeenRun(t, q, o) == SeenRun(t, p, o)
  {
  }

  lemma StableProbe<E(!new)>(t: Traits<E>, me: Tid, a: Shared<E>, b: Shared<E>, cur: NodeId, p: Probe)
    requires Guarantee(t, me, a, b) && ProbeOk(t, a, cur, p)
    ensures ProbeOk(t, b, cur, p)
  {
    StableForward(t, me, a, b, cur, Some(p.nx));
    if p.AtOrder? { assert CellGrows(me, a, b, p.d); }
  }

  lemma StableForward<E(!new)>(t: Traits<E>, me: Tid, a: Shared<E>, b: Shared<E>, n: NodeId, v: Option<NodeId>)
    requires Guarantee(t, me, a, b) && Forward(t, a, n, v)
    ensures Forward(t, b, n, v)
  {
    if v.Some? { assert NodeGrows(me, a, b, n) && NodeGrows(me, a, b, v.value); }
  }

  lemma StableDescent<E(!new)>(t: Traits<E>, me: Tid, a: Shared<E>, b: Shared<E>, key: E, at: Descent)
    requires Guarantee(t, me, a, b) && DescentOk(t, a, key, at)
    ensures DescentOk(t, b, key, at)
  {
    assert NodeGrows(me, a, b, at.cur);
    if at.probe.Some? {
      StableProbe(t, me, a, b, at.cur, at.probe.value);
      if at.lv == 0 { assert CellGrows(me, a, b, at.base); }
    }
  }

  lemma StableAbove<E(!new)>(t: Traits<E>, me: Tid, a: Shared<E>, b: Shared<E>, v: Option<NodeId>, key: E)
    requires Guarantee(t, me, a, b) && Above(t, a, v, key)
    ensures Above(t, b, v, key)
  {
    if v.Some? { assert NodeGrows(me, a, b, v.value); }
  }

  lemma StableLanded<E(!new)>(t: Traits<E>, me: Tid, a: Shared<E>, b: Shared<E>, key: E, cur: NodeId, base: PayloadId)
    requires Guarantee(t, me, a, b) && Landed(t, a, key, cur, base)
    ensures Landed(t, b, key, cur, base)
  {
    assert NodeGrows(me, a, b, cur) && CellGrows(me, a, b, base);
    StableAbove(t, me, a, b, a.payloads[base].d.next, key);
  }

  lemma StableSplits<E(!new)>(t: Traits<E>, me: Tid, a: Shared<E>, b: Shared<E>, cur: NodeId, base: PayloadId, seen: nat)
    requires Guarantee(t, me, a, b) && SplitsSeen(t, a, cur, base, seen)
    requires cur in a.chain && cur < |a.nodes| && a.nodes[cur].data.Some?
    ensures SplitsSeen(t, b, cur, base, seen)
  {
    assert NodeGrows(me, a, b, cur);
  }

  lemma StableHoldsData<E(!new)>(t: Traits<E>, u: Tid, me: Tid, a: Shared<E>, b: Shared<E>, cur: NodeId, d: PayloadId)
    requires u != me && Guarantee(t, me, a, b) && HoldsData(t, u, a, cur, d)
    ensures HoldsData(t, u, b, cur, d)
    ensures b.payloads[d] == a.payloads[d] && b.nodes[cur].hint == a.nodes[cur].hint
  {
    assert NodeGrows(me, a, b, cur) && CellGrows(me, a, b, d);
    assert LockedByOther(me, a, cur);
  }

  lemma StableBelongs<E(!new)>(t: Traits<E>, u: Tid, me: Tid, a: Shared<E>, b: Shared<E>, key: E, cur: NodeId, d: PayloadId)
    requires u != me && Guarantee(t, me, a, b) && BelongsTo(t, u, a, key, cur, d)
    ensures BelongsTo(t, u, b, key, cur, d)
    ensures b.payloads[d] == a.payloads[d] && b.nodes[cur].hint == a.nodes[cur].hint
    ensures d < |a.payloads| && d < |b.payloads| && cur < |a.nodes| && cur < |b.nodes|
  {
    StableHoldsData(t, u, me, a, b, cur, d);
    assert NodeGrows(me, a, b, cur);
    StableAbove(t, me, a, b, a.payloads[d].d.next, key);
  }

  lemma StableAppending<E(!new)>(t: Traits<E>, u: Tid, me: Tid, a: Shared<E>, b: Shared<E>, key: E,
                                 cur: NodeId, d: PayloadId, o: seq<nat>)
    requires u != me && Guarantee(t, me, a, b) && Appending(t, u, a, key, cur, d, o)
    ensures Appending(t, u, b, key, cur, d, o) && d < |a.payloads| && d < |b.payloads| && b.payloads[d] == a.payloads[d]
    ensures SlotHolds(a, d, o, key) ==> SlotHolds(b, d, o, key)
    ensures SlotReady(t, a, d, o, key) ==> SlotReady(t, b, d, o, key)
    ensures HintLowered(t, a, cur, key) ==> HintLowered(t, b, cur, key)
  {
    StableBelongs(t, u, me, a, b, key, cur, d);
  }

  lemma StableSplitting<E(!new)>(t: Traits<E>, u: Tid, me: Tid, a: Shared<E>, b: Shared<E>, key: E, cur: NodeId, d: PayloadId,
                                 sib: NodeId, right: PayloadId, left: PayloadId)
    requires u != me && Guarantee(t, me, a, b) && Splitting(t, u, a, key, cur, d, sib, right, left)
    ensures Splitting(t, u, b, key, cur, d, sib, right, left)
    ensures b.nodes[sib] == a.nodes[sib] && b.nodes[cur].hint == a.nodes[cur].hint && b.payloads[left] == a.payloads[left]
    ensures SiblingReady(t, a, sib, right) ==> SiblingReady(t, b, sib, right)
    ensures HintLowered(t, a, cur, FirstOf(t, a.payloads[left].d)) ==> HintLowered(t, b, cur, FirstOf(t, b.payloads[left].d))
  {
    hide Merged;
    StableBelongs(t, u, me, a, b, key, cur, d);
    assert NodeGrows(me, a, b, sib) && CellGrows(me, a, b, right) && CellGrows(me, a, b, left);
  }

  lemma StableLinking<E(!new)>(t: Traits<E>, u: Tid, me: Tid, a: Shared<E>, b: Shared<E>, cur: NodeId, sib: NodeId, first: E, lv: nat)
    requires u != me && Guarantee(t, me, a, b) && LinkingOk(t, u, a, cur, sib, first, lv)
    ensures LinkingOk(t, u, b, cur, sib, first, lv)
  {
    assert NodeGrows(me, a, b, cur) && NodeGrows(me, a, b, sib);
  }

  lemma StablePred<E(!new)>(t: Traits<E>, me: Tid, a: Shared<E>, b: Shared<E>, pred: NodeId, sib: NodeId)
    requires Guarantee(t, me, a, b) && PredOk(t, a, pred, sib)
    ensures PredOk(t, b, pred, sib)
  {
    assert NodeGrows(me, a, b, pred) && NodeGrows(me, a, b, sib);
  }

  lemma StableWriter<E(!new)>(t: Traits<E>, u: Tid, me: Tid, a: Shared<E>, b: Shared<E>, key: E, w: WriterPc<E>, seen: nat)
    requires u != me && SharedInv(t, a) && Guarantee(t, me, a, b) && WriterOk(t, u, a, key, w, seen)
    ensures WriterOk(t, u, b, key, w, seen)
  {
    hide SharedInv, Guarantee, Splitting, Appending, SlotHolds, SlotReady, HintLowered, Landed, HoldsData, BelongsTo;
    hide LinkingOk, PredOk, DescentOk, SplitsSeen, RankIn, LaneOf, Merged;
    match w
    case Descending(at) =>
      StableDescent(t, me, a, b, key, at);
      if at.probe.Some? && at.lv == 0 { StableSeen(t, me, a, b, key, at, seen); }
    case Locking(cur, base) => StableArrived(t, me, a, b, key, cur, base, seen);
    case LoadingData(cur, base) => StableArrived(t, me, a, b, key, cur, base, seen); StableHolds(t, u, me, a, b, cur);
    case LoadingNext(cur, base, d) => StableArrived(t, me, a, b, key, cur, base, seen); StableHoldsData(t, u, me, a, b, cur, d);
    case LoadingNextOrder(cur, base, d, nd) =>
      StableArrived(t, me, a, b, key, cur, base, seen);
      StableNext(t, u, me, a, b, cur, d, nd);
    case Refusing(cur) => StableHolds(t, u, me, a, b, cur);
    case LoadingOrder(cur, d) => StableBelongs(t, u, me, a, b, key, cur, d);
    case StoringKey(cur, d, o) => StableAppending(t, u, me, a, b, key, cur, d, o);
    case StoringLane(cur, d, o) => StableAppending(t, u, me, a, b, key, cur, d, o);
    case CheckingHint(cur, d, o) => StableAppending(t, u, me, a, b, key, cur, d, o);
    case StoringHint(cur, d, o) => StableAppending(t, u, me, a, b, key, cur, d, o);
    case StoringOrder(cur, d, o) => StableAppending(t, u, me, a, b, key, cur, d, o);
    case Building(cur, d, o) => StableBelongs(t, u, me, a, b, key, cur, d);
    case HintingSibling(cur, d, sib, right, left) => StableSplitting(t, u, me, a, b, key, cur, d, sib, right, left);
    case FillingSibling(cur, d, sib, right, left) => StableSplitting(t, u, me, a, b, key, cur, d, sib, right, left);
    case CheckingLeftHint(cur, d, sib, right, left) => StableSplitting(t, u, me, a, b, key, cur, d, sib, right, left);
    case StoringLeftHint(cur, d, sib, right, left) => StableSplitting(t, u, me, a, b, key, cur, d, sib, right, left);
    case Swapping(cur, d, sib, right, left) => StableSplitting(t, u, me, a, b, key, cur, d, sib, right, left);
    case Unlocking(cur) => StableHolds(t, u, me, a, b, cur);
    case _ => StableLinkStep(t, u, me, a, b, key, w, seen);
  }

  lemma StableLinkStep<E(!new)>(t: Traits<E>, u: Tid, me: Tid, a: Shared<E>, b: Shared<E>, key: E, w: WriterPc<E>, seen: nat)
    requires u != me && Guarantee(t, me, a, b) && WriterOk(t, u, a, key, w, seen)
    requires w.Linking? || w.LinkDescending? || w.LinkLoading? || w.LinkProbing? || w.LinkStoring? || w.LinkSwapping?
    ensures WriterOk(t, u, b, key, w, seen)
  {
    hide Guarantee, LinkingOk, PredOk, DescentOk;
    match w
    case Linking(cur, sib, first, lv, attempt) => StableLinking(t, u, me, a, b, cur, sib, first, lv);
    case LinkDescending(cur, sib, first, lv, attempt, at) =>
      StableLinking(t, u, me, a, b, cur, sib, first, lv);
      StableDescent(t, me, a, b, first, at);
    case LinkLoading(cur, sib, first, lv, attempt, pred) =>
      StableLinking(t, u, me, a, b, cur, sib, first, lv);
      StablePred(t, me, a, b, pred, sib);
    case LinkProbing(cur, sib, first, lv, attempt, pred, probe) =>
      StableLinking(t, u, me, a, b, cur, sib, first, lv);
      StablePred(t, me, a, b, pred, sib);
      StableProbe(t, me, a, b, pred, probe);
    case LinkStoring(cur, sib, first, lv, attempt, pred, succ) =>
      StableLinking(t, u, me, a, b, cur, sib, first, lv);
      StablePred(t, me, a, b, pred, sib);
      StableForward(t, me, a, b, sib, succ);
    case LinkSwapping(cur, sib, first, lv, attempt, pred, succ) =>
      StableLinking(t, u, me, a, b, cur, sib, first, lv);
      StablePred(t, me, a, b, pred, sib);
  }

  lemma StableNext<E(!new)>(t: Traits<E>, u: Tid, me: Tid, a: Shared<E>, b: Shared<E>, cur: NodeId, d: PayloadId, nd: PayloadId)
    requires u != me && Guarantee(t, me, a, b) && HoldsData(t, u, a, cur, d)
    requires a.payloads[d].d.next.Some? && IsPayloadOf(a, nd, a.payloads[d].d.next.value)
    ensures HoldsData(t, u, b, cur, d)
    ensures b.payloads[d].d.next.Some? && IsPayloadOf(b, nd, b.payloads[d].d.next.value)
  {
    StableHoldsData(t, u, me, a, b, cur, d);
    StablePayloadOf(t, me, a, b, nd, a.payloads[d].d.next.value);
  }

  lemma StableHolds<E(!new)>(t: Traits<E>, u: Tid, me: Tid, a: Shared<E>, b: Shared<E>, cur: NodeId)
    requires u != me && Guarantee(t, me, a, b) && Holds(t, u, a, cur)
    ensures Holds(t, u, b, cur) && |a.chain| <= |b.chain|
  {
    assert NodeGrows(me, a, b, cur);
  }

  lemma StablePayloadOf<E(!new)>(t: Traits<E>, me: Tid, a: Shared<E>, b: Shared<E>, p: PayloadId, n: NodeId)
    requires Guarantee(t, me, a, b) && IsPayloadOf(a, p, n)
    ensures IsPayloadOf(b, p, n)
  {
    assert CellGrows(me, a, b, p);
  }

  lemma StableArrived<E(!new)>(t: Traits<E>, me: Tid, a: Shared<E>, b: Shared<E>, key: E, cur: NodeId, base: PayloadId, seen: nat)
    requires SharedInv(t, a) && Guarantee(t, me, a, b) && Landed(t, a, key, cur, base) && SplitsSeen(t, a, cur, base, seen)
    ensures Landed(t, b, key, cur, base) && SplitsSeen(t, b, cur, base, seen)
  {
    assert NodeOk(t, a, cur);
    StableLanded(t, me, a, b, key, cur, base);
    StableSplits(t, me, a, b, cur, base, seen);
  }

  lemma StableSeen<E(!new)>(t: Traits<E>, me: Tid, a: Shared<E>, b: Shared<E>, key: E, at: Descent, seen: nat)
    requires SharedInv(t, a) && Guarantee(t, me, a, b) && DescentOk(t, a, key, at) && SplitsSeen(t, a, at.cur, at.base, seen)
    ensures SplitsSeen(t, b, at.cur, at.base, seen)
  {
    assert NodeOk(t, a, at.cur);
    StableSplits(t, me, a, b, at.cur, at.base, seen);
  }

  // ---- readers and walkers ----------------------------------------------------------

  lemma StableKnown<E(!new)>(t: Traits<E>, me: Tid, a: Shared<E>, b: Shared<E>, key: E, k: nat)
    requires Guarantee(t, me, a, b) && k <= |a.published|
    ensures KnownKey(t, b, key, k) <==> KnownKey(t, a, key, k)
  {
    assert forall i :: 0 <= i < k ==> b.published[i] == a.published[i];
  }

  lemma StableNames<E(!new)>(t: Traits<E>, p: Payload<E>, q: Payload<E>, key: E)
    requires p.Shaped() && q.Shaped() && PayloadGrows(p, q) && NamesKey(t, p, key)
    ensures NamesKey(t, q, key)
  {
    var s :| 0 <= s < p.Count() && t.compare(p.keys[s], key) == 0;
    assert q.keys[s] == p.keys[s];
  }

  lemma StableReader<E(!new)>(t: Traits<E>, me: Tid, a: Shared<E>, b: Shared<E>, key: E, r: ReaderPc, known: nat)
    requires SharedInv(t, a) && Guarantee(t, me, a, b) && ReaderOk(t, a, key, r, known)
    ensures ReaderOk(t, b, key, r, known)
  {
    hide SharedInv, KnownKey, NamesKey, DescentOk, Landed, PayloadGrows, NodeGrows;
    StableKnown(t, me, a, b, key, known);
    match r
    case Seeking(at) => StableDescent(t, me, a, b, key, at);
    case Reloading(cur, base) => StableLanded(t, me, a, b, key, cur, base);
    case Snapshotting(cur, base, d) =>
      StableLanded(t, me, a, b, key, cur, base);
      StableSnapshot(t, me, a, b, d, key);
    case Answered(result, base, d) =>
      StableSnapshot(t, me, a, b, d, key);
      StableSnapshot(t, me, a, b, base, key);
      if result {
        var i :| 0 <= i < |a.published| && t.compare(a.published[i], key) == 0;
        assert b.published[i] == a.published[i];
      }
  }

  lemma StableSnapshot<E(!new)>(t: Traits<E>, me: Tid, a: Shared<E>, b: Shared<E>, d: PayloadId, key: E)
    requires SharedInv(t, a) && Guarantee(t, me, a, b) && d in a.installed && d < |a.payloads|
    ensures d in b.installed && d < |b.payloads| && CellGrows(me, a, b, d)
    ensures b.payloads[d].home == a.payloads[d].home && b.payloads[d].d.next == a.payloads[d].d.next
    ensures a.payloads[d].d.Shaped() ==> b.payloads[d].d.Shaped()
    ensures a.payloads[d].d.Shaped() && NamesKey(t, a.payloads[d].d, key) ==> NamesKey(t, b.payloads[d].d, key)
    ensures NextReaches(t, b, b.payloads[d].d.next, key) <==> NextReaches(t, a, a.payloads[d].d.next, key)
  {
    assert PayloadOk(t, a, d);
    assert CellGrows(me, a, b, d);
    var v := a.payloads[d].d.next;
    if v.Some? && v.value < |a.nodes| { assert NodeGrows(me, a, b, v.value); }
    if a.payloads[d].d.Shaped() && NamesKey(t, a.payloads[d].d, key) { StableNames(t, a.payloads[d].d, b.payloads[d].d, key); }
  }

  lemma StableNextAtOrBelow<E(!new)>(t: Traits<E>, me: Tid, a: Shared<E>, b: Shared<E>, v: Option<NodeId>, e: E)
    requires Guarantee(t, me, a, b) && NextAtOrBelow(t, a, v, e)
    ensures NextAtOrBelow(t, b, v, e)
  {
    assert NodeGrows(me, a, b, v.value);
  }

  lemma StableAdoptingOrder<E(!new)>(t: Traits<E>, me: Tid, a: Shared<E>, b: Shared<E>, n: NodeId, d: PayloadId,
                                     known: nat, ys: seq<E>)
    requires Guarantee(t, me, a, b) && WalkerOk(t, a, AdoptingOrder(n, d), known, ys)
    ensures WalkerOk(t, b, AdoptingOrder(n, d), known, ys)
  {
    assert NodeGrows(me, a, b, n) && CellGrows(me, a, b, d);
    var p, q := a.payloads[d].d, b.payloads[d].d;
    forall i | 0 <= i < known
      ensures b.published[i] in ys || NextAtOrBelow(t, b, q.next, b.published[i]) || b.published[i] in q.Run()
    {
      assert b.published[i] == a.published[i];
      if NextAtOrBelow(t, a, p.next, a.published[i]) { StableNextAtOrBelow(t, me, a, b, p.next, a.published[i]); }
    }
  }

  lemma StableStanding<E(!new)>(t: Traits<E>, me: Tid, a: Shared<E>, b: Shared<E>, n: NodeId, d: PayloadId,
                                o: seq<nat>, pos: nat, known: nat, ys: seq<E>)
    requires Guarantee(t, me, a, b) && WalkerOk(t, a, Standing(n, d, o, pos), known, ys)
    ensures WalkerOk(t, b, Standing(n, d, o, pos), known, ys)
  {
    assert CellGrows(me, a, b, d);
    var p, q := a.payloads[d].d, b.payloads[d].d;
    SeenRunFrozen(t, p, q, o);
    if p.next.Some? { assert NodeGrows(me, a, b, p.next.value); }
    var run := SeenRun(t, p, o);
    forall i | 0 <= i < known
      ensures b.published[i] in ys || NextAtOrBelow(t, b, q.next, b.published[i]) || b.published[i] in run[pos..]
    {
      assert b.published[i] == a.published[i];
      if NextAtOrBelow(t, a, p.next, a.published[i]) { StableNextAtOrBelow(t, me, a, b, p.next, a.published[i]); }
    }
  }

  lemma StableWalker<E(!new)>(t: Traits<E>, me: Tid, a: Shared<E>, b: Shared<E>, k: WalkerPc, known: nat, ys: seq<E>)
    requires Guarantee(t, me, a, b) && WalkerOk(t, a, k, known, ys)
    ensures WalkerOk(t, b, k, known, ys)
  {
    match k
    case Adopting(n) =>
      assert NodeGrows(me, a, b, n);
      assert forall i :: 0 <= i < known ==> b.published[i] == a.published[i];
    case AdoptingOrder(n, d) => StableAdoptingOrder(t, me, a, b, n, d, known, ys);
    case Standing(n, d, o, pos) => StableStanding(t, me, a, b, n, d, o, pos, known, ys);
    case Ended => assert forall i :: 0 <= i < known ==> b.published[i] == a.published[i];
  }

  /** No step of another thread invalidates what a thread knows. */
  lemma StableThread<E(!new)>(t: Traits<E>, u: Tid, me: Tid, a: Shared<E>, b: Shared<E>, th: Thread<E>)
    requires u != me && SharedInv(t, a) && Guarantee(t, me, a, b) && ThreadOk(t, u, a, th)
    ensures ThreadOk(t, u, b, th)
  {
    hide SharedInv, WriterOk, ReaderOk, WalkerOk;
    match th
    case Idle =>
    case Insert(key, w, start, retries, seen) => StableWriter(t, u, me, a, b, key, w, seen);
    case Lookup(key, r, known) => StableReader(t, me, a, b, key, r, known);
    case Walk(k, known, ys) => StableWalker(t, me, a, b, k, known, ys);
  }
}
