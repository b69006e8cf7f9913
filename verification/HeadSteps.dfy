/**
 What one step of a writer does to the payload the head holds: only four stores show, two
 of hints and two that publish; the order store leaves the append, the swap the left half.
 */
module HeadSteps {
  import opened OrderWord
  import opened Ordering
  import opened Kernels
  import opened Payloads
  import opened Machine
  import opened Invariant
  import opened Mutations
  import opened Publishing
  import opened NodeSplit
  import opened WriterSteps
  import opened Safety
  import opened Quiet
  import opened HeadLanes
  import opened Locks

  /** The payload the head holds. */
  function HeadPayload<E(!new)>(t: Traits<E>, sh: Shared<E>): Payload<E>
  {
    PayloadAt(t, sh, DataOf(t, sh, 0))
  }

  /** Its keys in rank order. */
  function HeadKeys<E(!new)>(t: Traits<E>, sh: Shared<E>): seq<E>
  {
    SeenRun(t, HeadPayload(t, sh), HeadPayload(t, sh).order)
  }

  /** The head's hint and everything its order word names read the same. */
  ghost predicate SeesSame<E(!new)>(t: Traits<E>, a: Shared<E>, b: Shared<E>)
  {
    && HeadPayload(t, a).Shaped() && SameNames(HeadPayload(t, a), HeadPayload(t, b))
    && NodeAt(t, b, 0).hint == NodeAt(t, a, 0).hint
  }

  lemma SameKeys<E(!new)>(t: Traits<E>, a: Shared<E>, b: Shared<E>)
    requires SeesSame(t, a, b)
    ensures HeadPayload(t, b).Shaped() && HeadKeys(t, b) == HeadKeys(t, a)
  {
    hide HeadPayload, NodeAt;
    SameNamesSame(t, HeadPayload(t, a), HeadPayload(t, b));
  }

  /** The four stores a reader of the head's hint or of its first key may notice. */
  predicate EditsHead<E>(th: Thread<E>)
  {
    th.Insert? && (th.w.StoringHint? || th.w.StoringLeftHint? || th.w.StoringOrder? || th.w.Swapping?) && th.w.cur == 0
  }

  ghost predicate HeadHeld<E(!new)>(t: Traits<E>, sh: Shared<E>, d: PayloadId)
  {
    && 0 < |sh.nodes| && sh.nodes[0].data == Some(d) && d < |sh.payloads| && sh.payloads[d].d.Shaped()
  }

  lemma HeadIs<E(!new)>(t: Traits<E>, sh: Shared<E>)
    requires SharedInv(t, sh)
    ensures HeadHeld(t, sh, DataOf(t, sh, 0)) && 0 in sh.chain && sh.payloads[DataOf(t, sh, 0)].home == 0
  {
    hide SharedInv;
    HeadPublished(t, sh);
    DataIs(t, sh, 0);
    InstalledShaped(t, sh, DataOf(t, sh, 0));
  }

  /** An append writes to the head's payload only in the head, and then only in a slot the order does not name. */
  lemma AppendSeesSame<E(!new)>(t: Traits<E>, me: Tid, sh: Shared<E>, th: Thread<E>, c: Choice<E>, head: PayloadId)
    requires th.Insert? && IsAppending(th.w) && !EditsHead(th) && HeadHeld(t, sh, head)
    requires th.w.d < |sh.payloads| && sh.payloads[th.w.d].d.Shaped() && sh.payloads[th.w.d].d.order == th.w.o
    requires th.w.cur != 0 ==> th.w.d != head
    ensures SeesSame(t, sh, WriterStep(t, me, sh, th, c).0)
  {
    hide LaneOf, RankIn, Splice;
  }

  /** A split's private builds leave the head alone. */
  lemma SplitSeesSame<E(!new)>(t: Traits<E>, me: Tid, sh: Shared<E>, th: Thread<E>, c: Choice<E>, head: PayloadId)
    requires th.Insert? && IsSplitting(th.w) && !EditsHead(th) && HeadHeld(t, sh, head)
    requires !th.w.Building? ==> th.w.sib != 0
    ensures SeesSame(t, sh, WriterStep(t, me, sh, th, c).0)
  {
    hide Merged, FirstOf, ChainWith, Height, Filled, SeenRun;
  }

  lemma LinkSeesSame<E(!new)>(t: Traits<E>, me: Tid, sh: Shared<E>, th: Thread<E>, c: Choice<E>, head: PayloadId)
    requires th.Insert? && IsLinking(th.w) && HeadHeld(t, sh, head)
    ensures SeesSame(t, sh, WriterStep(t, me, sh, th, c).0)
  {
    LinkStepIs(t, me, sh, th, c);
    hide DescentStep, ProbeStep, TowerAt, Descend, Aim, WriterStep, SeenRun;
  }

  /** Nor do loads and lock operations touch it. */
  lemma EdgeSeesSame<E(!new)>(t: Traits<E>, me: Tid, sh: Shared<E>, th: Thread<E>, c: Choice<E>, head: PayloadId)
    requires th.Insert? && (IsLoading(th.w) || th.w.Locking? || th.w.Refusing? || th.w.Unlocking?) && HeadHeld(t, sh, head)
    ensures SeesSame(t, sh, WriterStep(t, me, sh, th, c).0)
  {
    hide DescentStep, SeenRun, Descend, Build, LinkStep, FirstOf, Merged;
  }

  /** What the writer's assertion says that the last lemmas need. */
  lemma WriterKnows<E(!new)>(t: Traits<E>, me: Tid, sh: Shared<E>, th: Thread<E>)
    requires SharedInv(t, sh) && th.Insert? && ThreadOk(t, me, sh, th)
    ensures IsAppending(th.w) ==> th.w.d < |sh.payloads| && sh.payloads[th.w.d].d.Shaped() && sh.payloads[th.w.d].d.order == th.w.o
    ensures IsAppending(th.w) ==>
      sh.payloads[th.w.d].home == th.w.cur && th.w.cur < |sh.nodes| && sh.nodes[th.w.cur].data == Some(th.w.d)
    ensures IsSplitting(th.w) && !th.w.Building? ==> th.w.sib != 0
  {
    hide SharedInv, DescentOk, Above, AtOrBelow, RankIn, SlotReady, Merged, Filled, FirstOf, SplitsSeen;
    if IsAppending(th.w) { InstalledShaped(t, sh, th.w.d); }
  }

  /** Only the four stores change what the head's hint or its keys read as. */
  lemma WriterSeesSame<E(!new)>(t: Traits<E>, me: Tid, sh: Shared<E>, th: Thread<E>, c: Choice<E>)
    requires SharedInv(t, sh) && th.Insert? && ThreadOk(t, me, sh, th) && !EditsHead(th)
    ensures SeesSame(t, sh, WriterStep(t, me, sh, th, c).0)
  {
    hide SharedInv, ThreadOk, WriterStep, SeesSame, EditsHead;
    HeadIs(t, sh);
    WriterKnows(t, me, sh, th);
    var head := DataOf(t, sh, 0);
    if IsAppending(th.w) {
      AppendSeesSame(t, me, sh, th, c, head);
    } else if IsSplitting(th.w) {
      SplitSeesSame(t, me, sh, th, c, head);
    } else if IsLinking(th.w) {
      LinkSeesSame(t, me, sh, th, c, head);
    } else {
      EdgeSeesSame(t, me, sh, th, c, head);
    }
  }

  // ---- the four stores ---------------------------------------------------------------------

  /** A hint store changes no payload. */
  lemma HintStoreIs<E(!new)>(t: Traits<E>, me: Tid, sh: Shared<E>, th: Thread<E>, c: Choice<E>)
    requires EditsHead(th) && (th.w.StoringHint? || th.w.StoringLeftHint?)
    ensures HeadPayload(t, WriterStep(t, me, sh, th, c).0) == HeadPayload(t, sh)
  {
    hide FirstOf;
  }

  lemma OrderStoreReady<E(!new)>(t: Traits<E>, me: Tid, sh: Shared<E>, th: Thread<E>)
    requires SharedInv(t, sh) && th.Insert? && ThreadOk(t, me, sh, th) && EditsHead(th) && th.w.StoringOrder?
    ensures HeadHeld(t, sh, th.w.d)
    ensures var p := sh.payloads[th.w.d].d;
      && p.Count() < NODE_CAPACITY && p.order == th.w.o
      && p.keys[p.Count()] == th.key && p.lanes[p.Count()] == LaneOf(t, p, p.order, th.key)
  {
    HeadIs(t, sh);
    WriterKnows(t, me, sh, th);
    SlotIsReady(t, me, sh, th);
    hide SharedInv, ThreadOk, LaneOf, LowerBound;
  }

  lemma SlotIsReady<E(!new)>(t: Traits<E>, me: Tid, sh: Shared<E>, th: Thread<E>)
    requires th.Insert? && ThreadOk(t, me, sh, th) && th.w.StoringOrder?
    ensures SlotReady(t, sh, th.w.d, th.w.o, th.key) && |th.w.o| < NODE_CAPACITY
  {
    hide SlotReady, BelongsTo, RankIn;
  }

  lemma OrderStoreIs<E(!new)>(t: Traits<E>, me: Tid, sh: Shared<E>, th: Thread<E>, c: Choice<E>)
    requires SharedInv(t, sh) && th.Insert? && ThreadOk(t, me, sh, th) && EditsHead(th) && th.w.StoringOrder?
    ensures HeadHeld(t, sh, th.w.d) && sh.payloads[th.w.d].d.Count() < NODE_CAPACITY
    ensures var b := WriterStep(t, me, sh, th, c).0;
      NodeAt(t, b, 0) == NodeAt(t, sh, 0) && HeadPayload(t, b) == Appended(t, sh.payloads[th.w.d].d, th.key)
  {
    OrderStoreReady(t, me, sh, th);
    hide SharedInv, ThreadOk, LaneOf, RankIn, LowerBound, Appended;
    var p := sh.payloads[th.w.d].d;
    AppendValue(t, p, th.key);
  }

  /** The swap installs the left half. */
  lemma SwapIs<E(!new)>(t: Traits<E>, me: Tid, sh: Shared<E>, th: Thread<E>, c: Choice<E>)
    requires SharedInv(t, sh) && th.Insert? && ThreadOk(t, me, sh, th) && EditsHead(th) && th.w.Swapping?
    ensures HeadPayload(t, WriterStep(t, me, sh, th, c).0) == PayloadAt(t, sh, th.w.left)
    ensures NodeAt(t, WriterStep(t, me, sh, th, c).0, 0).hint == t.Hint(FirstOf(t, PayloadAt(t, sh, th.w.left)))
  {
    SplittingLeft(t, me, sh, th);
    HeadIs(t, sh);
    SwappingIs(t, me, sh, th, c);
    hide SharedInv, ThreadOk, WriterStep, FirstOf, ChainWith;
  }

  lemma SplittingLeft<E(!new)>(t: Traits<E>, me: Tid, sh: Shared<E>, th: Thread<E>)
    requires th.Insert? && ThreadOk(t, me, sh, th) && EditsHead(th) && th.w.Swapping?
    ensures th.w.left < |sh.payloads| && th.w.right < |sh.payloads|
    ensures NodeAt(t, sh, 0).hint == t.Hint(FirstOf(t, PayloadAt(t, sh, th.w.left)))
  {
    hide FirstOf, Merged, Filled, BelongsTo, SiblingReady;
    match th.w
    case Swapping(cur, d, sib, right, left) => assert Splitting(t, me, sh, th.key, cur, d, sib, right, left);
  }

  // ---- its lanes -----------------------------------------------------------------------------

  /** The left half is a filled run, so under a bytewise-compatible comparator its lanes are exact. */
  lemma LeftExact<E(!new)>(t: Traits<E>, me: Tid, sh: Shared<E>, th: Thread<E>)
    requires t.TotalOrder() && t.HintPromise() && t.Bytewise() && SharedInv(t, sh)
    requires th.Insert? && ThreadOk(t, me, sh, th) && th.w.Swapping?
    requires Unpublished(t, sh, th.key)
    ensures var q := PayloadAt(t, sh, th.w.left); q.Shaped() && LanesExact(t, q) && RankSorted(q.lanes, q.order)
  {
    hide SharedInv, Filled, LanesExact, Half, Merged;
    match th.w
    case Swapping(cur, d, sib, right, left) =>
      MergedFacts(t, me, sh, th.key, cur, d, sib, right, left);
      var m := MergedRun(t, sh, th.key, d);
      assert m[..MID] == m[0..MID];
      FilledFacts(t, m, 0, MID, Some(sib));
      LanesSorted(t, PayloadAt(t, sh, left));
  }

  /** How thread th's step may change whether the head's lanes are sorted, p being its payload before and q after. */
  ghost predicate LanesFollow<E(!new)>(t: Traits<E>, p: Payload<E>, q: Payload<E>, th: Thread<E>)
    requires p.Shaped() && q.Shaped()
  {
    if AtPublishingStore(th) && th.w.cur == 0 && th.w.StoringOrder? then
      && p.Count() < NODE_CAPACITY && q == Appended(t, p, th.key)
      && (RankSorted(q.lanes, q.order) <==> RankSorted(p.lanes, p.order) && Fits(t, p, th.key))
    else if AtPublishingStore(th) && th.w.cur == 0 then
      t.Bytewise() ==> LanesExact(t, q) && RankSorted(q.lanes, q.order)
    else
      RankSorted(q.lanes, q.order) <==> RankSorted(p.lanes, p.order)
  }

  lemma SameNamesSorted<E(!new)>(p: Payload<E>, q: Payload<E>)
    requires p.Shaped() && q.Shaped() && SameNames(p, q)
    ensures RankSorted(q.lanes, q.order) <==> RankSorted(p.lanes, p.order)
  {
  }

  lemma WriterLanes<E(!new)>(t: Traits<E>, me: Tid, sh: Shared<E>, th: Thread<E>, c: Choice<E>)
    requires t.TotalOrder() && t.HintPromise() && SharedInv(t, sh) && th.Insert? && ThreadOk(t, me, sh, th)
    requires Pending(th) ==> Unpublished(t, sh, th.key)
    requires HeadPayload(t, sh).Shaped() && HeadPayload(t, WriterStep(t, me, sh, th, c).0).Shaped()
    ensures LanesFollow(t, HeadPayload(t, sh), HeadPayload(t, WriterStep(t, me, sh, th, c).0), th)
  {
    hide SharedInv, ThreadOk, WriterStep, RankSorted, LanesExact, Fits, Appended, Unpublished, SameNames;
    var p, q := HeadPayload(t, sh), HeadPayload(t, WriterStep(t, me, sh, th, c).0);
    if !EditsHead(th) {
      WriterSeesSame(t, me, sh, th, c);
      SameNamesSorted(p, q);
    } else if th.w.StoringOrder? {
      OrderStoreIs(t, me, sh, th, c);
      AppendSortedIff(t, p, th.key);
    } else if th.w.Swapping? {
      SwapIs(t, me, sh, th, c);
      if t.Bytewise() { LeftExact(t, me, sh, th); }
    } else {
      HintStoreIs(t, me, sh, th, c);
    }
  }

  /**
   The head's lanes over every run: sorted lanes stay sorted at an append's order store
   exactly when the new lane fits, and the payload swap sorts them whatever they were. No
   other step of any thread changes whether they are sorted.
   */
  lemma HeadLanesStep<E(!new)>(t: Traits<E>, n: nat, s: State<E>, me: Tid, c: Choice<E>)
    requires t.TotalOrder() && t.HintPromise() && Attained(t, n, s) && me < |s.threads|
    ensures HeadPayload(t, s.sh).Shaped() && HeadPayload(t, Step(t, s, me, c).sh).Shaped()
    ensures LanesFollow(t, HeadPayload(t, s.sh), HeadPayload(t, Step(t, s, me, c).sh), s.threads[me])
  {
    hide Attained, SharedInv, WriterStep, ReaderStep, WalkerStep, Begin, HeadPayload, RankSorted, ThreadOk, Unpublished, Pending;
    AttainedInv(t, n, s);
    var th := s.threads[me];
    assert ThreadOk(t, me, s.sh, th);
    StepKeepsInv(t, s, me, c);
    HeadShaped(t, s.sh);
    HeadShaped(t, Step(t, s, me, c).sh);
    if th.Insert? { WriterLanes(t, me, s.sh, th, c); }
  }

  lemma HeadShaped<E(!new)>(t: Traits<E>, sh: Shared<E>)
    requires SharedInv(t, sh)
    ensures HeadPayload(t, sh).Shaped()
  {
    hide SharedInv;
    HeadIs(t, sh);
  }
}
