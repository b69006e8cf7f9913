/**
 Every step of insert_entry, from every program counter: the shared invariant and
 the Guarantee are kept and the thread's own assertion holds at its next counter.
 */
module WriterSteps {
  import opened OrderWord
  import opened Surrogate
  import opened Ordering
  import opened Payloads
  import opened Machine
  import opened Invariant
  import opened Stability
  import opened Mutations
  import opened Publishing
  import opened NodeSplit
  import opened Descents

  /** What a writer may rely on when it takes a step. */
  ghost predicate Before<E(!new)>(t: Traits<E>, me: Tid, sh: Shared<E>, th: Thread<E>)
  {
    && t.TotalOrder() && t.HintPromise() && SharedInv(t, sh) && th.Insert? && ThreadOk(t, me, sh, th)
    && (Pending(th) ==> Unpublished(t, sh, th.key))
  }

  ghost predicate After<E(!new)>(t: Traits<E>, me: Tid, a: Shared<E>, b: Shared<E>, th: Thread<E>)
  {
    SharedInv(t, b) && Guarantee(t, me, a, b) && ThreadOk(t, me, b, th)
  }

  lemma Untouched<E(!new)>(t: Traits<E>, me: Tid, a: Shared<E>)
    ensures Guarantee(t, me, a, a)
  {
    forall p | 0 <= p < |a.payloads|
      ensures CellGrows(me, a, a, p)
    {
      SamePayloadGrows(a.payloads[p].d);
    }
  }

  // ---- descending and locking ------------------------------------------------------------

  lemma StepDescending<E(!new)>(t: Traits<E>, me: Tid, sh: Shared<E>, th: Thread<E>, c: Choice<E>)
    requires Before(t, me, sh, th) && th.w.Descending?
    ensures var (b, th') := WriterStep(t, me, sh, th, c); After(t, me, sh, b, th')
  {
    hide SharedInv, Guarantee, DescentOk, Landed, Unpublished;
    Untouched(t, me, sh);
    DescentSound(t, sh, th.key, th.w.at);
  }

  /** Taking or dropping a lock touches nothing else. */
  lemma LockEdit<E(!new)>(t: Traits<E>, me: Tid, a: Shared<E>, n: NodeId, v: Option<Tid>)
    requires SharedInv(t, a) && n in a.chain && n < |a.nodes| && !LockedByOther(me, a, n)
    ensures SharedInv(t, SetLock(t, a, n, v)) && Guarantee(t, me, a, SetLock(t, a, n, v))
    ensures |SetLock(t, a, n, v).nodes| == |a.nodes| && SetLock(t, a, n, v).nodes[n] == a.nodes[n].(lock := v)
    ensures SetLock(t, a, n, v).chain == a.chain
  {
    hide ChainOk, PayloadsOk, AllLocated, Occupied;
    var b := SetLock(t, a, n, v);
    assert TowerOk(t, a, n);
    assert n == 0 ==> HeadHintLow(t, b);
    EditNode(t, me, a, b, n);
  }

  lemma StepLocking<E(!new)>(t: Traits<E>, me: Tid, sh: Shared<E>, th: Thread<E>, c: Choice<E>)
    requires Before(t, me, sh, th) && th.w.Locking?
    ensures var (b, th') := WriterStep(t, me, sh, th, c); After(t, me, sh, b, th')
  {
    hide SharedInv, Guarantee, Landed, SplitsSeen, Unpublished, SetLock;
    var cur, base := th.w.cur, th.w.base;
    if NodeAt(t, sh, cur).lock.None? {
      LandedHere(t, sh, th.key, cur, base);
      LockEdit(t, me, sh, cur, Some(me));
      var b := SetLock(t, sh, cur, Some(me));
      StableArrived(t, me, sh, b, th.key, cur, base, th.seen);
    } else {
      Untouched(t, me, sh);
    }
  }

  lemma LandedHere<E(!new)>(t: Traits<E>, sh: Shared<E>, key: E, cur: NodeId, base: PayloadId)
    requires Landed(t, sh, key, cur, base)
    ensures cur in sh.chain && cur < |sh.nodes|
  {
  }

  lemma StepLoadingData<E(!new)>(t: Traits<E>, me: Tid, sh: Shared<E>, th: Thread<E>, c: Choice<E>)
    requires Before(t, me, sh, th) && th.w.LoadingData?
    ensures var (b, th') := WriterStep(t, me, sh, th, c); After(t, me, sh, b, th')
  {
    hide SharedInv, Guarantee, Landed, SplitsSeen, Unpublished;
    Untouched(t, me, sh);
    LockedData(t, me, sh, th.w.cur);
  }

  lemma LockedData<E(!new)>(t: Traits<E>, me: Tid, sh: Shared<E>, cur: NodeId)
    requires SharedInv(t, sh) && Holds(t, me, sh, cur)
    ensures HoldsData(t, me, sh, cur, DataOf(t, sh, cur))
  {
    assert NodeOk(t, sh, cur);
  }

  lemma StepLoadingNext<E(!new)>(t: Traits<E>, me: Tid, sh: Shared<E>, th: Thread<E>, c: Choice<E>)
    requires Before(t, me, sh, th) && th.w.LoadingNext?
    ensures var (b, th') := WriterStep(t, me, sh, th, c); After(t, me, sh, b, th')
  {
    hide SharedInv, Guarantee, SplitsSeen, Unpublished;
    Untouched(t, me, sh);
    var d := th.w.d;
    InstalledNext(t, sh, d);
    if sh.payloads[d].d.next.Some? { BaseSound(t, sh, sh.payloads[d].d.next.value); }
  }

  /** belongs_here: the successor's first key decides, and a refusal means the node was split since it was chosen. */
  lemma StepLoadingNextOrder<E(!new)>(t: Traits<E>, me: Tid, sh: Shared<E>, th: Thread<E>, c: Choice<E>)
    requires Before(t, me, sh, th) && th.w.LoadingNextOrder?
    ensures var (b, th') := WriterStep(t, me, sh, th, c); After(t, me, sh, b, th')
  {
    hide SharedInv, Guarantee, Unpublished;
    Untouched(t, me, sh);
    var d, nd := th.w.d, th.w.nd;
    InstalledNext(t, sh, d);
    var nx := sh.payloads[d].d.next.value;
    FirstIsLow(t, sh, nd, nx);
    t.Order3(sh.nodes[nx].low, th.key, sh.nodes[nx].low);
  }

  lemma StepRefusing<E(!new)>(t: Traits<E>, me: Tid, sh: Shared<E>, th: Thread<E>, c: Choice<E>)
    requires Before(t, me, sh, th) && th.w.Refusing?
    ensures var (b, th') := WriterStep(t, me, sh, th, c); After(t, me, sh, b, th')
  {
    hide SharedInv, Guarantee, Unpublished, SetLock, DescentOk;
    LockEdit(t, me, sh, th.w.cur, None);
    DescentBegins(t, SetLock(t, sh, th.w.cur, None), th.key, 0);
  }

  lemma StepUnlocking<E(!new)>(t: Traits<E>, me: Tid, sh: Shared<E>, th: Thread<E>, c: Choice<E>)
    requires Before(t, me, sh, th) && th.w.Unlocking?
    ensures var (b, th') := WriterStep(t, me, sh, th, c); After(t, me, sh, b, th')
  {
    hide SharedInv, Guarantee, Unpublished, SetLock;
    LockEdit(t, me, sh, th.w.cur, None);
  }

  // ---- append ------------------------------------------------------------------------------

  lemma StepLoadingOrder<E(!new)>(t: Traits<E>, me: Tid, sh: Shared<E>, th: Thread<E>, c: Choice<E>)
    requires Before(t, me, sh, th) && th.w.LoadingOrder?
    ensures var (b, th') := WriterStep(t, me, sh, th, c); After(t, me, sh, b, th')
  {
    hide ChainOk, TowersOk, AllLocated, HeadHintLow, Occupied, Guarantee, Unpublished, Above, AtOrBelow;
    Untouched(t, me, sh);
    assert PayloadOk(t, sh, th.w.d);
  }

  lemma StepStoringKey<E(!new)>(t: Traits<E>, me: Tid, sh: Shared<E>, th: Thread<E>, c: Choice<E>)
    requires Before(t, me, sh, th) && th.w.StoringKey?
    ensures var (b, th') := WriterStep(t, me, sh, th, c); After(t, me, sh, b, th')
  {
    hide SharedInv, Guarantee, Unpublished;
    var cur, d, o := th.w.cur, th.w.d, th.w.o;
    InstalledShaped(t, sh, d);
    var b := WriterStep(t, me, sh, th, c).0;
    assert SlotEdit(sh, b, d);
    EditSlot(t, me, sh, b, cur, d);
  }

  lemma InstalledShaped<E(!new)>(t: Traits<E>, sh: Shared<E>, d: PayloadId)
    requires SharedInv(t, sh) && d in sh.installed
    ensures d < |sh.payloads| && sh.payloads[d].d.Shaped() && Sorted(t, sh.payloads[d].d.Run())
    ensures SeenRun(t, sh.payloads[d].d, sh.payloads[d].d.order) == sh.payloads[d].d.Run()
  {
    hide ChainOk, TowersOk, AllLocated, HeadHintLow, Occupied;
    assert PayloadOk(t, sh, d);
    SeenIsRun(t, sh.payloads[d].d);
  }

  lemma StepStoringLane<E(!new)>(t: Traits<E>, me: Tid, sh: Shared<E>, th: Thread<E>, c: Choice<E>)
    requires Before(t, me, sh, th) && th.w.StoringLane?
    ensures var (b, th') := WriterStep(t, me, sh, th, c); After(t, me, sh, b, th')
  {
    hide SharedInv, Guarantee, Unpublished, LowerBound, SurrogateAt;
    var cur, d, o := th.w.cur, th.w.d, th.w.o;
    InstalledShaped(t, sh, d);
    var b := WriterStep(t, me, sh, th, c).0;
    var p, q := sh.payloads[d].d, b.payloads[d].d;
    assert SlotEdit(sh, b, d);
    assert SeenRun(t, q, o) == SeenRun(t, p, o);
    EditSlot(t, me, sh, b, cur, d);
  }

  lemma StepCheckingHint<E(!new)>(t: Traits<E>, me: Tid, sh: Shared<E>, th: Thread<E>, c: Choice<E>)
    requires Before(t, me, sh, th) && th.w.CheckingHint?
    ensures var (b, th') := WriterStep(t, me, sh, th, c); After(t, me, sh, b, th')
  {
    hide SharedInv, Guarantee, Unpublished, LaneOf, RankIn;
    Untouched(t, me, sh);
  }

  /** Only the head ever takes a key below its first: elsewhere the rank is at least one. */
  lemma RankZeroIsHead<E(!new)>(t: Traits<E>, me: Tid, sh: Shared<E>, key: E, cur: NodeId, d: PayloadId)
    requires t.TotalOrder() && SharedInv(t, sh) && BelongsTo(t, me, sh, key, cur, d) && Unpublished(t, sh, key)
    ensures d < |sh.payloads|
    ensures cur != 0 ==> RankIn(t, sh.payloads[d].d, sh.payloads[d].d.order, key) > 0
    ensures RankIn(t, sh.payloads[d].d, sh.payloads[d].d.order, key) == 0 && |sh.payloads[d].d.order| > 0 ==>
              !t.Lt(FirstOf(t, sh.payloads[d].d), key)
  {
    hide ChainOk, TowersOk, AllLocated, HeadHintLow, Occupied, LanesOk;
    assert PayloadOk(t, sh, d) && OnlyPublished(sh, d);
    var p := sh.payloads[d].d;
    SeenIsRun(t, p);
    FreshInNode(t, sh, d, key);
    if cur != 0 { assert p.Run()[0] == sh.nodes[cur].low && t.compare(p.Run()[0], key) != 0; }
  }

  lemma HintEdit<E(!new)>(t: Traits<E>, me: Tid, a: Shared<E>, n: NodeId, h: uint64)
    requires SharedInv(t, a) && n < |a.nodes|
    requires n in a.chain ==> a.nodes[n].lock == Some(me)
    requires n !in a.chain ==> a.nodes[n].maker == me
    requires n in a.chain && n != 0 ==> h == a.nodes[n].hint
    requires n == 0 ==> HeadHintLow(t, SetHint(t, a, 0, h))
    ensures SharedInv(t, SetHint(t, a, n, h)) && Guarantee(t, me, a, SetHint(t, a, n, h))
    ensures SetHint(t, a, n, h) == a.(nodes := a.nodes[n := a.nodes[n].(hint := h)])
  {
    hide ChainOk, PayloadsOk, AllLocated, Occupied, HeadHintLow;
    assert TowerOk(t, a, n);
    EditNode(t, me, a, SetHint(t, a, n, h), n);
  }

  lemma StepStoringHint<E(!new)>(t: Traits<E>, me: Tid, sh: Shared<E>, th: Thread<E>, c: Choice<E>)
    requires Before(t, me, sh, th) && th.w.StoringHint?
    ensures var (b, th') := WriterStep(t, me, sh, th, c); After(t, me, sh, b, th')
  {
    hide SharedInv, Guarantee, Unpublished, LaneOf, RankIn;
    var cur, d, key := th.w.cur, th.w.d, th.key;
    RankZeroIsHead(t, me, sh, key, cur, d);
    assert cur == 0;
    var first := FirstOf(t, sh.payloads[d].d);
    if t.hintOrdering && |sh.payloads[d].d.order| > 0 { t.HintFollows(key, first); }
    HintEdit(t, me, sh, 0, t.Hint(key));
  }

  lemma StepStoringOrder<E(!new)>(t: Traits<E>, me: Tid, sh: Shared<E>, th: Thread<E>, c: Choice<E>)
    requires Before(t, me, sh, th) && th.w.StoringOrder?
    ensures var (b, th') := WriterStep(t, me, sh, th, c); After(t, me, sh, b, th')
  {
    hide SharedInv, Guarantee, LaneOf, RankIn;
    PublishAppend(t, me, sh, th.key, th.w.cur, th.w.d);
    assert WriterStep(t, me, sh, th, c).0 == AfterAppend(t, sh, th.w.d, th.key);
  }

  // ---- split -------------------------------------------------------------------------------

  lemma BuildingIs<E(!new)>(t: Traits<E>, me: Tid, sh: Shared<E>, th: Thread<E>, c: Choice<E>)
    requires th.Insert? && th.w.Building? && th.w.d < |sh.payloads|
    requires sh.payloads[th.w.d].d.order == th.w.o && |th.w.o| == NODE_CAPACITY
    ensures WriterStep(t, me, sh, th, c) ==
            (AfterBuild(t, me, sh, th.key, th.w.cur, th.w.d, Height(c)),
             th.(w := HintingSibling(th.w.cur, th.w.d, |sh.nodes|, |sh.payloads|, |sh.payloads| + 1)))
  {
    hide Build, Merged;
  }

  lemma BuildShared<E(!new)>(t: Traits<E>, me: Tid, sh: Shared<E>, key: E, cur: NodeId, d: PayloadId, h: nat)
    requires BuildReady(t, me, sh, key, cur, d) && 1 <= h <= MAX_HEIGHT
    ensures SharedInv(t, AfterBuild(t, me, sh, key, cur, d, h)) && AfterBuild(t, me, sh, key, cur, d, h).chain == sh.chain
  {
    BuildChain(t, me, sh, key, cur, d, h);
    BuildPayloads(t, me, sh, key, cur, d, h);
    BuildRest(t, me, sh, key, cur, d, h);
    hide BuildReady, AfterBuild, ChainOk, PayloadsOk, TowersOk, AllLocated, HeadHintLow, Occupied;
    InvOfParts(t, AfterBuild(t, me, sh, key, cur, d, h));
    BuildChainLength(t, me, sh, key, cur, d, h);
  }

  lemma StepBuilding<E(!new)>(t: Traits<E>, me: Tid, sh: Shared<E>, th: Thread<E>, c: Choice<E>)
    requires Before(t, me, sh, th) && th.w.Building?
    ensures var (b, th') := WriterStep(t, me, sh, th, c); After(t, me, sh, b, th')
  {
    hide SharedInv, Guarantee, Splitting, BelongsTo, Unpublished, AfterBuild, WriterStep;
    var cur, d, key := th.w.cur, th.w.d, th.key;
    BuildShared(t, me, sh, key, cur, d, Height(c));
    BuildGuarantee(t, me, sh, key, cur, d, Height(c));
    BuildingIs(t, me, sh, th, c);
  }

  lemma InvOfParts<E(!new)>(t: Traits<E>, sh: Shared<E>)
    requires ChainOk(t, sh) && PayloadsOk(t, sh) && TowersOk(t, sh) && AllLocated(t, sh) && HeadHintLow(t, sh) && Occupied(sh)
    ensures SharedInv(t, sh)
  {
  }

  lemma BuildChainLength<E(!new)>(t: Traits<E>, me: Tid, a: Shared<E>, key: E, cur: NodeId, d: PayloadId, h: nat)
    requires d < |a.payloads| && |a.payloads[d].d.order| == NODE_CAPACITY
    ensures AfterBuild(t, me, a, key, cur, d, h).chain == a.chain
  {
  }

  /** A store to the unpublished sibling's header leaves the split's preparation as it was. */
  lemma SiblingEdit<E(!new)>(t: Traits<E>, me: Tid, a: Shared<E>, b: Shared<E>, key: E, cur: NodeId, d: PayloadId,
                             sib: NodeId, right: PayloadId, left: PayloadId)
    requires SharedInv(t, a) && Splitting(t, me, a, key, cur, d, sib, right, left) && |b.nodes| == |a.nodes|
    requires b == a.(nodes := a.nodes[sib := b.nodes[sib]])
    requires b.nodes[sib] == a.nodes[sib].(hint := b.nodes[sib].hint, data := b.nodes[sib].data)
    ensures SharedInv(t, b) && Guarantee(t, me, a, b)
    ensures Splitting(t, me, b, key, cur, d, sib, right, left)
  {
    hide ChainOk, PayloadsOk, AllLocated, Occupied, HeadHintLow, Merged, Filled;
    assert TowerOk(t, a, sib);
    EditNode(t, me, a, b, sib);
    assert cur != sib;
    InstalledNext(t, a, d);
  }

  lemma HalvesBegin<E(!new)>(t: Traits<E>, me: Tid, sh: Shared<E>, key: E, cur: NodeId, d: PayloadId,
                             sib: NodeId, right: PayloadId, left: PayloadId)
    requires t.TotalOrder() && SharedInv(t, sh) && Unpublished(t, sh, key)
    requires Splitting(t, me, sh, key, cur, d, sib, right, left)
    ensures right < |sh.payloads| && left < |sh.payloads| && sib < |sh.nodes| && cur < |sh.nodes|
    ensures FirstOf(t, sh.payloads[right].d) == sh.nodes[sib].low
    ensures cur != 0 ==> FirstOf(t, sh.payloads[left].d) == sh.nodes[cur].low
    ensures cur == 0 ==> !t.Lt(FirstOf(t, sh.payloads[d].d), FirstOf(t, sh.payloads[left].d))
  {
    hide ChainOk, TowersOk, AllLocated, HeadHintLow, Occupied, LanesOk, LowerBound, LanesExact, PrefixLongEnough, Filled;
    assert PayloadOk(t, sh, d) && OnlyPublished(sh, d);
    var p := sh.payloads[d].d;
    SeenIsRun(t, p);
    FreshInNode(t, sh, d, key);
    SpliceSorted(t, p.Run(), key);
    var r, m := LowerBound(t, p.Run(), key), Merged(t, p, p.order, key);
    assert m == Splice(p.Run(), r, key);
    assert m[MID..] == m[MID..|m|] && m[..MID] == m[0..MID];
    FilledFacts(t, m, 0, MID, Some(sib));
    FilledFacts(t, m, MID, |m|, p.next);
    assert m[0] == if r == 0 then key else p.Run()[0];
    if cur != 0 { assert p.Run()[0] == sh.nodes[cur].low && t.compare(p.Run()[0], key) != 0; }
    t.Order3(key, p.Run()[0], key);
    t.Order3(p.Run()[0], p.Run()[0], key);
  }

  lemma HintingIs<E(!new)>(t: Traits<E>, me: Tid, sh: Shared<E>, th: Thread<E>, c: Choice<E>)
    requires th.Insert? && th.w.HintingSibling? && th.w.sib < |sh.nodes| && th.w.right < |sh.payloads|
    ensures var w := th.w;
      WriterStep(t, me, sh, th, c) ==
      (sh.(nodes := sh.nodes[w.sib := sh.nodes[w.sib].(hint := t.Hint(FirstOf(t, sh.payloads[w.right].d)))]),
       th.(w := FillingSibling(w.cur, w.d, w.sib, w.right, w.left)))
  {
    hide FirstOf;
  }

  lemma StepHintingSibling<E(!new)>(t: Traits<E>, me: Tid, sh: Shared<E>, th: Thread<E>, c: Choice<E>)
    requires Before(t, me, sh, th) && th.w.HintingSibling?
    ensures var (b, th') := WriterStep(t, me, sh, th, c); After(t, me, sh, b, th')
  {
    hide SharedInv, Guarantee, BelongsTo, FirstOf, Unpublished, WriterStep, Splitting;
    var w := th.w;
    SplittingSib(t, me, sh, th.key, w.cur, w.d, w.sib, w.right, w.left);
    HalvesBegin(t, me, sh, th.key, w.cur, w.d, w.sib, w.right, w.left);
    HintingIs(t, me, sh, th, c);
    var b := sh.(nodes := sh.nodes[w.sib := sh.nodes[w.sib].(hint := t.Hint(FirstOf(t, sh.payloads[w.right].d)))]);
    SiblingEdit(t, me, sh, b, th.key, w.cur, w.d, w.sib, w.right, w.left);
  }

  lemma FillingIs<E(!new)>(t: Traits<E>, me: Tid, sh: Shared<E>, th: Thread<E>, c: Choice<E>)
    requires th.Insert? && th.w.FillingSibling? && th.w.sib < |sh.nodes|
    ensures var w := th.w;
      WriterStep(t, me, sh, th, c) ==
      (sh.(nodes := sh.nodes[w.sib := sh.nodes[w.sib].(data := Some(w.right))]),
       th.(w := CheckingLeftHint(w.cur, w.d, w.sib, w.right, w.left)))
  {
  }

  lemma FillingKeeps<E(!new)>(t: Traits<E>, me: Tid, a: Shared<E>, key: E, cur: NodeId, d: PayloadId,
                              sib: NodeId, right: PayloadId, left: PayloadId)
    requires SharedInv(t, a) && Splitting(t, me, a, key, cur, d, sib, right, left)
    requires sib < |a.nodes| && a.nodes[sib].hint == t.Hint(a.nodes[sib].low)
    ensures var b := a.(nodes := a.nodes[sib := a.nodes[sib].(data := Some(right))]);
      && SharedInv(t, b) && Guarantee(t, me, a, b)
      && Splitting(t, me, b, key, cur, d, sib, right, left) && SiblingReady(t, b, sib, right) && b.chain == a.chain
  {
    hide SharedInv, Guarantee, Splitting;
    SiblingEdit(t, me, a, a.(nodes := a.nodes[sib := a.nodes[sib].(data := Some(right))]), key, cur, d, sib, right, left);
  }

  lemma StepFillingSibling<E(!new)>(t: Traits<E>, me: Tid, sh: Shared<E>, th: Thread<E>, c: Choice<E>)
    requires Before(t, me, sh, th) && th.w.FillingSibling?
    ensures var (b, th') := WriterStep(t, me, sh, th, c); After(t, me, sh, b, th')
  {
    hide SharedInv, Guarantee, Unpublished, WriterStep, Splitting, SiblingReady;
    match th.w
    case FillingSibling(cur, d, sib, right, left) =>
      SplittingSib(t, me, sh, th.key, cur, d, sib, right, left);
      FillingIs(t, me, sh, th, c);
      FillingKeeps(t, me, sh, th.key, cur, d, sib, right, left);
  }

  lemma SplittingSib<E(!new)>(t: Traits<E>, me: Tid, sh: Shared<E>, key: E, cur: NodeId, d: PayloadId,
                              sib: NodeId, right: PayloadId, left: PayloadId)
    requires Splitting(t, me, sh, key, cur, d, sib, right, left)
    ensures sib < |sh.nodes| && cur < |sh.nodes| && cur in sh.chain && sh.nodes[cur].lock == Some(me)
    ensures right < |sh.payloads| && left < |sh.payloads| && d < |sh.payloads|
  {
    hide Merged, Filled;
  }

  lemma StepCheckingLeftHint<E(!new)>(t: Traits<E>, me: Tid, sh: Shared<E>, th: Thread<E>, c: Choice<E>)
    requires Before(t, me, sh, th) && th.w.CheckingLeftHint?
    ensures var (b, th') := WriterStep(t, me, sh, th, c); After(t, me, sh, b, th')
  {
    hide SharedInv, Guarantee, Merged, BelongsTo, Filled, FirstOf, Unpublished;
    Untouched(t, me, sh);
  }

  lemma HeaderEdit<E(!new)>(t: Traits<E>, me: Tid, a: Shared<E>, b: Shared<E>, key: E, cur: NodeId, d: PayloadId,
                            sib: NodeId, right: PayloadId, left: PayloadId, h: uint64)
    requires SharedInv(t, a) && Splitting(t, me, a, key, cur, d, sib, right, left) && SiblingReady(t, a, sib, right)
    requires b == a.(nodes := a.nodes[cur := a.nodes[cur].(hint := h)])
    ensures Splitting(t, me, b, key, cur, d, sib, right, left) && SiblingReady(t, b, sib, right)
  {
    hide SharedInv, Merged, Filled;
    if a.payloads[d].d.next.Some? { InstalledNext(t, a, d); }
  }

  lemma LeftHintIs<E(!new)>(t: Traits<E>, me: Tid, sh: Shared<E>, th: Thread<E>, c: Choice<E>)
    requires th.Insert? && th.w.StoringLeftHint? && th.w.left < |sh.payloads|
    ensures var w := th.w;
      WriterStep(t, me, sh, th, c) ==
      (SetHint(t, sh, w.cur, t.Hint(FirstOf(t, sh.payloads[w.left].d))), th.(w := Swapping(w.cur, w.d, w.sib, w.right, w.left)))
  {
    hide FirstOf, SetHint;
  }

  lemma LeftHintKeeps<E(!new)>(t: Traits<E>, me: Tid, sh: Shared<E>, key: E, cur: NodeId, d: PayloadId,
                               sib: NodeId, right: PayloadId, left: PayloadId, h: uint64)
    requires t.TotalOrder() && t.HintPromise() && SharedInv(t, sh) && Unpublished(t, sh, key)
    requires Splitting(t, me, sh, key, cur, d, sib, right, left)
    requires left < |sh.payloads| && h == t.Hint(FirstOf(t, sh.payloads[left].d))
    ensures SharedInv(t, SetHint(t, sh, cur, h)) && Guarantee(t, me, sh, SetHint(t, sh, cur, h))
    ensures cur < |sh.nodes| && SetHint(t, sh, cur, h) == sh.(nodes := sh.nodes[cur := sh.nodes[cur].(hint := h)])
  {
    hide ChainOk, PayloadsOk, TowersOk, AllLocated, Occupied, Guarantee, Splitting, FirstOf, Unpublished;
    SplittingSib(t, me, sh, key, cur, d, sib, right, left);
    HalvesBegin(t, me, sh, key, cur, d, sib, right, left);
    if cur != 0 { PublishedHint(t, sh, cur); }
    if cur == 0 {
      SplittingData(t, me, sh, key, cur, d, sib, right, left);
      if t.hintOrdering { t.HintFollows(FirstOf(t, sh.payloads[left].d), FirstOf(t, sh.payloads[d].d)); }
    }
    HintEdit(t, me, sh, cur, h);
  }

  lemma SplittingData<E(!new)>(t: Traits<E>, me: Tid, sh: Shared<E>, key: E, cur: NodeId, d: PayloadId,
                               sib: NodeId, right: PayloadId, left: PayloadId)
    requires Splitting(t, me, sh, key, cur, d, sib, right, left)
    ensures d < |sh.payloads| && DataOf(t, sh, cur) == d
  {
    hide Merged, Filled;
  }

  lemma StepStoringLeftHint<E(!new)>(t: Traits<E>, me: Tid, sh: Shared<E>, th: Thread<E>, c: Choice<E>)
    requires Before(t, me, sh, th) && th.w.StoringLeftHint?
    ensures var (b, th') := WriterStep(t, me, sh, th, c); After(t, me, sh, b, th')
  {
    hide SharedInv, Guarantee, Unpublished, SiblingReady, Splitting, WriterStep, SetHint, FirstOf;
    var w := th.w;
    SplittingSib(t, me, sh, th.key, w.cur, w.d, w.sib, w.right, w.left);
    var h := t.Hint(FirstOf(t, sh.payloads[w.left].d));
    LeftHintIs(t, me, sh, th, c);
    LeftHintKeeps(t, me, sh, th.key, w.cur, w.d, w.sib, w.right, w.left, h);
    HeaderEdit(t, me, sh, SetHint(t, sh, w.cur, h), th.key, w.cur, w.d, w.sib, w.right, w.left, h);
  }

  lemma PublishedHint<E(!new)>(t: Traits<E>, sh: Shared<E>, n: NodeId)
    requires SharedInv(t, sh) && n in sh.chain && n != 0
    ensures n < |sh.nodes| && sh.nodes[n].hint == t.Hint(sh.nodes[n].low)
  {
    assert NodeOk(t, sh, n);
  }

  lemma SwappingIs<E(!new)>(t: Traits<E>, me: Tid, sh: Shared<E>, th: Thread<E>, c: Choice<E>)
    requires th.Insert? && th.w.Swapping? && th.w.right < |sh.payloads|
    ensures WriterStep(t, me, sh, th, c) ==
            (AfterSwap(t, sh, th.key, th.w.cur, th.w.sib, th.w.right, th.w.left),
             th.(w := Linking(th.w.cur, th.w.sib, FirstOf(t, sh.payloads[th.w.right].d), 1, 0)))
  {
    hide ChainWith, FirstOf;
  }

  lemma SwapLeaves<E(!new)>(t: Traits<E>, me: Tid, a: Shared<E>, key: E, cur: NodeId, d: PayloadId,
                            sib: NodeId, right: PayloadId, left: PayloadId, first: E)
    requires Splitting(t, me, a, key, cur, d, sib, right, left) && first == a.nodes[sib].low
    ensures var b := AfterSwap(t, a, key, cur, sib, right, left);
      LinkingOk(t, me, b, cur, sib, first, 1) && |b.chain| == |a.chain| + 1
  {
    hide Merged, Filled, ChainWith;
    ChainGrows(a.chain, cur, sib);
  }

  lemma StepSwapping<E(!new)>(t: Traits<E>, me: Tid, sh: Shared<E>, th: Thread<E>, c: Choice<E>)
    requires Before(t, me, sh, th) && th.w.Swapping?
    ensures var (b, th') := WriterStep(t, me, sh, th, c); After(t, me, sh, b, th')
  {
    hide SharedInv, Guarantee, Splitting, FirstOf, Unpublished, AfterSwap, WriterStep, LinkingOk, SiblingReady, HintLowered;
    var w := th.w;
    SplittingSib(t, me, sh, th.key, w.cur, w.d, w.sib, w.right, w.left);
    HalvesBegin(t, me, sh, th.key, w.cur, w.d, w.sib, w.right, w.left);
    PublishSplit(t, me, sh, th.key, w.cur, w.d, w.sib, w.right, w.left);
    SwapLeaves(t, me, sh, th.key, w.cur, w.d, w.sib, w.right, w.left, FirstOf(t, sh.payloads[w.right].d));
    SwappingIs(t, me, sh, th, c);
  }

  // ---- link_tower --------------------------------------------------------------------------

  ghost predicate IsLinking<E>(w: WriterPc<E>)
  {
    w.Linking? || w.LinkDescending? || w.LinkLoading? || w.LinkProbing? || w.LinkStoring? || w.LinkSwapping?
  }

  lemma LinkStepIs<E(!new)>(t: Traits<E>, me: Tid, sh: Shared<E>, th: Thread<E>, c: Choice<E>)
    requires th.Insert? && IsLinking(th.w)
    ensures WriterStep(t, me, sh, th, c) == LinkStep(t, sh, th, c)
  {
    hide LinkStep;
  }

  lemma StepLinking<E(!new)>(t: Traits<E>, me: Tid, sh: Shared<E>, th: Thread<E>, c: Choice<E>)
    requires Before(t, me, sh, th) && th.w.Linking?
    ensures var (b, th') := LinkStep(t, sh, th, c); After(t, me, sh, b, th')
  {
    hide SharedInv, Guarantee, DescentOk;
    Untouched(t, me, sh);
    var w := th.w;
    NodeTower(t, sh, w.sib);
    if w.lv < NodeAt(t, sh, w.sib).height { DescentBegins(t, sh, w.first, w.lv); }
  }

  lemma NodeTower<E(!new)>(t: Traits<E>, sh: Shared<E>, n: NodeId)
    requires SharedInv(t, sh) && n < |sh.nodes|
    ensures |sh.nodes[n].tower| == MAX_HEIGHT && 1 <= sh.nodes[n].height <= MAX_HEIGHT
    ensures forall lv :: 0 <= lv < MAX_HEIGHT ==> Forward(t, sh, n, sh.nodes[n].tower[lv])
  {
    assert TowerOk(t, sh, n);
  }

  lemma StepLinkDescending<E(!new)>(t: Traits<E>, me: Tid, sh: Shared<E>, th: Thread<E>, c: Choice<E>)
    requires Before(t, me, sh, th) && th.w.LinkDescending?
    ensures var (b, th') := LinkStep(t, sh, th, c); After(t, me, sh, b, th')
  {
    hide SharedInv, Guarantee, DescentOk, DescentStep, Landed;
    Untouched(t, me, sh);
    var w := th.w;
    DescentSound(t, sh, w.first, w.at);
    match DescentStep(t, sh, w.first, w.at)
    case Going(_) =>
    case Reached(pred, _) => if pred != w.sib && pred != 0 { LowsDiffer(t, sh, pred, w.sib); }
  }

  lemma StepLinkLoading<E(!new)>(t: Traits<E>, me: Tid, sh: Shared<E>, th: Thread<E>, c: Choice<E>)
    requires Before(t, me, sh, th) && th.w.LinkLoading?
    ensures var (b, th') := LinkStep(t, sh, th, c); After(t, me, sh, b, th')
  {
    hide SharedInv, Guarantee;
    Untouched(t, me, sh);
    TowerSound(t, sh, th.w.pred, th.w.lv);
  }

  lemma StepLinkProbing<E(!new)>(t: Traits<E>, me: Tid, sh: Shared<E>, th: Thread<E>, c: Choice<E>)
    requires Before(t, me, sh, th) && th.w.LinkProbing?
    ensures var (b, th') := LinkStep(t, sh, th, c); After(t, me, sh, b, th')
  {
    hide SharedInv, Guarantee, ProbeStep;
    Untouched(t, me, sh);
    ProbeSound(t, sh, th.w.first, th.w.pred, th.w.probe);
  }

  lemma TowerEdit<E(!new)>(t: Traits<E>, me: Tid, a: Shared<E>, n: NodeId, lv: nat, v: Option<NodeId>)
    requires SharedInv(t, a) && n in a.chain && n < |a.nodes| && Forward(t, a, n, v)
    ensures SharedInv(t, SetTower(t, a, n, lv, v)) && Guarantee(t, me, a, SetTower(t, a, n, lv, v))
  {
    hide ChainOk, PayloadsOk, AllLocated, Occupied;
    NodeTower(t, a, n);
    var b := SetTower(t, a, n, lv, v);
    if lv < MAX_HEIGHT {
      assert n == 0 ==> HeadHintLow(t, b);
      EditNode(t, me, a, b, n);
    } else {
      Untouched(t, me, a);
    }
  }

  lemma TowerKeeps<E(!new)>(t: Traits<E>, me: Tid, a: Shared<E>, n: NodeId, lv: nat, v: Option<NodeId>,
                            cur: NodeId, sib: NodeId, first: E, l: nat, pred: NodeId)
    requires LinkingOk(t, me, a, cur, sib, first, l) && PredOk(t, a, pred, sib)
    ensures var b := SetTower(t, a, n, lv, v);
      LinkingOk(t, me, b, cur, sib, first, l) && PredOk(t, b, pred, sib) && b.chain == a.chain
  {
  }

  lemma StepLinkStoring<E(!new)>(t: Traits<E>, me: Tid, sh: Shared<E>, th: Thread<E>, c: Choice<E>)
    requires Before(t, me, sh, th) && th.w.LinkStoring?
    ensures var (b, th') := LinkStep(t, sh, th, c); After(t, me, sh, b, th')
  {
    hide SharedInv, Guarantee, SetTower;
    var w := th.w;
    TowerEdit(t, me, sh, w.sib, w.lv, w.succ);
    TowerKeeps(t, me, sh, w.sib, w.lv, w.succ, w.cur, w.sib, w.first, w.lv, w.pred);
  }

  lemma StepLinkSwapping<E(!new)>(t: Traits<E>, me: Tid, sh: Shared<E>, th: Thread<E>, c: Choice<E>)
    requires Before(t, me, sh, th) && th.w.LinkSwapping?
    ensures var (b, th') := LinkStep(t, sh, th, c); After(t, me, sh, b, th')
  {
    hide SharedInv, Guarantee, SetTower;
    var w := th.w;
    Untouched(t, me, sh);
    TowerEdit(t, me, sh, w.pred, w.lv, Some(w.sib));
    TowerKeeps(t, me, sh, w.pred, w.lv, Some(w.sib), w.cur, w.sib, w.first, w.lv, w.pred);
  }

  // ---- any writer step -----------------------------------------------------------------------

  lemma StepWriter<E(!new)>(t: Traits<E>, me: Tid, sh: Shared<E>, th: Thread<E>, c: Choice<E>)
    requires Before(t, me, sh, th)
    ensures var (b, th') := WriterStep(t, me, sh, th, c); After(t, me, sh, b, th')
  {
    hide Before, After, WriterStep, LinkStep;
    IsInsert(t, me, sh, th);
    match th.w
    case Descending(_) => StepDescending(t, me, sh, th, c);
    case Locking(_, _) => StepLocking(t, me, sh, th, c);
    case LoadingData(_, _) => StepLoadingData(t, me, sh, th, c);
    case LoadingNext(_, _, _) => StepLoadingNext(t, me, sh, th, c);
    case LoadingNextOrder(_, _, _, _) => StepLoadingNextOrder(t, me, sh, th, c);
    case Refusing(_) => StepRefusing(t, me, sh, th, c);
    case LoadingOrder(_, _) => StepLoadingOrder(t, me, sh, th, c);
    case StoringKey(_, _, _) => StepStoringKey(t, me, sh, th, c);
    case StoringLane(_, _, _) => StepStoringLane(t, me, sh, th, c);
    case CheckingHint(_, _, _) => StepCheckingHint(t, me, sh, th, c);
    case StoringHint(_, _, _) => StepStoringHint(t, me, sh, th, c);
    case StoringOrder(_, _, _) => StepStoringOrder(t, me, sh, th, c);
    case Building(_, _, _) => StepBuilding(t, me, sh, th, c);
    case HintingSibling(_, _, _, _, _) => StepHintingSibling(t, me, sh, th, c);
    case FillingSibling(_, _, _, _, _) => StepFillingSibling(t, me, sh, th, c);
    case CheckingLeftHint(_, _, _, _, _) => StepCheckingLeftHint(t, me, sh, th, c);
    case StoringLeftHint(_, _, _, _, _) => StepStoringLeftHint(t, me, sh, th, c);
    case Swapping(_, _, _, _, _) => StepSwapping(t, me, sh, th, c);
    case Unlocking(_) => StepUnlocking(t, me, sh, th, c);
    case _ =>
      LinkStepIs(t, me, sh, th, c);
      StepLink(t, me, sh, th, c);
  }

  lemma IsInsert<E(!new)>(t: Traits<E>, me: Tid, sh: Shared<E>, th: Thread<E>)
    requires Before(t, me, sh, th)
    ensures th.Insert?
  {
  }

  lemma StepLink<E(!new)>(t: Traits<E>, me: Tid, sh: Shared<E>, th: Thread<E>, c: Choice<E>)
    requires Before(t, me, sh, th) && th.Insert? && IsLinking(th.w)
    ensures var (b, th') := LinkStep(t, sh, th, c); After(t, me, sh, b, th')
  {
    hide Before, After, LinkStep;
    match th.w
    case Linking(_, _, _, _, _) => StepLinking(t, me, sh, th, c);
    case LinkDescending(_, _, _, _, _, _) => StepLinkDescending(t, me, sh, th, c);
    case LinkLoading(_, _, _, _, _, _) => StepLinkLoading(t, me, sh, th, c);
    case LinkProbing(_, _, _, _, _, _, _) => StepLinkProbing(t, me, sh, th, c);
    case LinkStoring(_, _, _, _, _, _, _) => StepLinkStoring(t, me, sh, th, c);
    case LinkSwapping(_, _, _, _, _, _, _) => StepLinkSwapping(t, me, sh, th, c);
  }
}
