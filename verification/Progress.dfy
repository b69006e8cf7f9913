/**
 Every operation gets on: a measure that every step of its own thread lowers, unless it
 stands before a held lock, and that other threads leave alone but for the one extra node
 a payload swap puts on level 0. So an operation that nobody disturbs ends.
 */
module Progress {
  import opened OrderWord
  import opened Ordering
  import opened Payloads
  import opened Machine
  import opened Invariant
  import opened NodeSplit
  import opened WriterSteps
  import opened Safety
  import opened Reachable
  import opened Scan
  import opened Locks
  import opened Returns

  // ---- what is left of an operation --------------------------------------------------------

  /** Nodes from n on. */
  function NodesFrom<E(!new)>(sh: Shared<E>, n: NodeId): nat
  {
    |sh.chain| - IndexOf(sh.chain, n)
  }

  /** The steps of link_tower still to come at a level, lower levels first. */
  function LinkStage(lv: nat, attempt: nat, k: nat): nat
  {
    (if lv < MAX_HEIGHT then 100 * (MAX_HEIGHT - lv) else 0) + (if attempt < ATTEMPTS then 10 * (ATTEMPTS - attempt) else 0) + k
  }

  function WriterStage<E>(w: WriterPc<E>): nat
  {
    match w
    case Descending(_) => 3000
    case Locking(_, _) => 2999
    case LoadingData(_, _) => 2998
    case LoadingNext(_, _, _) => 2997
    case LoadingNextOrder(_, _, _, _) => 2996
    case Refusing(_) => 2995
    case LoadingOrder(_, _) => 2995
    case StoringKey(_, _, _) => 2994
    case StoringLane(_, _, _) => 2993
    case CheckingHint(_, _, _) => 2992
    case StoringHint(_, _, _) => 2991
    case StoringOrder(_, _, _) => 2990
    case Building(_, _, _) => 2994
    case HintingSibling(_, _, _, _, _) => 2993
    case FillingSibling(_, _, _, _, _) => 2992
    case CheckingLeftHint(_, _, _, _, _) => 2991
    case StoringLeftHint(_, _, _, _, _) => 2990
    case Swapping(_, _, _, _, _) => 2989
    case Linking(_, _, _, lv, attempt) =>
      if lv >= MAX_HEIGHT then 2 else LinkStage(lv, attempt, if attempt < ATTEMPTS then 9 else 3)
    case LinkDescending(_, _, _, lv, attempt, _) => LinkStage(lv, attempt, 8)
    case LinkLoading(_, _, _, lv, attempt, _) => LinkStage(lv, attempt, 7)
    case LinkProbing(_, _, _, lv, attempt, _, _) => LinkStage(lv, attempt, 6)
    case LinkStoring(_, _, _, lv, attempt, _, _) => LinkStage(lv, attempt, 5)
    case LinkSwapping(_, _, _, lv, attempt, _, _) => LinkStage(lv, attempt, 4)
    case Unlocking(_) => 1
  }

  function WriterLoads<E(!new)>(sh: Shared<E>, w: WriterPc<E>): nat
  {
    match w
    case Descending(at) => LoadsLeft(sh, at)
    case LinkDescending(_, _, _, _, _, at) => LoadsLeft(sh, at)
    case LinkProbing(_, _, _, _, _, _, probe) => Stage(Some(probe))
    case _ => 0
  }

  datatype Measure = Measure(splits: nat, stage: nat, loads: nat)
  {
    predicate Below(m: Measure)
    {
      splits < m.splits || (splits == m.splits && (stage < m.stage || (stage == m.stage && loads < m.loads)))
    }
  }

  /**
   Splits an insert may yet have to retry for, then its stage, then the loads of the stage;
   for a walk the nodes, then the yields.
   */
  function Left<E(!new)>(sh: Shared<E>, th: Thread<E>): Measure
  {
    match th
    case Idle => Measure(0, 0, 0)
    case Insert(_, w, _, _, seen) =>
      Measure(if Pending(th) && seen < |sh.chain| then |sh.chain| - seen else 0, WriterStage(w), WriterLoads(sh, w))
    case Lookup(_, Seeking(at), _) => Measure(0, 4, LoadsLeft(sh, at))
    case Lookup(_, Reloading(_, _), _) => Measure(0, 3, 0)
    case Lookup(_, Snapshotting(_, _, _), _) => Measure(0, 2, 0)
    case Lookup(_, Answered(_, _, _), _) => Measure(0, 1, 0)
    case Walk(Adopting(n), _, _) => Measure(0, NodesFrom(sh, n), NODE_CAPACITY + 3)
    case Walk(AdoptingOrder(n, _), _, _) => Measure(0, NodesFrom(sh, n), NODE_CAPACITY + 2)
    case Walk(Standing(n, _, o, pos), _, _) => Measure(0, NodesFrom(sh, n), if pos < |o| then 1 + |o| - pos else 1)
    case Walk(Ended, _, _) => Measure(0, 0, 1)
  }

  // ---- the thread's own steps --------------------------------------------------------------

  /** What a writer's assertion gives its own measure. */
  ghost predicate Measurable<E(!new)>(t: Traits<E>, sh: Shared<E>, th: Thread<E>)
    requires th.Insert?
  {
    && (th.w.Descending? ==> DescentOk(t, sh, th.key, th.w.at))
    && (th.w.LinkDescending? ==> DescentOk(t, sh, th.w.first, th.w.at))
    && (th.w.Linking? ==> NodeAt(t, sh, th.w.sib).height <= MAX_HEIGHT)
    && (th.w.Refusing? ==> th.seen < |sh.chain|)
    && (th.w.Building? ==> |th.w.o| == NODE_CAPACITY)
  }

  lemma IsMeasurable<E(!new)>(t: Traits<E>, me: Tid, sh: Shared<E>, th: Thread<E>)
    requires SharedInv(t, sh) && th.Insert? && ThreadOk(t, me, sh, th)
    ensures Measurable(t, sh, th)
  {
    hide SharedInv, DescentOk, Landed, SplitsSeen, BelongsTo, Splitting, SlotReady, PredOk, Forward, ProbeOk;
    if th.w.Linking? { NodeTower(t, sh, th.w.sib); }
  }

  ghost predicate WriterBelow<E(!new)>(sh: Shared<E>, w: WriterPc<E>, was: WriterPc<E>)
  {
    WriterStage(w) < WriterStage(was) || (WriterStage(w) == WriterStage(was) && WriterLoads(sh, w) < WriterLoads(sh, was))
  }

  lemma LinkSearchLowers<E(!new)>(t: Traits<E>, sh: Shared<E>, th: Thread<E>, c: Choice<E>)
    requires t.TotalOrder() && SharedInv(t, sh) && th.Insert? && Measurable(t, sh, th) && (th.w.LinkDescending? || th.w.LinkProbing?)
    ensures var th' := LinkStep(t, sh, th, c).1; th'.Insert? && WriterBelow(sh, th'.w, th.w)
  {
    hide DescentStep, ProbeStep, SharedInv, DescentOk, LoadsLeft, Stage;
    match th.w
    case LinkDescending(cur, sib, first, lv, attempt, at) =>
      if DescentStep(t, sh, first, at).Going? { LoadsDrop(t, sh, first, at); }
    case LinkProbing(cur, sib, first, lv, attempt, pred, probe) => ProbeDrops(t, sh, first, probe);
  }

  lemma LinkLowers<E(!new)>(t: Traits<E>, sh: Shared<E>, th: Thread<E>, c: Choice<E>)
    requires t.TotalOrder() && SharedInv(t, sh) && th.Insert? && IsLinking(th.w) && Measurable(t, sh, th)
    ensures var th' := LinkStep(t, sh, th, c).1; th'.Insert? && WriterBelow(sh, th'.w, th.w)
  {
    if th.w.LinkDescending? || th.w.LinkProbing? {
      hide LinkStep, WriterBelow, SharedInv, Measurable;
      LinkSearchLowers(t, sh, th, c);
    } else {
      hide SharedInv, DescentOk, LoadsLeft, SetTower, Descend, Aim, TowerAt, NodeAt, Stage;
    }
  }

  lemma ProbeDrops<E(!new)>(t: Traits<E>, sh: Shared<E>, key: E, p: Probe)
    ensures ProbeStep(t, sh, key, p).Undecided? ==> Stage(Some(ProbeStep(t, sh, key, p).p)) < Stage(Some(p))
  {
  }

  lemma LinkChain<E(!new)>(t: Traits<E>, sh: Shared<E>, th: Thread<E>, c: Choice<E>)
    requires th.Insert? && IsLinking(th.w)
    ensures LinkStep(t, sh, th, c).0.chain == sh.chain && !Pending(LinkStep(t, sh, th, c).1)
  {
    hide DescentStep, ProbeStep, NodeAt, TowerAt;
  }

  /** Level 0 gains a node at a payload swap only. */
  lemma WriterChain<E(!new)>(t: Traits<E>, me: Tid, sh: Shared<E>, th: Thread<E>, c: Choice<E>)
    requires th.Insert?
    ensures WriterStep(t, me, sh, th, c).0.chain == if th.w.Swapping? then ChainWith(sh.chain, th.w.cur, th.w.sib) else sh.chain
  {
    hide DescentStep, NodeAt, PayloadAt, DataOf, SeenRun, LaneOf, RankIn, Merged, FirstOf, ChainWith, Filled, LinkStep;
    if IsLinking(th.w) {
      LinkStepIs(t, me, sh, th, c);
      LinkChain(t, sh, th, c);
    }
  }

  /** A pending writer's step: down by a stage or a load, or round again after a split. */
  lemma PendingLowers<E(!new)>(t: Traits<E>, me: Tid, sh: Shared<E>, th: Thread<E>, c: Choice<E>)
    requires t.TotalOrder() && SharedInv(t, sh) && th.Insert? && Pending(th) && Measurable(t, sh, th)
    requires th.w.Locking? ==> NodeAt(t, sh, th.w.cur).lock.None?
    ensures var th' := WriterStep(t, me, sh, th, c).1;
      && th'.Insert? && (th.w.Refusing? ==> th'.seen == |sh.chain|) && (!th.w.Descending? && !th.w.Refusing? ==> th'.seen == th.seen)
      && (th.w.Descending? ==> th'.seen == th.seen || th'.seen == |sh.chain|)
      && (!th.w.Refusing? ==> WriterBelow(sh, th'.w, th.w))
  {
    hide DescentStep, SharedInv, DescentOk, LoadsLeft, NodeAt, PayloadAt, DataOf, SeenRun, LaneOf, RankIn, Merged, FirstOf, ChainWith;
    hide Descend, Filled, SetLock, SetHint, SetData, SetPayload, Build, LinkStep;
    if th.w.Descending? {
      hide WriterBelow, WriterStage, WriterLoads;
      DescendingLowers(t, me, sh, th, c);
    }
  }

  lemma DescendingLowers<E(!new)>(t: Traits<E>, me: Tid, sh: Shared<E>, th: Thread<E>, c: Choice<E>)
    requires t.TotalOrder() && SharedInv(t, sh) && th.Insert? && th.w.Descending? && Measurable(t, sh, th)
    ensures WriterBelow(sh, WriterStep(t, me, sh, th, c).1.w, th.w)
  {
    hide DescentStep, SharedInv, DescentOk, LoadsLeft;
    if DescentStep(t, sh, th.key, th.w.at).Going? { LoadsDrop(t, sh, th.key, th.w.at); }
  }

  lemma WriterLowers<E(!new)>(t: Traits<E>, me: Tid, sh: Shared<E>, th: Thread<E>, c: Choice<E>)
    requires t.TotalOrder() && SharedInv(t, sh) && th.Insert? && ThreadOk(t, me, sh, th)
    requires th.w.Locking? ==> NodeAt(t, sh, th.w.cur).lock.None?
    ensures var (b, th') := WriterStep(t, me, sh, th, c); Left(b, th').Below(Left(sh, th))
  {
    IsMeasurable(t, me, sh, th);
    WriterChain(t, me, sh, th, c);
    WriterLeaves(t, me, sh, th, c);
    hide SharedInv, ThreadOk, WriterStep, Measurable, LoadsLeft, NodeAt, ChainWith;
    if Pending(th) {
      PendingLowers(t, me, sh, th, c);
      if th.w.Swapping? { AfterSwapStage(t, me, sh, th, c); }
      if th.w.Refusing? { RefusedSeen(t, sh, th); }
    } else if IsLinking(th.w) {
      LinkStepIs(t, me, sh, th, c);
      LinkChain(t, sh, th, c);
      LinkLowers(t, sh, th, c);
    }
  }

  lemma RefusedSeen<E(!new)>(t: Traits<E>, sh: Shared<E>, th: Thread<E>)
    requires th.Insert? && Measurable(t, sh, th) && th.w.Refusing?
    ensures th.seen < |sh.chain|
  {
  }

  /** No stage past the swap looks at level 0 for its measure before its first descent. */
  lemma AfterSwapStage<E(!new)>(t: Traits<E>, me: Tid, sh: Shared<E>, th: Thread<E>, c: Choice<E>)
    requires th.Insert? && th.w.Swapping?
    ensures WriterStep(t, me, sh, th, c).1.w.Linking?
  {
    hide FirstOf, SetData, ChainWith;
  }

  lemma ReaderLowers<E(!new)>(t: Traits<E>, sh: Shared<E>, th: Thread<E>)
    requires t.TotalOrder() && SharedInv(t, sh) && th.Lookup? && ReaderOk(t, sh, th.key, th.r, th.known)
    ensures Left(sh, ReaderStep(t, sh, th)).Below(Left(sh, th))
  {
    hide SharedInv, DescentOk, DescentStep, LoadsLeft, Contains;
    if th.r.Seeking? && DescentStep(t, sh, th.key, th.r.at).Going? { LoadsDrop(t, sh, th.key, th.r.at); }
  }

  /** A payload's link leads further along than the node it was built for. */
  lemma NextFurther<E(!new)>(t: Traits<E>, sh: Shared<E>, d: PayloadId, n: NodeId)
    requires t.TotalOrder() && SharedInv(t, sh) && IsPayloadOf(sh, d, n) && sh.payloads[d].d.next.Some?
    ensures NodesFrom(sh, sh.payloads[d].d.next.value) < NodesFrom(sh, n)
  {
    NextForward(t, sh, d, n);
    hide SharedInv, Forward;
    FurtherAlong(t, sh, n, sh.payloads[d].d.next.value);
  }

  lemma NextForward<E(!new)>(t: Traits<E>, sh: Shared<E>, d: PayloadId, n: NodeId)
    requires SharedInv(t, sh) && IsPayloadOf(sh, d, n) && sh.payloads[d].d.next.Some?
    ensures n in sh.chain && Forward(t, sh, n, sh.payloads[d].d.next)
  {
    hide ChainOk, TowersOk, AllLocated, HeadHintLow, Occupied;
    assert PayloadOk(t, sh, d);
  }

  lemma WalkerLowers<E(!new)>(t: Traits<E>, sh: Shared<E>, th: Thread<E>)
    requires t.TotalOrder() && SharedInv(t, sh) && th.Walk? && WalkerOk(t, sh, th.k, th.known, th.yielded)
    ensures Left(sh, WalkerStep(t, sh, th)).Below(Left(sh, th))
  {
    hide SharedInv, NodesFrom, Sorted;
    match th.k
    case AdoptingOrder(n, d) =>
    case Standing(n, d, o, pos) =>
      HomeStands(t, sh, d, n);
      if sh.payloads[d].d.next.Some? { NextFurther(t, sh, d, n); }
    case _ =>
  }

  lemma HomeStands<E(!new)>(t: Traits<E>, sh: Shared<E>, d: PayloadId, n: NodeId)
    requires SharedInv(t, sh) && IsPayloadOf(sh, d, n)
    ensures n in sh.chain && NodesFrom(sh, n) > 0
  {
    hide ChainOk, TowersOk, AllLocated, HeadHintLow, Occupied;
    assert PayloadOk(t, sh, d);
  }

  lemma ThreadLowers<E(!new)>(t: Traits<E>, s: State<E>, me: Tid, c: Choice<E>)
    requires t.TotalOrder() && Inv(t, s) && Busy(s, me) && !Waits(t, s, me)
    ensures var (b, th') := ThreadStep(t, s, me, c); Left(b, th').Below(Left(s.sh, s.threads[me]))
  {
    hide SharedInv, WriterOk, ReaderOk, WalkerOk, WriterStep, ReaderStep, WalkerStep, KeysApart, Left, NodeAt;
    var th := s.threads[me];
    assert ThreadOk(t, me, s.sh, th);
    match th
    case Insert(_, _, _, _, _) => WriterLowers(t, me, s.sh, th, c);
    case Lookup(_, _, _) => ReaderLowers(t, s.sh, th);
    case Walk(_, _, _) => WalkerLowers(t, s.sh, th);
  }

  /** In every reachable state every step of a thread that stands before no held lock brings its operation nearer its end. */
  lemma StepsLower<E(!new)>(t: Traits<E>, n: nat, s: State<E>, me: Tid, c: Choice<E>)
    requires t.TotalOrder() && t.HintPromise() && Attained(t, n, s) && Busy(s, me) && !Waits(t, s, me)
    ensures var next := Step(t, s, me, c); Left(next.sh, next.threads[me]).Below(Left(s.sh, s.threads[me]))
  {
    hide Attained, ThreadStep, Inv, Left;
    AttainedInv(t, n, s);
    ThreadLowers(t, s, me, c);
  }

  // ---- the others' steps -------------------------------------------------------------------

  /** No more than one split's worth above the measure before. */
  ghost predicate RaisedByOne(m: Measure, was: Measure)
  {
    m.splits <= was.splits + 1 && m.stage <= was.stage + 1 && m.loads <= was.loads + 8
  }

  lemma LeftOnChain<E(!new)>(a: Shared<E>, b: Shared<E>, th: Thread<E>)
    requires b.chain == a.chain
    ensures Left(b, th) == Left(a, th)
  {
  }

  /** Inserted after `cur`, the sibling puts no node nearer the front. */
  lemma IndexAfter(chain: seq<NodeId>, cur: NodeId, sib: NodeId, n: NodeId)
    requires sib !in chain && n in chain
    ensures |ChainWith(chain, cur, sib)| - IndexOf(ChainWith(chain, cur, sib), n) <= |chain| + 1 - IndexOf(chain, n)
  {
    FirstIndex(chain, n);
    var i, j := IndexOf(chain, cur), IndexOf(chain, n);
    hide IndexOf;
    var longer := ChainWith(chain, cur, sib);
    if i < |chain| {
      assert longer == chain[..i + 1] + [sib] + chain[i + 1..];
      hide ChainWith;
      assert longer[if j <= i then j else j + 1] == n;
      var k := IndexOf(longer, n);
      assert longer[k] == n && k != i + 1;
      if k <= i { assert chain[k] == n; } else { assert chain[k - 1] == n; }
    }
  }

  lemma {:induction false} FirstIndex(chain: seq<NodeId>, n: NodeId)
    ensures forall k :: 0 <= k < IndexOf(chain, n) ==> chain[k] != n
    decreases |chain|
  {
    if chain != [] && chain[0] != n { FirstIndex(chain[1..], n); }
  }

  /** The node a thread's measure counts from. */
  function At<E>(th: Thread<E>): Option<NodeId>
  {
    match th
    case Insert(_, Descending(at), _, _, _) => Some(at.cur)
    case Insert(_, LinkDescending(_, _, _, _, _, at), _, _, _) => Some(at.cur)
    case Lookup(_, Seeking(at), _) => Some(at.cur)
    case Walk(Adopting(n), _, _) => Some(n)
    case Walk(AdoptingOrder(n, _), _, _) => Some(n)
    case Walk(Standing(n, _, _, _), _, _) => Some(n)
    case _ => None
  }

  lemma AtInChain<E(!new)>(t: Traits<E>, u: Tid, sh: Shared<E>, th: Thread<E>)
    requires SharedInv(t, sh) && ThreadOk(t, u, sh, th)
    ensures At(th).Some? ==> At(th).value in sh.chain
  {
    hide SharedInv, ProbeOk, Landed, SplitsSeen, BelongsTo, Splitting, SlotReady, PredOk, Forward, Sorted;
    if th.Walk? && th.k.AdoptingOrder? { HomeStands(t, sh, th.k.d, th.k.n); }
    if th.Walk? && th.k.Standing? { HomeStands(t, sh, th.k.d, th.k.n); }
  }

  lemma LeftRaised<E(!new)>(a: Shared<E>, b: Shared<E>, th: Thread<E>)
    requires |b.chain| <= |a.chain| + 1 && (At(th).Some? ==> NodesFrom(b, At(th).value) <= NodesFrom(a, At(th).value) + 1)
    ensures RaisedByOne(Left(b, th), Left(a, th))
  {
  }

  lemma SwapRaises<E(!new)>(t: Traits<E>, u: Tid, sh: Shared<E>, b: Shared<E>, th: Thread<E>, cur: NodeId, sib: NodeId)
    requires SharedInv(t, sh) && ThreadOk(t, u, sh, th) && cur in sh.chain && sib !in sh.chain
    requires b.chain == ChainWith(sh.chain, cur, sib)
    ensures RaisedByOne(Left(b, th), Left(sh, th))
  {
    hide SharedInv, ThreadOk, Left;
    AtInChain(t, u, sh, th);
    ChainGrows(sh.chain, cur, sib);
    if At(th).Some? { IndexAfter(sh.chain, cur, sib, At(th).value); }
    LeftRaised(sh, b, th);
  }

  /**
   Another thread's step leaves an operation as near its end as it was, unless it is the
   payload swap of a split, which puts off the end by one node at most.
   */
  lemma OthersRaise<E(!new)>(t: Traits<E>, n: nat, s: State<E>, me: Tid, c: Choice<E>, u: Tid)
    requires t.TotalOrder() && t.HintPromise() && Attained(t, n, s) && me < |s.threads| && u < |s.threads| && u != me
    ensures var next := Step(t, s, me, c);
      && next.threads[u] == s.threads[u]
      && RaisedByOne(Left(next.sh, s.threads[u]), Left(s.sh, s.threads[u]))
      && (!(s.threads[me].Insert? && s.threads[me].w.Swapping?) ==> Left(next.sh, s.threads[u]) == Left(s.sh, s.threads[u]))
  {
    hide Attained, SharedInv, WriterStep, ReaderStep, WalkerStep, Begin, Left, ThreadOk, KeysApart, ChainWith;
    AttainedInv(t, n, s);
    var th, next := s.threads[me], Step(t, s, me, c);
    assert ThreadOk(t, u, s.sh, s.threads[u]) && ThreadOk(t, me, s.sh, th);
    if th.Insert? { WriterChain(t, me, s.sh, th, c); }
    if th.Insert? && th.w.Swapping? {
      SwapsFresh(t, me, s.sh, th);
      SwapRaises(t, u, s.sh, next.sh, s.threads[u], th.w.cur, th.w.sib);
    } else {
      LeftOnChain(s.sh, next.sh, s.threads[u]);
    }
  }

  lemma SwapsFresh<E(!new)>(t: Traits<E>, me: Tid, sh: Shared<E>, th: Thread<E>)
    requires th.Insert? && th.w.Swapping? && ThreadOk(t, me, sh, th)
    ensures th.w.cur in sh.chain && th.w.sib !in sh.chain
  {
    hide Merged, Filled, SiblingReady, FirstOf, Above, AtOrBelow;
  }
}
