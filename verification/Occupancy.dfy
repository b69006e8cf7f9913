/**
 How full nodes stay and what the structure allocates, in every reachable state.
 */
module Occupancy {
  import opened OrderWord
  import opened Ordering
  import opened Payloads
  import opened Machine
  import opened Invariant
  import opened NodeSplit
  import opened Descents
  import opened WriterSteps
  import opened ReaderSteps
  import opened Safety
  import opened LevelZero
  import opened Reachable

  /** Once any split is published, every node holds 8 to 15 keys. */
  lemma NodesHalfFull<E(!new)>(t: Traits<E>, n: nat, s: State<E>, m: NodeId)
    requires t.TotalOrder() && t.HintPromise() && Attained(t, n, s)
    requires m in s.sh.chain && |s.sh.chain| > 1
    ensures MID <= |PayloadAt(t, s.sh, DataOf(t, s.sh, m)).order| <= NODE_CAPACITY
  {
    hide Attained, Inv;
    AttainedInv(t, n, s);
    InvShared(t, s);
    HalfFull(t, s.sh, m);
  }

  lemma HalfFull<E(!new)>(t: Traits<E>, sh: Shared<E>, m: NodeId)
    requires SharedInv(t, sh) && m in sh.chain
    ensures |PayloadAt(t, sh, DataOf(t, sh, m)).order| <= NODE_CAPACITY
    ensures |sh.chain| > 1 ==> MID <= |PayloadAt(t, sh, DataOf(t, sh, m)).order|
  {
    hide ChainOk, PayloadsOk, TowersOk, AllLocated, HeadHintLow;
    BaseSound(t, sh, m);
    PayloadHolds(t, sh, DataOf(t, sh, m));
  }

  lemma ReadsHere<E(!new)>(t: Traits<E>, sh: Shared<E>, n: NodeId, hops: nat)
    requires hops > 0
    ensures var p := PayloadAt(t, sh, DataOf(t, sh, n));
      |Reads(t, sh, Some(n), hops)| == |p.order| + |Reads(t, sh, p.next, hops - 1)|
  {
    hide PayloadAt, DataOf, SeenRun;
  }

  lemma {:induction false} ReadsAtLeast<E(!new)>(t: Traits<E>, sh: Shared<E>, i: nat, hops: nat)
    requires SharedInv(t, sh) && 1 < |sh.chain| && i <= |sh.chain| <= i + hops
    ensures |Reads(t, sh, ChainFrom(sh.chain, i), hops)| >= MID * (|sh.chain| - i)
    decreases hops
  {
    hide SharedInv, Reads, DataOf, PayloadAt;
    if i < |sh.chain| {
      ChainPosition(t, sh, i, i);
      HalfFull(t, sh, sh.chain[i]);
      ReadsAtLeast(t, sh, i + 1, hops - 1);
      ReadsHere(t, sh, sh.chain[i], hops);
    }
  }

  /** N published inserts have caused at most N/8 - 1 splits, once any occurred. */
  lemma SplitsBounded<E(!new)>(t: Traits<E>, n: nat, s: State<E>)
    requires t.TotalOrder() && t.HintPromise() && Attained(t, n, s) && |s.sh.chain| > 1
    ensures |s.sh.chain| - 1 <= |s.sh.published| / MID - 1
  {
    hide Attained, Inv, SharedInv, Sorted, Reads;
    AttainedInv(t, n, s);
    InvShared(t, s);
    HeadFirst(t, s.sh);
    ReadsAll(t, s, |s.sh.chain|);
    ReadsAtLeast(t, s.sh, 0, |s.sh.chain|);
    SameLength(Reads(t, s.sh, Some(0), |s.sh.chain|), s.sh.published);
    AtLeastEach(|s.sh.published|, |s.sh.chain|);
  }

  lemma SameLength<E>(r: seq<E>, s: seq<E>)
    requires multiset(r) == multiset(s)
    ensures |r| == |s|
  {
    assert |multiset(r)| == |multiset(s)|;
  }

  lemma AtLeastEach(total: nat, nodes: nat)
    requires total >= MID * nodes
    ensures nodes <= total / MID
  {
  }

  // ---- allocation ----------------------------------------------------------------------------

  /** The writer has built a sibling and two payloads and not yet published them. */
  function MidSplit<E>(th: Thread<E>): nat
  {
    if th.Insert?
       && (th.w.HintingSibling? || th.w.FillingSibling? || th.w.CheckingLeftHint? || th.w.StoringLeftHint? || th.w.Swapping?)
    then 1 else 0
  }

  function SplitsInFlight<E>(threads: seq<Thread<E>>): nat
  {
    if threads == [] then 0 else MidSplit(threads[0]) + SplitsInFlight(threads[1..])
  }

  lemma {:induction false} InFlightUpdate<E>(threads: seq<Thread<E>>, u: nat, th: Thread<E>)
    requires u < |threads|
    ensures SplitsInFlight(threads[u := th]) == SplitsInFlight(threads) - MidSplit(threads[u]) + MidSplit(th)
    decreases |threads|
  {
    hide MidSplit;
    var after := threads[u := th];
    if u == 0 {
      assert after[1..] == threads[1..];
    } else {
      assert after[1..] == threads[1..][u - 1 := th];
      InFlightUpdate(threads[1..], u - 1, th);
    }
  }

  lemma {:induction false} IdleInFlight<E>(n: nat)
    ensures SplitsInFlight<E>(seq(n, i => Idle)) == 0
  {
    if n > 0 {
      assert seq<Thread<E>>(n, i => Idle)[1..] == seq(n - 1, i => Idle);
      IdleInFlight<E>(n - 1);
    }
  }

  /** What a writer's step allocates: a node and two payloads when it builds a split, nothing otherwise. */
  lemma WriterAllocates<E(!new)>(t: Traits<E>, me: Tid, sh: Shared<E>, th: Thread<E>, c: Choice<E>)
    requires Before(t, me, sh, th)
    ensures var (b, th') := WriterStep(t, me, sh, th, c);
      var built := if th.w.Building? then 1 else 0;
      && |b.nodes| == |sh.nodes| + built && |b.payloads| == |sh.payloads| + 2 * built
      && |b.chain| == |sh.chain| + (if th.w.Swapping? then 1 else 0)
      && MidSplit(th') == MidSplit(th) + built - (if th.w.Swapping? then 1 else 0)
  {
    hide Before, WriterStep;
    IsInsert(t, me, sh, th);
    if IsLinking(th.w) {
      LinkAllocates(t, me, sh, th, c);
    } else if th.w.Building? {
      BuildAllocates(t, me, sh, th, c);
    } else if th.w.Swapping? {
      SwapAllocates(t, me, sh, th, c);
    } else {
      OthersAllocate(t, me, sh, th, c);
    }
  }

  lemma LinkAllocates<E(!new)>(t: Traits<E>, me: Tid, sh: Shared<E>, th: Thread<E>, c: Choice<E>)
    requires th.Insert? && IsLinking(th.w)
    ensures var (b, th') := WriterStep(t, me, sh, th, c);
      |b.nodes| == |sh.nodes| && b.payloads == sh.payloads && b.chain == sh.chain && MidSplit(th') == MidSplit(th)
  {
    LinkStepIs(t, me, sh, th, c);
    hide DescentStep, ProbeStep, NodeAt, TowerAt, Descend, Aim, WriterStep;
  }

  lemma BuildAllocates<E(!new)>(t: Traits<E>, me: Tid, sh: Shared<E>, th: Thread<E>, c: Choice<E>)
    requires Before(t, me, sh, th) && th.w.Building?
    ensures var (b, th') := WriterStep(t, me, sh, th, c);
      && |b.nodes| == |sh.nodes| + 1 && |b.payloads| == |sh.payloads| + 2 && b.chain == sh.chain
      && MidSplit(th) == 0 && MidSplit(th') == 1
  {
    hide SharedInv, Unpublished, WriterStep, Filled, Merged;
    BuildingIs(t, me, sh, th, c);
  }

  lemma SwapAllocates<E(!new)>(t: Traits<E>, me: Tid, sh: Shared<E>, th: Thread<E>, c: Choice<E>)
    requires Before(t, me, sh, th) && th.w.Swapping?
    ensures var (b, th') := WriterStep(t, me, sh, th, c);
      && |b.nodes| == |sh.nodes| && b.payloads == sh.payloads && |b.chain| == |sh.chain| + 1
      && MidSplit(th) == 1 && MidSplit(th') == 0
  {
    hide SharedInv, Unpublished, WriterStep, Filled, Merged, ChainWith;
    SwappingIs(t, me, sh, th, c);
    ChainGrows(sh.chain, th.w.cur, th.w.sib);
  }

  lemma OthersAllocate<E(!new)>(t: Traits<E>, me: Tid, sh: Shared<E>, th: Thread<E>, c: Choice<E>)
    requires th.Insert? && !IsLinking(th.w) && !th.w.Building? && !th.w.Swapping?
    ensures var (b, th') := WriterStep(t, me, sh, th, c);
      |b.nodes| == |sh.nodes| && |b.payloads| == |sh.payloads| && b.chain == sh.chain && MidSplit(th') == MidSplit(th)
  {
    hide WriterStep;
    if th.w.StoringKey? || th.w.StoringLane? || th.w.StoringOrder? {
      PayloadStoresAllocate(t, me, sh, th, c);
    } else if MidSplit(th) == 1 || th.w.StoringHint? || th.w.Locking? || th.w.Refusing? || th.w.Unlocking? {
      HeaderStoresAllocate(t, me, sh, th, c);
    } else {
      LoadsAllocate(t, me, sh, th, c);
    }
  }

  lemma PayloadStoresAllocate<E(!new)>(t: Traits<E>, me: Tid, sh: Shared<E>, th: Thread<E>, c: Choice<E>)
    requires th.Insert? && (th.w.StoringKey? || th.w.StoringLane? || th.w.StoringOrder?)
    ensures var (b, th') := WriterStep(t, me, sh, th, c);
      b.nodes == sh.nodes && |b.payloads| == |sh.payloads| && b.chain == sh.chain && MidSplit(th') == MidSplit(th)
  {
    hide LaneOf, RankIn, PayloadAt, Splice;
  }

  lemma HeaderStoresAllocate<E(!new)>(t: Traits<E>, me: Tid, sh: Shared<E>, th: Thread<E>, c: Choice<E>)
    requires th.Insert? && !th.w.Swapping?
    requires MidSplit(th) == 1 || th.w.StoringHint? || th.w.Locking? || th.w.Refusing? || th.w.Unlocking?
    ensures var (b, th') := WriterStep(t, me, sh, th, c);
      |b.nodes| == |sh.nodes| && b.payloads == sh.payloads && b.chain == sh.chain && MidSplit(th') == MidSplit(th)
  {
    hide FirstOf, PayloadAt, NodeAt, Descend;
  }

  lemma LoadsAllocate<E(!new)>(t: Traits<E>, me: Tid, sh: Shared<E>, th: Thread<E>, c: Choice<E>)
    requires th.Insert? && (th.w.Descending? || th.w.LoadingData? || th.w.LoadingNext? || th.w.LoadingNextOrder?
                            || th.w.LoadingOrder? || th.w.CheckingHint?)
    ensures var (b, th') := WriterStep(t, me, sh, th, c); b == sh && MidSplit(th') == MidSplit(th)
  {
    hide DescentStep, SeenRun, PayloadAt, NodeAt, DataOf;
  }

  ghost predicate Accounted<E(!new)>(s: State<E>)
  {
    |s.sh.nodes| == |s.sh.chain| + SplitsInFlight(s.threads) && |s.sh.payloads| + 1 == 2 * |s.sh.nodes|
  }

  lemma StepAccounts<E(!new)>(t: Traits<E>, s: State<E>, me: Tid, c: Choice<E>)
    requires t.TotalOrder() && t.HintPromise() && Inv(t, s) && Accounted(s)
    ensures Accounted(Step(t, s, me, c))
  {
    hide WriterStep, ReaderStep, WalkerStep, Begin, SplitsInFlight;
    if me < |s.threads| {
      var th := s.threads[me];
      InFlightUpdate(s.threads, me, ThreadStep(t, s, me, c).1);
      match th
      case Idle =>
        BeginBuilds(t, s, c.op);
      case Insert(_, _, _, _, _) =>
        WriterReady(t, s, me);
        WriterAllocates(t, me, s.sh, th, c);
      case Lookup(_, _, _) =>
        ReaderBuilds(t, s.sh, th);
      case Walk(_, _, _) =>
        WalkerBuilds(t, s.sh, th);
    }
  }

  lemma WriterReady<E(!new)>(t: Traits<E>, s: State<E>, me: Tid)
    requires t.TotalOrder() && t.HintPromise() && Inv(t, s) && me < |s.threads| && s.threads[me].Insert?
    ensures Before(t, me, s.sh, s.threads[me])
  {
    hide SharedInv;
  }

  lemma BeginBuilds<E(!new)>(t: Traits<E>, s: State<E>, op: Op<E>)
    ensures MidSplit(Begin(t, s, op)) == 0
  {
  }

  lemma ReaderBuilds<E(!new)>(t: Traits<E>, sh: Shared<E>, th: Thread<E>)
    requires th.Lookup?
    ensures MidSplit(ReaderStep(t, sh, th)) == 0
  {
  }

  lemma WalkerBuilds<E(!new)>(t: Traits<E>, sh: Shared<E>, th: Thread<E>)
    requires th.Walk?
    ensures MidSplit(WalkerStep(t, sh, th)) == 0
  {
  }

  lemma {:induction false} RunAccounts<E(!new)>(t: Traits<E>, n: nat, all: seq<(Tid, Choice<E>)>)
    requires t.TotalOrder() && t.HintPromise()
    ensures Accounted(Run(t, n, all))
    decreases |all|
  {
    hide Step, Inv, SplitsInFlight;
    if all == [] {
      IdleInFlight<E>(n);
    } else {
      var last := |all| - 1;
      RunAccounts(t, n, all[..last]);
      RunInv(t, n, all[..last]);
      StepAccounts(t, Run(t, n, all[..last]), all[last].0, all[last].1);
    }
  }

  /**
   Nodes and payloads are allocated by the constructor and by splits alone: with s splits
   published and k under way, 1 + s + k nodes and 1 + 2(s + k) payloads exist.
   */
  lemma AllocationExact<E(!new)>(t: Traits<E>, n: nat, s: State<E>)
    requires t.TotalOrder() && t.HintPromise() && Attained(t, n, s)
    ensures var splits := |s.sh.chain| - 1 + SplitsInFlight(s.threads);
      |s.sh.nodes| == 1 + splits && |s.sh.payloads| == 1 + 2 * splits
  {
    hide Run, SplitsInFlight;
    var schedule: seq<(Tid, Choice<E>)> :| s == Run(t, n, schedule);
    RunAccounts(t, n, schedule);
  }
}
