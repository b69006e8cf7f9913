/**
 What holds in every reachable state, for any number of threads and every
 interleaving: forward walks, lookups, retries, towers, hints, occupancy, lanes.
 */
module Reachable {
  import opened Surrogate
  import opened Ordering
  import opened Kernels
  import opened Payloads
  import opened Machine
  import opened Invariant
  import opened Publishing
  import opened NodeSplit
  import opened Descents
  import opened WriterSteps
  import opened ReaderSteps
  import opened Safety
  import opened LevelZero
  import opened NodeDatas

  type Schedule<E> = seq<(Tid, Choice<E>)>

  // ---- one operation of one thread over a run ----------------------------------------------

  ghost predicate Steps<E(!new)>(t: Traits<E>, s: State<E>, next: State<E>)
  {
    exists me: Tid :: StepOf(t, s, me, next)
  }

  ghost predicate Busy<E(!new)>(s: State<E>, u: Tid)
  {
    u < |s.threads| && !s.threads[u].Idle?
  }

  /** Successive states of a run in which thread u leaves Idle at the first step and stays busy: one operation. */
  ghost predicate OneOperation<E(!new)>(t: Traits<E>, n: nat, trace: seq<State<E>>, u: Tid)
  {
    && |trace| >= 2 && Attained(t, n, trace[0]) && u < |trace[0].threads| && trace[0].threads[u].Idle?
    && (forall i :: 0 < i < |trace| ==> Steps(t, trace[i - 1], trace[i]))
    && (forall i :: 0 < i < |trace| ==> Busy(trace[i], u))
  }

  /** `was` is the state thread u's operation began in, `now` a state in which it is still busy with it. */
  ghost predicate During<E(!new)>(t: Traits<E>, n: nat, was: State<E>, now: State<E>, u: Tid)
  {
    exists trace: seq<State<E>> :: OneOperation(t, n, trace, u) && was == trace[0] && now == trace[|trace| - 1]
  }

  /** What an operation remembers of the moment it began. */
  ghost predicate Remembers<E(!new)>(t: Traits<E>, th: Thread<E>, was: Shared<E>)
  {
    match th
    case Idle => true
    case Insert(key, _, start, _, _) => start == |was.chain| && Unpublished(t, was, key)
    case Lookup(_, _, known) => known == |was.published|
    case Walk(_, known, _) => known == |was.published|
  }

  lemma StepRemembers<E(!new)>(t: Traits<E>, s: State<E>, me: Tid, c: Choice<E>, u: Tid, was: Shared<E>)
    requires u < |s.threads|
    requires if s.threads[u].Idle? then was == s.sh else Remembers(t, s.threads[u], was)
    requires !Step(t, s, me, c).threads[u].Idle?
    ensures Remembers(t, Step(t, s, me, c).threads[u], was)
  {
    hide WriterStep, DescentStep, Unpublished;
    if me == u && s.threads[u].Insert? { WriterPublishes(t, me, s.sh, s.threads[u], c); }
  }

  /** The published history only grows, and so does the number of nodes on level 0. */
  lemma StepGrows<E(!new)>(t: Traits<E>, s: State<E>, me: Tid, c: Choice<E>)
    requires t.TotalOrder() && t.HintPromise() && Inv(t, s)
    ensures s.sh.published <= Step(t, s, me, c).sh.published && |s.sh.chain| <= |Step(t, s, me, c).sh.chain|
  {
    hide Inv, Step;
    StepKeepsInv(t, s, me, c);
    if me >= |s.threads| { NoStep(t, s, me, c); }
  }

  lemma NoStep<E(!new)>(t: Traits<E>, s: State<E>, me: Tid, c: Choice<E>)
    requires me >= |s.threads|
    ensures Step(t, s, me, c) == s
  {
  }

  /** Along one operation: every state is reachable, and what the operation remembers stays true. */
  lemma {:induction false} OperationRemembers<E(!new)>(t: Traits<E>, n: nat, trace: seq<State<E>>, u: Tid, i: nat)
    requires t.TotalOrder() && t.HintPromise() && OneOperation(t, n, trace, u) && i < |trace|
    ensures Attained(t, n, trace[i]) && u < |trace[i].threads|
    ensures i > 0 ==> Remembers(t, trace[i].threads[u], trace[0].sh)
    ensures trace[0].sh.published <= trace[i].sh.published
    decreases i
  {
    hide Step, Inv, Attained, Remembers;
    if i > 0 {
      OperationRemembers(t, n, trace, u, i - 1);
      assert Steps(t, trace[i - 1], trace[i]) && Busy(trace[i], u);
      var me: Tid :| StepOf(t, trace[i - 1], me, trace[i]);
      var c: Choice<E> :| trace[i] == Step(t, trace[i - 1], me, c);
      AttainedInv(t, n, trace[i - 1]);
      StepAttained(t, n, trace[i - 1], me, c);
      StepGrows(t, trace[i - 1], me, c);
      assert i > 1 ==> Busy(trace[i - 1], u);
      StepRemembers(t, trace[i - 1], me, c, u, trace[0].sh);
    }
  }

  lemma DuringHolds<E(!new)>(t: Traits<E>, n: nat, was: State<E>, now: State<E>, u: Tid)
    requires t.TotalOrder() && t.HintPromise() && During(t, n, was, now, u)
    ensures u < |now.threads| && SharedInv(t, now.sh) && ThreadOk(t, u, now.sh, now.threads[u])
    ensures Remembers(t, now.threads[u], was.sh) && was.sh.published <= now.sh.published
  {
    hide SharedInv, ThreadOk, Attained, KeysApart, Remembers;
    var trace: seq<State<E>> :| OneOperation(t, n, trace, u) && was == trace[0] && now == trace[|trace| - 1];
    OperationRemembers(t, n, trace, u, |trace| - 1);
    AttainedInv(t, n, now);
  }

  // ---- forward walks -----------------------------------------------------------------------

  /**
   A walk from begin() among any appends and splits: what it has yielded is strictly
   increasing and was inserted; once it has ended, everything published before it
   began is among it.
   */
  lemma WalkComplete<E(!new)>(t: Traits<E>, n: nat, was: State<E>, now: State<E>, u: Tid)
    requires t.TotalOrder() && t.HintPromise() && During(t, n, was, now, u)
    requires u < |now.threads| && now.threads[u].Walk?
    ensures Sorted(t, now.threads[u].yielded)
    ensures forall e :: e in now.threads[u].yielded ==> e in now.sh.published
    ensures now.threads[u].k.Ended? ==> forall e :: e in was.sh.published ==> e in now.threads[u].yielded
  {
    hide SharedInv, Sorted, During;
    DuringHolds(t, n, was, now, u);
    var walk := now.threads[u];
    if walk.k.Ended? {
      forall e | e in was.sh.published
        ensures e in walk.yielded
      {
        var i :| 0 <= i < |was.sh.published| && was.sh.published[i] == e;
        assert now.sh.published[i] == e;
      }
    }
  }

  // ---- lookups -------------------------------------------------------------------------------

  /** Some entry of `published` compares equal to the key. */
  ghost predicate Has<E(!new)>(t: Traits<E>, published: seq<E>, key: E)
  {
    exists i :: 0 <= i < |published| && t.compare(published[i], key) == 0
  }

  /**
   contains_target under concurrency. It never reports a key that was not inserted. For a
   key published before the call it reports it exactly when the payload it reloaded does
   not link to a node that starts at or below the key, which is certain when the payload
   is still the one descend last loaded.
   */
  lemma LookupVerdict<E(!new)>(t: Traits<E>, n: nat, was: State<E>, now: State<E>, u: Tid)
    requires t.TotalOrder() && t.HintPromise() && During(t, n, was, now, u)
    requires u < |now.threads| && now.threads[u].Lookup? && now.threads[u].r.Answered?
    ensures var key, r := now.threads[u].key, now.threads[u].r;
      && r.d < |now.sh.payloads| && r.base < |now.sh.payloads|
      && (r.result ==> Has(t, now.sh.published, key))
      && (Has(t, was.sh.published, key) ==>
            && (r.result <==> !NextReaches(t, now.sh, now.sh.payloads[r.d].d.next, key))
            && (r.d == r.base ==> r.result))
  {
    hide SharedInv, During;
    DuringHolds(t, n, was, now, u);
    var key := now.threads[u].key;
    if Has(t, was.sh.published, key) {
      var i :| 0 <= i < |was.sh.published| && t.compare(was.sh.published[i], key) == 0;
      assert now.sh.published[i] == was.sh.published[i];
      assert KnownKey(t, now.sh, key, now.threads[u].known);
    }
  }

  // ---- retries -------------------------------------------------------------------------------

  /** One insert's retries are at most the splits committed since it began: a termination measure apart from lock waiting. */
  lemma RetriesBounded<E(!new)>(t: Traits<E>, n: nat, was: State<E>, now: State<E>, u: Tid)
    requires t.TotalOrder() && t.HintPromise() && During(t, n, was, now, u)
    requires u < |now.threads| && now.threads[u].Insert?
    ensures now.threads[u].retries <= |now.sh.chain| - |was.sh.chain|
  {
    hide SharedInv, During, WriterOk;
    DuringHolds(t, n, was, now, u);
  }

  /** belongs_here refuses only when the chosen node's payload was replaced since descend loaded it on level 0. */
  lemma RefusalMeansSplit<E(!new)>(t: Traits<E>, n: nat, s: State<E>, me: Tid, c: Choice<E>)
    requires t.TotalOrder() && t.HintPromise() && Attained(t, n, s) && me < |s.threads|
    requires s.threads[me].Insert? && s.threads[me].w.LoadingNextOrder?
    requires var th' := Step(t, s, me, c).threads[me]; th'.Insert? && th'.w.Refusing?
    ensures var w := s.threads[me].w;
      DataOf(t, s.sh, w.cur) == w.d != w.base && s.threads[me].seen < |s.sh.chain|
  {
    hide SharedInv, KeysApart, Attained;
    AttainedInv(t, n, s);
    var w, key := s.threads[me].w, s.threads[me].key;
    assert ThreadOk(t, me, s.sh, s.threads[me]);
    var nx := s.sh.payloads[w.d].d.next.value;
    InstalledNext(t, s.sh, w.d);
    FirstIsLow(t, s.sh, w.nd, nx);
    t.Order3(s.sh.nodes[nx].low, key, s.sh.nodes[nx].low);
  }

  // ---- towers --------------------------------------------------------------------------------

  /** The node reached from the head over `k` payload links. */
  function Hop<E(!new)>(t: Traits<E>, sh: Shared<E>, k: nat): Option<NodeId>
  {
    if k == 0 then Some(0)
    else
      var n := Hop(t, sh, k - 1);
      if n.None? then None else PayloadAt(t, sh, DataOf(t, sh, n.value)).next
  }

  lemma {:induction false} HopIsChain<E(!new)>(t: Traits<E>, sh: Shared<E>, k: nat)
    requires SharedInv(t, sh) && k <= |sh.chain|
    ensures Hop(t, sh, k) == if k < |sh.chain| then Some(sh.chain[k]) else None
  {
    hide SharedInv;
    HeadFirst(t, sh);
    if k > 0 {
      HopIsChain(t, sh, k - 1);
      ChainPosition(t, sh, k - 1, k - 1);
    }
  }

  /** The first key of the node, as the payload it holds now names it. */
  function FirstKey<E(!new)>(t: Traits<E>, sh: Shared<E>, m: NodeId): E
  {
    FirstOf(t, PayloadAt(t, sh, DataOf(t, sh, m)))
  }

  /**
   Whatever compare-exchanges failed or were abandoned: a tower pointer of a node on level
   0 leads to a node on level 0, further along and with a strictly greater first key.
   */
  lemma TowersLeadForward<E(!new)>(t: Traits<E>, n: nat, s: State<E>, k: nat, m: NodeId, lv: nat, to: NodeId)
    requires t.TotalOrder() && t.HintPromise() && Attained(t, n, s)
    requires Hop(t, s.sh, k) == Some(m) && TowerAt(t, s.sh, m, lv) == Some(to)
    ensures exists j :: j > k && Hop(t, s.sh, j) == Some(to)
    ensures |PayloadAt(t, s.sh, DataOf(t, s.sh, m)).order| > 0 && t.Lt(FirstKey(t, s.sh, m), FirstKey(t, s.sh, to))
  {
    hide Attained, Inv, SharedInv, FirstOf;
    AttainedInv(t, n, s);
    InvShared(t, s);
    HopInChain(t, s.sh, k);
    TowerForward(t, s.sh, k, lv);
    FirstKeys(t, s.sh, to);
    HeadFirst(t, s.sh);
    if k > 0 { FirstKeys(t, s.sh, m); } else { HeadBelow(t, s.sh, to); }
  }

  /** A head followed by any node holds a key, and its keys lie below every other node's first key. */
  lemma HeadBelow<E(!new)>(t: Traits<E>, sh: Shared<E>, m: NodeId)
    requires t.TotalOrder() && SharedInv(t, sh) && m in sh.chain && m != 0
    ensures |PayloadAt(t, sh, DataOf(t, sh, 0)).order| > 0
    ensures t.Lt(FirstKey(t, sh, 0), FirstKey(t, sh, m))
  {
    hide SharedInv;
    HeadFirst(t, sh);
    var j :| 0 <= j < |sh.chain| && sh.chain[j] == m;
    HeadNonempty(t, sh);
    RunFacts(t, sh, 0);
    FirstKeys(t, sh, m);
    LowsAscend(t, sh, 1, j);
    var p := PayloadAt(t, sh, DataOf(t, sh, 0));
    SeenIsRun(t, p);
    assert FirstKey(t, sh, 0) == p.Run()[0] && p.Run()[0] in p.Run();
    var next := NodeAt(t, sh, sh.chain[1]).low;
    t.Order3(FirstKey(t, sh, 0), next, sh.nodes[m].low);
  }

  lemma HeadNonempty<E(!new)>(t: Traits<E>, sh: Shared<E>)
    requires SharedInv(t, sh) && |sh.chain| > 1
    ensures |PayloadAt(t, sh, DataOf(t, sh, 0)).order| > 0
  {
    hide ChainOk, PayloadsOk, TowersOk, AllLocated, HeadHintLow;
    HeadFirst(t, sh);
    BaseSound(t, sh, 0);
  }

  lemma InvShared<E(!new)>(t: Traits<E>, s: State<E>)
    requires Inv(t, s)
    ensures SharedInv(t, s.sh)
  {
  }

  lemma {:induction false} HopInChain<E(!new)>(t: Traits<E>, sh: Shared<E>, k: nat)
    requires SharedInv(t, sh) && Hop(t, sh, k).Some?
    ensures k < |sh.chain| && Hop(t, sh, k) == Some(sh.chain[k])
  {
    hide SharedInv;
    HeadFirst(t, sh);
    if k > 0 { HopInChain(t, sh, k - 1); }
    HopIsChain(t, sh, k);
  }

  lemma TowerForward<E(!new)>(t: Traits<E>, sh: Shared<E>, k: nat, lv: nat)
    requires t.TotalOrder() && SharedInv(t, sh) && k < |sh.chain| && TowerAt(t, sh, sh.chain[k], lv).Some?
    ensures var to := TowerAt(t, sh, sh.chain[k], lv);
      && to.value in sh.chain && to.value != 0 && to.value < |sh.nodes| && sh.chain[k] < |sh.nodes|
      && (k > 0 ==> t.Lt(sh.nodes[sh.chain[k]].low, sh.nodes[to.value].low))
      && exists j :: j > k && Hop(t, sh, j) == to
  {
    hide SharedInv;
    ChainPosition(t, sh, k, k);
    TowerSound(t, sh, sh.chain[k], lv);
    HeadFirst(t, sh);
    var to := TowerAt(t, sh, sh.chain[k], lv).value;
    var j :| 0 <= j < |sh.chain| && sh.chain[j] == to;
    HopIsChain(t, sh, j);
    var a, b := NodeAt(t, sh, sh.chain[k]).low, NodeAt(t, sh, to).low;
    if k > 0 && j <= k {
      LowsAscend(t, sh, j, k);
      t.Order3(a, b, a);
    }
  }

  lemma FirstKeys<E(!new)>(t: Traits<E>, sh: Shared<E>, m: NodeId)
    requires SharedInv(t, sh) && m in sh.chain && m != 0
    ensures m < |sh.nodes| && FirstKey(t, sh, m) == sh.nodes[m].low
    ensures |PayloadAt(t, sh, DataOf(t, sh, m)).order| > 0
  {
    hide SharedInv;
    BaseSound(t, sh, m);
    FirstIsLow(t, sh, DataOf(t, sh, m), m);
  }

  // ---- first keys and hints ------------------------------------------------------------------

  /** Over every run a published node other than the head keeps its first key and its hint. */
  lemma {:induction false} FirstKeyForever<E(!new)>(t: Traits<E>, n: nat, all: Schedule<E>, from: nat, m: NodeId)
    requires t.TotalOrder() && t.HintPromise() && from <= |all|
    requires m != 0 && m in Run(t, n, all[..from]).sh.chain
    ensures m in Run(t, n, all).sh.chain
    ensures var a, b := Run(t, n, all[..from]).sh, Run(t, n, all).sh;
      && FirstKey(t, b, m) == FirstKey(t, a, m)
      && NodeAt(t, b, m).hint == NodeAt(t, a, m).hint == t.Hint(FirstKey(t, a, m))
    decreases |all|
  {
    hide Step, Inv, Init, SharedInv, FirstKey;
    RunInv(t, n, all[..from]);
    var a := Run(t, n, all[..from]);
    InvShared(t, a);
    FirstKeys(t, a.sh, m);
    PublishedHint(t, a.sh, m);
    if from == |all| {
      assert all[..from] == all;
    } else {
      var last := |all| - 1;
      assert all[..last][..from] == all[..from];
      FirstKeyForever(t, n, all[..last], from, m);
      RunInv(t, n, all[..last]);
      RunInv(t, n, all);
      StepKeepsFirst(t, Run(t, n, all[..last]), all[last].0, all[last].1, m);
    }
  }

  lemma StepKeepsFirst<E(!new)>(t: Traits<E>, s: State<E>, me: Tid, c: Choice<E>, m: NodeId)
    requires t.TotalOrder() && t.HintPromise() && Inv(t, s) && m != 0 && m in s.sh.chain
    ensures var s' := Step(t, s, me, c);
      && m in s'.sh.chain
      && FirstKey(t, s'.sh, m) == FirstKey(t, s.sh, m)
      && NodeAt(t, s'.sh, m).hint == NodeAt(t, s.sh, m).hint
  {
    hide SharedInv, FirstKey, Inv, Step;
    StepKeepsInv(t, s, me, c);
    if me >= |s.threads| { NoStep(t, s, me, c); return; }
    InvShared(t, s);
    InvShared(t, Step(t, s, me, c));
    FirstKeys(t, s.sh, m);
    PublishedHint(t, s.sh, m);
    assert NodeGrows(me, s.sh, Step(t, s, me, c).sh, m);
    FirstKeys(t, Step(t, s, me, c).sh, m);
    PublishedHint(t, Step(t, s, me, c).sh, m);
  }

  /** Whatever stores are in flight: no node's hint exceeds that of its current first key, when hints are consulted. */
  lemma HintsNeverHigh<E(!new)>(t: Traits<E>, n: nat, s: State<E>, m: NodeId)
    requires t.TotalOrder() && t.HintPromise() && t.hintOrdering && Attained(t, n, s) && m in s.sh.chain
    ensures |PayloadAt(t, s.sh, DataOf(t, s.sh, m)).order| > 0 ==> NodeAt(t, s.sh, m).hint <= t.Hint(FirstKey(t, s.sh, m))
  {
    hide Attained, Inv, ChainOk, PayloadsOk, TowersOk, AllLocated, Occupied, FirstOf;
    AttainedInv(t, n, s);
    InvShared(t, s);
    if m != 0 {
      FirstKeys(t, s.sh, m);
      PublishedHint(t, s.sh, m);
    }
  }

  // ---- lanes -----------------------------------------------------------------------------------

  lemma PayloadHolds<E(!new)>(t: Traits<E>, sh: Shared<E>, d: PayloadId)
    requires SharedInv(t, sh) && d in sh.installed
    ensures d < |sh.payloads| && sh.payloads[d].d.Shaped() && Sorted(t, sh.payloads[d].d.Run()) && LanesOk(t, sh, d)
  {
    assert PayloadOk(t, sh, d);
  }

  /** The one payload fill did not build belongs to the head, and never links anywhere. */
  lemma {:induction false} FirstPayload<E(!new)>(t: Traits<E>, n: nat, all: Schedule<E>)
    requires t.TotalOrder() && t.HintPromise()
    ensures var sh := Run(t, n, all).sh; |sh.payloads| > 0 && sh.payloads[0].home == 0 && sh.payloads[0].d.next == None
    decreases |all|
  {
    hide Step, Inv;
    if all != [] {
      var last := |all| - 1;
      FirstPayload(t, n, all[..last]);
      RunInv(t, n, all[..last]);
      var s := Run(t, n, all[..last]);
      StepKeepsInv(t, s, all[last].0, all[last].1);
      if all[last].0 >= |s.threads| { NoStep(t, s, all[last].0, all[last].1); return; }
      assert CellGrows(all[last].0, s.sh, Step(t, s, all[last].0, all[last].1).sh, 0);
    }
  }

  /**
   Under a bytewise-compatible comparator, in the payload any node but the head holds:
   lanes are sorted in rank order, carriers of the prefix hold their exact surrogate, and
   the rest are an upper block at EMPTY_KEY.
   */
  lemma LanesHold<E(!new)>(t: Traits<E>, n: nat, s: State<E>, m: NodeId)
    requires t.TotalOrder() && t.HintPromise() && t.Bytewise() && Attained(t, n, s)
    requires m != 0 && m in s.sh.chain
    ensures var p := PayloadAt(t, s.sh, DataOf(t, s.sh, m));
      && p.Shaped() && LanesExact(t, p) && RankSorted(p.lanes, p.order)
      && (forall i, j :: 0 <= i < j < p.Count() && Carries(t, p, j) ==> Carries(t, p, i))
  {
    hide Attained, Inv, SharedInv, LanesExact, PrefixLongEnough, Carries;
    AttainedInv(t, n, s);
    InvShared(t, s);
    BaseSound(t, s.sh, m);
    var d := DataOf(t, s.sh, m);
    PayloadHolds(t, s.sh, d);
    LanesSorted(t, s.sh.payloads[d].d);
  }

  /** The head until its first split: nothing stripped, so its lanes are exact too. */
  lemma UnsplitHeadLanes<E(!new)>(t: Traits<E>, n: nat, s: State<E>)
    requires t.TotalOrder() && t.HintPromise() && Attained(t, n, s) && PayloadAt(t, s.sh, DataOf(t, s.sh, 0)).next.None?
    ensures var p := PayloadAt(t, s.sh, DataOf(t, s.sh, 0));
      && p.Shaped() && Unstripped(t, p)
      && (t.Bytewise() && p.Count() > 0 ==> LanesExact(t, p) && RankSorted(p.lanes, p.order))
  {
    hide Attained, Inv, SharedInv, LanesExact, PrefixLongEnough, Unstripped;
    AttainedInv(t, n, s);
    InvShared(t, s);
    HeadFirst(t, s.sh);
    BaseSound(t, s.sh, 0);
    PayloadHolds(t, s.sh, DataOf(t, s.sh, 0));
    var p := s.sh.payloads[DataOf(t, s.sh, 0)].d;
    if t.Bytewise() && p.Count() > 0 {
      UnstrippedExact(t, p);
      LanesSorted(t, p);
    }
  }

  /** The stored prefix is never too short, in any node but a head that has never been split. */
  lemma PrefixHolds<E(!new)>(t: Traits<E>, n: nat, s: State<E>, m: NodeId)
    requires t.TotalOrder() && t.HintPromise() && t.Bytewise() && Attained(t, n, s)
    requires m in s.sh.chain && (m == 0 ==> PayloadAt(t, s.sh, DataOf(t, s.sh, 0)).next.Some?)
    ensures var p := PayloadAt(t, s.sh, DataOf(t, s.sh, m)); p.Shaped() && PrefixLongEnough(t, p)
  {
    hide Run, Inv, SharedInv, LanesExact, PrefixLongEnough;
    AttainedInv(t, n, s);
    InvShared(t, s);
    BaseSound(t, s.sh, m);
    PayloadHolds(t, s.sh, DataOf(t, s.sh, m));
    var schedule: Schedule<E> :| s == Run(t, n, schedule);
    FirstPayload(t, n, schedule);
  }

  /**
   So on any node but the head, in any reachable state, a kernel's count for a target
   carrying the prefix starts a scan whose answer the comparator confirms: everything
   before it is below the target, and past the equal lanes nothing is.
   */
  lemma CandidateConfirmed<E(!new)>(t: Traits<E>, n: nat, s: State<E>, m: NodeId, p: Payload<E>, key: E, c: nat)
    requires t.TotalOrder() && t.HintPromise() && t.Bytewise() && Attained(t, n, s)
    requires m != 0 && m in s.sh.chain && p == PayloadAt(t, s.sh, DataOf(t, s.sh, m)) && p.Shaped()
    requires Shares(t, p, t.orderBytes(key)) && c == LiveBelow(p.lanes, p.Count(), SurrogateAt(t.orderBytes(key), p.prefixLen))
    ensures forall r :: 0 <= r < c ==> t.Lt(p.KeyAt(r), key)
    ensures forall r :: c <= r < p.Count() ==>
      p.LaneAt(r) == SurrogateAt(t.orderBytes(key), p.prefixLen) || !t.Lt(p.KeyAt(r), key)
  {
    hide Attained, Inv, SharedInv, LanesExact, PrefixLongEnough, Carries, Shares, LiveBelow;
    AttainedInv(t, n, s);
    InvShared(t, s);
    BaseSound(t, s.sh, m);
    PayloadHolds(t, s.sh, DataOf(t, s.sh, m));
    var x := SurrogateAt(t.orderBytes(key), p.prefixLen);
    assert CandidateIsGood(t, p, key, x) by { LanesHold(t, n, s, m); }
    CandidateStart(t, p, key, x, c);
    hide CandidateIsGood;
    GoodLanesSorted(t, p, key, x);
    forall r | 0 <= r < c
      ensures t.Lt(p.KeyAt(r), key)
    {
      assert r < c - 1 ==> t.Lt(p.Run()[r], p.Run()[c - 1]);
      t.Order3(p.KeyAt(r), p.KeyAt(c - 1), key);
      t.Order3(p.KeyAt(c - 1), key, p.KeyAt(c - 1));
    }
    forall r | c <= r < p.Count() && p.LaneAt(r) != x
      ensures !t.Lt(p.KeyAt(r), key)
    {
      LaneAboveIsAbove(t, p, key, x, r);
    }
  }
}
