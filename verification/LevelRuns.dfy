/**
 The tower levels over every run. Pointers of a level lead only to nodes some
 compare-exchange has joined to it; a sibling is joined upwards, so until its turn on a
 level comes no pointer there, nor any higher up, leads to it, and no other thread can
 stand on it there. Hence its own pointer is still the one stored when the exchange
 succeeds, and nothing ever leaves a level.
 */
module LevelRuns {
  import opened Ordering
  import opened Payloads
  import opened Machine
  import opened Invariant
  import opened WriterSteps
  import opened Safety
  import opened Levels

  /** Which nodes have been joined to which levels: history, known to no step. */
  type Joined = set<(NodeId, nat)>

  ghost predicate Pointed<E(!new)>(t: Traits<E>, sh: Shared<E>, js: Joined)
  {
    forall n: NodeId, l: nat :: TowerAt(t, sh, n, l).Some? ==> (TowerAt(t, sh, n, l).value, l) in js
  }

  /** Come upon along a level at or above lv, if not the head. */
  ghost predicate MetAbove(js: Joined, m: NodeId, lv: nat)
  {
    m == 0 || exists l: nat :: l >= lv && (m, l) in js
  }

  ghost predicate Search(js: Joined, at: Descent)
  {
    MetAbove(js, at.cur, at.lv) && (at.probe.Some? ==> (at.probe.value.nx, at.lv) in js)
  }

  ghost predicate SuccJoined(js: Joined, v: Option<NodeId>, lv: nat)
  {
    v.Some? ==> (v.value, lv) in js
  }

  /** What a thread in link_tower knows: its sibling is joined to no level from this one up. */
  ghost predicate LinkKnows<E(!new)>(t: Traits<E>, u: Tid, sh: Shared<E>, js: Joined, w: WriterPc<E>)
    requires IsLinking(w)
  {
    && w.sib != 0 && w.sib < |sh.nodes| && w.sib in sh.chain && sh.nodes[w.sib].maker == u
    && (forall l: nat :: l >= w.lv ==> (w.sib, l) !in js)
    && (!w.Linking? ==> 1 <= w.lv < MAX_HEIGHT)
    && match w
       case Linking(_, _, _, _, _) => true
       case LinkDescending(_, _, _, lv, _, at) => at.floor == lv <= at.lv && Search(js, at)
       case LinkLoading(_, _, _, lv, _, pred) => MetAbove(js, pred, lv)
       case LinkProbing(_, _, _, lv, _, pred, probe) => MetAbove(js, pred, lv) && (probe.nx, lv) in js
       case LinkStoring(_, _, _, lv, _, pred, succ) => MetAbove(js, pred, lv) && SuccJoined(js, succ, lv)
       case LinkSwapping(_, sib, _, lv, _, pred, succ) =>
         MetAbove(js, pred, lv) && SuccJoined(js, succ, lv) && TowerAt(t, sh, sib, lv) == succ
  }

  ghost predicate ThreadLinks<E(!new)>(t: Traits<E>, u: Tid, sh: Shared<E>, js: Joined, th: Thread<E>)
  {
    th.Insert? && IsLinking(th.w) ==> LinkKnows(t, u, sh, js, th.w)
  }

  ghost predicate LinkInv<E(!new)>(t: Traits<E>, s: State<E>, js: Joined)
  {
    && Pointed(t, s.sh, js) && (forall j :: j in js ==> j.0 in s.sh.chain)
    && forall u :: 0 <= u < |s.threads| ==> ThreadLinks(t, u, s.sh, js, s.threads[u])
  }

  // ---- what a step stores -------------------------------------------------------------------

  /** The compare-exchange succeeds. */
  predicate Succeeds<E(!new)>(t: Traits<E>, sh: Shared<E>, th: Thread<E>, c: Choice<E>)
  {
    th.Insert? && th.w.LinkSwapping? && TowerAt(t, sh, th.w.pred, th.w.lv) == th.w.succ && !c.spurious
  }

  predicate StoresOwn<E>(th: Thread<E>)
  {
    th.Insert? && th.w.LinkStoring?
  }

  lemma NodesTowers<E(!new)>(t: Traits<E>, a: Shared<E>, b: Shared<E>)
    requires |a.nodes| <= |b.nodes| && forall n :: 0 <= n < |a.nodes| ==> b.nodes[n].tower == a.nodes[n].tower
    requires forall n, l :: |a.nodes| <= n < |b.nodes| && 0 <= l < |b.nodes[n].tower| ==> b.nodes[n].tower[l] == None
    ensures SameTowers(t, a, b)
  {
  }

  /** Outside link_tower no pointer changes; a new node has none. */
  lemma WriterTowers<E(!new)>(t: Traits<E>, me: Tid, sh: Shared<E>, th: Thread<E>, c: Choice<E>)
    requires th.Insert? && !IsLinking(th.w)
    ensures SameTowers(t, sh, WriterStep(t, me, sh, th, c).0)
  {
    hide DescentStep, PayloadAt, DataOf, SeenRun, LaneOf, RankIn, Merged, FirstOf, ChainWith, Filled, LinkStep, SameTowers, Height;
    NodesTowers(t, sh, WriterStep(t, me, sh, th, c).0);
  }

  lemma StoreIs<E(!new)>(t: Traits<E>, sh: Shared<E>, n: NodeId, lv: nat, v: Option<NodeId>)
    requires n < |sh.nodes| && lv < |sh.nodes[n].tower|
    ensures var b := SetTower(t, sh, n, lv, v);
      OnePointer(t, sh, b, n, lv) && TowerAt(t, b, n, lv) == v && b.chain == sh.chain && |b.nodes| == |sh.nodes|
  {
  }

  lemma LinkTowers<E(!new)>(t: Traits<E>, sh: Shared<E>, th: Thread<E>, c: Choice<E>)
    requires th.Insert? && IsLinking(th.w)
    ensures LinkStep(t, sh, th, c).0 ==
      if Succeeds(t, sh, th, c) then SetTower(t, sh, th.w.pred, th.w.lv, Some(th.w.sib))
      else if StoresOwn(th) then SetTower(t, sh, th.w.sib, th.w.lv, th.w.succ) else sh
  {
    hide DescentStep, ProbeStep, NodeAt, TowerAt, SetTower;
  }

  /** What has been joined after the step. */
  ghost function JoinedAfter<E(!new)>(t: Traits<E>, sh: Shared<E>, js: Joined, th: Thread<E>, c: Choice<E>): Joined
  {
    if Succeeds(t, sh, th, c) then js + {(th.w.sib, th.w.lv)} else js
  }

  // ---- the thread that steps ---------------------------------------------------------------

  lemma SearchOn<E(!new)>(t: Traits<E>, sh: Shared<E>, js: Joined, key: E, at: Descent)
    requires Pointed(t, sh, js) && Search(js, at) && 1 <= at.floor <= at.lv
    ensures match DescentStep(t, sh, key, at)
            case Going(to) => Search(js, to) && to.floor == at.floor <= to.lv
            case Reached(cur, _) => MetAbove(js, cur, at.floor)
  {
    hide ProbeStep, TowerAt;
    if at.probe.Some? { ProbeSame(t, sh, key, at.probe.value); }
    if at.probe.None? && TowerAt(t, sh, at.cur, at.lv).Some? { assert (TowerAt(t, sh, at.cur, at.lv).value, at.lv) in js; }
  }

  lemma ProbeSame<E(!new)>(t: Traits<E>, sh: Shared<E>, key: E, p: Probe)
    ensures ProbeStep(t, sh, key, p).Undecided? ==> ProbeStep(t, sh, key, p).p.nx == p.nx
  {
  }

  /** The stepping thread's knowledge after a step of link_tower that stores nothing. */
  lemma LoadKnows<E(!new)>(t: Traits<E>, me: Tid, sh: Shared<E>, js: Joined, th: Thread<E>, c: Choice<E>)
    requires th.Insert? && IsLinking(th.w) && Pointed(t, sh, js) && LinkKnows(t, me, sh, js, th.w)
    requires !Succeeds(t, sh, th, c) && !StoresOwn(th) && LinkLevelOk(t, sh, th.w)
    ensures ThreadLinks(t, me, sh, js, LinkStep(t, sh, th, c).1)
  {
    hide DescentStep, ProbeStep, NodeAt;
    match th.w
    case LinkDescending(cur, sib, first, lv, attempt, at) => SearchOn(t, sh, js, first, at);
    case LinkProbing(cur, sib, first, lv, attempt, pred, probe) => ProbeSame(t, sh, first, probe);
    case LinkLoading(cur, sib, first, lv, attempt, pred) =>
      if TowerAt(t, sh, pred, lv).Some? { assert (TowerAt(t, sh, pred, lv).value, lv) in js; }
    case _ =>
  }

  ghost predicate LinkLevelOk<E(!new)>(t: Traits<E>, sh: Shared<E>, w: WriterPc<E>)
    requires IsLinking(w)
  {
    1 <= w.lv && NodeAt(t, sh, w.sib).height <= MAX_HEIGHT && (w.LinkDescending? ==> w.at.floor == w.lv)
  }

  lemma LevelIsOk<E(!new)>(t: Traits<E>, me: Tid, sh: Shared<E>, th: Thread<E>)
    requires SharedInv(t, sh) && th.Insert? && IsLinking(th.w) && ThreadOk(t, me, sh, th)
    ensures LinkLevelOk(t, sh, th.w) && th.w.sib < |sh.nodes| && |sh.nodes[th.w.sib].tower| == MAX_HEIGHT
    ensures th.w.LinkSwapping? ==> th.w.pred < |sh.nodes| && |sh.nodes[th.w.pred].tower| == MAX_HEIGHT
  {
    hide SharedInv, DescentOk, Forward, ProbeOk;
    NodeTower(t, sh, th.w.sib);
    if th.w.LinkSwapping? { NodeTower(t, sh, th.w.pred); }
  }

  /** After it stores its own pointer: the pointer is there. */
  lemma OwnKnows<E(!new)>(t: Traits<E>, me: Tid, sh: Shared<E>, js: Joined, th: Thread<E>, c: Choice<E>)
    requires StoresOwn(th) && LinkKnows(t, me, sh, js, th.w) && |sh.nodes[th.w.sib].tower| == MAX_HEIGHT
    ensures ThreadLinks(t, me, LinkStep(t, sh, th, c).0, js, LinkStep(t, sh, th, c).1)
  {
    StoreIs(t, sh, th.w.sib, th.w.lv, th.w.succ);
  }

  /** After the exchange: the levels above are still to come. */
  lemma JoinKnows<E(!new)>(t: Traits<E>, me: Tid, sh: Shared<E>, js: Joined, th: Thread<E>, c: Choice<E>)
    requires Succeeds(t, sh, th, c) && LinkKnows(t, me, sh, js, th.w)
    requires th.w.pred < |sh.nodes| && |sh.nodes[th.w.pred].tower| == MAX_HEIGHT
    ensures var (b, th') := LinkStep(t, sh, th, c); ThreadLinks(t, me, b, js + {(th.w.sib, th.w.lv)}, th')
  {
    StoreIs(t, sh, th.w.pred, th.w.lv, Some(th.w.sib));
  }

  // ---- the others ----------------------------------------------------------------------------

  /** Nodes keep their makers and stay on level 0. */
  ghost predicate NodesKept<E(!new)>(a: Shared<E>, b: Shared<E>)
  {
    && |a.nodes| <= |b.nodes| && (forall n :: n in a.chain ==> n in b.chain)
    && forall n :: 0 <= n < |a.nodes| ==> b.nodes[n].maker == a.nodes[n].maker
  }

  lemma GuaranteeKeeps<E(!new)>(t: Traits<E>, me: Tid, a: Shared<E>, b: Shared<E>)
    requires Guarantee(t, me, a, b)
    ensures NodesKept(a, b)
  {
    forall n | 0 <= n < |a.nodes|
      ensures b.nodes[n].maker == a.nodes[n].maker
    {
      assert NodeGrows(me, a, b, n);
    }
  }

  lemma OtherKnows<E(!new)>(t: Traits<E>, v: Tid, a: Shared<E>, b: Shared<E>, js: Joined, js': Joined, th: Thread<E>)
    requires ThreadLinks(t, v, a, js, th) && NodesKept(a, b) && js <= js'
    requires th.Insert? && IsLinking(th.w) ==>
      && (forall l: nat :: (th.w.sib, l) in js' ==> (th.w.sib, l) in js)
      && TowerAt(t, b, th.w.sib, th.w.lv) == TowerAt(t, a, th.w.sib, th.w.lv)
    ensures ThreadLinks(t, v, b, js', th)
  {
    hide TowerAt;
  }

  lemma PointedAfter<E(!new)>(t: Traits<E>, a: Shared<E>, b: Shared<E>, js: Joined, js': Joined, at: NodeId, lv: nat)
    requires Pointed(t, a, js) && js <= js' && OnePointer(t, a, b, at, lv) && SuccJoined(js', TowerAt(t, b, at, lv), lv)
    ensures Pointed(t, b, js')
  {
    hide TowerAt;
    forall n: NodeId, l: nat | TowerAt(t, b, n, l).Some?
      ensures (TowerAt(t, b, n, l).value, l) in js'
    {
      if n != at || l != lv { assert TowerAt(t, b, n, l) == TowerAt(t, a, n, l); }
    }
  }

  // ---- every step, every run ---------------------------------------------------------------

  /** The swap starts link_tower on a sibling no pointer leads to. */
  lemma SwapKnows<E(!new)>(t: Traits<E>, me: Tid, sh: Shared<E>, js: Joined, th: Thread<E>, c: Choice<E>)
    requires SharedInv(t, sh) && th.Insert? && !IsLinking(th.w) && ThreadOk(t, me, sh, th)
    requires forall j :: j in js ==> j.0 in sh.chain
    requires var (b, th') := WriterStep(t, me, sh, th, c); NodesKept(sh, b) && ThreadOk(t, me, b, th')
    ensures var (b, th') := WriterStep(t, me, sh, th, c); ThreadLinks(t, me, b, js, th')
  {
    if th.w.Swapping? {
      SwappingSib(t, me, sh, th);
      hide SharedInv, ThreadOk, FirstOf, ChainWith;
    } else {
      StaysOut(t, me, sh, th, c);
      hide WriterStep, ThreadOk, SharedInv;
    }
  }

  lemma StaysOut<E(!new)>(t: Traits<E>, me: Tid, sh: Shared<E>, th: Thread<E>, c: Choice<E>)
    requires th.Insert? && !IsLinking(th.w) && !th.w.Swapping?
    ensures var th' := WriterStep(t, me, sh, th, c).1; th'.Insert? ==> !IsLinking(th'.w)
  {
    hide DescentStep, NodeAt, PayloadAt, DataOf, SeenRun, LaneOf, RankIn, Merged, FirstOf, ChainWith, Filled, LinkStep;
    hide SetLock, SetHint, SetData, SetPayload, Build, Descend;
  }

  lemma SwappingSib<E(!new)>(t: Traits<E>, me: Tid, sh: Shared<E>, th: Thread<E>)
    requires th.Insert? && th.w.Swapping? && ThreadOk(t, me, sh, th)
    ensures th.w.sib !in sh.chain && th.w.sib != 0 && th.w.sib < |sh.nodes| && sh.nodes[th.w.sib].maker == me
  {
    hide Merged, Filled, SiblingReady, FirstOf, BelongsTo;
  }

  /** Where a storing step of link_tower stores. */
  function StoredAt<E(!new)>(t: Traits<E>, sh: Shared<E>, th: Thread<E>, c: Choice<E>): NodeId
    requires Succeeds(t, sh, th, c) || StoresOwn(th)
  {
    if Succeeds(t, sh, th, c) then th.w.pred else th.w.sib
  }

  lemma StoresOne<E(!new)>(t: Traits<E>, me: Tid, sh: Shared<E>, js: Joined, th: Thread<E>, c: Choice<E>)
    requires SharedInv(t, sh) && ThreadOk(t, me, sh, th) && ThreadLinks(t, me, sh, js, th) && (Succeeds(t, sh, th, c) || StoresOwn(th))
    ensures var b, at := LinkStep(t, sh, th, c).0, StoredAt(t, sh, th, c);
      && OnePointer(t, sh, b, at, th.w.lv)
      && TowerAt(t, b, at, th.w.lv) == (if Succeeds(t, sh, th, c) then Some(th.w.sib) else th.w.succ)
  {
    LevelIsOk(t, me, sh, th);
    LinkTowers(t, sh, th, c);
    hide SharedInv, ThreadOk, LinkStep, SetTower, TowerAt, OnePointer;
    StoreIs(t, sh, StoredAt(t, sh, th, c), th.w.lv, if Succeeds(t, sh, th, c) then Some(th.w.sib) else th.w.succ);
  }

  lemma OwnLinks<E(!new)>(t: Traits<E>, me: Tid, sh: Shared<E>, js: Joined, th: Thread<E>, c: Choice<E>)
    requires SharedInv(t, sh) && th.Insert? && IsLinking(th.w) && ThreadOk(t, me, sh, th)
    requires ThreadLinks(t, me, sh, js, th) && Pointed(t, sh, js)
    ensures var (b, th') := LinkStep(t, sh, th, c); ThreadLinks(t, me, b, JoinedAfter(t, sh, js, th, c), th')
    ensures Pointed(t, LinkStep(t, sh, th, c).0, JoinedAfter(t, sh, js, th, c))
  {
    LevelIsOk(t, me, sh, th);
    LinkTowers(t, sh, th, c);
    if Succeeds(t, sh, th, c) {
      JoinKnows(t, me, sh, js, th, c);
      hide LinkStep, ThreadOk, SharedInv, Pointed, TowerAt, SetTower, OnePointer;
      StoresOne(t, me, sh, js, th, c);
      PointedAfter(t, sh, LinkStep(t, sh, th, c).0, js, JoinedAfter(t, sh, js, th, c), th.w.pred, th.w.lv);
    } else if StoresOwn(th) {
      OwnKnows(t, me, sh, js, th, c);
      hide LinkStep, ThreadOk, SharedInv, Pointed, TowerAt, SetTower, OnePointer;
      StoresOne(t, me, sh, js, th, c);
      PointedAfter(t, sh, LinkStep(t, sh, th, c).0, js, js, th.w.sib, th.w.lv);
    } else {
      hide LinkStep, ThreadOk, SharedInv, Pointed, TowerAt, LinkKnows;
      LoadKnows(t, me, sh, js, th, c);
    }
  }

  /** A sibling another thread is linking is neither this thread's sibling nor, on that level, a node it can store in. */
  lemma StoresElsewhere<E(!new)>(t: Traits<E>, me: Tid, v: Tid, sh: Shared<E>, js: Joined, th: Thread<E>, c: Choice<E>,
                                 other: Thread<E>)
    requires v != me && ThreadLinks(t, me, sh, js, th) && ThreadLinks(t, v, sh, js, other)
    requires th.Insert? && IsLinking(th.w) && other.Insert? && IsLinking(other.w)
    ensures th.w.sib != other.w.sib
    ensures Succeeds(t, sh, th, c) || StoresOwn(th) ==> StoredAt(t, sh, th, c) != other.w.sib || th.w.lv != other.w.lv
    ensures forall l: nat :: (other.w.sib, l) in JoinedAfter(t, sh, js, th, c) ==> (other.w.sib, l) in js
  {
    hide TowerAt;
  }

  lemma LinkStepInv<E(!new)>(t: Traits<E>, s: State<E>, me: Tid, c: Choice<E>, js: Joined, v: Tid)
    requires Inv(t, s) && LinkInv(t, s, js) && me < |s.threads| && v < |s.threads| && v != me
    requires s.threads[me].Insert? && IsLinking(s.threads[me].w)
    requires NodesKept(s.sh, LinkStep(t, s.sh, s.threads[me], c).0)
    ensures ThreadLinks(t, v, LinkStep(t, s.sh, s.threads[me], c).0, JoinedAfter(t, s.sh, js, s.threads[me], c), s.threads[v])
  {
    var th, other := s.threads[me], s.threads[v];
    assert ThreadLinks(t, me, s.sh, js, th) && ThreadLinks(t, v, s.sh, js, other) && ThreadOk(t, me, s.sh, th);
    hide SharedInv, ThreadOk, KeysApart, LinkStep, TowerAt, LinkKnows, Pointed, NodesKept, OnePointer;
    var b := LinkStep(t, s.sh, th, c).0;
    if other.Insert? && IsLinking(other.w) {
      StoresElsewhere(t, me, v, s.sh, js, th, c, other);
      LinkTowers(t, s.sh, th, c);
      if Succeeds(t, s.sh, th, c) || StoresOwn(th) {
        StoresOne(t, me, s.sh, js, th, c);
        OtherPointer(t, s.sh, b, StoredAt(t, s.sh, th, c), th.w.lv, other.w.sib, other.w.lv);
      }
    }
    OtherKnows(t, v, s.sh, b, js, JoinedAfter(t, s.sh, js, th, c), other);
  }

  lemma OtherPointer<E(!new)>(t: Traits<E>, a: Shared<E>, b: Shared<E>, at: NodeId, lv: nat, n: NodeId, l: nat)
    requires OnePointer(t, a, b, at, lv) && (n != at || l != lv)
    ensures TowerAt(t, b, n, l) == TowerAt(t, a, n, l)
  {
  }

  lemma PointedSame<E(!new)>(t: Traits<E>, a: Shared<E>, b: Shared<E>, js: Joined)
    requires Pointed(t, a, js) && SameTowers(t, a, b)
    ensures Pointed(t, b, js)
  {
    hide TowerAt;
  }

  /** A thread's step outside link_tower. */
  lemma PlainStepInv<E(!new)>(t: Traits<E>, s: State<E>, me: Tid, c: Choice<E>, js: Joined)
    requires Inv(t, s) && LinkInv(t, s, js) && me < |s.threads| && !(s.threads[me].Insert? && IsLinking(s.threads[me].w))
    requires NodesKept(s.sh, Step(t, s, me, c).sh) && ThreadOk(t, me, Step(t, s, me, c).sh, Step(t, s, me, c).threads[me])
    ensures SameTowers(t, s.sh, Step(t, s, me, c).sh) && LinkInv(t, Step(t, s, me, c), js)
  {
    hide SharedInv, KeysApart, ThreadOk, WriterStep, TowerAt, LinkKnows, Pointed, NodesKept, Admissible, DescentStep, Contains;
    var th, next := s.threads[me], Step(t, s, me, c);
    assert ThreadOk(t, me, s.sh, th);
    if th.Insert? {
      WriterTowers(t, me, s.sh, th, c);
      SwapKnows(t, me, s.sh, js, th, c);
    }
    PointedSame(t, s.sh, next.sh, js);
    assert forall j :: j in js ==> j.0 in next.sh.chain by { ChainKept(s.sh, next.sh); }
    forall v | 0 <= v < |next.threads| && v != me
      ensures ThreadLinks(t, v, next.sh, js, next.threads[v])
    {
      OtherKnows(t, v, s.sh, next.sh, js, js, s.threads[v]);
    }
  }

  lemma ChainKept<E(!new)>(a: Shared<E>, b: Shared<E>)
    requires NodesKept(a, b)
    ensures forall n :: n in a.chain ==> n in b.chain
  {
  }

  lemma StepLinks<E(!new)>(t: Traits<E>, s: State<E>, me: Tid, c: Choice<E>, js: Joined)
    requires t.TotalOrder() && t.HintPromise() && Inv(t, s) && LinkInv(t, s, js) && me < |s.threads|
    ensures LinkInv(t, Step(t, s, me, c), JoinedAfter(t, s.sh, js, s.threads[me], c))
  {
    hide SharedInv, KeysApart, ThreadOk, WriterStep, ReaderStep, WalkerStep, Begin, TowerAt, LinkKnows, Pointed, NodesKept, LinkStep;
    var th, next := s.threads[me], Step(t, s, me, c);
    assert ThreadOk(t, me, s.sh, th);
    StepKeepsInv(t, s, me, c);
    assert ThreadOk(t, me, next.sh, next.threads[me]);
    GuaranteeKeeps(t, me, s.sh, next.sh);
    if th.Insert? && IsLinking(th.w) {
      LinkStepIs(t, me, s.sh, th, c);
      OwnLinks(t, me, s.sh, js, th, c);
      ChainKept(s.sh, next.sh);
      assert ThreadLinks(t, me, s.sh, js, th);
      if Succeeds(t, s.sh, th, c) { SibPublished(t, me, s.sh, js, th); }
      forall v | 0 <= v < |next.threads| && v != me
        ensures ThreadLinks(t, v, next.sh, JoinedAfter(t, s.sh, js, th, c), next.threads[v])
      {
        LinkStepInv(t, s, me, c, js, v);
      }
    } else {
      PlainStepInv(t, s, me, c, js);
    }
  }

  lemma SibPublished<E(!new)>(t: Traits<E>, me: Tid, sh: Shared<E>, js: Joined, th: Thread<E>)
    requires th.Insert? && IsLinking(th.w) && ThreadLinks(t, me, sh, js, th)
    ensures th.w.sib in sh.chain
  {
  }

  lemma {:induction false} RunLinks<E(!new)>(t: Traits<E>, n: nat, schedule: seq<(Tid, Choice<E>)>) returns (js: Joined)
    requires t.TotalOrder() && t.HintPromise()
    ensures LinkInv(t, Run(t, n, schedule), js)
    decreases |schedule|
  {
    hide Inv, Step, LinkInv;
    if schedule == [] {
      js := {};
      InitLinks(t, n);
    } else {
      var last := |schedule| - 1;
      js := RunLinks(t, n, schedule[..last]);
      RunInv(t, n, schedule[..last]);
      var s, me, c := Run(t, n, schedule[..last]), schedule[last].0, schedule[last].1;
      if me < |s.threads| {
        StepLinks(t, s, me, c, js);
        js := JoinedAfter(t, s.sh, js, s.threads[me], c);
      } else {
        assert Step(t, s, me, c) == s by { NoThread(t, s, me, c); }
      }
    }
  }

  lemma NoThread<E(!new)>(t: Traits<E>, s: State<E>, me: Tid, c: Choice<E>)
    requires me >= |s.threads|
    ensures Step(t, s, me, c) == s
  {
  }

  lemma InitLinks<E(!new)>(t: Traits<E>, n: nat)
    ensures LinkInv(t, Init(t, n), {})
  {
    forall m: NodeId, l: nat
      ensures TowerAt(t, Init(t, n).sh, m, l) == None
    {
    }
  }

  lemma AttainedLinks<E(!new)>(t: Traits<E>, n: nat, s: State<E>) returns (js: Joined)
    requires t.TotalOrder() && t.HintPromise() && Attained(t, n, s)
    ensures LinkInv(t, s, js) && Inv(t, s)
  {
    hide Run, Inv, LinkInv;
    AttainedInv(t, n, s);
    var schedule: seq<(Tid, Choice<E>)> :| s == Run(t, n, schedule);
    js := RunLinks(t, n, schedule);
  }

  // ---- the levels --------------------------------------------------------------------------

  lemma LevelsJoined<E(!new)>(t: Traits<E>, sh: Shared<E>, js: Joined, lv: nat, m: NodeId)
    requires Pointed(t, sh, js) && OnLevel(t, sh, lv, m) && m != 0
    ensures (m, lv) in js
  {
    hide TowerAt;
    var k: nat :| LevelHop(t, sh, lv, k) == Some(m);
    assert LevelHop(t, sh, lv, k) == TowerAt(t, sh, LevelHop(t, sh, lv, k - 1).value, lv);
  }

  /**
   In every reachable state, whatever step is taken: nothing leaves a tower level, and a
   node comes onto one only by a compare-exchange that succeeds, namely the sibling, if the
   node it was joined after is on the level.
   */
  lemma LevelsStep<E(!new)>(t: Traits<E>, n: nat, s: State<E>, me: Tid, c: Choice<E>)
    requires t.TotalOrder() && t.HintPromise() && Attained(t, n, s) && me < |s.threads|
    ensures var next, th := Step(t, s, me, c), s.threads[me];
      forall lv: nat, m: NodeId :: OnLevel(t, next.sh, lv, m) <==>
        || OnLevel(t, s.sh, lv, m)
        || (Succeeds(t, s.sh, th, c) && lv == th.w.lv && m == th.w.sib && OnLevel(t, s.sh, lv, th.w.pred))
  {
    hide Attained, SharedInv, KeysApart, ThreadOk, WriterStep, ReaderStep, WalkerStep, Begin, TowerAt, LinkKnows, Pointed, LinkStep;
    hide NodesKept, OnLevel;
    var js := AttainedLinks(t, n, s);
    var th, next := s.threads[me], Step(t, s, me, c);
    assert ThreadOk(t, me, s.sh, th) && ThreadLinks(t, me, s.sh, js, th);
    StepKeepsInv(t, s, me, c);
    GuaranteeKeeps(t, me, s.sh, next.sh);
    if th.Insert? && IsLinking(th.w) {
      LinkStepIs(t, me, s.sh, th, c);
      LinkLevels(t, me, s.sh, js, th, c);
    } else {
      assert ThreadOk(t, me, next.sh, next.threads[me]);
      PlainStepInv(t, s, me, c, js);
      SameTowersLevels(t, s.sh, next.sh);
    }
  }

  lemma SibOffLevel<E(!new)>(t: Traits<E>, me: Tid, sh: Shared<E>, js: Joined, th: Thread<E>)
    requires th.Insert? && IsLinking(th.w) && ThreadLinks(t, me, sh, js, th) && Pointed(t, sh, js)
    ensures !OnLevel(t, sh, th.w.lv, th.w.sib)
  {
    hide TowerAt, Pointed, OnLevel;
    if OnLevel(t, sh, th.w.lv, th.w.sib) { LevelsJoined(t, sh, js, th.w.lv, th.w.sib); }
  }

  lemma LinkLevels<E(!new)>(t: Traits<E>, me: Tid, sh: Shared<E>, js: Joined, th: Thread<E>, c: Choice<E>)
    requires t.TotalOrder() && SharedInv(t, sh) && th.Insert? && IsLinking(th.w) && ThreadOk(t, me, sh, th)
    requires ThreadLinks(t, me, sh, js, th) && Pointed(t, sh, js)
    ensures var b := LinkStep(t, sh, th, c).0;
      forall lv: nat, m: NodeId :: OnLevel(t, b, lv, m) <==>
        || OnLevel(t, sh, lv, m)
        || (Succeeds(t, sh, th, c) && lv == th.w.lv && m == th.w.sib && OnLevel(t, sh, lv, th.w.pred))
  {
    hide SharedInv, ThreadOk, LinkStep, TowerAt, Pointed, OnLevel, OnePointer, SetTower;
    var b := LinkStep(t, sh, th, c).0;
    LinkTowers(t, sh, th, c);
    SibOffLevel(t, me, sh, js, th);
    if Succeeds(t, sh, th, c) {
      ExchangeJoins(t, me, sh, js, th, c);
      JoinEdit(t, sh, b, th.w.lv, th.w.pred, th.w.sib);
    } else if StoresOwn(th) {
      StoresOne(t, me, sh, js, th, c);
      OffLevelEdit(t, sh, b, th.w.sib, th.w.lv);
    }
  }

  /**
   A compare-exchange that succeeds leaves pred's pointer at the sibling and the sibling's
   where pred's was; no other pointer changes.
   */
  lemma ExchangeJoins<E(!new)>(t: Traits<E>, me: Tid, sh: Shared<E>, js: Joined, th: Thread<E>, c: Choice<E>)
    requires SharedInv(t, sh) && Succeeds(t, sh, th, c) && ThreadOk(t, me, sh, th)
    requires ThreadLinks(t, me, sh, js, th) && Pointed(t, sh, js) && !OnLevel(t, sh, th.w.lv, th.w.sib)
    ensures Joins(t, sh, LinkStep(t, sh, th, c).0, th.w.lv, th.w.pred, th.w.sib)
    ensures TowerAt(t, LinkStep(t, sh, th, c).0, th.w.sib, th.w.lv) == TowerAt(t, sh, th.w.pred, th.w.lv)
  {
    StoresOne(t, me, sh, js, th, c);
    hide SharedInv, ThreadOk, LinkStep, TowerAt, Pointed, OnLevel, OnePointer;
    OtherPointer(t, sh, LinkStep(t, sh, th, c).0, th.w.pred, th.w.lv, th.w.sib, th.w.lv);
  }

  /** The pointers after a successful exchange, in every reachable state. */
  lemma ExchangeLinks<E(!new)>(t: Traits<E>, n: nat, s: State<E>, me: Tid, c: Choice<E>)
    requires t.TotalOrder() && t.HintPromise() && Attained(t, n, s) && me < |s.threads| && Succeeds(t, s.sh, s.threads[me], c)
    ensures var next, w := Step(t, s, me, c), s.threads[me].w;
      && TowerAt(t, next.sh, w.pred, w.lv) == Some(w.sib)
      && TowerAt(t, next.sh, w.sib, w.lv) == TowerAt(t, s.sh, w.pred, w.lv)
      && OnePointer(t, s.sh, next.sh, w.pred, w.lv)
  {
    hide Attained, SharedInv, KeysApart, ThreadOk, WriterStep, TowerAt, LinkKnows, Pointed, LinkStep, OnLevel, OnePointer;
    var js := AttainedLinks(t, n, s);
    var th := s.threads[me];
    assert ThreadOk(t, me, s.sh, th) && ThreadLinks(t, me, s.sh, js, th);
    LinkStepIs(t, me, s.sh, th, c);
    SibOffLevel(t, me, s.sh, js, th);
    ExchangeJoins(t, me, s.sh, js, th, c);
  }

  /** Over every run a node on a tower level stays on it. */
  lemma {:induction false} LevelsForever<E(!new)>(t: Traits<E>, n: nat, all: seq<(Tid, Choice<E>)>, from: nat, lv: nat, m: NodeId)
    requires t.TotalOrder() && t.HintPromise() && from <= |all| && OnLevel(t, Run(t, n, all[..from]).sh, lv, m)
    ensures OnLevel(t, Run(t, n, all).sh, lv, m)
    decreases |all|
  {
    hide Step, OnLevel, Succeeds;
    if from == |all| {
      assert all[..from] == all;
    } else {
      var last := |all| - 1;
      assert all[..last][..from] == all[..from];
      LevelsForever(t, n, all[..last], from, lv, m);
      var s, me, c := Run(t, n, all[..last]), all[last].0, all[last].1;
      assert Attained(t, n, s);
      if me < |s.threads| { LevelsStep(t, n, s, me, c); } else { NoThread(t, s, me, c); }
    }
  }
}
