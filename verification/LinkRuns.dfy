/**
 link_tower left alone: from the payload swap to the unlock the sibling is joined to every
 level below its height, at the first attempt, after the node its key belongs behind, and
 with that node's former successor as its own.
 */
module LinkRuns {
  import opened Ordering
  import opened Payloads
  import opened Machine
  import opened Invariant
  import opened Descents
  import opened WriterSteps
  import opened Safety
  import opened Scan
  import NodeSplit
  import Progress
  import Returns
  import opened Locks
  import opened Alone
  import opened Levels
  import opened LevelRuns

  /** Thread u, by itself since `a`, is in link_tower. */
  ghost predicate Upward<E(!new)>(t: Traits<E>, n: nat, a: State<E>, s: State<E>, u: Tid)
  {
    && t.TotalOrder() && t.HintPromise() && u < |a.threads| && Attained(t, n, s) && LeadsAlone(t, a, u, s) && OthersSame(a, s, u)
    && s.threads[u].Insert? && IsLinking(s.threads[u].w)
  }

  lemma AloneLast<E(!new)>(t: Traits<E>, a: State<E>, u: Tid, b: State<E>, c: State<E>)
    requires LeadsAlone(t, a, u, b) && StepOf(t, b, u, c)
    ensures LeadsAlone(t, a, u, c)
  {
    hide StepOf;
    var trace: seq<State<E>> :| OwnSteps(t, trace, u) && a == trace[0] && b == trace[|trace| - 1];
    assert OwnSteps(t, trace + [c], u);
  }

  lemma Climb<E(!new)>(t: Traits<E>, n: nat, a: State<E>, s: State<E>, u: Tid, c: Choice<E>) returns (s': State<E>)
    requires Upward(t, n, a, s, u)
    ensures s'.sh == LinkStep(t, s.sh, s.threads[u], c).0 && |s'.threads| == |a.threads|
    ensures s'.threads[u] == LinkStep(t, s.sh, s.threads[u], c).1
    ensures Attained(t, n, s') && LeadsAlone(t, a, u, s') && OthersSame(a, s', u)
    ensures s' == Step(t, s, u, c)
  {
    hide Attained, LeadsAlone, WriterStep, LinkStep, StepOf;
    s' := OwnStep(t, n, s, u, c);
    AloneLast(t, a, u, s, s');
    LinkStepIs(t, u, s.sh, s.threads[u], c);
  }

  lemma UpwardKnows<E(!new)>(t: Traits<E>, n: nat, a: State<E>, s: State<E>, u: Tid) returns (js: Joined)
    requires Upward(t, n, a, s, u)
    ensures SharedInv(t, s.sh) && ThreadOk(t, u, s.sh, s.threads[u])
    ensures Pointed(t, s.sh, js) && LinkKnows(t, u, s.sh, js, s.threads[u].w)
  {
    hide Attained, SharedInv, ThreadOk, LeadsAlone, LinkKnows, Pointed;
    js := AttainedLinks(t, n, s);
    assert ThreadLinks(t, u, s.sh, js, s.threads[u]) && ThreadOk(t, u, s.sh, s.threads[u]);
  }

  // ---- finding the predecessor ---------------------------------------------------------------

  /** The search has seen only the structure as it stands. */
  ghost predicate Fresh<E(!new)>(t: Traits<E>, sh: Shared<E>, at: Descent)
  {
    && (at.probe.Some? ==> TowerAt(t, sh, at.cur, at.lv) == Some(at.probe.value.nx))
    && (Nested(t, sh) ==> OnLevel(t, sh, at.lv, at.cur))
  }

  /** Where it ends, the level goes on above the key. */
  lemma SearchFresh<E(!new)>(t: Traits<E>, sh: Shared<E>, key: E, at: Descent)
    requires t.TotalOrder() && t.HintPromise() && SharedInv(t, sh) && DescentOk(t, sh, key, at) && 1 <= at.floor && Fresh(t, sh, at)
    ensures match DescentStep(t, sh, key, at)
            case Going(to) => Fresh(t, sh, to)
            case Reached(cur, _) =>
              Above(t, sh, TowerAt(t, sh, cur, at.floor), key) && (Nested(t, sh) ==> OnLevel(t, sh, at.floor, cur))
  {
    hide SharedInv, ProbeStep, TowerAt, OnLevel;
    if at.probe.Some? {
      ProbeSound(t, sh, key, at.cur, at.probe.value);
      if Nested(t, sh) { NextOnLevel(t, sh, at.lv, at.cur); }
    }
    if Nested(t, sh) && at.lv > at.floor { assert OnLevel(t, sh, at.lv - 1 + 1, at.cur); }
  }

  lemma {:induction false} Finds<E(!new)>(t: Traits<E>, n: nat, a: State<E>, s: State<E>, u: Tid, c: Choice<E>)
    returns (s': State<E>, pred: NodeId)
    requires Upward(t, n, a, s, u) && s.threads[u].w.LinkDescending? && Fresh(t, s.sh, s.threads[u].w.at)
    ensures Upward(t, n, a, s', u) && s'.sh == s.sh
    ensures var w := s.threads[u].w;
      && s'.threads[u] == s.threads[u].(w := LinkLoading(w.cur, w.sib, w.first, w.lv, w.attempt, pred))
      && Above(t, s.sh, TowerAt(t, s.sh, pred, w.lv), w.first)
      && pred != w.sib && (Nested(t, s.sh) ==> OnLevel(t, s.sh, w.lv, pred))
    decreases LoadsLeft(s.sh, s.threads[u].w.at)
  {
    hide Attained, SharedInv, LeadsAlone, DescentStep, TowerAt, Pointed, Above, Fresh, Nested, OnLevel, LoadsLeft, MetAbove;
    var js := UpwardKnows(t, n, a, s, u);
    var w := s.threads[u].w;
    FindsKnows(t, u, s.sh, js, s.threads[u]);
    SearchFresh(t, s.sh, w.first, w.at);
    SearchOn(t, s.sh, js, w.first, w.at);
    s' := Climb(t, n, a, s, u, c);
    match DescentStep(t, s.sh, w.first, w.at)
    case Going(to) =>
      LoadsDrop(t, s.sh, w.first, w.at);
      s', pred := Finds(t, n, a, s', u, c);
    case Reached(cur, _) =>
      pred := cur;
      NotItself(js, cur, w.sib, w.lv);
  }

  lemma FindsKnows<E(!new)>(t: Traits<E>, u: Tid, sh: Shared<E>, js: Joined, th: Thread<E>)
    requires th.Insert? && th.w.LinkDescending? && ThreadOk(t, u, sh, th) && LinkKnows(t, u, sh, js, th.w)
    ensures DescentOk(t, sh, th.w.first, th.w.at) && Search(js, th.w.at) && 1 <= th.w.at.floor == th.w.lv <= th.w.at.lv
    ensures th.w.sib != 0 && forall l: nat :: l >= th.w.lv ==> (th.w.sib, l) !in js
  {
    hide DescentOk;
  }

  lemma NotItself(js: Joined, cur: NodeId, sib: NodeId, lv: nat)
    requires MetAbove(js, cur, lv) && sib != 0 && forall l: nat :: l >= lv ==> (sib, l) !in js
    ensures cur != sib
  {
  }

  /** The successor starts above the key, so the last look at it lets the store go ahead. */
  lemma {:induction false} Looks<E(!new)>(t: Traits<E>, n: nat, a: State<E>, s: State<E>, u: Tid, c: Choice<E>) returns (s': State<E>)
    requires Upward(t, n, a, s, u) && s.threads[u].w.LinkProbing?
    requires Above(t, s.sh, Some(s.threads[u].w.probe.nx), s.threads[u].w.first)
    ensures Upward(t, n, a, s', u) && s'.sh == s.sh
    ensures var w := s.threads[u].w;
      s'.threads[u] == s.threads[u].(w := LinkStoring(w.cur, w.sib, w.first, w.lv, w.attempt, w.pred, Some(w.probe.nx)))
    decreases Stage(Some(s.threads[u].w.probe))
  {
    hide Attained, SharedInv, LeadsAlone, ProbeStep, Pointed, LinkKnows;
    var js := UpwardKnows(t, n, a, s, u);
    var w := s.threads[u].w;
    ProbeSound(t, s.sh, w.first, w.pred, w.probe);
    s' := Climb(t, n, a, s, u, c);
    if ProbeStep(t, s.sh, w.first, w.probe).Undecided? {
      Progress.ProbeDrops(t, s.sh, w.first, w.probe);
      s' := Looks(t, n, a, s', u, c);
    }
  }

  /** From the predecessor found to the sibling's own pointer stored. */
  lemma StoresSuccessor<E(!new)>(t: Traits<E>, n: nat, a: State<E>, s: State<E>, u: Tid, c: Choice<E>) returns (s': State<E>)
    requires Upward(t, n, a, s, u) && s.threads[u].w.LinkLoading?
    requires var w := s.threads[u].w; Above(t, s.sh, TowerAt(t, s.sh, w.pred, w.lv), w.first)
    ensures Upward(t, n, a, s', u)
    ensures var w := s.threads[u].w;
      var succ := TowerAt(t, s.sh, w.pred, w.lv);
      && s'.threads[u] == s.threads[u].(w := LinkSwapping(w.cur, w.sib, w.first, w.lv, w.attempt, w.pred, succ))
      && s'.sh == SetTower(t, s.sh, w.sib, w.lv, succ)
  {
    hide Attained, LeadsAlone, TowerAt, SetTower, Above;
    var w := s.threads[u].w;
    s' := Climb(t, n, a, s, u, c);
    if TowerAt(t, s.sh, w.pred, w.lv).Some? { s' := Looks(t, n, a, s', u, c); }
    s' := Climb(t, n, a, s', u, c);
  }

  /** One level, one attempt. */
  lemma JoinsLevel<E(!new)>(t: Traits<E>, n: nat, a: State<E>, s: State<E>, u: Tid, c: Choice<E>) returns (s': State<E>, pred: NodeId)
    requires Upward(t, n, a, s, u) && s.threads[u].w.Linking? && s.threads[u].w.attempt == 0 && !c.spurious
    requires s.threads[u].w.lv < NodeAt(t, s.sh, s.threads[u].w.sib).height
    ensures Upward(t, n, a, s', u)
    ensures var w := s.threads[u].w;
      && s'.threads[u] == s.threads[u].(w := Linking(w.cur, w.sib, w.first, w.lv + 1, 0))
      && s'.sh.chain == s.sh.chain && NodeAt(t, s'.sh, w.sib).height == NodeAt(t, s.sh, w.sib).height
      && JoinedAt(t, s.sh, s'.sh, w.lv, pred, w.sib) && LevelGains(t, s.sh, s'.sh, w.lv, pred, w.sib)
      && (Nested(t, s.sh) ==> OnLevel(t, s.sh, w.lv, pred))
  {
    hide Attained, LeadsAlone, TowerAt, SetTower, Above, OnLevel, JoinedAt, LevelGains, Nested, SharedInv, ThreadOk, OnePointer;
    var w := s.threads[u].w;
    var s1 := Climb(t, n, a, s, u, c);
    HeadFresh(t, s.sh, w.lv);
    var s2;
    s2, pred := Finds(t, n, a, s1, u, c);
    var s3 := StoresSuccessor(t, n, a, s2, u, c);
    s' := Climb(t, n, a, s3, u, c);
    JoinedLevel(t, n, s.sh, s3, u, c, w.cur, w.sib, w.first, w.lv, pred);
  }

  lemma HeadFresh<E(!new)>(t: Traits<E>, sh: Shared<E>, floor: nat)
    ensures Fresh(t, sh, Descend(floor))
  {
    hide OnLevel;
    HeadOnLevel(t, sh, MAX_HEIGHT - 1);
  }

  lemma JoinedLevel<E(!new)>(t: Traits<E>, n: nat, sh: Shared<E>, s: State<E>, u: Tid, c: Choice<E>,
                             cur: NodeId, sib: NodeId, first: E, lv: nat, pred: NodeId)
    requires t.TotalOrder() && t.HintPromise() && Attained(t, n, s) && u < |s.threads| && s.threads[u].Insert? && !c.spurious
    requires s.threads[u].w == LinkSwapping(cur, sib, first, lv, 0, pred, TowerAt(t, sh, pred, lv))
    requires s.sh == SetTower(t, sh, sib, lv, TowerAt(t, sh, pred, lv)) && pred != sib
    ensures Step(t, s, u, c).threads[u].Insert? && Step(t, s, u, c).threads[u].w == Linking(cur, sib, first, lv + 1, 0)
    ensures var b := Step(t, s, u, c).sh;
      && b.chain == sh.chain && NodeAt(t, b, sib).height == NodeAt(t, sh, sib).height
      && JoinedAt(t, sh, b, lv, pred, sib) && LevelGains(t, sh, b, lv, pred, sib)
  {
    hide Attained, SharedInv, KeysApart, ThreadOk, LinkKnows, Pointed, OnLevel, WriterStep, LinkStep;
    var js := AttainedLinks(t, n, s);
    var th, b := s.threads[u], Step(t, s, u, c).sh;
    assert ThreadOk(t, u, s.sh, th) && ThreadLinks(t, u, s.sh, js, th);
    OwnPointer(t, sh, s.sh, u, js, th);
    SibOffLevel(t, u, s.sh, js, th);
    hide SetTower, TowerAt;
    OffLevelEdit(t, s.sh, sh, sib, lv);
    ExchangeLinks(t, n, s, u, c);
    LevelsStep(t, n, s, u, c);
    hide OnePointer, ThreadLinks;
    SwapEnds(t, u, s.sh, th, c);
    PointersJoin(t, sh, s.sh, b, lv, pred, sib);
  }

  /** Storing the sibling's own pointer, seen from both sides. */
  lemma OwnPointer<E(!new)>(t: Traits<E>, sh: Shared<E>, b: Shared<E>, u: Tid, js: Joined, th: Thread<E>)
    requires th.Insert? && th.w.LinkSwapping? && th.w.pred != th.w.sib && SharedInv(t, b) && ThreadOk(t, u, b, th)
    requires LinkKnows(t, u, b, js, th.w) && b == SetTower(t, sh, th.w.sib, th.w.lv, th.w.succ)
    requires th.w.succ == TowerAt(t, sh, th.w.pred, th.w.lv)
    ensures OnePointer(t, b, sh, th.w.sib, th.w.lv) && OnePointer(t, sh, b, th.w.sib, th.w.lv)
    ensures TowerAt(t, b, th.w.pred, th.w.lv) == th.w.succ == TowerAt(t, b, th.w.sib, th.w.lv)
    ensures NodeAt(t, b, th.w.sib).height == NodeAt(t, sh, th.w.sib).height && b.chain == sh.chain
  {
    LevelIsOk(t, u, b, th);
    hide SharedInv, ThreadOk;
    StoreIs(t, sh, th.w.sib, th.w.lv, th.w.succ);
  }

  lemma SwapEnds<E(!new)>(t: Traits<E>, u: Tid, sh: Shared<E>, th: Thread<E>, c: Choice<E>)
    requires Succeeds(t, sh, th, c)
    ensures var (b, th') := WriterStep(t, u, sh, th, c);
      && th'.Insert? && th'.w == Linking(th.w.cur, th.w.sib, th.w.first, th.w.lv + 1, 0)
      && b.chain == sh.chain && NodeAt(t, b, th.w.sib).height == NodeAt(t, sh, th.w.sib).height
  {
    hide TowerAt;
  }

  lemma PointersJoin<E(!new)>(t: Traits<E>, a: Shared<E>, s: Shared<E>, b: Shared<E>, lv: nat, pred: NodeId, sib: NodeId)
    requires OnePointer(t, a, s, sib, lv) && OnePointer(t, s, b, pred, lv) && pred != sib
    requires TowerAt(t, b, pred, lv) == Some(sib) && TowerAt(t, b, sib, lv) == TowerAt(t, s, pred, lv)
    ensures JoinedAt(t, a, b, lv, pred, sib)
  {
    hide TowerAt;
  }

  // ---- all its levels ------------------------------------------------------------------------

  lemma {:induction false} ClimbsAll<E(!new)>(t: Traits<E>, n: nat, a: State<E>, s: State<E>, u: Tid, c: Choice<E>)
    returns (s': State<E>)
    requires Upward(t, n, a, s, u) && s.threads[u].w.Linking? && s.threads[u].w.attempt == 0 && !c.spurious
    ensures Attained(t, n, s') && LeadsAlone(t, a, u, s') && OthersSame(a, s', u) && s'.sh.chain == s.sh.chain
    ensures NodeAt(t, s'.sh, s.threads[u].w.sib).height == NodeAt(t, s.sh, s.threads[u].w.sib).height
    ensures var w := s.threads[u].w;
      && s'.threads[u] == s.threads[u].(w := Unlocking(w.cur))
      && Climbed(t, s.sh, s'.sh, w.lv, NodeAt(t, s.sh, w.sib).height, w.sib)
    decreases NodeAt(t, s.sh, s.threads[u].w.sib).height - s.threads[u].w.lv
  {
    hide Attained, LeadsAlone, JoinedAt, LevelGains, Climbed, Nested, OnLevel, NodeAt;
    var w := s.threads[u].w;
    var height := NodeAt(t, s.sh, w.sib).height;
    if w.lv < height {
      var s1, pred := JoinsLevel(t, n, a, s, u, c);
      s' := ClimbsAll(t, n, a, s1, u, c);
      ClimbedOne(t, s.sh, s1.sh, s'.sh, w.lv, height, pred, w.sib);
    } else {
      s' := Climb(t, n, a, s, u, c);
      ClimbedNone(t, s.sh, w.lv, height, w.sib);
    }
  }

  /**
   link_tower that nobody disturbs and whose exchanges do not fail spuriously: on every level
   1..height-1 some node now leads to the sibling, which leads where that node led, and
   nothing else changed. Where levels were nested, they still are, and each level has gained
   the sibling and lost nothing.
   */
  lemma LinkAlone<E(!new)>(t: Traits<E>, n: nat, s: State<E>, u: Tid, c: Choice<E>) returns (s': State<E>)
    requires t.TotalOrder() && t.HintPromise() && Attained(t, n, s) && u < |s.threads| && !c.spurious
    requires s.threads[u].Insert? && s.threads[u].w.Linking? && s.threads[u].w.lv == 1 && s.threads[u].w.attempt == 0
    ensures Attained(t, n, s') && LeadsAlone(t, s, u, s') && OthersSame(s, s', u)
    ensures var w := s.threads[u].w;
      var height := NodeAt(t, s.sh, w.sib).height;
      && s'.threads[u] == s.threads[u].(w := Unlocking(w.cur))
      && (forall l: nat :: 1 <= l < height ==> Followed(t, s.sh, s'.sh, l, w.sib))
      && (forall l: nat :: l == 0 || l >= height ==> SameLevel(t, s.sh, s'.sh, l))
      && (Nested(t, s.sh) ==>
            && Nested(t, s'.sh)
            && forall l: nat, m: NodeId :: OnLevel(t, s'.sh, l, m) <==> OnLevel(t, s.sh, l, m) || (1 <= l < height && m == w.sib))
  {
    hide Attained, LeadsAlone, Nested, OnLevel, NodeAt, Followed, SameLevel;
    AloneHere(t, s, u);
    s' := ClimbsAll(t, n, s, s, u, c);
  }

  // ---- a whole insert ------------------------------------------------------------------------

  /** The sibling a split has built. */
  function SibOf<E>(th: Thread<E>): Option<NodeId>
  {
    if !th.Insert? then None
    else match th.w
         case HintingSibling(_, _, sib, _, _) => Some(sib)
         case FillingSibling(_, _, sib, _, _) => Some(sib)
         case CheckingLeftHint(_, _, sib, _, _) => Some(sib)
         case StoringLeftHint(_, _, sib, _, _) => Some(sib)
         case Swapping(_, _, sib, _, _) => Some(sib)
         case Linking(_, sib, _, _, _) => Some(sib)
         case _ => None
  }

  /** A sibling keeps the height it was built with, which the choice made then. */
  lemma SibHeight<E(!new)>(t: Traits<E>, me: Tid, sh: Shared<E>, th: Thread<E>, c: Choice<E>)
    requires th.Insert? && Pending(th)
    ensures var (b, th') := WriterStep(t, me, sh, th, c);
      && (SibOf(th').Some? && SibOf(th).None? ==> NodeAt(t, b, SibOf(th').value).height == Height(c))
      && (SibOf(th').Some? && SibOf(th).Some? ==>
            SibOf(th') == SibOf(th) && NodeAt(t, b, SibOf(th).value).height == NodeAt(t, sh, SibOf(th).value).height)
      && (th'.Insert? && !Pending(th') ==>
            if th.w.Swapping? then th'.w.Linking? && th'.w.lv == 1 && th'.w.attempt == 0 else th'.w.Unlocking?)
  {
    hide DescentStep, PayloadAt, DataOf, SeenRun, LaneOf, RankIn, Merged, FirstOf, ChainWith, Filled, LinkStep, Descend, Height;
  }

  /** A pending insert by itself as far as its publishing store; no pointer changes before link_tower. */
  lemma {:induction false} Publishes<E(!new)>(t: Traits<E>, n: nat, s: State<E>, u: Tid, c: Choice<E>) returns (s': State<E>)
    requires t.TotalOrder() && t.HintPromise() && Attained(t, n, s) && u < |s.threads| && NobodyElseHolds(s, u)
    requires s.threads[u].Insert? && Pending(s.threads[u])
    requires SibOf(s.threads[u]).Some? ==> NodeAt(t, s.sh, SibOf(s.threads[u]).value).height == Height(c)
    ensures Attained(t, n, s') && LeadsAlone(t, s, u, s') && OthersSame(s, s', u) && SameTowers(t, s.sh, s'.sh)
    ensures var th' := s'.threads[u];
      && th'.Insert? && th'.key == s.threads[u].key
      && if th'.w.Linking? then
           && th'.w.lv == 1 && th'.w.attempt == 0 && NodeAt(t, s'.sh, th'.w.sib).height == Height(c)
           && th'.w.sib !in s.sh.chain && forall m :: m in s'.sh.chain <==> m in s.sh.chain || m == th'.w.sib
         else
           th'.w.Unlocking? && s'.sh.chain == s.sh.chain
    decreases Progress.Left(s.sh, s.threads[u]).splits, Progress.Left(s.sh, s.threads[u]).stage,
              Progress.Left(s.sh, s.threads[u]).loads
  {
    hide Attained, StepOf, LeadsAlone, Progress.Left, HeldNode, Waits, WriterStep, NodeAt, TowerAt, Pending;
    NeverWaits(t, n, s, u);
    Progress.StepsLower(t, n, s, u, c);
    InsertStays(t, s, u, c);
    var th := s.threads[u];
    PendingOut(th);
    SibHeight(t, u, s.sh, th, c);
    WriterTowers(t, u, s.sh, th, c);
    Progress.WriterChain(t, u, s.sh, th, c);
    Returns.WriterLeaves(t, u, s.sh, th, c);
    s' := OwnStep(t, n, s, u, c);
    var first := s';
    if Pending(s'.threads[u]) {
      PendingSwap(t, u, s.sh, th, c);
      s' := Publishes(t, n, s', u, c);
    } else {
      AloneHere(t, s', u);
      SwapGains(t, n, s, u, c);
    }
    AloneFirst(t, s, u, first, s');
  }

  lemma PendingOut<E>(th: Thread<E>)
    requires Pending(th)
    ensures !IsLinking(th.w) && !th.w.Unlocking?
  {
  }

  lemma PendingSwap<E(!new)>(t: Traits<E>, me: Tid, sh: Shared<E>, th: Thread<E>, c: Choice<E>)
    requires th.Insert? && Pending(WriterStep(t, me, sh, th, c).1)
    ensures !th.w.Swapping?
  {
    hide FirstOf, ChainWith, SetData;
  }

  lemma SwapGains<E(!new)>(t: Traits<E>, n: nat, s: State<E>, u: Tid, c: Choice<E>)
    requires t.TotalOrder() && t.HintPromise() && Attained(t, n, s) && u < |s.threads| && s.threads[u].Insert?
    ensures var next, w := Step(t, s, u, c), s.threads[u].w;
      if w.Swapping? then w.sib !in s.sh.chain && forall m :: m in next.sh.chain <==> m in s.sh.chain || m == w.sib
      else next.sh.chain == s.sh.chain
  {
    hide Attained, Inv, WriterStep, ChainWith;
    AttainedInv(t, n, s);
    Progress.WriterChain(t, u, s.sh, s.threads[u], c);
    if s.threads[u].w.Swapping? { SwapSibling(t, s, u); }
  }

  lemma SwapSibling<E(!new)>(t: Traits<E>, s: State<E>, u: Tid)
    requires Inv(t, s) && u < |s.threads| && s.threads[u].Insert? && s.threads[u].w.Swapping?
    ensures var w := s.threads[u].w;
      w.sib !in s.sh.chain && forall m :: m in ChainWith(s.sh.chain, w.cur, w.sib) <==> m in s.sh.chain || m == w.sib
  {
    hide SharedInv, KeysApart, ThreadOk, ChainWith;
    var w := s.threads[u].w;
    assert ThreadOk(t, u, s.sh, s.threads[u]);
    Progress.SwapsFresh(t, u, s.sh, s.threads[u]);
    NodeSplit.ChainGrows(s.sh.chain, w.cur, w.sib);
  }

  lemma SameItself<E(!new)>(t: Traits<E>, a: Shared<E>)
    ensures SameTowers(t, a, a)
  {
  }

  lemma SameThrough<E(!new)>(t: Traits<E>, a: Shared<E>, b: Shared<E>, c: Shared<E>)
    requires SameTowers(t, a, b) && SameTowers(t, b, c)
    ensures SameTowers(t, a, c)
  {
    hide TowerAt;
  }

  lemma FollowsThrough<E(!new)>(t: Traits<E>, a: Shared<E>, b: Shared<E>, c: Shared<E>, d: Shared<E>, lv: nat, sib: NodeId)
    requires SameTowers(t, a, b) && Followed(t, b, c, lv, sib) && SameTowers(t, c, d)
    ensures Followed(t, a, d, lv, sib)
  {
    hide TowerAt;
    var pred :| Follows(t, b, c, lv, pred, sib);
    assert Follows(t, a, d, lv, pred, sib);
  }

  /** The lock dropped, the insert over. */
  lemma Unlocks<E(!new)>(t: Traits<E>, n: nat, a: State<E>, s: State<E>, u: Tid, c: Choice<E>) returns (s': State<E>)
    requires Attained(t, n, s) && LeadsAlone(t, a, u, s) && OthersSame(a, s, u) && u < |a.threads|
    requires s.threads[u].Insert? && s.threads[u].w.Unlocking?
    ensures Attained(t, n, s') && LeadsAlone(t, a, u, s') && OthersSame(a, s', u)
    ensures s'.threads[u].Idle? && s.threads[u].key in s'.sh.published
    ensures SameTowers(t, s.sh, s'.sh) && s'.sh.chain == s.sh.chain
    ensures forall m: NodeId :: NodeAt(t, s'.sh, m).height == NodeAt(t, s.sh, m).height
  {
    UnlockKeeps(t, u, s.sh, s.threads[u], c);
    hide Attained, LeadsAlone, WriterStep, StepOf, SameTowers, NodeAt;
    s' := OwnStep(t, n, s, u, c);
    AloneLast(t, a, u, s, s');
    Returns.InsertReturns(t, n, s, u, c);
  }

  lemma UnlockKeeps<E(!new)>(t: Traits<E>, u: Tid, sh: Shared<E>, th: Thread<E>, c: Choice<E>)
    requires th.Insert? && th.w.Unlocking?
    ensures var (b, th') := WriterStep(t, u, sh, th, c);
      && th'.Idle? && SameTowers(t, sh, b) && b.chain == sh.chain
      && forall m: NodeId :: NodeAt(t, b, m).height == NodeAt(t, sh, m).height
  {
  }

  /**
   An insert from the call to the return, by itself, no lock held when it begins and no
   exchange failing spuriously: if level 0 gained a node, that node has the height chosen,
   and on every level below it follows some node and leads where that one led; no other
   pointer changed.
   */
  lemma InsertClimbs<E(!new)>(t: Traits<E>, n: nat, s: State<E>, u: Tid, key: E, c: Choice<E>) returns (s': State<E>)
    requires t.TotalOrder() && t.HintPromise() && Attained(t, n, s) && u < |s.threads| && s.threads[u].Idle? && Admissible(t, s, key)
    requires !c.spurious && forall m: NodeId :: NodeAt(t, s.sh, m).lock.None?
    ensures Attained(t, n, s') && LeadsAlone(t, s, u, s') && OthersSame(s, s', u)
    ensures s'.threads[u].Idle? && key in s'.sh.published
    ensures forall m :: m in s'.sh.chain && m !in s.sh.chain ==>
      && NodeAt(t, s'.sh, m).height == Height(c)
      && (forall l: nat :: 1 <= l < Height(c) ==> Followed(t, s.sh, s'.sh, l, m))
    ensures s'.sh.chain == s.sh.chain ==> SameTowers(t, s.sh, s'.sh)
  {
    hide Attained, StepOf, LeadsAlone, Admissible, Followed, SameTowers;
    NobodyHolds(t, n, s, u);
    var first := OwnStep(t, n, s, u, c.(op := DoInsert(key)));
    SameItself(t, s.sh);
    var s1 := Publishes(t, n, first, u, c);
    AloneFirst(t, s, u, first, s1);
    var s2, w := s1, s1.threads[u].w;
    if w.Linking? { s2 := ClimbsAll(t, n, s, s1, u, c); }
    s' := Unlocks(t, n, s, s2, u, c);
    if w.Linking? {
      forall l: nat | 1 <= l < Height(c)
        ensures Followed(t, s.sh, s'.sh, l, w.sib)
      {
        FollowsThrough(t, s.sh, s1.sh, s2.sh, s'.sh, l, w.sib);
      }
    } else {
      SameThrough(t, s.sh, s1.sh, s'.sh);
    }
  }
}
