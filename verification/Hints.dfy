/**
 The descent hints in every reachable state: each is that of its node's first key, but for
 the head's between a hint store and the publishing store it runs ahead of; there the
 lock's owner is one step from making it exact.
 */
module Hints {
  import opened Ordering
  import opened Payloads
  import opened Machine
  import opened Invariant
  import opened Publishing
  import opened WriterSteps
  import opened Safety
  import opened Reachable
  import opened Quiet
  import opened Locks
  import opened HeadSteps

  /** About to publish a new first key of the head, whose hint is already stored. */
  ghost predicate Ahead<E(!new)>(t: Traits<E>, sh: Shared<E>, th: Thread<E>)
  {
    && AtPublishingStore(th) && th.w.cur == 0
    && (th.w.StoringOrder? ==> LowerBound(t, HeadKeys(t, sh), th.key) == 0)
  }

  ghost predicate OwnerAhead<E(!new)>(t: Traits<E>, s: State<E>)
  {
    var lock := NodeAt(t, s.sh, 0).lock;
    lock.Some? && lock.value < |s.threads| && Ahead(t, s.sh, s.threads[lock.value])
  }

  ghost predicate HeadHintKnown<E(!new)>(t: Traits<E>, s: State<E>)
  {
    HintExact(t, s.sh, 0) || OwnerAhead(t, s)
  }

  /** A hint store leaves the owner at the publishing store it runs ahead of. */
  lemma HintStoreAhead<E(!new)>(t: Traits<E>, me: Tid, sh: Shared<E>, th: Thread<E>, c: Choice<E>)
    requires SharedInv(t, sh) && th.Insert? && ThreadOk(t, me, sh, th) && EditsHead(th) && th.w.StoringHint?
    ensures var (b, th') := WriterStep(t, me, sh, th, c); Ahead(t, b, th')
  {
    HeadIs(t, sh);
    WriterKnows(t, me, sh, th);
    RankIsZero(t, me, sh, th);
    hide SharedInv, ThreadOk, SeenRun, LowerBound;
    var (b, th') := WriterStep(t, me, sh, th, c);
    assert th' == th.(w := StoringOrder(0, th.w.d, th.w.o));
    assert HeadKeys(t, b) == HeadKeys(t, sh);
  }

  lemma RankIsZero<E(!new)>(t: Traits<E>, me: Tid, sh: Shared<E>, th: Thread<E>)
    requires th.Insert? && ThreadOk(t, me, sh, th) && EditsHead(th) && th.w.StoringHint?
    ensures LowerBound(t, HeadKeys(t, sh), th.key) == 0
  {
    hide SeenRun, LowerBound, Above, AtOrBelow, SlotReady;
  }

  lemma OrderStoreRank<E(!new)>(t: Traits<E>, me: Tid, sh: Shared<E>, th: Thread<E>)
    requires th.Insert? && ThreadOk(t, me, sh, th) && EditsHead(th) && th.w.StoringOrder? && HeadHeld(t, sh, th.w.d)
    ensures HeadKeys(t, sh) == sh.payloads[th.w.d].d.Run()
    ensures LowerBound(t, HeadKeys(t, sh), th.key) == 0 ==> NodeAt(t, sh, 0).hint == t.Hint(th.key)
  {
    hide LaneOf, LowerBound, Above, AtOrBelow;
    SeenIsRun(t, sh.payloads[th.w.d].d);
  }

  /** The order store: a new first key's hint is there already, and any other key changes no first key. */
  lemma OrderStoreExact<E(!new)>(t: Traits<E>, me: Tid, sh: Shared<E>, th: Thread<E>, c: Choice<E>)
    requires SharedInv(t, sh) && th.Insert? && ThreadOk(t, me, sh, th) && EditsHead(th) && th.w.StoringOrder?
    requires HintExact(t, sh, 0) || Ahead(t, sh, th)
    ensures HintExact(t, WriterStep(t, me, sh, th, c).0, 0)
  {
    OrderStoreIs(t, me, sh, th, c);
    OrderStoreRank(t, me, sh, th);
    var p := sh.payloads[th.w.d].d;
    SeenIsRun(t, Appended(t, p, th.key));
    SeenIsRun(t, p);
    hide SharedInv, ThreadOk, WriterStep, LowerBound, SeenRun;
  }

  lemma SwapExact<E(!new)>(t: Traits<E>, me: Tid, sh: Shared<E>, th: Thread<E>, c: Choice<E>)
    requires SharedInv(t, sh) && th.Insert? && ThreadOk(t, me, sh, th) && EditsHead(th) && th.w.Swapping?
    ensures HintExact(t, WriterStep(t, me, sh, th, c).0, 0)
  {
    SwapIs(t, me, sh, th, c);
    hide SharedInv, ThreadOk, WriterStep, FirstOf;
  }

  lemma LeftHintAhead<E(!new)>(t: Traits<E>, me: Tid, sh: Shared<E>, th: Thread<E>, c: Choice<E>)
    requires EditsHead(th) && th.w.StoringLeftHint?
    ensures var (b, th') := WriterStep(t, me, sh, th, c); Ahead(t, b, th')
  {
    hide HeadKeys, FirstOf, PayloadAt, NodeAt;
  }

  // ---- every step, every run ---------------------------------------------------------------

  /** A step of a writer at one of the four stores. */
  lemma EditKnown<E(!new)>(t: Traits<E>, me: Tid, sh: Shared<E>, th: Thread<E>, c: Choice<E>)
    requires SharedInv(t, sh) && th.Insert? && ThreadOk(t, me, sh, th) && EditsHead(th)
    requires HintExact(t, sh, 0) || Ahead(t, sh, th)
    ensures var (b, th') := WriterStep(t, me, sh, th, c); HintExact(t, b, 0) || Ahead(t, b, th')
  {
    hide SharedInv, ThreadOk, WriterStep, HintExact, Ahead;
    if th.w.StoringHint? {
      HintStoreAhead(t, me, sh, th, c);
    } else if th.w.StoringLeftHint? {
      LeftHintAhead(t, me, sh, th, c);
    } else if th.w.StoringOrder? {
      OrderStoreExact(t, me, sh, th, c);
    } else {
      SwapExact(t, me, sh, th, c);
    }
  }

  lemma AheadEdits<E(!new)>(t: Traits<E>, sh: Shared<E>, th: Thread<E>)
    requires Ahead(t, sh, th)
    ensures EditsHead(th) && HeldNode(th) == Some(0)
  {
    hide HeadKeys, LowerBound;
  }

  lemma SameExact<E(!new)>(t: Traits<E>, a: Shared<E>, b: Shared<E>)
    requires SeesSame(t, a, b) && HintExact(t, a, 0)
    ensures HintExact(t, b, 0)
  {
    hide SeenRun, NodeAt, DataOf, PayloadAt;
    SameKeys(t, a, b);
  }

  /** Where me edits nothing of the head, an owner that ran ahead is another thread and still does. */
  lemma OthersSee<E(!new)>(t: Traits<E>, s: State<E>, me: Tid, b: Shared<E>, th': Thread<E>)
    requires me < |s.threads| && Owned(t, s) && HeadHintKnown(t, s) && !EditsHead(s.threads[me])
    requires OneLock(t, me, s.sh, s.threads[me], b, th') && SeesSame(t, s.sh, b)
    ensures HeadHintKnown(t, State(b, s.threads[me := th']))
  {
    hide HeadKeys, LowerBound, HeldNode, EditsHead, NodeAt, HintExact;
    SameKeys(t, s.sh, b);
    if HintExact(t, s.sh, 0) {
      SameExact(t, s.sh, b);
    } else {
      var v := NodeAt(t, s.sh, 0).lock.value;
      AheadEdits(t, s.sh, s.threads[v]);
      assert NodeAt(t, s.sh, 0).lock == Some(me) <==> HeldNode(s.threads[me]) == Some(0);
      assert NodeAt(t, b, 0).lock == Some(v);
    }
  }

  /** Where it does, me is the owner. */
  lemma EditOwner<E(!new)>(t: Traits<E>, s: State<E>, me: Tid, c: Choice<E>)
    requires me < |s.threads| && Inv(t, s) && Owned(t, s) && HeadHintKnown(t, s) && EditsHead(s.threads[me])
    ensures HeadHintKnown(t, Step(t, s, me, c))
  {
    hide SharedInv, WriterStep, ThreadOk, KeysApart, HintExact, Ahead, NodeAt;
    var th := s.threads[me];
    assert ThreadOk(t, me, s.sh, th);
    assert NodeAt(t, s.sh, 0).lock == Some(me) <==> HeldNode(th) == Some(0);
    EditKnown(t, me, s.sh, th, c);
    ThreadLocks(t, s, me, c);
    var (b, th') := ThreadStep(t, s, me, c);
    if Ahead(t, b, th') { AheadEdits(t, b, th'); }
  }

  lemma StepHints<E(!new)>(t: Traits<E>, s: State<E>, me: Tid, c: Choice<E>)
    requires Inv(t, s) && Owned(t, s) && HeadHintKnown(t, s)
    ensures HeadHintKnown(t, Step(t, s, me, c))
  {
    hide SharedInv, WriterStep, ReaderStep, WalkerStep, Begin, ThreadOk, KeysApart, HeadHintKnown, HeadKeys, NodeAt, OneLock;
    if me < |s.threads| {
      if EditsHead(s.threads[me]) {
        EditOwner(t, s, me, c);
      } else {
        var th := s.threads[me];
        assert ThreadOk(t, me, s.sh, th);
        if th.Insert? { WriterSeesSame(t, me, s.sh, th, c); }
        HeadIs(t, s.sh);
        ThreadLocks(t, s, me, c);
        OthersSee(t, s, me, ThreadStep(t, s, me, c).0, ThreadStep(t, s, me, c).1);
      }
    }
  }

  lemma {:induction false} RunHints<E(!new)>(t: Traits<E>, n: nat, schedule: seq<(Tid, Choice<E>)>)
    requires t.TotalOrder() && t.HintPromise()
    ensures HeadHintKnown(t, Run(t, n, schedule))
    decreases |schedule|
  {
    hide Inv, Step, Owned, HeadHintKnown;
    if schedule == [] {
      InitHints(t, n);
    } else {
      var last := |schedule| - 1;
      RunHints(t, n, schedule[..last]);
      RunInv(t, n, schedule[..last]);
      RunOwned(t, n, schedule[..last]);
      StepHints(t, Run(t, n, schedule[..last]), schedule[last].0, schedule[last].1);
    }
  }

  lemma InitHints<E(!new)>(t: Traits<E>, n: nat)
    ensures HeadHintKnown(t, Init(t, n))
  {
    assert HeadKeys(t, Init(t, n).sh) == [];
  }

  lemma HintsKnown<E(!new)>(t: Traits<E>, n: nat, s: State<E>)
    requires t.TotalOrder() && t.HintPromise() && Attained(t, n, s)
    ensures HeadHintKnown(t, s) && Owned(t, s) && Inv(t, s)
  {
    hide Run, Inv, Owned, HeadHintKnown;
    var schedule: seq<(Tid, Choice<E>)> :| s == Run(t, n, schedule);
    RunInv(t, n, schedule);
    RunOwned(t, n, schedule);
    RunHints(t, n, schedule);
  }

  /**
   Whether hints are consulted or not: in every reachable state a node's hint is that of its
   first key, unless the node is the head and the owner of its lock stands at its publishing
   store, whose next step makes the hint exact.
   */
  lemma HintsOneStoreAhead<E(!new)>(t: Traits<E>, n: nat, s: State<E>, m: NodeId)
    requires t.TotalOrder() && t.HintPromise() && Attained(t, n, s) && m in s.sh.chain
    ensures HintExact(t, s.sh, m)
      || (var lock := NodeAt(t, s.sh, m).lock;
          && m == 0 && lock.Some? && lock.value < |s.threads| && AtPublishingStore(s.threads[lock.value])
          && forall c: Choice<E> :: HintExact(t, Step(t, s, lock.value, c).sh, 0))
  {
    hide Attained, SharedInv, ThreadOk, KeysApart, HeadKeys, Step, Ahead, HintExact;
    HintsKnown(t, n, s);
    if m != 0 {
      NonHeadExact(t, s.sh, m);
    } else if !HintExact(t, s.sh, 0) {
      var u := NodeAt(t, s.sh, 0).lock.value;
      assert ThreadOk(t, u, s.sh, s.threads[u]);
      assert AtPublishingStore(s.threads[u]) by { AheadPublishes(t, s.sh, s.threads[u]); }
      forall c: Choice<E>
        ensures HintExact(t, Step(t, s, u, c).sh, 0)
      {
        PublishExact(t, u, s.sh, s.threads[u], c);
        StepIsWriters(t, s, u, c);
      }
    }
  }

  lemma AheadPublishes<E(!new)>(t: Traits<E>, sh: Shared<E>, th: Thread<E>)
    requires Ahead(t, sh, th)
    ensures AtPublishingStore(th)
  {
    hide HeadKeys, LowerBound;
  }

  lemma NonHeadExact<E(!new)>(t: Traits<E>, sh: Shared<E>, m: NodeId)
    requires SharedInv(t, sh) && m in sh.chain && m != 0
    ensures HintExact(t, sh, m)
  {
    hide SharedInv;
    FirstKeys(t, sh, m);
    PublishedHint(t, sh, m);
  }

  lemma StepIsWriters<E(!new)>(t: Traits<E>, s: State<E>, me: Tid, c: Choice<E>)
    requires me < |s.threads| && s.threads[me].Insert?
    ensures Step(t, s, me, c).sh == WriterStep(t, me, s.sh, s.threads[me], c).0
  {
    hide WriterStep;
  }

  /** A publishing store the hint ran ahead of makes it exact. */
  lemma PublishExact<E(!new)>(t: Traits<E>, me: Tid, sh: Shared<E>, th: Thread<E>, c: Choice<E>)
    requires SharedInv(t, sh) && ThreadOk(t, me, sh, th) && Ahead(t, sh, th)
    ensures th.Insert? && AtPublishingStore(th) && HintExact(t, WriterStep(t, me, sh, th, c).0, 0)
  {
    AheadEdits(t, sh, th);
    if th.w.StoringOrder? { OrderStoreExact(t, me, sh, th, c); } else { SwapExact(t, me, sh, th, c); }
  }
}
