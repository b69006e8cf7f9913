/**
 Who holds the node locks, in every reachable state: a held lock belongs to the one thread
 inside its critical section, so no lock is orphaned, no thread waits for a thread that
 waits, and between a hint store and the publishing store that needs it only the lock's
 owner stands.
 */
module Locks {
  import opened OrderWord
  import opened Ordering
  import opened Payloads
  import opened Machine
  import opened Invariant
  import opened WriterSteps
  import opened Safety

  /** The node whose lock the thread holds where it stands. */
  function HeldNode<E>(th: Thread<E>): Option<NodeId>
  {
    if th.Insert? && !th.w.Descending? && !th.w.Locking? then Some(th.w.cur) else None
  }

  /** A lock is held by a thread exactly when that thread is inside the critical section for it. */
  ghost predicate Owned<E(!new)>(t: Traits<E>, s: State<E>)
  {
    forall n: NodeId, u: Tid ::
      NodeAt(t, s.sh, n).lock == Some(u) <==> u < |s.threads| && HeldNode(s.threads[u]) == Some(n)
  }

  function LockAfter<E>(n: NodeId, me: Tid, was: Thread<E>, now: Thread<E>, lock: Option<Tid>): Option<Tid>
  {
    if HeldNode(now) == Some(n) then Some(me) else if HeldNode(was) == Some(n) then None else lock
  }

  ghost predicate LocksOwn<E(!new)>(t: Traits<E>, me: Tid, sh: Shared<E>, th: Thread<E>)
    requires th.Insert?
  {
    && (th.w.Locking? ==> th.w.cur < |sh.nodes|)
    && (HeldNode(th).Some? ==> HeldNode(th).value < |sh.nodes| && sh.nodes[HeldNode(th).value].lock == Some(me))
  }

  ghost predicate OneLock<E(!new)>(t: Traits<E>, me: Tid, sh: Shared<E>, th: Thread<E>, b: Shared<E>, th': Thread<E>)
  {
    forall n: NodeId ::
      && NodeAt(t, b, n).lock == LockAfter(n, me, th, th', NodeAt(t, sh, n).lock)
      && (HeldNode(th') == Some(n) && HeldNode(th) != Some(n) ==> NodeAt(t, sh, n).lock.None?)
  }

  predicate IsAppending<E>(w: WriterPc<E>)
  {
    w.StoringKey? || w.StoringLane? || w.CheckingHint? || w.StoringHint? || w.StoringOrder?
  }

  predicate IsSplitting<E>(w: WriterPc<E>)
  {
    w.Building? || w.HintingSibling? || w.FillingSibling? || w.CheckingLeftHint? || w.StoringLeftHint? || w.Swapping?
  }

  /** Inside the critical section nothing happens to locks until it ends. */
  ghost predicate SameLocks<E(!new)>(t: Traits<E>, sh: Shared<E>, th: Thread<E>, b: Shared<E>, th': Thread<E>)
  {
    HeldNode(th') == HeldNode(th) && forall n: NodeId :: NodeAt(t, b, n).lock == NodeAt(t, sh, n).lock
  }

  lemma AppendLocks<E(!new)>(t: Traits<E>, me: Tid, sh: Shared<E>, th: Thread<E>, c: Choice<E>)
    requires th.Insert? && IsAppending(th.w)
    ensures var (b, th') := WriterStep(t, me, sh, th, c); SameLocks(t, sh, th, b, th')
  {
    hide LaneOf, RankIn, Splice;
  }

  lemma BuildLocks<E(!new)>(t: Traits<E>, me: Tid, sh: Shared<E>, th: Thread<E>, c: Choice<E>)
    requires th.Insert? && th.w.Building?
    ensures var (b, th') := WriterStep(t, me, sh, th, c); SameLocks(t, sh, th, b, th')
  {
    hide Merged, PayloadAt, Height, Filled;
  }

  lemma SplitLocks<E(!new)>(t: Traits<E>, me: Tid, sh: Shared<E>, th: Thread<E>, c: Choice<E>)
    requires th.Insert? && IsSplitting(th.w)
    ensures var (b, th') := WriterStep(t, me, sh, th, c); SameLocks(t, sh, th, b, th')
  {
    if th.w.Building? {
      hide WriterStep, SameLocks;
      BuildLocks(t, me, sh, th, c);
    } else {
      hide Build, FirstOf, PayloadAt, ChainWith;
    }
  }

  lemma LinkLocks<E(!new)>(t: Traits<E>, me: Tid, sh: Shared<E>, th: Thread<E>, c: Choice<E>)
    requires th.Insert? && IsLinking(th.w)
    ensures var (b, th') := WriterStep(t, me, sh, th, c); SameLocks(t, sh, th, b, th')
  {
    LinkStepIs(t, me, sh, th, c);
    hide DescentStep, ProbeStep, TowerAt, Descend, Aim, WriterStep;
  }

  predicate IsLoading<E>(w: WriterPc<E>)
  {
    w.Descending? || w.LoadingData? || w.LoadingNext? || w.LoadingNextOrder? || w.LoadingOrder?
  }

  lemma LoadLocks<E(!new)>(t: Traits<E>, me: Tid, sh: Shared<E>, th: Thread<E>, c: Choice<E>)
    requires th.Insert? && IsLoading(th.w)
    ensures var (b, th') := WriterStep(t, me, sh, th, c); SameLocks(t, sh, th, b, th')
  {
    hide DescentStep, SeenRun, PayloadAt, DataOf, Descend, Build, LinkStep, FirstOf, Merged, NodeAt;
    assert WriterStep(t, me, sh, th, c).0 == sh;
  }

  lemma TakesOne<E(!new)>(t: Traits<E>, me: Tid, sh: Shared<E>, th: Thread<E>, c: Choice<E>)
    requires th.Insert? && LocksOwn(t, me, sh, th) && th.w.Locking?
    ensures var (b, th') := WriterStep(t, me, sh, th, c); OneLock(t, me, sh, th, b, th')
  {
    hide DescentStep, SeenRun, PayloadAt, DataOf, Build, LinkStep, FirstOf, Merged;
  }

  lemma DropsOne<E(!new)>(t: Traits<E>, me: Tid, sh: Shared<E>, th: Thread<E>, c: Choice<E>)
    requires th.Insert? && LocksOwn(t, me, sh, th) && (th.w.Refusing? || th.w.Unlocking?)
    ensures var (b, th') := WriterStep(t, me, sh, th, c); OneLock(t, me, sh, th, b, th')
  {
    hide DescentStep, SeenRun, PayloadAt, DataOf, Build, LinkStep, FirstOf, Merged;
    assert HeldNode(WriterStep(t, me, sh, th, c).1).None?;
    assert WriterStep(t, me, sh, th, c).0 == SetLock(t, sh, th.w.cur, None);
  }

  lemma SameIsOne<E(!new)>(t: Traits<E>, me: Tid, sh: Shared<E>, th: Thread<E>, b: Shared<E>, th': Thread<E>)
    requires th.Insert? && LocksOwn(t, me, sh, th) && SameLocks(t, sh, th, b, th')
    ensures OneLock(t, me, sh, th, b, th')
  {
  }

  /** A writer's step touches no lock but the one it takes or drops. */
  lemma WriterLocks<E(!new)>(t: Traits<E>, me: Tid, sh: Shared<E>, th: Thread<E>, c: Choice<E>)
    requires th.Insert? && LocksOwn(t, me, sh, th)
    ensures var (b, th') := WriterStep(t, me, sh, th, c); OneLock(t, me, sh, th, b, th')
  {
    hide WriterStep, OneLock, LocksOwn, SameLocks;
    if th.w.Locking? {
      TakesOne(t, me, sh, th, c);
    } else if th.w.Refusing? || th.w.Unlocking? {
      DropsOne(t, me, sh, th, c);
    } else {
      if IsLoading(th.w) { LoadLocks(t, me, sh, th, c); }
      if IsLinking(th.w) { LinkLocks(t, me, sh, th, c); }
      if IsAppending(th.w) { AppendLocks(t, me, sh, th, c); }
      if IsSplitting(th.w) { SplitLocks(t, me, sh, th, c); }
      SameIsOne(t, me, sh, th, WriterStep(t, me, sh, th, c).0, WriterStep(t, me, sh, th, c).1);
    }
  }

  /** What the writer's own assertion says of locks. */
  lemma WriterHolds<E(!new)>(t: Traits<E>, me: Tid, sh: Shared<E>, th: Thread<E>)
    requires th.Insert? && ThreadOk(t, me, sh, th)
    ensures LocksOwn(t, me, sh, th)
  {
    hide DescentOk, Above, ProbeOk, Forward, RankIn, SlotReady, Merged, Filled, FirstOf, SplitsSeen, PredOk;
  }

  lemma ThreadLocks<E(!new)>(t: Traits<E>, s: State<E>, me: Tid, c: Choice<E>)
    requires Inv(t, s) && me < |s.threads|
    ensures var (b, th') := ThreadStep(t, s, me, c); OneLock(t, me, s.sh, s.threads[me], b, th')
  {
    hide SharedInv, WriterStep, Admissible, WriterOk, ReaderOk, WalkerOk, KeysApart, NodeAt, DescentStep, Contains, SeenRun;
    var th := s.threads[me];
    assert ThreadOk(t, me, s.sh, th);
    if th.Insert? {
      WriterHolds(t, me, s.sh, th);
      WriterLocks(t, me, s.sh, th, c);
    } else {
      assert HeldNode(ThreadStep(t, s, me, c).1) == HeldNode(th) == None;
    }
  }

  lemma StepOwned<E(!new)>(t: Traits<E>, s: State<E>, me: Tid, c: Choice<E>)
    requires Inv(t, s) && Owned(t, s)
    ensures Owned(t, Step(t, s, me, c))
  {
    hide Inv, ThreadStep, HeldNode, NodeAt;
    if me < |s.threads| {
      var (b, th') := ThreadStep(t, s, me, c);
      var s' := Step(t, s, me, c);
      ThreadLocks(t, s, me, c);
      assert s' == State(b, s.threads[me := th']);
      forall n: NodeId, u: Tid
        ensures NodeAt(t, s'.sh, n).lock == Some(u) <==> u < |s'.threads| && HeldNode(s'.threads[u]) == Some(n)
      {
        assert NodeAt(t, s.sh, n).lock == Some(u) <==> u < |s.threads| && HeldNode(s.threads[u]) == Some(n);
        assert NodeAt(t, s.sh, n).lock == Some(me) <==> HeldNode(s.threads[me]) == Some(n);
      }
    }
  }

  lemma {:induction false} RunOwned<E(!new)>(t: Traits<E>, n: nat, schedule: seq<(Tid, Choice<E>)>)
    requires t.TotalOrder() && t.HintPromise()
    ensures Owned(t, Run(t, n, schedule))
    decreases |schedule|
  {
    hide Inv, Step, Owned;
    if schedule == [] {
      InitOwned(t, n);
    } else {
      var last := |schedule| - 1;
      RunOwned(t, n, schedule[..last]);
      RunInv(t, n, schedule[..last]);
      StepOwned(t, Run(t, n, schedule[..last]), schedule[last].0, schedule[last].1);
    }
  }

  lemma InitOwned<E(!new)>(t: Traits<E>, n: nat)
    ensures Owned(t, Init(t, n))
  {
  }

  /**
   In every reachable state: a node's lock is held by u exactly when u is a thread inside
   its critical section for that node. So no lock is orphaned, and no two threads are inside
   for one node.
   */
  lemma LocksOwned<E(!new)>(t: Traits<E>, n: nat, s: State<E>, m: NodeId, u: Tid)
    requires t.TotalOrder() && t.HintPromise() && Attained(t, n, s)
    ensures NodeAt(t, s.sh, m).lock == Some(u) <==> u < |s.threads| && HeldNode(s.threads[u]) == Some(m)
  {
    hide Run;
    var schedule: seq<(Tid, Choice<E>)> :| s == Run(t, n, schedule);
    RunOwned(t, n, schedule);
  }

  // ---- waiting -----------------------------------------------------------------------------

  /** The thread stands before a lock it cannot take. */
  predicate Waits<E(!new)>(t: Traits<E>, s: State<E>, u: Tid)
  {
    u < |s.threads| && s.threads[u].Insert? && s.threads[u].w.Locking? && NodeAt(t, s.sh, s.threads[u].w.cur).lock.Some?
  }

  lemma DescentMoves<E(!new)>(t: Traits<E>, sh: Shared<E>, key: E, at: Descent)
    requires DescentStep(t, sh, key, at).Going?
    ensures DescentStep(t, sh, key, at).at != at
  {
  }

  lemma ProbeMoves<E(!new)>(t: Traits<E>, sh: Shared<E>, key: E, p: Probe)
    requires ProbeStep(t, sh, key, p).Undecided?
    ensures ProbeStep(t, sh, key, p).p != p
  {
  }

  lemma LinkMoves<E(!new)>(t: Traits<E>, me: Tid, sh: Shared<E>, th: Thread<E>, c: Choice<E>)
    requires th.Insert? && IsLinking(th.w)
    ensures WriterStep(t, me, sh, th, c).1 != th
  {
    LinkStepIs(t, me, sh, th, c);
    hide DescentStep, ProbeStep, TowerAt, Descend, Aim, WriterStep, SetTower, NodeAt;
    match th.w
    case LinkDescending(cur, sib, first, lv, attempt, at) =>
      if DescentStep(t, sh, first, at).Going? { DescentMoves(t, sh, first, at); }
    case LinkProbing(cur, sib, first, lv, attempt, pred, probe) =>
      if ProbeStep(t, sh, first, probe).Undecided? { ProbeMoves(t, sh, first, probe); }
    case _ =>
  }

  lemma AppendMoves<E(!new)>(t: Traits<E>, me: Tid, sh: Shared<E>, th: Thread<E>, c: Choice<E>)
    requires th.Insert? && IsAppending(th.w)
    ensures WriterStep(t, me, sh, th, c).1 != th
  {
    hide PayloadAt, NodeAt, LaneOf, RankIn, SetPayload, SetHint;
  }

  lemma SplitMoves<E(!new)>(t: Traits<E>, me: Tid, sh: Shared<E>, th: Thread<E>, c: Choice<E>)
    requires th.Insert? && IsSplitting(th.w) && ThreadOk(t, me, sh, th)
    ensures WriterStep(t, me, sh, th, c).1 != th
  {
    if th.w.Building? {
      hide BelongsTo, Merged, Build;
    } else {
      hide ThreadOk, PayloadAt, NodeAt, FirstOf, SetHint, SetData, ChainWith;
    }
  }

  lemma EdgeMoves<E(!new)>(t: Traits<E>, me: Tid, sh: Shared<E>, th: Thread<E>, c: Choice<E>)
    requires th.Insert? && HeldNode(th).Some? && !IsLinking(th.w) && !IsSplitting(th.w) && !IsAppending(th.w)
    ensures WriterStep(t, me, sh, th, c).1 != th
  {
    hide PayloadAt, NodeAt, DataOf, SeenRun, SetLock, Descend;
  }

  /** Inside the critical section every step goes on, whatever the other threads do. */
  lemma HolderMoves<E(!new)>(t: Traits<E>, me: Tid, sh: Shared<E>, th: Thread<E>, c: Choice<E>)
    requires ThreadOk(t, me, sh, th) && HeldNode(th).Some?
    ensures WriterStep(t, me, sh, th, c).1 != th
  {
    hide WriterStep, ThreadOk;
    if IsLinking(th.w) {
      LinkMoves(t, me, sh, th, c);
    } else if IsSplitting(th.w) {
      SplitMoves(t, me, sh, th, c);
    } else if IsAppending(th.w) {
      AppendMoves(t, me, sh, th, c);
    } else {
      EdgeMoves(t, me, sh, th, c);
    }
  }

  /** No deadlock: a waiting thread waits for another thread, which does not wait and whose every step goes on. */
  lemma WaitsForAMover<E(!new)>(t: Traits<E>, n: nat, s: State<E>, u: Tid) returns (v: Tid)
    requires t.TotalOrder() && t.HintPromise() && Attained(t, n, s) && Waits(t, s, u)
    ensures v < |s.threads| && v != u && HeldNode(s.threads[v]) == Some(s.threads[u].w.cur) && !Waits(t, s, v)
    ensures forall c: Choice<E> :: Step(t, s, v, c).threads[v] != s.threads[v]
  {
    hide Attained, WriterStep, SharedInv, ThreadOk;
    AttainedInv(t, n, s);
    v := NodeAt(t, s.sh, s.threads[u].w.cur).lock.value;
    LocksOwned(t, n, s, s.threads[u].w.cur, v);
    forall c: Choice<E>
      ensures Step(t, s, v, c).threads[v] != s.threads[v]
    {
      HolderMoves(t, v, s.sh, s.threads[v], c);
    }
  }
}
