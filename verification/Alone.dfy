/**
 Operations nobody disturbs, from any reachable state of any number of threads: an insert
 that finds no lock held returns with its key published, a lookup answers membership, and a
 walk yields level 0 from the head to the end.
 */
module Alone {
  import opened Ordering
  import opened Payloads
  import opened Machine
  import opened Invariant
  import opened NodeSplit
  import opened Descents
  import opened ReaderSteps
  import opened Safety
  import opened LevelZero
  import opened Reachable
  import opened Quiet
  import opened Scan
  import opened Locks
  import opened Returns
  import opened Progress

  /** Successive states in which only thread u steps. */
  ghost predicate OwnSteps<E(!new)>(t: Traits<E>, trace: seq<State<E>>, u: Tid)
  {
    |trace| > 0 && forall i :: 0 < i < |trace| ==> StepOf(t, trace[i - 1], u, trace[i])
  }

  /** Thread u by itself gets from `a` to `b`. */
  ghost predicate LeadsAlone<E(!new)>(t: Traits<E>, a: State<E>, u: Tid, b: State<E>)
  {
    exists trace: seq<State<E>> :: OwnSteps(t, trace, u) && a == trace[0] && b == trace[|trace| - 1]
  }

  lemma AloneHere<E(!new)>(t: Traits<E>, a: State<E>, u: Tid)
    ensures LeadsAlone(t, a, u, a)
  {
    assert OwnSteps(t, [a], u);
  }

  lemma AloneFirst<E(!new)>(t: Traits<E>, a: State<E>, u: Tid, b: State<E>, c: State<E>)
    requires StepOf(t, a, u, b) && LeadsAlone(t, b, u, c)
    ensures LeadsAlone(t, a, u, c)
  {
    hide StepOf;
    var trace: seq<State<E>> :| OwnSteps(t, trace, u) && b == trace[0] && c == trace[|trace| - 1];
    assert OwnSteps(t, [a] + trace, u);
  }

  /** What a step of u leaves to the others: their threads as they were. */
  ghost predicate OthersSame<E(!new)>(a: State<E>, b: State<E>, u: Tid)
  {
    |b.threads| == |a.threads| && forall v :: 0 <= v < |a.threads| && v != u ==> b.threads[v] == a.threads[v]
  }

  lemma OwnStep<E(!new)>(t: Traits<E>, n: nat, s: State<E>, u: Tid, c: Choice<E>) returns (s': State<E>)
    requires Attained(t, n, s) && u < |s.threads|
    ensures s' == Step(t, s, u, c) && StepOf(t, s, u, s') && Attained(t, n, s') && OthersSame(s, s', u)
  {
    hide Attained, ThreadStep;
    s' := Step(t, s, u, c);
    StepAttained(t, n, s, u, c);
  }

  // ---- an insert ---------------------------------------------------------------------------

  ghost predicate NobodyElseHolds<E(!new)>(s: State<E>, u: Tid)
  {
    forall v :: 0 <= v < |s.threads| && v != u ==> HeldNode(s.threads[v]).None?
  }

  lemma NeverWaits<E(!new)>(t: Traits<E>, n: nat, s: State<E>, u: Tid)
    requires t.TotalOrder() && t.HintPromise() && Attained(t, n, s) && u < |s.threads| && NobodyElseHolds(s, u)
    ensures !Waits(t, s, u)
  {
    hide Attained, NodeAt;
    if Waits(t, s, u) {
      var v := NodeAt(t, s.sh, s.threads[u].w.cur).lock.value;
      LocksOwned(t, n, s, s.threads[u].w.cur, v);
      assert false;
    }
  }

  lemma {:induction false} InsertRuns<E(!new)>(t: Traits<E>, n: nat, s: State<E>, u: Tid, c: Choice<E>) returns (s': State<E>)
    requires t.TotalOrder() && t.HintPromise() && Attained(t, n, s) && u < |s.threads| && s.threads[u].Insert?
    requires NobodyElseHolds(s, u)
    ensures Attained(t, n, s') && LeadsAlone(t, s, u, s') && OthersSame(s, s', u)
    ensures s'.threads[u].Idle? && s.threads[u].key in s'.sh.published
    decreases Left(s.sh, s.threads[u]).splits, Left(s.sh, s.threads[u]).stage, Left(s.sh, s.threads[u]).loads
  {
    hide Attained, StepOf, LeadsAlone, Left, HeldNode, Waits;
    NeverWaits(t, n, s, u);
    StepsLower(t, n, s, u, c);
    InsertStays(t, s, u, c);
    s' := OwnStep(t, n, s, u, c);
    var first := s';
    if s'.threads[u].Insert? {
      s' := InsertRuns(t, n, s', u, c);
    } else {
      InsertReturns(t, n, s, u, c);
      AloneHere(t, s', u);
    }
    AloneFirst(t, s, u, first, s');
  }

  lemma InsertStays<E(!new)>(t: Traits<E>, s: State<E>, u: Tid, c: Choice<E>)
    requires u < |s.threads| && s.threads[u].Insert?
    ensures var th := Step(t, s, u, c).threads[u]; th.Idle? || (th.Insert? && th.key == s.threads[u].key)
  {
    WriterPublishes(t, u, s.sh, s.threads[u], c);
    hide WriterStep;
  }

  /**
   An insert that begins where no lock is held and is left alone returns, its key
   published; compare-exchanges may fail throughout.
   */
  lemma InsertAlone<E(!new)>(t: Traits<E>, n: nat, s: State<E>, u: Tid, key: E, c: Choice<E>) returns (s': State<E>)
    requires t.TotalOrder() && t.HintPromise() && Attained(t, n, s) && u < |s.threads| && s.threads[u].Idle? && Admissible(t, s, key)
    requires forall m: NodeId :: NodeAt(t, s.sh, m).lock.None?
    ensures Attained(t, n, s') && LeadsAlone(t, s, u, s') && OthersSame(s, s', u)
    ensures s'.threads[u].Idle? && key in s'.sh.published
  {
    hide Attained, StepOf, LeadsAlone, Admissible;
    NobodyHolds(t, n, s, u);
    var first := OwnStep(t, n, s, u, c.(op := DoInsert(key)));
    s' := InsertRuns(t, n, first, u, c);
    AloneFirst(t, s, u, first, s');
  }

  lemma NobodyHolds<E(!new)>(t: Traits<E>, n: nat, s: State<E>, u: Tid)
    requires t.TotalOrder() && t.HintPromise() && Attained(t, n, s) && forall m: NodeId :: NodeAt(t, s.sh, m).lock.None?
    ensures NobodyElseHolds(s, u)
  {
    hide Attained, NodeAt, HeldNode;
    forall v | 0 <= v < |s.threads| && v != u
      ensures HeldNode(s.threads[v]).None?
    {
      if HeldNode(s.threads[v]).Some? {
        LocksOwned(t, n, s, HeldNode(s.threads[v]).value, v);
        assert false;
      }
    }
  }

  // ---- a walk ------------------------------------------------------------------------------

  function Hops<E(!new)>(sh: Shared<E>, v: Option<NodeId>): nat
  {
    if v.Some? then NodesFrom(sh, v.value) else 0
  }

  /** Level 0 from a node to the end. */
  function Rest<E(!new)>(t: Traits<E>, sh: Shared<E>, v: Option<NodeId>): seq<E>
  {
    Reads(t, sh, v, Hops(sh, v))
  }

  /** What a walk has still to yield if nobody disturbs it. */
  function ToYield<E(!new)>(t: Traits<E>, sh: Shared<E>, k: WalkerPc): seq<E>
  {
    match k
    case Adopting(n) => Rest(t, sh, Some(n))
    case AdoptingOrder(n, d) => var p := PayloadAt(t, sh, d); SeenRun(t, p, p.order) + Rest(t, sh, p.next)
    case Standing(n, d, o, pos) =>
      var p := PayloadAt(t, sh, d);
      var run := SeenRun(t, p, o);
      (if pos <= |run| then run[pos..] else []) + Rest(t, sh, p.next)
    case Ended => []
  }

  /** The node's own keys, then the rest of level 0. */
  lemma RestUnfolds<E(!new)>(t: Traits<E>, sh: Shared<E>, n: NodeId)
    requires SharedInv(t, sh) && n in sh.chain
    ensures var p := PayloadAt(t, sh, DataOf(t, sh, n)); Rest(t, sh, Some(n)) == SeenRun(t, p, p.order) + Rest(t, sh, p.next)
  {
    hide SharedInv, SeenRun, PayloadAt, DataOf;
    var i := IndexOf(sh.chain, n);
    ChainPosition(t, sh, i, i);
    var p := PayloadAt(t, sh, DataOf(t, sh, n));
    if i + 1 < |sh.chain| { IndexAt(t, sh, i + 1); }
    assert p.next.Some? ==> Hops(sh, p.next) == Hops(sh, Some(n)) - 1;
  }

  lemma IndexAt<E(!new)>(t: Traits<E>, sh: Shared<E>, i: nat)
    requires SharedInv(t, sh) && i < |sh.chain|
    ensures IndexOf(sh.chain, sh.chain[i]) == i
  {
    hide PayloadsOk, TowersOk, AllLocated, HeadHintLow, Occupied;
    assert sh.chain[IndexOf(sh.chain, sh.chain[i])] == sh.chain[i];
  }

  /** Each step moves what it yields from what is left to what is done. */
  lemma WalkConserves<E(!new)>(t: Traits<E>, sh: Shared<E>, th: Thread<E>)
    requires SharedInv(t, sh) && th.Walk? && WalkerOk(t, sh, th.k, th.known, th.yielded) && !th.k.Ended?
    ensures var th' := WalkerStep(t, sh, th);
      th'.Walk? && th'.known == th.known && th'.yielded + ToYield(t, sh, th'.k) == th.yielded + ToYield(t, sh, th.k)
  {
    hide SharedInv, Rest, Sorted, PayloadAt, DataOf;
    match th.k
    case Adopting(n) => RestUnfolds(t, sh, n);
    case AdoptingOrder(n, d) =>
      var run := SeenRun(t, PayloadAt(t, sh, d), PayloadAt(t, sh, d).order);
      assert run[0..] == run;
    case Standing(n, d, o, pos) =>
      YieldsOne(t, sh, n, d, o, pos, th.yielded);
      var run := SeenRun(t, PayloadAt(t, sh, d), o);
      if pos >= |run| {
        assert WalkerStep(t, sh, th).yielded == th.yielded;
        assert ToYield(t, sh, WalkerStep(t, sh, th).k) == Rest(t, sh, PayloadAt(t, sh, d).next) by { NoneLeft(t, sh); }
      }
    case _ =>
  }

  lemma NoneLeft<E(!new)>(t: Traits<E>, sh: Shared<E>)
    ensures Rest(t, sh, None) == [] && ToYield(t, sh, Ended) == []
  {
  }

  lemma YieldsOne<E(!new)>(t: Traits<E>, sh: Shared<E>, n: NodeId, d: PayloadId, o: seq<nat>, pos: nat, ys: seq<E>)
    requires pos <= |o|
    ensures var p := PayloadAt(t, sh, d);
      var run := SeenRun(t, p, o);
      if pos < |run| then
        ys + [run[pos]] + ToYield(t, sh, Standing(n, d, o, pos + 1)) == ys + ToYield(t, sh, Standing(n, d, o, pos))
      else
        ToYield(t, sh, Standing(n, d, o, pos)) == Rest(t, sh, p.next)
  {
    hide Rest, PayloadAt, SeenRun;
    var run := SeenRun(t, PayloadAt(t, sh, d), o);
    if pos < |run| { assert run[pos..] == [run[pos]] + run[pos + 1..]; }
  }

  lemma {:induction false} WalkRuns<E(!new)>(t: Traits<E>, n: nat, s: State<E>, u: Tid, c: Choice<E>) returns (s': State<E>)
    requires t.TotalOrder() && t.HintPromise() && Attained(t, n, s) && u < |s.threads| && s.threads[u].Walk?
    ensures Attained(t, n, s') && LeadsAlone(t, s, u, s') && OthersSame(s, s', u) && s'.sh == s.sh
    ensures s'.threads[u] == Walk(Ended, s.threads[u].known, s.threads[u].yielded + ToYield(t, s.sh, s.threads[u].k))
    decreases Left(s.sh, s.threads[u]).stage, Left(s.sh, s.threads[u]).loads
  {
    hide Attained, StepOf, LeadsAlone, Left, SharedInv, KeysApart, WalkerOk, WalkerStep, ToYield;
    var th := s.threads[u];
    if th.k.Ended? {
      s' := s;
      AloneHere(t, s, u);
      NoneLeft(t, s.sh);
    } else {
      AttainedInv(t, n, s);
      assert ThreadOk(t, u, s.sh, th);
      StepsLower(t, n, s, u, c);
      NoSplits(s.sh, th);
      WalkConserves(t, s.sh, th);
      var first := OwnStep(t, n, s, u, c);
      NoSplits(s.sh, first.threads[u]);
      s' := WalkRuns(t, n, first, u, c);
      AloneFirst(t, s, u, first, s');
    }
  }

  lemma NoSplits<E(!new)>(sh: Shared<E>, th: Thread<E>)
    requires !th.Insert?
    ensures Left(sh, th).splits == 0
  {
  }

  /** A walk from begin() that nobody disturbs ends, and has yielded the whole of level 0. */
  lemma WalkAlone<E(!new)>(t: Traits<E>, n: nat, s: State<E>, u: Tid, c: Choice<E>) returns (s': State<E>)
    requires t.TotalOrder() && t.HintPromise() && Attained(t, n, s) && u < |s.threads| && s.threads[u].Idle?
    ensures Attained(t, n, s') && LeadsAlone(t, s, u, s') && OthersSame(s, s', u) && s'.sh == s.sh
    ensures s'.threads[u] == Walk(Ended, |s.sh.published|, Reads(t, s.sh, Some(0), |s.sh.chain|))
  {
    hide Attained, StepOf, LeadsAlone, SharedInv, Reads;
    AttainedInv(t, n, s);
    HeadFirst(t, s.sh);
    var first := OwnStep(t, n, s, u, c.(op := DoWalk));
    s' := WalkRuns(t, n, first, u, c);
    AloneFirst(t, s, u, first, s');
    assert [] + ToYield(t, s.sh, Adopting(0)) == Reads(t, s.sh, Some(0), |s.sh.chain|);
  }

  // ---- a lookup ----------------------------------------------------------------------------

  /** A lookup that has seen nothing but the structure as it stands. */
  ghost predicate Undisturbed<E(!new)>(t: Traits<E>, sh: Shared<E>, th: Thread<E>)
  {
    && th.Lookup? && th.known == |sh.published|
    && match th.r
       case Seeking(at) => at.probe.Some? && at.lv == 0 ==> at.base == DataOf(t, sh, at.cur)
       case Reloading(cur, base) => Current(t, sh, cur, th.key)
       case Snapshotting(cur, base, d) => Current(t, sh, cur, th.key) && d == DataOf(t, sh, cur)
       case Answered(_, _, d) => d < |sh.payloads| && Above(t, sh, sh.payloads[d].d.next, th.key)
  }

  ghost predicate Current<E(!new)>(t: Traits<E>, sh: Shared<E>, cur: NodeId, key: E)
  {
    AtOrBelow(t, sh, cur, key) && Above(t, sh, PayloadAt(t, sh, DataOf(t, sh, cur)).next, key)
  }

  lemma StaysUndisturbed<E(!new)>(t: Traits<E>, sh: Shared<E>, th: Thread<E>)
    requires t.TotalOrder() && t.HintPromise() && SharedInv(t, sh)
    requires Undisturbed(t, sh, th) && ReaderOk(t, sh, th.key, th.r, th.known) && !th.r.Answered?
    ensures Undisturbed(t, sh, ReaderStep(t, sh, th)) && ReaderStep(t, sh, th).key == th.key
  {
    hide SharedInv, DescentOk, DescentStep, Landed, Contains, Current;
    match th.r
    case Seeking(at) =>
      DescentSound(t, sh, th.key, at);
      match DescentStep(t, sh, th.key, at) {
        case Going(to) => DescentData(t, sh, th.key, at, to);
        case Reached(cur, base) => NowCurrent(t, sh, th.key, at, cur, base);
      }
    case Reloading(cur, base) =>
    case Snapshotting(cur, base, d) => CurrentAbove(t, sh, cur, th.key);
  }

  lemma NowCurrent<E(!new)>(t: Traits<E>, sh: Shared<E>, key: E, at: Descent, cur: NodeId, base: PayloadId)
    requires SharedInv(t, sh) && DescentOk(t, sh, key, at) && at.floor == 0
    requires DescentStep(t, sh, key, at) == Reached(cur, base) && Landed(t, sh, key, cur, base)
    requires at.probe.Some? && at.lv == 0 ==> at.base == DataOf(t, sh, at.cur)
    ensures Current(t, sh, cur, key)
  {
    hide SharedInv, DescentOk, DescentStep, Landed;
    DescentLands(t, sh, key, at, cur, base);
  }

  lemma CurrentAbove<E(!new)>(t: Traits<E>, sh: Shared<E>, cur: NodeId, key: E)
    requires SharedInv(t, sh) && Current(t, sh, cur, key)
    ensures DataOf(t, sh, cur) < |sh.payloads| && Above(t, sh, sh.payloads[DataOf(t, sh, cur)].d.next, key)
  {
    hide SharedInv;
    DataIs(t, sh, cur);
  }

  lemma {:induction false} LookupRuns<E(!new)>(t: Traits<E>, n: nat, s: State<E>, u: Tid, c: Choice<E>) returns (s': State<E>)
    requires t.TotalOrder() && t.HintPromise() && Attained(t, n, s) && u < |s.threads| && Undisturbed(t, s.sh, s.threads[u])
    ensures Attained(t, n, s') && LeadsAlone(t, s, u, s') && OthersSame(s, s', u) && s'.sh == s.sh
    ensures Undisturbed(t, s'.sh, s'.threads[u]) && s'.threads[u].r.Answered? && s'.threads[u].key == s.threads[u].key
    decreases Left(s.sh, s.threads[u]).stage, Left(s.sh, s.threads[u]).loads
  {
    hide Attained, StepOf, LeadsAlone, Left, SharedInv, KeysApart, ReaderOk, ReaderStep;
    var th := s.threads[u];
    if th.r.Answered? {
      s' := s;
      AloneHere(t, s, u);
    } else {
      AttainedInv(t, n, s);
      assert ThreadOk(t, u, s.sh, th);
      StepsLower(t, n, s, u, c);
      NoSplits(s.sh, th);
      StaysUndisturbed(t, s.sh, th);
      var first := OwnStep(t, n, s, u, c);
      NoSplits(s.sh, first.threads[u]);
      s' := LookupRuns(t, n, first, u, c);
      AloneFirst(t, s, u, first, s');
    }
  }

  /** A lookup that nobody disturbs answers whether the key is there. */
  lemma LookupAlone<E(!new)>(t: Traits<E>, n: nat, s: State<E>, u: Tid, key: E, c: Choice<E>) returns (s': State<E>)
    requires t.TotalOrder() && t.HintPromise() && Attained(t, n, s) && u < |s.threads| && s.threads[u].Idle?
    ensures Attained(t, n, s') && LeadsAlone(t, s, u, s') && OthersSame(s, s', u) && s'.sh == s.sh
    ensures s'.threads[u].Lookup? && s'.threads[u].key == key && s'.threads[u].r.Answered?
    ensures s'.threads[u].r.result <==> Has(t, s.sh.published, key)
  {
    hide Attained, StepOf, LeadsAlone, Inv;
    var first := OwnStep(t, n, s, u, c.(op := DoLookup(key)));
    s' := LookupRuns(t, n, first, u, c);
    AloneFirst(t, s, u, first, s');
    AttainedInv(t, n, s');
    AnswersRight(t, s', u);
  }

  lemma AnswersRight<E(!new)>(t: Traits<E>, s: State<E>, u: Tid)
    requires t.TotalOrder() && Inv(t, s) && u < |s.threads| && Undisturbed(t, s.sh, s.threads[u]) && s.threads[u].r.Answered?
    ensures s.threads[u].r.result <==> Has(t, s.sh.published, s.threads[u].key)
  {
    hide SharedInv, KeysApart;
    var th := s.threads[u];
    assert ThreadOk(t, u, s.sh, th);
    if Has(t, s.sh.published, th.key) {
      var i :| 0 <= i < |s.sh.published| && t.compare(s.sh.published[i], th.key) == 0;
      assert KnownKey(t, s.sh, th.key, th.known);
    }
  }
}
