/**
 Safety over every run of the machine: the invariant holds in the initial state and
 every step of every thread keeps it, for all the threads at once.
 */
module Safety {
  import opened OrderWord
  import opened Ordering
  import opened Payloads
  import opened Machine
  import opened Invariant
  import opened Stability
  import opened Descents
  import opened WriterSteps
  import opened ReaderSteps

  // ---- the thread that takes the step ----------------------------------------------------

  lemma BeginSound<E(!new)>(t: Traits<E>, s: State<E>, me: Tid, op: Op<E>)
    requires SharedInv(t, s.sh)
    ensures ThreadOk(t, me, s.sh, Begin(t, s, op))
  {
    hide SharedInv, DescentOk, Admissible;
    match op
    case DoInsert(key) => DescentBegins(t, s.sh, key, 0);
    case DoLookup(key) => DescentBegins(t, s.sh, key, 0);
    case DoWalk => HeadPublished(t, s.sh);
  }

  lemma HeadPublished<E(!new)>(t: Traits<E>, sh: Shared<E>)
    requires SharedInv(t, sh)
    ensures 0 in sh.chain && 0 < |sh.nodes| && sh.chain[0] == 0
  {
    assert sh.chain[0] == 0 && NodeOk(t, sh, 0);
  }

  lemma ActorSound<E(!new)>(t: Traits<E>, s: State<E>, me: Tid, c: Choice<E>)
    requires t.TotalOrder() && t.HintPromise() && Inv(t, s) && me < |s.threads|
    ensures var (sh, th) := ThreadStep(t, s, me, c);
      SharedInv(t, sh) && Guarantee(t, me, s.sh, sh) && ThreadOk(t, me, sh, th)
  {
    hide SharedInv, Guarantee, WriterOk, ReaderOk, WalkerOk, WriterStep, ReaderStep, WalkerStep, Begin;
    var th := s.threads[me];
    assert ThreadOk(t, me, s.sh, th);
    match th
    case Idle => Untouched(t, me, s.sh); BeginSound(t, s, me, c.op);
    case Insert(_, _, _, _, _) => StepWriter(t, me, s.sh, th, c);
    case Lookup(_, _, _) => Untouched(t, me, s.sh); StepReader(t, s.sh, th);
    case Walk(_, _, _) => Untouched(t, me, s.sh); StepWalker(t, s.sh, th);
  }

  // ---- distinct keys ---------------------------------------------------------------------

  /** The two publishing stores: append's order store and the split's payload swap. */
  predicate AtPublishingStore<E>(th: Thread<E>)
  {
    th.Insert? && (th.w.StoringOrder? || th.w.Swapping?)
  }

  /** A writer's step publishes its key exactly at a publishing store, and nothing otherwise. */
  lemma WriterPublishes<E(!new)>(t: Traits<E>, me: Tid, sh: Shared<E>, th: Thread<E>, c: Choice<E>)
    requires th.Insert?
    ensures var (b, th') := WriterStep(t, me, sh, th, c);
      && b.published == (if AtPublishingStore(th) then sh.published + [th.key] else sh.published)
      && (th' == Idle || (th'.Insert? && th'.key == th.key && th'.start == th.start))
      && (Pending(th') ==> Pending(th))
      && (AtPublishingStore(th) ==> Pending(th) && !Pending(th'))
  {
    hide DescentStep, ProbeStep, SeenRun, LaneOf, RankIn, Merged, FirstOf, PayloadAt, NodeAt, DataOf, TowerAt, ChainWith, Height;
    hide Descend, Aim, Splice, Filled;
    if IsLinking(th.w) { LinkPublishes(t, me, sh, th, c); }
  }

  lemma LinkPublishes<E(!new)>(t: Traits<E>, me: Tid, sh: Shared<E>, th: Thread<E>, c: Choice<E>)
    requires th.Insert? && IsLinking(th.w)
    ensures var (b, th') := WriterStep(t, me, sh, th, c);
      b.published == sh.published && th'.Insert? && th'.key == th.key && th'.start == th.start && !Pending(th')
  {
    LinkStepIs(t, me, sh, th, c);
    hide DescentStep, ProbeStep, NodeAt, TowerAt, Descend, Aim, WriterStep;
  }

  lemma ThreadPublishes<E(!new)>(t: Traits<E>, s: State<E>, me: Tid, c: Choice<E>)
    requires me < |s.threads|
    ensures var (sh, th') := ThreadStep(t, s, me, c);
      var th := s.threads[me];
      && sh.published == (if AtPublishingStore(th) then s.sh.published + [th.key] else s.sh.published)
      && (Pending(th') ==> (Pending(th) && th'.key == th.key) || (th.Idle? && Admissible(t, s, th'.key)))
      && (AtPublishingStore(th) ==> Pending(th) && !Pending(th'))
  {
    hide WriterStep, Admissible;
    var th := s.threads[me];
    if th.Insert? { WriterPublishes(t, me, s.sh, th, c); }
  }

  lemma KeysStayApart<E(!new)>(t: Traits<E>, s: State<E>, me: Tid, c: Choice<E>)
    requires t.TotalOrder() && KeysApart(t, s) && me < |s.threads|
    ensures KeysApart(t, Step(t, s, me, c))
  {
    ThreadPublishes(t, s, me, c);
    hide ThreadStep, Pending, AtPublishingStore;
    var (sh, th') := ThreadStep(t, s, me, c);
    var s' := Step(t, s, me, c);
    var th := s.threads[me];
    assert s' == State(sh, s.threads[me := th']);
    forall u | 0 <= u < |s'.threads| && Pending(s'.threads[u])
      ensures Unpublished(t, s'.sh, s'.threads[u].key)
    {
      var key := s'.threads[u].key;
      assert Unpublished(t, s.sh, key);
      if AtPublishingStore(th) { assert u != me && t.compare(th.key, key) != 0; }
    }
    forall u, v | 0 <= u < |s'.threads| && 0 <= v < |s'.threads| && u != v && Pending(s'.threads[u]) && Pending(s'.threads[v])
      ensures t.compare(s'.threads[u].key, s'.threads[v].key) != 0
    {
      t.Order3(s'.threads[u].key, s'.threads[v].key, s'.threads[u].key);
    }
    forall i, j | 0 <= i < j < |sh.published|
      ensures t.compare(sh.published[i], sh.published[j]) != 0
    {
      if AtPublishingStore(th) && j == |sh.published| - 1 { assert Unpublished(t, s.sh, th.key); }
    }
  }

  // ---- every step, every run -------------------------------------------------------------

  /** One step of any thread keeps the invariant of the structure and of every thread. */
  lemma StepKeepsInv<E(!new)>(t: Traits<E>, s: State<E>, me: Tid, c: Choice<E>)
    requires t.TotalOrder() && t.HintPromise() && Inv(t, s)
    ensures Inv(t, Step(t, s, me, c))
    ensures me < |s.threads| ==> Guarantee(t, me, s.sh, Step(t, s, me, c).sh)
    ensures |Step(t, s, me, c).threads| == |s.threads|
  {
    hide SharedInv, Guarantee, ThreadOk, ThreadStep, KeysApart;
    if me < |s.threads| {
      ActorSound(t, s, me, c);
      KeysStayApart(t, s, me, c);
      var s' := Step(t, s, me, c);
      forall u | 0 <= u < |s'.threads|
        ensures ThreadOk(t, u, s'.sh, s'.threads[u])
      {
        if u != me { StableThread(t, u, me, s.sh, s'.sh, s.threads[u]); }
      }
    }
  }

  lemma InitInv<E(!new)>(t: Traits<E>, n: nat)
    ensures Inv(t, Init(t, n))
  {
    var sh := Init(t, n).sh;
    assert NodeOk(t, sh, 0);
    assert LinkAt(t, sh, 0);
    assert SeenRun(t, sh.payloads[0].d, sh.payloads[0].d.order) == [];
    assert TowerOk(t, sh, 0);
    assert PayloadOk(t, sh, 0) && OnlyPublished(sh, 0) && LanesOk(t, sh, 0);
  }

  /** Every reachable state, for any number of threads and any interleaving of their steps. */
  lemma {:induction false} RunInv<E(!new)>(t: Traits<E>, n: nat, schedule: seq<(Tid, Choice<E>)>)
    requires t.TotalOrder() && t.HintPromise()
    ensures Inv(t, Run(t, n, schedule)) && |Run(t, n, schedule).threads| == n
    decreases |schedule|
  {
    hide Inv, Step, Init;
    if schedule == [] {
      InitInv(t, n);
      InitThreads(t, n);
    } else {
      var last := |schedule| - 1;
      RunInv(t, n, schedule[..last]);
      StepKeepsInv(t, Run(t, n, schedule[..last]), schedule[last].0, schedule[last].1);
    }
  }

  lemma InitThreads<E(!new)>(t: Traits<E>, n: nat)
    ensures |Init(t, n).threads| == n
  {
  }

  /** Some schedule of `n` threads leads to `s`. */
  ghost predicate Attained<E(!new)>(t: Traits<E>, n: nat, s: State<E>)
  {
    exists schedule: seq<(Tid, Choice<E>)> :: s == Run(t, n, schedule)
  }

  /** Thread `me` can step from `s` to `next`. */
  ghost predicate StepOf<E(!new)>(t: Traits<E>, s: State<E>, me: Tid, next: State<E>)
  {
    exists c: Choice<E> :: next == Step(t, s, me, c)
  }

  lemma AttainedInv<E(!new)>(t: Traits<E>, n: nat, s: State<E>)
    requires t.TotalOrder() && t.HintPromise() && Attained(t, n, s)
    ensures Inv(t, s) && |s.threads| == n
  {
    hide Inv, Run;
    var schedule: seq<(Tid, Choice<E>)> :| s == Run(t, n, schedule);
    RunInv(t, n, schedule);
  }

  lemma StepAttained<E(!new)>(t: Traits<E>, n: nat, s: State<E>, me: Tid, c: Choice<E>)
    requires Attained(t, n, s)
    ensures Attained(t, n, Step(t, s, me, c))
  {
    hide Step;
    var schedule: seq<(Tid, Choice<E>)> :| s == Run(t, n, schedule);
    var longer := schedule + [(me, c)];
    assert longer[..|longer| - 1] == schedule;
    assert Run(t, n, longer) == Step(t, s, me, c);
  }
}
