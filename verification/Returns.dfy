/**
 What an operation has done when its thread becomes idle again: an insert has published its
 key, and level 0 reads it exactly once; a lookup has answered; a walk has ended.
 */
module Returns {
  import opened OrderWord
  import opened Ordering
  import opened Payloads
  import opened Machine
  import opened Invariant
  import opened WriterSteps
  import opened Safety
  import opened LevelZero
  import opened Reachable

  /** Past its publishing store an insert's key is among the published. */
  ghost predicate PastIsPublished<E(!new)>(s: State<E>)
  {
    forall u :: 0 <= u < |s.threads| && s.threads[u].Insert? && !Pending(s.threads[u]) ==> s.threads[u].key in s.sh.published
  }

  /** A writer leaves the pending stretch by a publishing store only, and becomes idle by dropping its lock after that. */
  lemma WriterLeaves<E(!new)>(t: Traits<E>, me: Tid, sh: Shared<E>, th: Thread<E>, c: Choice<E>)
    requires th.Insert?
    ensures var th' := WriterStep(t, me, sh, th, c).1;
      && (th'.Idle? <==> th.w.Unlocking?)
      && (Pending(th) && th'.Insert? && !Pending(th') ==> AtPublishingStore(th))
  {
    hide DescentStep, ProbeStep, SeenRun, LaneOf, RankIn, Merged, FirstOf, PayloadAt, NodeAt, DataOf, TowerAt, ChainWith, Height;
    hide Descend, Aim, Splice, Filled, SetLock, SetPayload, SetHint, SetData;
    if IsLinking(th.w) { LinkLeaves(t, me, sh, th, c); }
  }

  lemma LinkLeaves<E(!new)>(t: Traits<E>, me: Tid, sh: Shared<E>, th: Thread<E>, c: Choice<E>)
    requires th.Insert? && IsLinking(th.w)
    ensures WriterStep(t, me, sh, th, c).1.Insert? && !Pending(th)
  {
    LinkStepIs(t, me, sh, th, c);
    hide DescentStep, ProbeStep, NodeAt, TowerAt, Descend, Aim, WriterStep;
  }

  lemma StepPublished<E(!new)>(t: Traits<E>, s: State<E>, me: Tid, c: Choice<E>)
    requires PastIsPublished(s)
    ensures PastIsPublished(Step(t, s, me, c))
  {
    hide WriterStep, Admissible, DescentStep, Contains, Pending, AtPublishingStore;
    if me < |s.threads| {
      var th := s.threads[me];
      if th.Insert? {
        WriterLeaves(t, me, s.sh, th, c);
        WriterPublishes(t, me, s.sh, th, c);
      }
      BegunPends(t, s, c.op);
    }
  }

  lemma BegunPends<E(!new)>(t: Traits<E>, s: State<E>, op: Op<E>)
    ensures Begin(t, s, op).Insert? ==> Pending(Begin(t, s, op))
  {
    hide Admissible;
  }

  lemma {:induction false} RunPublished<E(!new)>(t: Traits<E>, n: nat, schedule: seq<(Tid, Choice<E>)>)
    ensures PastIsPublished(Run(t, n, schedule))
    decreases |schedule|
  {
    hide Step, PastIsPublished;
    if schedule == [] {
      InitPublished(t, n);
    } else {
      var last := |schedule| - 1;
      RunPublished(t, n, schedule[..last]);
      StepPublished(t, Run(t, n, schedule[..last]), schedule[last].0, schedule[last].1);
    }
  }

  lemma InitPublished<E(!new)>(t: Traits<E>, n: nat)
    ensures PastIsPublished(Init(t, n))
  {
  }

  /** In every reachable state, whichever step lets an insert return: its key is published by then. */
  lemma InsertReturns<E(!new)>(t: Traits<E>, n: nat, s: State<E>, me: Tid, c: Choice<E>)
    requires Attained(t, n, s) && me < |s.threads| && s.threads[me].Insert? && Step(t, s, me, c).threads[me].Idle?
    ensures s.threads[me].key in s.sh.published && s.threads[me].key in Step(t, s, me, c).sh.published
  {
    hide Run, WriterStep;
    var schedule: seq<(Tid, Choice<E>)> :| s == Run(t, n, schedule);
    RunPublished(t, n, schedule);
    WriterLeaves(t, me, s.sh, s.threads[me], c);
    WriterPublishes(t, me, s.sh, s.threads[me], c);
  }

  /** Only its own step ends a thread's operation. */
  lemma OwnStepEnds<E(!new)>(t: Traits<E>, now: State<E>, next: State<E>, u: Tid) returns (c: Choice<E>)
    requires Busy(now, u) && Steps(t, now, next) && u < |next.threads| && next.threads[u].Idle?
    ensures next == Step(t, now, u, c)
  {
    hide ThreadStep;
    var me: Tid :| StepOf(t, now, me, next);
    c :| next == Step(t, now, me, c);
  }

  lemma DuringBusy<E(!new)>(t: Traits<E>, n: nat, was: State<E>, now: State<E>, u: Tid)
    requires During(t, n, was, now, u)
    ensures Busy(now, u)
  {
    hide Attained, Steps;
  }

  lemma DuringAttained<E(!new)>(t: Traits<E>, n: nat, was: State<E>, now: State<E>, u: Tid)
    requires t.TotalOrder() && t.HintPromise() && During(t, n, was, now, u)
    ensures Attained(t, n, now)
  {
    hide Attained, Steps;
    var trace: seq<State<E>> :| OneOperation(t, n, trace, u) && was == trace[0] && now == trace[|trace| - 1];
    OperationRemembers(t, n, trace, u, |trace| - 1);
  }

  /**
   One insert from the call to the return, among any other threads: its key was not there
   when it began, and when it has returned level 0 reads it exactly once.
   */
  lemma InsertDone<E(!new)>(t: Traits<E>, n: nat, was: State<E>, now: State<E>, u: Tid, next: State<E>) returns (i: nat)
    requires t.TotalOrder() && t.HintPromise() && During(t, n, was, now, u) && u < |now.threads| && now.threads[u].Insert?
    requires Steps(t, now, next) && u < |next.threads| && next.threads[u].Idle?
    ensures Unpublished(t, was.sh, now.threads[u].key)
    ensures var r := Reads(t, next.sh, Some(0), |next.sh.chain|);
      && i < |r| && r[i] == now.threads[u].key
      && forall j :: 0 <= j < |r| && t.compare(r[j], now.threads[u].key) == 0 ==> j == i
  {
    hide Attained, Steps, Inv, Reads, Sorted, SharedInv, ThreadOk, During, Step, Unpublished;
    DuringHolds(t, n, was, now, u);
    DuringBusy(t, n, was, now, u);
    DuringAttained(t, n, was, now, u);
    var key := now.threads[u].key;
    var c := OwnStepEnds(t, now, next, u);
    InsertReturns(t, n, now, u, c);
    StepAttained(t, n, now, u, c);
    LevelZeroExact(t, n, next, |next.sh.chain|);
    var r := Reads(t, next.sh, Some(0), |next.sh.chain|);
    assert key in multiset(r);
    i :| 0 <= i < |r| && r[i] == key;
    OnlyOne(t, r, i);
  }

  lemma OnlyOne<E(!new)>(t: Traits<E>, r: seq<E>, i: nat)
    requires t.TotalOrder() && Sorted(t, r) && i < |r|
    ensures forall j :: 0 <= j < |r| && t.compare(r[j], r[i]) == 0 ==> j == i
  {
    forall j | 0 <= j < |r| && t.compare(r[j], r[i]) == 0
      ensures j == i
    {
      t.Order3(r[i], r[j], r[i]);
    }
  }

  /** Nor does a lookup return without an answer, or a walk before its end. */
  lemma ReadersDone<E(!new)>(t: Traits<E>, now: State<E>, u: Tid, next: State<E>)
    requires Busy(now, u) && Steps(t, now, next) && u < |next.threads| && next.threads[u].Idle?
    ensures now.threads[u].Lookup? ==> now.threads[u].r.Answered?
    ensures now.threads[u].Walk? ==> now.threads[u].k.Ended?
  {
    hide Steps, WriterStep, DescentStep, Contains;
    var c := OwnStepEnds(t, now, next, u);
  }
}
