/**
 Lookups are not linearizable without a condition. Under every comparator, for any
 sixteen ascending keys, two threads have a run in which a lookup of a key published
 before it began answers false: the writer splits the head between the lookup's
 descent and its reload of the payload.
 */
module LostLookup {
  import opened OrderWord
  import opened Ordering
  import opened Payloads
  import opened Machine
  import opened Invariant
  import opened NodeSplit
  import opened Descents
  import opened WriterSteps
  import opened Safety
  import opened Reachable
  import opened Quiet
  import opened Scan
  import opened Solo

  // ---- ascending inserts into an empty table -------------------------------------------------

  /** A table that is only its head, holding the first k keys. */
  ghost predicate HeadHolds<E(!new)>(t: Traits<E>, s: State<E>, ks: seq<E>, k: nat)
  {
    && Rested(t, s) && Sorted(t, ks) && k <= |ks| && s.sh.chain == [0] && |s.sh.nodes| == 1 && |s.sh.payloads| == 1
    && s.sh.published == ks[..k] && s.sh.nodes[0].data == Some(0)
    && s.sh.payloads[0].d.Shaped() && s.sh.payloads[0].d.Run() == ks[..k] && s.sh.payloads[0].d.next.None?
  }

  /** The next key goes last. */
  lemma GoesLast<E(!new)>(t: Traits<E>, ks: seq<E>, k: nat)
    requires t.TotalOrder() && Sorted(t, ks) && k < |ks|
    ensures LowerBound(t, ks[..k], ks[k]) == k && Splice(ks[..k], k, ks[k]) == ks[..k + 1] && Fresh(t, ks[..k], ks[k])
  {
    hide LowerBound;
    SortedInOrder(t, ks[..k]);
    ConfirmedIsLowerBound(t, ks[..k], ks[k], k);
  }

  lemma NextAdmissible<E(!new)>(t: Traits<E>, s: State<E>, ks: seq<E>, k: nat)
    requires HeadHolds(t, s, ks, k) && k < |ks| && !s.threads[1].Insert?
    ensures Admissible(t, s, ks[k])
  {
    hide Attained, Sorted, LowerBound;
    GoesLast(t, ks, k);
    assert Unpublished(t, s.sh, ks[k]);
    forall u | 0 <= u < |s.threads|
      ensures !Pending(s.threads[u])
    {
      assert u == 0 || u == 1;
    }
  }

  lemma {:induction false} HeadFills<E(!new)>(t: Traits<E>, ks: seq<E>, k: nat) returns (s: State<E>)
    requires t.TotalOrder() && t.HintPromise() && Sorted(t, ks) && k <= |ks| && k <= NODE_CAPACITY
    ensures HeadHolds(t, s, ks, k) && s.threads[1].Idle?
    decreases k
  {
    hide Attained, Sorted, LowerBound, Leads, ScanFrom, Appended, Permutation;
    if k == 0 {
      s := Init(t, 2);
      StartsAttained(t);
      assert s.sh.payloads[0].d.Run() == ks[..0];
    } else {
      var before := HeadFills(t, ks, k - 1);
      NextAdmissible(t, before, ks, k - 1);
      GoesLast(t, ks, k - 1);
      var cur, d;
      s, cur, d := InsertsByAppend(t, before, ks[k - 1]);
    }
  }

  lemma StartsAttained<E(!new)>(t: Traits<E>)
    ensures Attained(t, 2, Init(t, 2)) && Init(t, 2).threads == [Idle, Idle]
  {
    assert Run<E>(t, 2, []) == Init(t, 2);
  }

  // ---- thread 1 looking up -------------------------------------------------------------------

  lemma StaysDuring<E(!new)>(t: Traits<E>, was: State<E>, now: State<E>, next: State<E>)
    requires During(t, 2, was, now, 1) && Steps(t, now, next) && Busy(next, 1)
    ensures During(t, 2, was, next, 1)
  {
    hide Steps, Attained;
    var trace: seq<State<E>> :| OneOperation(t, 2, trace, 1) && was == trace[0] && now == trace[|trace| - 1];
    var longer := trace + [next];
    assert OneOperation(t, 2, longer, 1);
  }

  /** Whatever thread 0 does meanwhile. */
  lemma LeadsDuring<E(!new)>(t: Traits<E>, was: State<E>, now: State<E>, next: State<E>)
    requires |now.threads| == 2 && During(t, 2, was, now, 1) && Leads(t, now, next)
    ensures During(t, 2, was, next, 1)
  {
    hide During;
    var trace: seq<State<E>> :| Successive(t, trace, now) && next == trace[|trace| - 1];
    TraceDuring(t, was, now, trace, |trace| - 1);
  }

  lemma {:induction false} TraceDuring<E(!new)>(t: Traits<E>, was: State<E>, now: State<E>, trace: seq<State<E>>, i: nat)
    requires |now.threads| == 2 && During(t, 2, was, now, 1) && Successive(t, trace, now) && i < |trace|
    ensures During(t, 2, was, trace[i], 1)
    decreases i
  {
    hide During, Steps;
    if i > 0 {
      TraceDuring(t, was, now, trace, i - 1);
      NowBusy(t, was, now);
      StaysDuring(t, was, trace[i - 1], trace[i]);
    }
  }

  lemma NowBusy<E(!new)>(t: Traits<E>, was: State<E>, now: State<E>)
    requires During(t, 2, was, now, 1)
    ensures Busy(now, 1)
  {
    hide Attained, Steps;
  }

  /** Thread 1 is looking up the key, thread 0 idle, the structure as it was. */
  ghost predicate LookingUp<E(!new)>(t: Traits<E>, was: State<E>, s: State<E>, key: E)
  {
    && Rested(t, was) && Rested(t, s) && s.sh == was.sh && During(t, 2, was, s, 1)
    && s.threads[1].Lookup? && s.threads[1].key == key
  }

  /** One step of thread 1, which changes nothing shared. */
  lemma Looks<E(!new)>(t: Traits<E>, was: State<E>, s: State<E>, key: E) returns (s': State<E>)
    requires LookingUp(t, was, s, key) && !s.threads[1].r.Answered?
    ensures s' == State(s.sh, [s.threads[0], ReaderStep(t, s.sh, s.threads[1])])
    ensures LookingUp(t, was, s', key)
  {
    hide Attained, During, DescentStep, Contains;
    var c: Choice<E> := Choice(1, false, DoWalk);
    s' := Step(t, s, 1, c);
    StepAttained(t, 2, s, 1, c);
    assert s'.threads == [s.threads[0], ReaderStep(t, s.sh, s.threads[1])];
    assert StepOf(t, s, 1, s') && Steps(t, s, s');
    StaysDuring(t, was, s, s');
  }

  lemma LookupBegins<E(!new)>(t: Traits<E>, was: State<E>, key: E) returns (s: State<E>)
    requires Rested(t, was) && was.threads[1].Idle?
    ensures LookingUp(t, was, s, key) && s.threads[1].r == Seeking(Descend(0))
  {
    hide Attained;
    var c := Choice(1, false, DoLookup(key));
    s := Step(t, was, 1, c);
    StepAttained(t, 2, was, 1, c);
    assert StepOf(t, was, 1, s) && Steps(t, was, s);
    assert OneOperation(t, 2, [was, s], 1);
  }

  /** Down to the reload, at the node the comparator-only scan finds. */
  lemma {:induction false} LookupDescends<E(!new)>(t: Traits<E>, was: State<E>, s: State<E>, key: E) returns (s': State<E>)
    requires LookingUp(t, was, s, key) && s.threads[1].r.Seeking? && s.threads[1].r.at.floor == 0
    requires var at := s.threads[1].r.at; at.probe.Some? && at.lv == 0 ==> at.base == DataOf(t, s.sh, at.cur)
    ensures LookingUp(t, was, s', key)
    ensures var cur := ScanFrom(t, s.sh, 0, key, |s.sh.chain|); s'.threads[1].r == Reloading(cur, DataOf(t, s.sh, cur))
    decreases LoadsLeft(s.sh, s.threads[1].r.at)
  {
    hide SharedInv, DescentOk, Landed, ScanFrom, DescentStep, Attained, During, LoadsLeft;
    ReaderKnows(t, s);
    var at := s.threads[1].r.at;
    s' := Looks(t, was, s, key);
    DescentSound(t, s.sh, key, at);
    match DescentStep(t, s.sh, key, at)
    case Going(to) =>
      LoadsDrop(t, s.sh, key, at);
      DescentData(t, s.sh, key, at, to);
      s' := LookupDescends(t, was, s', key);
    case Reached(cur, base) =>
      DescentLands(t, s.sh, key, at, cur, base);
      AgreesWithScan(t, s.sh, cur, key);
  }

  lemma ReaderKnows<E(!new)>(t: Traits<E>, s: State<E>)
    requires Rested(t, s) && s.threads[1].Lookup? && s.threads[1].r.Seeking?
    ensures SharedInv(t, s.sh) && DescentOk(t, s.sh, s.threads[1].key, s.threads[1].r.at)
  {
    hide Attained, SharedInv, DescentOk;
    AttainedInv(t, 2, s);
    assert ThreadOk(t, 1, s.sh, s.threads[1]);
  }

  /** In a one-node table every scan ends at the head. */
  lemma ScanStays<E(!new)>(t: Traits<E>, s: State<E>, ks: seq<E>, k: nat, key: E)
    requires HeadHolds(t, s, ks, k)
    ensures ScanFrom(t, s.sh, 0, key, |s.sh.chain|) == 0
  {
    hide Attained;
    assert DataOf(t, s.sh, 0) == 0;
  }

  // ---- the split in between ------------------------------------------------------------------

  /** The head's payload links to a node that starts at the ninth key. */
  ghost predicate LinksAway<E(!new)>(t: Traits<E>, sh: Shared<E>, ks: seq<E>)
    requires |ks| > MID
  {
    var v := PayloadAt(t, sh, DataOf(t, sh, 0)).next;
    DataOf(t, sh, 0) < |sh.payloads| && v.Some? && v.value < |sh.nodes| && sh.nodes[v.value].low == ks[MID]
  }

  /** With the sixteenth key merged in, the full head's run is all the keys. */
  lemma FullRunIsAll<E(!new)>(t: Traits<E>, a: State<E>, ks: seq<E>)
    requires |ks| == NODE_CAPACITY + 1 && HeadHolds(t, a, ks, NODE_CAPACITY)
    ensures FullRun(t, a.sh.payloads[0].d, ks[NODE_CAPACITY]) == ks
  {
    hide Attained, Sorted, LowerBound, Permutation;
    GoesLast(t, ks, NODE_CAPACITY);
  }

  lemma SwapLinksAway<E(!new)>(t: Traits<E>, a: Shared<E>, s: Shared<E>, ks: seq<E>)
    requires |ks| == NODE_CAPACITY + 1 && |a.nodes| == 1 && |a.payloads| == 1
    requires IsPrepared(t, a, s, ks[NODE_CAPACITY], 0, 0) && FullRun(t, a.payloads[0].d, ks[NODE_CAPACITY]) == ks
    ensures LinksAway(t, AfterSwap(t, s, ks[NODE_CAPACITY], 0, 1, 1, 2), ks)
  {
    hide Filled, FullRun, ChainWith;
    assert Filled(t, ks[..MID], Some(1)).next == Some(1);
  }

  /** The sixteenth insert, just past its payload swap. */
  lemma Splits<E(!new)>(t: Traits<E>, a: State<E>, ks: seq<E>) returns (s: State<E>)
    requires |ks| == NODE_CAPACITY + 1 && HeadHolds(t, a, ks, NODE_CAPACITY) && !a.threads[1].Insert?
    ensures Leads(t, a, s) && |s.threads| == 2 && s.threads[1] == a.threads[1] && LinksAway(t, s.sh, ks)
  {
    hide Attained, Sorted, LowerBound, Leads, ScanFrom, Filled, ChainWith, WriterStep, Unpublished, Admissible;
    hide IsPrepared, FullRun, AfterSwap, LinksAway, FirstOf;
    var key := ks[NODE_CAPACITY];
    NextAdmissible(t, a, ks, NODE_CAPACITY);
    ScanStays(t, a, ks, NODE_CAPACITY, key);
    var s0, cur, d := ReachesNode(t, a, key);
    var s1 := ReachesSwap(t, a, s0, key, cur, d);
    FullRunIsAll(t, a, ks);
    SwapLinksAway(t, a.sh, s1.sh, ks);
    s := Go(t, a, s1, key);
    PreparedHas(t, a.sh, s1.sh, key, cur, d);
    SwappingIs(t, 0, s1.sh, s1.threads[0], Choice(1, false, DoWalk));
  }

  lemma PreparedHas<E(!new)>(t: Traits<E>, a: Shared<E>, s: Shared<E>, key: E, cur: NodeId, d: PayloadId)
    requires IsPrepared(t, a, s, key, cur, d)
    ensures |s.payloads| == |a.payloads| + 2
  {
  }

  /** The reload and the answer. */
  lemma Misses<E(!new)>(t: Traits<E>, was: State<E>, s: State<E>, ks: seq<E>, key: E) returns (now: State<E>)
    requires |ks| == NODE_CAPACITY + 1 && key == ks[NODE_CAPACITY - 1] && HeadHolds(t, was, ks, NODE_CAPACITY)
    requires During(t, 2, was, s, 1) && |s.threads| == 2 && s.threads[1].Lookup? && s.threads[1].key == key
    requires s.threads[1].r.Reloading? && s.threads[1].r.cur == 0 && LinksAway(t, s.sh, ks)
    ensures During(t, 2, was, now, 1)
    ensures |now.threads| == 2 && now.threads[1].Lookup? && now.threads[1].key == key
    ensures now.threads[1].r.Answered? && !now.threads[1].r.result
  {
    hide During, Contains, Attained;
    var c: Choice<E> := Choice(1, false, DoWalk);
    var s1 := Step(t, s, 1, c);
    assert StepOf(t, s, 1, s1) && Steps(t, s, s1);
    StaysDuring(t, was, s, s1);
    now := Step(t, s1, 1, c);
    assert StepOf(t, s1, 1, now) && Steps(t, s1, now);
    StaysDuring(t, was, s1, now);
    LookupVerdict(t, 2, was, now, 1);
    HasLast(t, was, ks);
    assert t.Lt(ks[MID], ks[NODE_CAPACITY - 1]);
    t.Order3(ks[MID], key, ks[MID]);
  }

  lemma HasLast<E(!new)>(t: Traits<E>, was: State<E>, ks: seq<E>)
    requires |ks| == NODE_CAPACITY + 1 && HeadHolds(t, was, ks, NODE_CAPACITY)
    ensures Has(t, was.sh.published, ks[NODE_CAPACITY - 1])
  {
    hide Attained;
    t.Order3(ks[NODE_CAPACITY - 1], ks[NODE_CAPACITY - 1], ks[NODE_CAPACITY - 1]);
    assert was.sh.published[NODE_CAPACITY - 1] == ks[NODE_CAPACITY - 1];
  }

  /**
   The run: fifteen keys fill the head; a lookup of the last of them descends to the head;
   a sixteenth insert splits it; the lookup reloads, finds the left half, and answers false.
   */
  lemma LookupCanMiss<E(!new)>(t: Traits<E>, ks: seq<E>) returns (was: State<E>, now: State<E>)
    requires t.TotalOrder() && t.HintPromise() && Sorted(t, ks) && |ks| == NODE_CAPACITY + 1
    ensures During(t, 2, was, now, 1) && Has(t, was.sh.published, ks[NODE_CAPACITY - 1])
    ensures |now.threads| == 2 && now.threads[1].Lookup? && now.threads[1].key == ks[NODE_CAPACITY - 1]
    ensures now.threads[1].r.Answered? && !now.threads[1].r.result
  {
    hide Attained, During, Leads, Sorted, LinksAway, ScanFrom;
    var key := ks[NODE_CAPACITY - 1];
    was := HeadFills(t, ks, NODE_CAPACITY);
    ScanStays(t, was, ks, NODE_CAPACITY, key);
    var s1 := LookupBegins(t, was, key);
    var s2 := LookupDescends(t, was, s1, key);
    var s3 := Splits(t, s2, ks);
    LeadsDuring(t, was, s2, s3);
    now := Misses(t, was, s3, ks, key);
    HasLast(t, was, ks);
  }
}
