/**
 One writer running alone: thread 0 inserts from start to finish while thread 1, wherever
 it is, takes no step. Every state on the way is reached by the machine, and the last one
 is written out.
 */
module Solo {
  import opened OrderWord
  import opened Surrogate
  import opened Ordering
  import opened Payloads
  import opened Machine
  import opened Invariant
  import opened Publishing
  import opened NodeSplit
  import opened Descents
  import opened WriterSteps
  import opened ReaderSteps
  import opened Safety
  import opened Reachable
  import opened Quiet
  import opened Scan

  /** Successive states of a run from `s`, thread 1 taking no step. */
  ghost predicate Successive<E(!new)>(t: Traits<E>, trace: seq<State<E>>, s: State<E>)
    requires |s.threads| == 2
  {
    && |trace| > 0 && trace[0] == s
    && (forall i :: 0 < i < |trace| ==> Steps(t, trace[i - 1], trace[i]))
    && (forall i :: 0 <= i < |trace| ==> |trace[i].threads| == 2 && trace[i].threads[1] == s.threads[1])
  }

  ghost predicate Leads<E(!new)>(t: Traits<E>, a: State<E>, b: State<E>)
    requires |a.threads| == 2
  {
    exists trace: seq<State<E>> :: Successive(t, trace, a) && b == trace[|trace| - 1]
  }

  lemma LeadsHere<E(!new)>(t: Traits<E>, a: State<E>)
    requires |a.threads| == 2
    ensures Leads(t, a, a)
  {
    assert Successive(t, [a], a);
  }

  lemma LeadsOn<E(!new)>(t: Traits<E>, a: State<E>, b: State<E>, c: State<E>)
    requires |a.threads| == 2 && Leads(t, a, b) && Steps(t, b, c) && |c.threads| == 2 && c.threads[1] == a.threads[1]
    ensures Leads(t, a, c)
  {
    hide Steps;
    var trace: seq<State<E>> :| Successive(t, trace, a) && b == trace[|trace| - 1];
    assert Successive(t, trace + [c], a);
  }

  /** Thread 0 is part-way through an insert begun in `a`. */
  ghost predicate Underway<E(!new)>(t: Traits<E>, a: State<E>, s: State<E>, key: E)
  {
    && t.TotalOrder() && t.HintPromise() && |a.threads| == 2 && Leads(t, a, s)
    && Attained(t, 2, s) && |s.threads| == 2 && s.threads[1] == a.threads[1]
    && s.threads[0].Insert? && s.threads[0].key == key
  }

  /** Thread 0 idle and every lock free. */
  ghost predicate Rested<E(!new)>(t: Traits<E>, s: State<E>)
  {
    && t.TotalOrder() && t.HintPromise() && Attained(t, 2, s) && |s.threads| == 2 && s.threads[0].Idle?
    && forall n :: 0 <= n < |s.sh.nodes| ==> s.sh.nodes[n].lock.None?
  }

  /** One step of thread 0. */
  lemma Go<E(!new)>(t: Traits<E>, a: State<E>, s: State<E>, key: E) returns (s': State<E>)
    requires Underway(t, a, s, key)
    ensures s' == State(WriterStep(t, 0, s.sh, s.threads[0], Choice(1, false, DoWalk)).0,
                        [WriterStep(t, 0, s.sh, s.threads[0], Choice(1, false, DoWalk)).1, s.threads[1]])
    ensures s'.threads[0].Insert? && s'.threads[0].key == key ==> Underway(t, a, s', key)
    ensures Attained(t, 2, s') && Leads(t, a, s')
  {
    hide WriterStep, Attained, Leads;
    var c: Choice<E> := Choice(1, false, DoWalk);
    s' := Step(t, s, 0, c);
    StepAttained(t, 2, s, 0, c);
    assert s'.threads == [WriterStep(t, 0, s.sh, s.threads[0], c).1, s.threads[1]];
    assert StepOf(t, s, 0, s') && Steps(t, s, s');
    LeadsOn(t, a, s, s');
  }

  lemma UnderwayInv<E(!new)>(t: Traits<E>, a: State<E>, s: State<E>, key: E)
    requires Underway(t, a, s, key)
    ensures SharedInv(t, s.sh) && ThreadOk(t, 0, s.sh, s.threads[0]) && (Pending(s.threads[0]) ==> Unpublished(t, s.sh, key))
  {
    hide Attained, SharedInv, ThreadOk;
    AttainedInv(t, 2, s);
  }

  lemma Begins<E(!new)>(t: Traits<E>, a: State<E>, key: E) returns (s: State<E>)
    requires Rested(t, a) && Admissible(t, a, key)
    ensures Underway(t, a, s, key) && s.sh == a.sh && s.threads[0].w == Descending(Descend(0))
  {
    hide Attained, Admissible, Leads;
    var c := Choice(1, false, DoInsert(key));
    s := Step(t, a, 0, c);
    StepAttained(t, 2, a, 0, c);
    assert s.threads == [Insert(key, Descending(Descend(0)), |a.sh.chain|, 0, |a.sh.chain|), a.threads[1]];
    assert StepOf(t, a, 0, s) && Steps(t, a, s);
    LeadsHere(t, a);
    LeadsOn(t, a, a, s);
  }

  /** Down to the node the comparator-only scan finds. */
  lemma {:induction false} Descends<E(!new)>(t: Traits<E>, a: State<E>, s: State<E>, key: E) returns (s': State<E>)
    requires Underway(t, a, s, key) && s.threads[0].w.Descending? && s.threads[0].w.at.floor == 0
    requires var at := s.threads[0].w.at; at.probe.Some? && at.lv == 0 ==> at.base == DataOf(t, s.sh, at.cur)
    ensures Underway(t, a, s', key) && s'.sh == s.sh
    ensures var cur := ScanFrom(t, s.sh, 0, key, |s.sh.chain|); s'.threads[0].w == Locking(cur, DataOf(t, s.sh, cur))
    decreases LoadsLeft(s.sh, s.threads[0].w.at)
  {
    hide SharedInv, DescentOk, Landed, ScanFrom, DescentStep, Attained, Leads, LoadsLeft, Unpublished;
    UnderwayInv(t, a, s, key);
    var at := s.threads[0].w.at;
    s' := Go(t, a, s, key);
    DescentSound(t, s.sh, key, at);
    match DescentStep(t, s.sh, key, at)
    case Going(to) =>
      LoadsDrop(t, s.sh, key, at);
      DescentData(t, s.sh, key, at, to);
      s' := Descends(t, a, s', key);
    case Reached(cur, base) =>
      DescentLands(t, s.sh, key, at, cur, base);
      AgreesWithScan(t, s.sh, cur, key);
  }

  // ---- the lock and belongs_here ---------------------------------------------------------------

  ghost function WithLock<E(!new)>(a: Shared<E>, cur: NodeId): Shared<E>
    requires cur < |a.nodes|
  {
    a.(nodes := a.nodes[cur := a.nodes[cur].(lock := Some(0))])
  }

  /** Where an insert of the key goes: the scanned node and its payload. */
  ghost predicate Target<E(!new)>(t: Traits<E>, a: Shared<E>, key: E, cur: NodeId, d: PayloadId)
  {
    && cur == ScanFrom(t, a, 0, key, |a.chain|) && cur in a.chain && cur < |a.nodes| && a.nodes[cur].data == Some(d)
    && d in a.installed && d < |a.payloads| && a.payloads[d].d.Shaped() && Above(t, a, a.payloads[d].d.next, key)
  }

  lemma TargetIs<E(!new)>(t: Traits<E>, a: Shared<E>, key: E) returns (cur: NodeId, d: PayloadId)
    requires t.TotalOrder() && SharedInv(t, a)
    ensures Target(t, a, key, cur, d) && AtOrBelow(t, a, cur, key)
  {
    hide SharedInv, ScanFrom;
    HeadFirst(t, a);
    ChainInRange(t, a);
    ScanLands(t, a, 0, key, |a.chain|);
    cur := ScanFrom(t, a, 0, key, |a.chain|);
    DataIs(t, a, cur);
    d := DataOf(t, a, cur);
    InstalledShaped(t, a, d);
  }

  /** Locked, its payload loaded. */
  lemma TakesLock<E(!new)>(t: Traits<E>, a: State<E>, s: State<E>, key: E, cur: NodeId, d: PayloadId) returns (s': State<E>)
    requires Underway(t, a, s, key) && s.threads[0].w == Locking(cur, d) && cur < |s.sh.nodes|
    requires s.sh.nodes[cur].data == Some(d) && s.sh.nodes[cur].lock.None?
    ensures Underway(t, a, s', key) && s'.sh == WithLock(s.sh, cur) && s'.threads[0].w == LoadingNext(cur, d, d)
  {
    hide SharedInv, Attained, Leads;
    var s1 := Go(t, a, s, key);
    assert s1.threads[0].w == LoadingData(cur, d) && s1.sh == WithLock(s.sh, cur);
    s' := Go(t, a, s1, key);
  }

  /** And its successor not in the way. */
  lemma Locks<E(!new)>(t: Traits<E>, a: State<E>, s: State<E>, key: E, cur: NodeId, d: PayloadId) returns (s': State<E>)
    requires Underway(t, a, s, key) && s.threads[0].w == Locking(cur, d) && Target(t, s.sh, key, cur, d)
    requires s.sh.nodes[cur].lock.None?
    ensures Underway(t, a, s', key) && s'.sh == WithLock(s.sh, cur) && s'.threads[0].w == LoadingOrder(cur, d)
  {
    hide SharedInv, Attained, Leads, ScanFrom, Unpublished;
    var s1 := TakesLock(t, a, s, key, cur, d);
    s' := Go(t, a, s1, key);
    var nx := s.sh.payloads[d].d.next;
    if nx.Some? {
      UnderwayInv(t, a, s1, key);
      assert s'.threads[0].w == LoadingNextOrder(cur, d, d, DataOf(t, s1.sh, nx.value)) && s'.sh == s1.sh;
      Accepts(t, s'.sh, key, nx.value, d);
      s' := Go(t, a, s', key);
    }
  }

  /** belongs_here answers true when the successor starts above the key. */
  lemma Accepts<E(!new)>(t: Traits<E>, sh: Shared<E>, key: E, nx: NodeId, d: PayloadId)
    requires t.TotalOrder() && SharedInv(t, sh) && d in sh.installed && d < |sh.payloads| && sh.payloads[d].d.next == Some(nx)
    requires nx < |sh.nodes| && t.Lt(key, sh.nodes[nx].low)
    ensures var p := PayloadAt(t, sh, DataOf(t, sh, nx)); |p.order| > 0 && t.compare(SeenRun(t, p, p.order)[0], key) > 0
  {
    hide SharedInv;
    InstalledNext(t, sh, d);
    FirstKeys(t, sh, nx);
  }

  // ---- append ----------------------------------------------------------------------------------

  ghost function WithPayload<E(!new)>(a: Shared<E>, d: PayloadId, p: Payload<E>): Shared<E>
    requires d < |a.payloads|
  {
    a.(payloads := a.payloads[d := a.payloads[d].(d := p)])
  }

  ghost function WithHint<E(!new)>(a: Shared<E>, n: NodeId, h: uint64): Shared<E>
    requires n < |a.nodes|
  {
    a.(nodes := a.nodes[n := a.nodes[n].(hint := h)])
  }

  /** What an append by a lone writer leaves behind. */
  ghost predicate IsAppended<E(!new)>(t: Traits<E>, a: Shared<E>, b: Shared<E>, key: E, cur: NodeId, d: PayloadId)
  {
    && cur < |a.nodes| && d < |a.payloads| && a.payloads[d].d.Shaped() && a.payloads[d].d.Count() < NODE_CAPACITY
    && b.chain == a.chain && b.published == a.published + [key] && b.installed == a.installed
    && b.payloads == a.payloads[d := a.payloads[d].(d := Appended(t, a.payloads[d].d, key))]
    && b.nodes == a.nodes[cur := a.nodes[cur].(hint :=
         if LowerBound(t, a.payloads[d].d.Run(), key) == 0 then t.Hint(key) else a.nodes[cur].hint)]
  }

  /** The slot's two stores. */
  lemma StoresSlot<E(!new)>(t: Traits<E>, a: State<E>, s: State<E>, key: E, cur: NodeId, d: PayloadId) returns (s': State<E>)
    requires Underway(t, a, s, key) && s.threads[0].w == LoadingOrder(cur, d) && d < |s.sh.payloads|
    requires var p := s.sh.payloads[d].d; p.Shaped() && p.Count() < NODE_CAPACITY
    ensures var p := s.sh.payloads[d].d;
      && Underway(t, a, s', key) && s'.sh == WithPayload(s.sh, d, WithSlot(t, p, key))
      && s'.threads[0].w == (if RankIn(t, WithSlot(t, p, key), p.order, key) == 0
                             then CheckingHint(cur, d, p.order) else StoringOrder(cur, d, p.order))
  {
    hide SharedInv, Attained, Leads, LaneOf, RankIn, Permutation;
    var p := s.sh.payloads[d].d;
    var s1 := Go(t, a, s, key);
    assert s1.threads[0].w == StoringKey(cur, d, p.order) && s1.sh == s.sh;
    var s2 := Go(t, a, s1, key);
    var p2 := p.(keys := p.keys[p.Count() := key]);
    assert s2.threads[0].w == StoringLane(cur, d, p.order) && s2.sh == WithPayload(s.sh, d, p2);
    KeySlotSame(t, p, key);
    s' := Go(t, a, s2, key);
    assert s'.sh == WithPayload(s.sh, d, p2.(lanes := p2.lanes[p.Count() := LaneOf(t, p2, p.order, key)]));
  }

  /** The key already in the free slot changes neither the lane nor the rank computed for it. */
  lemma KeySlotSame<E(!new)>(t: Traits<E>, p: Payload<E>, key: E)
    requires p.Shaped() && p.Count() < NODE_CAPACITY
    ensures var p2 := p.(keys := p.keys[p.Count() := key]);
      && LaneOf(t, p2, p.order, key) == LaneOf(t, p, p.order, key)
      && RankIn(t, p2, p.order, key) == RankIn(t, p, p.order, key) == RankIn(t, WithSlot(t, p, key), p.order, key)
  {
    var p2 := p.(keys := p.keys[p.Count() := key]);
    assert SeenRun(t, p2, p.order) == SeenRun(t, p, p.order) == SeenRun(t, WithSlot(t, p, key), p.order);
    hide SurrogateAt, LowerBound;
  }

  /** publish_hint, where the rank is 0. */
  lemma StoresHint<E(!new)>(t: Traits<E>, a: State<E>, s: State<E>, key: E, cur: NodeId, d: PayloadId, o: seq<nat>)
    returns (s': State<E>)
    requires Underway(t, a, s, key) && s.threads[0].w == CheckingHint(cur, d, o) && cur < |s.sh.nodes|
    ensures Underway(t, a, s', key) && s'.sh == WithHint(s.sh, cur, t.Hint(key))
    ensures s'.threads[0].w == StoringOrder(cur, d, o)
  {
    hide SharedInv, Attained, Leads;
    s' := Go(t, a, s, key);
    if s.sh.nodes[cur].hint != t.Hint(key) {
      assert s'.threads[0].w == StoringHint(cur, d, o) && s'.sh == s.sh;
      s' := Go(t, a, s', key);
    } else {
      assert WithHint(s.sh, cur, t.Hint(key)) == s.sh;
    }
  }

  /** The order store, and the lock dropped. */
  lemma Publishes<E(!new)>(t: Traits<E>, a: State<E>, s: State<E>, key: E, cur: NodeId, d: PayloadId, p: Payload<E>)
    returns (s': State<E>)
    requires Underway(t, a, s, key) && s.threads[0].w == StoringOrder(cur, d, p.order) && cur < |s.sh.nodes|
    requires p.Shaped() && p.Count() < NODE_CAPACITY && d < |s.sh.payloads| && s.sh.payloads[d].d == WithSlot(t, p, key)
    ensures Attained(t, 2, s') && Leads(t, a, s') && s'.threads == [Idle, s.threads[1]]
    ensures s'.sh == WithPayload(s.sh, d, Appended(t, p, key))
                     .(nodes := s.sh.nodes[cur := s.sh.nodes[cur].(lock := None)], published := s.sh.published + [key])
  {
    hide SharedInv, Attained, Leads, RankIn, Appended, WithSlot, Permutation;
    WithSlotAppends(t, p, key);
    var s1 := Go(t, a, s, key);
    assert s1.threads[0].w == Unlocking(cur);
    s' := Go(t, a, s1, key);
  }

  /** From LoadingOrder in a node with room to the end. */
  lemma AppendsAlone<E(!new)>(t: Traits<E>, a: State<E>, s: State<E>, key: E, cur: NodeId, d: PayloadId) returns (s': State<E>)
    requires Underway(t, a, s, key) && s.threads[0].w == LoadingOrder(cur, d)
    requires cur < |a.sh.nodes| && s.sh == WithLock(a.sh, cur) && a.sh.nodes[cur].lock.None? && d < |a.sh.payloads|
    requires a.sh.payloads[d].d.Shaped() && a.sh.payloads[d].d.Count() < NODE_CAPACITY
    ensures Attained(t, 2, s') && Leads(t, a, s') && s'.threads == [Idle, a.threads[1]]
    ensures IsAppended(t, a.sh, s'.sh, key, cur, d)
  {
    hide SharedInv, Attained, Leads, RankIn, Appended, WithSlot, WriterStep, LowerBound;
    var p := a.sh.payloads[d].d;
    WithSlotAppends(t, p, key);
    KeySlotSame(t, p, key);
    var s1 := StoresSlot(t, a, s, key, cur, d);
    if RankIn(t, WithSlot(t, p, key), p.order, key) == 0 {
      s1 := StoresHint(t, a, s1, key, cur, d, p.order);
    }
    assert s1.sh.nodes == a.sh.nodes[cur := a.sh.nodes[cur].(lock := Some(0), hint :=
      if LowerBound(t, p.Run(), key) == 0 then t.Hint(key) else a.sh.nodes[cur].hint)];
    assert s1.sh.payloads == WithPayload(a.sh, d, WithSlot(t, p, key)).payloads;
    s' := Publishes(t, a, s1, key, cur, d, p);
  }

  /** An insert up to the choice between append and split. */
  lemma ReachesNode<E(!new)>(t: Traits<E>, a: State<E>, key: E) returns (s: State<E>, cur: NodeId, d: PayloadId)
    requires Rested(t, a) && Admissible(t, a, key)
    ensures Target(t, a.sh, key, cur, d) && Underway(t, a, s, key) && s.sh == WithLock(a.sh, cur)
    ensures s.threads[0].w == LoadingOrder(cur, d) && Unpublished(t, a.sh, key) && AtOrBelow(t, a.sh, cur, key)
  {
    hide SharedInv, Attained, Leads, ScanFrom, Unpublished;
    AttainedInv(t, 2, a);
    cur, d := TargetIs(t, a.sh, key);
    s := Begins(t, a, key);
    s := Descends(t, a, s, key);
    assert DataOf(t, a.sh, cur) == d;
    s := Locks(t, a, s, key, cur, d);
  }

  /** A whole insert into a node with room: the machine comes to rest with exactly the append made. */
  lemma InsertsByAppend<E(!new)>(t: Traits<E>, a: State<E>, key: E) returns (b: State<E>, cur: NodeId, d: PayloadId)
    requires Rested(t, a) && Admissible(t, a, key)
    ensures Target(t, a.sh, key, cur, d)
    ensures a.sh.payloads[d].d.Count() < NODE_CAPACITY ==>
      Rested(t, b) && b.threads[1] == a.threads[1] && Leads(t, a, b) && IsAppended(t, a.sh, b.sh, key, cur, d)
  {
    hide SharedInv, Attained, Leads, ScanFrom, Unpublished, Admissible, Appended, LowerBound;
    var s;
    s, cur, d := ReachesNode(t, a, key);
    b := s;
    if a.sh.payloads[d].d.Count() < NODE_CAPACITY { b := AppendsAlone(t, a, s, key, cur, d); }
  }

  // ---- split -----------------------------------------------------------------------------------

  /** The structure a lone writer has prepared when it reaches the payload swap. */
  ghost predicate IsPrepared<E(!new)>(t: Traits<E>, a: Shared<E>, b: Shared<E>, key: E, cur: NodeId, d: PayloadId)
  {
    && cur < |a.nodes| && d < |a.payloads| && a.payloads[d].d.Shaped() && a.payloads[d].d.Count() == NODE_CAPACITY
    && b.chain == a.chain && b.published == a.published && b.installed == a.installed
    && (var m := FullRun(t, a.payloads[d].d, key);
        && b.payloads == a.payloads + [Cell(Filled(t, m[MID..], a.payloads[d].d.next), |a.nodes|, 0),
                                       Cell(Filled(t, m[..MID], Some(|a.nodes|)), cur, 0)]
        && b.nodes == a.nodes[cur := a.nodes[cur].(lock := Some(0), hint := t.Hint(m[0]))]
                      + [Node(Some(|a.payloads|), t.Hint(m[MID]), None, 1, seq(MAX_HEIGHT, i => None), m[MID], 0)])
  }

  /** The private builds. */
  lemma BuildsHalves<E(!new)>(t: Traits<E>, a: State<E>, s: State<E>, key: E, cur: NodeId, d: PayloadId) returns (s': State<E>)
    requires Underway(t, a, s, key) && s.threads[0].w == LoadingOrder(cur, d) && d < |s.sh.payloads|
    requires s.sh.payloads[d].d.Shaped() && s.sh.payloads[d].d.Count() == NODE_CAPACITY
    ensures Underway(t, a, s', key) && s'.sh == AfterBuild(t, 0, s.sh, key, cur, d, 1)
    ensures s'.threads[0].w == HintingSibling(cur, d, |s.sh.nodes|, |s.sh.payloads|, |s.sh.payloads| + 1)
  {
    hide SharedInv, Attained, Leads, AfterBuild, Merged, Permutation;
    var o := s.sh.payloads[d].d.order;
    var s1 := Go(t, a, s, key);
    assert s1.threads[0].w == Building(cur, d, o) && s1.sh == s.sh;
    s' := Go(t, a, s1, key);
    BuildingIs(t, 0, s1.sh, s1.threads[0], Choice(1, false, DoWalk));
  }

  lemma HintsSibling<E(!new)>(t: Traits<E>, a: State<E>, s: State<E>, key: E, cur: NodeId, d: PayloadId,
                              sib: NodeId, right: PayloadId, left: PayloadId) returns (s': State<E>)
    requires Underway(t, a, s, key) && s.threads[0].w == HintingSibling(cur, d, sib, right, left)
    requires sib < |s.sh.nodes| && right < |s.sh.payloads|
    ensures Underway(t, a, s', key) && s'.threads[0].w == FillingSibling(cur, d, sib, right, left)
    ensures s'.sh == WithHint(s.sh, sib, t.Hint(FirstOf(t, s.sh.payloads[right].d)))
  {
    hide SharedInv, Attained, Leads, FirstOf, WriterStep;
    s' := Go(t, a, s, key);
    HintingIs(t, 0, s.sh, s.threads[0], Choice(1, false, DoWalk));
  }

  /** The sibling's hint and payload pointer. */
  lemma FillsSibling<E(!new)>(t: Traits<E>, a: State<E>, s: State<E>, key: E, cur: NodeId, d: PayloadId,
                              sib: NodeId, right: PayloadId, left: PayloadId) returns (s': State<E>)
    requires Underway(t, a, s, key) && s.threads[0].w == HintingSibling(cur, d, sib, right, left)
    requires sib < |s.sh.nodes| && right < |s.sh.payloads|
    ensures Underway(t, a, s', key) && s'.threads[0].w == CheckingLeftHint(cur, d, sib, right, left)
    ensures s'.sh == s.sh.(nodes := s.sh.nodes[sib := s.sh.nodes[sib].(
      hint := t.Hint(FirstOf(t, s.sh.payloads[right].d)), data := Some(right))])
  {
    hide SharedInv, Attained, Leads, FirstOf, WriterStep;
    var s1 := HintsSibling(t, a, s, key, cur, d, sib, right, left);
    s' := Go(t, a, s1, key);
    FillingIs(t, 0, s1.sh, s1.threads[0], Choice(1, false, DoWalk));
  }

  /** The split node's own hint. */
  lemma HintsLeft<E(!new)>(t: Traits<E>, a: State<E>, s: State<E>, key: E, cur: NodeId, d: PayloadId,
                           sib: NodeId, right: PayloadId, left: PayloadId) returns (s': State<E>)
    requires Underway(t, a, s, key) && s.threads[0].w == CheckingLeftHint(cur, d, sib, right, left)
    requires cur < |s.sh.nodes| && left < |s.sh.payloads|
    ensures Underway(t, a, s', key) && s'.threads[0].w == Swapping(cur, d, sib, right, left)
    ensures s'.sh == WithHint(s.sh, cur, t.Hint(FirstOf(t, s.sh.payloads[left].d)))
  {
    hide SharedInv, Attained, Leads, FirstOf;
    var h := t.Hint(FirstOf(t, s.sh.payloads[left].d));
    s' := Go(t, a, s, key);
    if s.sh.nodes[cur].hint != h {
      assert s'.threads[0].w == StoringLeftHint(cur, d, sib, right, left) && s'.sh == s.sh;
      s' := Go(t, a, s', key);
    } else {
      assert WithHint(s.sh, cur, h) == s.sh;
    }
  }

  /** An insert into a full node, up to its second publishing store. */
  lemma ReachesSwap<E(!new)>(t: Traits<E>, a: State<E>, s: State<E>, key: E, cur: NodeId, d: PayloadId) returns (s': State<E>)
    requires Underway(t, a, s, key) && s.threads[0].w == LoadingOrder(cur, d)
    requires cur < |a.sh.nodes| && s.sh == WithLock(a.sh, cur) && d < |a.sh.payloads|
    requires a.sh.payloads[d].d.Shaped() && a.sh.payloads[d].d.Count() == NODE_CAPACITY
    ensures Underway(t, a, s', key) && IsPrepared(t, a.sh, s'.sh, key, cur, d)
    ensures s'.threads[0].w == Swapping(cur, d, |a.sh.nodes|, |a.sh.payloads|, |a.sh.payloads| + 1)
  {
    hide SharedInv, Attained, Leads, FirstOf, WriterStep, AfterBuild, Filled, LowerBound, FullRun;
    var sib, right, left := |a.sh.nodes|, |a.sh.payloads|, |a.sh.payloads| + 1;
    var m := FullRun(t, a.sh.payloads[d].d, key);
    var s1 := BuildsHalves(t, a, s, key, cur, d);
    Built(t, s.sh, key, cur, d, 1);
    var s2 := FillsSibling(t, a, s1, key, cur, d, sib, right, left);
    s' := HintsLeft(t, a, s2, key, cur, d, sib, right, left);
    HalfFirst(t, m, sib);
    OtherFirst(t, m, a.sh.payloads[d].d.next);
  }

  lemma OtherFirst<E(!new)>(t: Traits<E>, m: seq<E>, next: Option<NodeId>)
    requires |m| == NODE_CAPACITY + 1
    ensures FirstOf(t, Filled(t, m[MID..], next)) == m[MID]
  {
    SeenIsRun(t, Filled(t, m[MID..], next));
  }

  /** What a split by a lone writer leaves behind, its sibling of height one in no tower. */
  ghost predicate IsSplitAlone<E(!new)>(t: Traits<E>, a: Shared<E>, b: Shared<E>, key: E, cur: NodeId, d: PayloadId)
  {
    && cur < |a.nodes| && d < |a.payloads| && a.payloads[d].d.Shaped() && a.payloads[d].d.Count() == NODE_CAPACITY
    && b.chain == ChainWith(a.chain, cur, |a.nodes|) && b.published == a.published + [key]
    && (var m := FullRun(t, a.payloads[d].d, key);
        && b.payloads == a.payloads + [Cell(Filled(t, m[MID..], a.payloads[d].d.next), |a.nodes|, 0),
                                       Cell(Filled(t, m[..MID], Some(|a.nodes|)), cur, 0)]
        && b.nodes == a.nodes[cur := a.nodes[cur].(lock := None, hint := t.Hint(m[0]), data := Some(|a.payloads| + 1))]
                      + [Node(Some(|a.payloads|), t.Hint(m[MID]), None, 1, seq(MAX_HEIGHT, i => None), m[MID], 0)])
  }

  /** From the swap to the end. */
  lemma SwapsAlone<E(!new)>(t: Traits<E>, a: State<E>, s: State<E>, key: E, cur: NodeId, d: PayloadId) returns (s': State<E>)
    requires Underway(t, a, s, key) && IsPrepared(t, a.sh, s.sh, key, cur, d)
    requires s.threads[0].w == Swapping(cur, d, |a.sh.nodes|, |a.sh.payloads|, |a.sh.payloads| + 1)
    ensures Attained(t, 2, s') && Leads(t, a, s') && s'.threads == [Idle, a.threads[1]]
    ensures IsSplitAlone(t, a.sh, s'.sh, key, cur, d)
  {
    hide SharedInv, Attained, Leads, FirstOf, Filled, LowerBound, FullRun, ChainWith, WriterStep;
    var c: Choice<E> := Choice(1, false, DoWalk);
    var sib := |a.sh.nodes|;
    var s1 := Go(t, a, s, key);
    SwappingIs(t, 0, s.sh, s.threads[0], c);
    assert s1.threads[0].w.Linking? && NodeAt(t, s1.sh, sib).height == 1;
    var s2 := Go(t, a, s1, key);
    LinkingEnds(t, s1.sh, s1.threads[0], c);
    assert s2.sh == s1.sh && s2.threads[0].w == Unlocking(cur);
    s' := Go(t, a, s2, key);
    UnlockingIs(t, s2.sh, s2.threads[0], c);
  }

  /** A sibling of height one has no tower level to link. */
  lemma LinkingEnds<E(!new)>(t: Traits<E>, sh: Shared<E>, th: Thread<E>, c: Choice<E>)
    requires th.Insert? && th.w.Linking? && th.w.lv >= 1 && NodeAt(t, sh, th.w.sib).height == 1
    ensures WriterStep(t, 0, sh, th, c) == (sh, th.(w := Unlocking(th.w.cur)))
  {
  }

  lemma UnlockingIs<E(!new)>(t: Traits<E>, sh: Shared<E>, th: Thread<E>, c: Choice<E>)
    requires th.Insert? && th.w.Unlocking? && th.w.cur < |sh.nodes|
    ensures WriterStep(t, 0, sh, th, c) == (sh.(nodes := sh.nodes[th.w.cur := sh.nodes[th.w.cur].(lock := None)]), Idle)
  {
  }

  /** A whole insert into a full node. */
  lemma InsertsBySplit<E(!new)>(t: Traits<E>, a: State<E>, key: E) returns (b: State<E>, cur: NodeId, d: PayloadId)
    requires Rested(t, a) && Admissible(t, a, key)
    ensures Target(t, a.sh, key, cur, d)
    ensures a.sh.payloads[d].d.Count() == NODE_CAPACITY ==>
      Rested(t, b) && b.threads[1] == a.threads[1] && Leads(t, a, b) && IsSplitAlone(t, a.sh, b.sh, key, cur, d)
  {
    hide SharedInv, Attained, Leads, ScanFrom, Unpublished, Admissible, Filled, LowerBound, FullRun, ChainWith, IsPrepared;
    var s;
    s, cur, d := ReachesNode(t, a, key);
    b := s;
    if a.sh.payloads[d].d.Count() == NODE_CAPACITY {
      b := ReachesSwap(t, a, s, key, cur, d);
      b := SwapsAlone(t, a, b, key, cur, d);
    }
  }
}
