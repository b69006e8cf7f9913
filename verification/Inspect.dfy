/**
 check_invariants (include/aparajita/memtable.hpp, lines 411-522): the full walk over a
 quiesced structure that reports the first invariant found broken. On a sound table
 only what it asks of lanes and prefixes can ever be reported.
 */
module Inspection {
  import opened OrderWord
  import opened Surrogate
  import opened Ordering
  import opened Kernels
  import opened Payloads
  import opened HeadLanes
  import opened NodeDatas
  import opened Machine
  import opened Invariant
  import opened Publishing
  import opened NodeSplit
  import opened ReaderSteps
  import opened LevelZero
  import opened Quiet
  import opened Tables
  import opened Cursors

  datatype Finding =
    | Clean
    | TooManyKeys | SlotNeverFilled | SlotNamedTwice
    | KeysOutOfOrder | LanesOutOfOrder
    | LaneDisagrees | LaneUnsaturated
    | PrefixTooShort
    | HintDisagrees | NodesOutOfOrder

  /** All that check_invariants asks of a node's lanes and prefix. */
  ghost predicate NodeSound<E(!new)>(t: Traits<E>, p: Payload<E>, isHead: bool)
    requires p.Shaped()
  {
    LanesSound(t, p) && PrefixSound(t, p, isHead)
  }

  ghost predicate PrefixSound<E(!new)>(t: Traits<E>, p: Payload<E>, isHead: bool)
    requires p.Shaped()
  {
    (isHead && p.next.None?) || PrefixLongEnough(t, p)
  }

  // ---- what each finding says of a node ------------------------------------------------------

  /** The ranks below r name filled slots, each once. */
  ghost predicate SlotsFine(order: seq<nat>, r: nat)
  {
    r <= |order| && forall i :: 0 <= i < r ==> order[i] < |order| && order[i] !in order[..i]
  }

  /** Ranks r - 1 and r, by key and by lane. */
  ghost predicate KeysStep<E(!new)>(t: Traits<E>, p: Payload<E>, r: nat)
    requires p.Shaped() && 0 < r < p.Count()
  {
    t.compare(p.KeyAt(r - 1), p.KeyAt(r)) <= 0
  }

  ghost predicate LanesStep<E(!new)>(p: Payload<E>, r: nat)
    requires p.Shaped() && 0 < r < p.Count()
  {
    p.LaneAt(r - 1) <= p.LaneAt(r)
  }

  /** The ranks below r are in order. */
  ghost predicate OrderFine<E(!new)>(t: Traits<E>, p: Payload<E>, r: nat)
    requires p.Shaped()
  {
    forall i :: 0 < i < r && i < p.Count() ==> KeysStep(t, p, i) && LanesStep(p, i)
  }

  /** The first rank whose lane is neither its key's own nor saturated where it may be. */
  ghost predicate FirstUnsound<E(!new)>(t: Traits<E>, p: Payload<E>, r: nat)
    requires p.Shaped()
  {
    r < p.Count() && !LaneSound(t, p, r) && forall i :: 0 <= i < r ==> LaneSound(t, p, i)
  }

  ghost predicate AllLanesSound<E(!new)>(t: Traits<E>, p: Payload<E>)
    requires p.Shaped()
  {
    forall r :: 0 <= r < p.Count() ==> LaneSound(t, p, r)
  }

  /** The key at the rank agrees with the rank-0 key on the stored prefix. */
  predicate OnAlphabet<E(!new)>(t: Traits<E>, p: Payload<E>, r: nat)
    requires p.Shaped() && r < p.Count()
  {
    Shares(t, p, t.orderBytes(p.KeyAt(r)))
  }

  ghost predicate HintSound<E(!new)>(t: Traits<E>, p: Payload<E>, hint: uint64)
    requires p.Shaped()
  {
    p.Count() > 0 ==> hint == t.Hint(p.KeyAt(0))
  }

  /** The findings on the order word. */
  ghost predicate ReportsSlots(order: seq<nat>, f: Finding)
  {
    match f
    case Clean => SlotsFine(order, |order|)
    case SlotNeverFilled => exists r :: 0 <= r < |order| && SlotsFine(order, r) && order[r] >= |order|
    case SlotNamedTwice => exists r :: 0 <= r < |order| && SlotsFine(order, r) && order[r] < |order| && order[r] in order[..r]
    case _ => false
  }

  /** The findings on the order of keys and lanes. */
  ghost predicate ReportsOrder<E(!new)>(t: Traits<E>, p: Payload<E>, f: Finding)
    requires p.Shaped()
  {
    match f
    case Clean => OrderFine(t, p, p.Count())
    case KeysOutOfOrder => exists r :: 0 < r < p.Count() && OrderFine(t, p, r) && !KeysStep(t, p, r)
    case LanesOutOfOrder => exists r :: 0 < r < p.Count() && OrderFine(t, p, r) && KeysStep(t, p, r) && !LanesStep(p, r)
    case _ => false
  }

  /** The findings on single lanes. */
  ghost predicate ReportsLanes<E(!new)>(t: Traits<E>, p: Payload<E>, f: Finding)
    requires p.Shaped()
  {
    match f
    case Clean => AllLanesSound(t, p)
    case LaneDisagrees => exists r :: FirstUnsound(t, p, r) && OnAlphabet(t, p, r)
    case LaneUnsaturated => exists r :: FirstUnsound(t, p, r) && !OnAlphabet(t, p, r)
    case _ => false
  }

  /** The findings on prefix and hint. */
  ghost predicate ReportsHeader<E(!new)>(t: Traits<E>, p: Payload<E>, hint: uint64, isHead: bool, f: Finding)
    requires p.Shaped()
  {
    match f
    case Clean => PrefixSound(t, p, isHead) && HintSound(t, p, hint)
    case PrefixTooShort => !PrefixSound(t, p, isHead)
    case HintDisagrees => PrefixSound(t, p, isHead) && !HintSound(t, p, hint)
    case _ => false
  }

  /** Arrays of sixteen slots; the order is whatever a word names. */
  ghost predicate Stored<E(!new)>(p: Payload<E>)
  {
    |p.keys| == NODE_KEYS && |p.lanes| == NODE_KEYS
  }

  /** The node's slots are a permutation, so the payload has its shape. */
  lemma FineShaped<E(!new)>(p: Payload<E>)
    requires Stored(p) && |p.order| <= NODE_CAPACITY
    ensures SlotsFine(p.order, |p.order|) <==> p.Shaped()
  {
    if SlotsFine(p.order, |p.order|) {
      forall i, j | 0 <= i < j < |p.order|
        ensures p.order[i] != p.order[j]
      {
        assert p.order[i] in p.order[..j];
      }
    }
  }

  /** What a finding says of any node, sound or not: the first of the checks, in the code's order, that fails. */
  ghost predicate Reports<E(!new)>(t: Traits<E>, p: Payload<E>, hint: uint64, isHead: bool, f: Finding)
    requires Stored(p)
  {
    if |p.order| > NODE_CAPACITY then f == TooManyKeys
    else if !p.Shaped() then f != Clean && ReportsSlots(p.order, f)
    else if !OrderFine(t, p, p.Count()) then f != Clean && ReportsOrder(t, p, f)
    else if !AllLanesSound(t, p) then f != Clean && ReportsLanes(t, p, f)
    else ReportsHeader(t, p, hint, isHead, f)
  }

  /** One finding fits a node, and only one. */
  lemma OneFinding<E(!new)>(t: Traits<E>, p: Payload<E>, hint: uint64, isHead: bool, f: Finding, g: Finding)
    requires Stored(p) && Reports(t, p, hint, isHead, f) && Reports(t, p, hint, isHead, g)
    ensures f == g
  {
    hide LaneSound, PrefixSound, OnAlphabet, KeysStep, LanesStep, HintSound;
    if |p.order| <= NODE_CAPACITY {
      if !p.Shaped() {
        OneSlotFinding(p.order, f, g);
      } else if !OrderFine(t, p, p.Count()) {
        OneOrderFinding(t, p, f, g);
      }
    }
  }

  lemma OneSlotFinding(order: seq<nat>, f: Finding, g: Finding)
    requires ReportsSlots(order, f) && ReportsSlots(order, g) && f != Clean && g != Clean
    ensures f == g
  {
    var r :| 0 <= r < |order| && SlotsFine(order, r) && (order[r] >= |order| || order[r] in order[..r]);
    var q :| 0 <= q < |order| && SlotsFine(order, q) && (order[q] >= |order| || order[q] in order[..q]);
  }

  lemma OneOrderFinding<E(!new)>(t: Traits<E>, p: Payload<E>, f: Finding, g: Finding)
    requires p.Shaped() && ReportsOrder(t, p, f) && ReportsOrder(t, p, g) && f != Clean && g != Clean
    ensures f == g
  {
    hide KeysStep, LanesStep;
  }

  // ---- the checks ------------------------------------------------------------------------------

  /** The order word is a permutation of the used slots. */
  method CheckSlots(order: Word, count: nat) returns (f: Finding)
    requires count == OrderCount(order) <= NODE_CAPACITY
    ensures ReportsSlots(SlotsOf(order), f)
  {
    hide OrderSlot, OrderCount;
    ghost var slots := SlotsOf(order);
    var seen := new bool[NODE_KEYS](i => false);
    var r := 0;
    while r < count
      invariant 0 <= r <= count && SlotsFine(slots, r)
      invariant forall x :: 0 <= x < NODE_KEYS ==> (seen[x] <==> x in slots[..r])
    {
      var slot := OrderSlot(order, r);
      assert slot == slots[r];
      if slot >= count { return SlotNeverFilled; }
      if seen[slot] { return SlotNamedTwice; }
      seen[slot] := true;
      assert slots[..r + 1] == slots[..r] + [slot];
      r := r + 1;
    }
    f := Clean;
  }

  /** Keys in comparator order, lanes in lane order, rank by rank. */
  method CheckOrder<E(!new)>(t: Traits<E>, d: NodeData<E>, order: Word, count: nat) returns (f: Finding)
    requires d.Sized() && order == d.order && count == OrderCount(order) && d.Raw().Shaped()
    ensures ReportsOrder(t, d.Raw(), f)
  {
    hide OrderSlot, OrderCount, Permutation;
    ghost var p := d.Raw();
    var r := 1;
    while r < count
      invariant 1 <= r && (count > 0 ==> r <= count) && d.Raw() == p
      invariant OrderFine(t, p, r)
    {
      assert d.KeyAt(order, r - 1) == p.KeyAt(r - 1) && d.KeyAt(order, r) == p.KeyAt(r);
      assert d.SurrogateAtRank(order, r - 1) == p.LaneAt(r - 1) && d.SurrogateAtRank(order, r) == p.LaneAt(r);
      if t.compare(d.KeyAt(order, r - 1), d.KeyAt(order, r)) > 0 { return KeysOutOfOrder; }
      if d.SurrogateAtRank(order, r - 1) > d.SurrogateAtRank(order, r) { return LanesOutOfOrder; }
      r := r + 1;
    }
    f := Clean;
  }

  method CheckLanes<E(!new)>(t: Traits<E>, d: NodeData<E>, order: Word, count: nat) returns (f: Finding)
    requires d.Sized() && order == d.order && count == OrderCount(order) && d.Raw().Shaped()
    ensures ReportsLanes(t, d.Raw(), f)
  {
    hide OrderSlot, OrderCount, Permutation, SurrogateAt, Shares;
    ghost var p := d.Raw();
    var r := 0;
    while r < count
      invariant 0 <= r <= count && d.Raw() == p
      invariant forall i :: 0 <= i < r ==> LaneSound(t, p, i)
    {
      assert d.KeyAt(order, r) == p.KeyAt(r) && d.SurrogateAtRank(order, r) == p.LaneAt(r);
      var bytes := t.orderBytes(d.KeyAt(order, r));
      var lane := d.SurrogateAtRank(order, r);
      var shares := d.SharesNodePrefix(t, order, bytes, []);
      if shares {
        var s := ComputeSurrogateAt(bytes, d.prefixLen);
        if lane != s {
          assert FirstUnsound(t, p, r) && OnAlphabet(t, p, r) && d.Raw() == p;
          return LaneDisagrees;
        }
      } else if lane != 0 && lane != EMPTY_KEY {
        assert FirstUnsound(t, p, r) && !OnAlphabet(t, p, r) && d.Raw() == p;
        return LaneUnsaturated;
      }
      r := r + 1;
    }
    f := Clean;
  }

  /** The prefix is long enough, unless no fill built it, and the header's hint is the first key's. */
  method CheckHeader<E(!new)>(t: Traits<E>, d: NodeData<E>, order: Word, count: nat, hint: uint64, isHead: bool) returns (f: Finding)
    requires d.Sized() && order == d.order && count == OrderCount(order) && d.Raw().Shaped()
    ensures ReportsHeader(t, d.Raw(), hint, isHead, f)
  {
    hide OrderSlot, OrderCount, Permutation, CommonPrefix;
    ghost var p := d.Raw();
    var neverFilled := isHead && d.next.None?;
    if count > 1 && !neverFilled {
      assert d.KeyAt(order, 0) == p.KeyAt(0) && d.KeyAt(order, count - 1) == p.KeyAt(count - 1);
      var actual := CommonPrefixLen(t.orderBytes(d.KeyAt(order, 0)), t.orderBytes(d.KeyAt(order, count - 1)));
      if d.prefixLen < actual { return PrefixTooShort; }
    }
    if count > 0 {
      assert d.KeyAt(order, 0) == p.KeyAt(0);
      var h := ComputeDescentHint(t.orderBytes(d.KeyAt(order, 0)));
      if hint != h { return HintDisagrees; }
    }
    f := Clean;
  }

  /** What one node's checks say, whatever the node is like. */
  method CheckNode<E(!new)>(t: Traits<E>, x: ListNode<E>, isHead: bool) returns (f: Finding)
    requires x.data.Sized()
    ensures Reports(t, x.data.Raw(), x.firstHint, isHead, f)
  {
    hide OrderCount, OrderSlot, ReportsSlots, ReportsOrder, ReportsLanes, ReportsHeader;
    hide OrderFine, AllLanesSound, Permutation;
    var d := x.data;
    var order := d.order;
    var count := OrderCount(order);
    if count > NODE_CAPACITY { return TooManyKeys; }
    f := CheckSlots(order, count);
    SlotsDecide(d.Raw(), f);
    if f != Clean { return; }
    f := CheckOrder(t, d, order, count);
    OrderDecides(t, d.Raw(), f);
    if f != Clean { return; }
    f := CheckLanes(t, d, order, count);
    LanesDecide(t, d.Raw(), f);
    if f != Clean { return; }
    f := CheckHeader(t, d, order, count, x.firstHint, isHead);
  }

  lemma SlotsDecide<E(!new)>(p: Payload<E>, f: Finding)
    requires Stored(p) && |p.order| <= NODE_CAPACITY && ReportsSlots(p.order, f)
    ensures f == Clean <==> p.Shaped()
  {
    FineShaped(p);
  }

  lemma OrderDecides<E(!new)>(t: Traits<E>, p: Payload<E>, f: Finding)
    requires p.Shaped() && ReportsOrder(t, p, f)
    ensures f == Clean <==> OrderFine(t, p, p.Count())
  {
    hide KeysStep, LanesStep;
  }

  lemma LanesDecide<E(!new)>(t: Traits<E>, p: Payload<E>, f: Finding)
    requires p.Shaped() && ReportsLanes(t, p, f)
    ensures f == Clean <==> AllLanesSound(t, p)
  {
    hide LaneSound, OnAlphabet;
  }

  // ---- the walk --------------------------------------------------------------------------------

  /** A node as its header and payload read. */
  datatype View<E(!new)> = View(p: Payload<E>, hint: uint64)

  ghost function ViewOf<E(!new)>(x: ListNode<E>): (v: View<E>)
    requires x.data.Sized()
    reads x.data, x.data.surrogates, x.data.keys
    ensures Stored(v.p)
  {
    View(x.data.Raw(), x.firstHint)
  }

  ghost function AllParts<E(!new)>(nodes: seq<ListNode<E>>): (s: set<object>)
    ensures forall n :: 0 <= n < |nodes| ==> nodes[n].data in s && nodes[n].data.surrogates in s && nodes[n].data.keys in s
  {
    (set n | 0 <= n < |nodes| :: nodes[n].data as object)
    + (set n | 0 <= n < |nodes| :: nodes[n].data.surrogates as object)
    + (set n | 0 <= n < |nodes| :: nodes[n].data.keys as object)
  }

  ghost predicate AllSized<E(!new)>(nodes: seq<ListNode<E>>)
    reads AllParts(nodes)
  {
    forall n :: 0 <= n < |nodes| ==> nodes[n].data.Sized()
  }

  ghost function Views<E(!new)>(nodes: seq<ListNode<E>>): (vs: seq<View<E>>)
    requires AllSized(nodes)
    reads AllParts(nodes)
    ensures |vs| == |nodes| && forall n :: 0 <= n < |nodes| ==> vs[n] == ViewOf(nodes[n])
  {
    seq(|nodes|, n requires 0 <= n < |nodes| && AllSized(nodes) reads AllParts(nodes) => ViewOf(nodes[n]))
  }

  /** Level 0 of the pool, from the head to its end. */
  ghost predicate Path<E(!new)>(vs: seq<View<E>>, path: seq<NodeId>)
  {
    |path| > 0 && path[0] == 0 && forall i :: 0 <= i < |path| ==> Leads(vs, path, i)
  }

  ghost predicate Leads<E(!new)>(vs: seq<View<E>>, path: seq<NodeId>, i: nat)
    requires i < |path|
  {
    path[i] < |vs| && vs[path[i]].p.next == ChainFrom(path, i + 1)
  }

  ghost predicate NodeReports<E(!new)>(t: Traits<E>, vs: seq<View<E>>, n: NodeId, f: Finding)
  {
    n < |vs| && Stored(vs[n].p) && Reports(t, vs[n].p, vs[n].hint, n == 0, f)
  }

  /** The last key of one payload is not above the first of the next. */
  ghost predicate Across<E(!new)>(t: Traits<E>, p: Payload<E>, q: Payload<E>)
    requires p.Shaped() && q.Shaped()
  {
    p.Count() > 0 && q.Count() > 0 ==> t.compare(p.KeyAt(p.Count() - 1), q.KeyAt(0)) <= 0
  }

  /** The border before the i-th node of the path, between payloads of the right shape. */
  ghost predicate AcrossAt<E(!new)>(t: Traits<E>, vs: seq<View<E>>, path: seq<NodeId>, i: nat)
  {
    0 < i < |path| && path[i - 1] < |vs| && path[i] < |vs| && vs[path[i - 1]].p.Shaped() && vs[path[i]].p.Shaped() ==>
      Across(t, vs[path[i - 1]].p, vs[path[i]].p)
  }

  ghost predicate StandsSound<E(!new)>(t: Traits<E>, vs: seq<View<E>>, path: seq<NodeId>, i: nat)
  {
    i < |path| && NodeReports(t, vs, path[i], Clean) && AcrossAt(t, vs, path, i)
  }

  /** The nodes before the i-th are sound, and the finding is what the checks say there. */
  ghost predicate WalkFails<E(!new)>(t: Traits<E>, vs: seq<View<E>>, path: seq<NodeId>, i: nat, f: Finding)
  {
    && i < |path| && (forall j :: 0 <= j < i ==> StandsSound(t, vs, path, j))
    && if f == NodesOutOfOrder then NodeReports(t, vs, path[i], Clean) && !AcrossAt(t, vs, path, i)
       else f != Clean && NodeReports(t, vs, path[i], f)
  }

  /** A node reported clean has the shape of a payload; none is reported for its neighbours. */
  lemma CleanShaped<E(!new)>(t: Traits<E>, p: Payload<E>, hint: uint64, isHead: bool, f: Finding)
    requires Stored(p) && Reports(t, p, hint, isHead, f)
    ensures (f == Clean ==> p.Shaped()) && f != NodesOutOfOrder
  {
    hide SlotsFine, OrderFine, AllLanesSound, PrefixSound, HintSound, FirstUnsound, OnAlphabet, KeysStep, LanesStep, Permutation;
  }

  method CheckAcross<E(!new)>(t: Traits<E>, d: NodeData<E>, e: NodeData<E>) returns (f: Finding)
    requires d.Sized() && e.Sized() && d.Raw().Shaped() && e.Raw().Shaped()
    ensures f == if Across(t, d.Raw(), e.Raw()) then Clean else NodesOutOfOrder
  {
    hide OrderCount, OrderSlot, Permutation;
    var pc, count := OrderCount(d.order), OrderCount(e.order);
    if pc > 0 && count > 0 {
      assert d.KeyAt(d.order, pc - 1) == d.Raw().KeyAt(pc - 1) && e.KeyAt(e.order, 0) == e.Raw().KeyAt(0);
      if t.compare(d.KeyAt(d.order, pc - 1), e.KeyAt(e.order, 0)) > 0 { return NodesOutOfOrder; }
    }
    f := Clean;
  }

  /**
   check_invariants over any quiesced pool whose level 0 comes to an end, however broken its
   nodes: clean exactly when every node is sound and no border between nodes is out of order,
   and otherwise the finding of the first place that fails.
   */
  method CheckWalk<E(!new)>(t: Traits<E>, nodes: seq<ListNode<E>>, ghost path: seq<NodeId>) returns (f: Finding)
    requires AllSized(nodes) && Path(Views(nodes), path)
    ensures AllSized(nodes)
    ensures f == Clean <==> forall i :: 0 <= i < |path| ==> StandsSound(t, Views(nodes), path, i)
    ensures f != Clean ==> exists i :: WalkFails(t, Views(nodes), path, i, f)
  {
    hide Reports, Across, OrderCount, OrderSlot, Permutation, StandsSound, WalkFails, AcrossAt;
    ghost var vs := Views(nodes);
    var n: Option<NodeId> := Some(0);
    var prev: Option<NodeId> := None;
    ghost var i := 0;
    while n.Some?
      invariant i <= |path| && n == ChainFrom(path, i)
      invariant prev == if i > 0 then Some(path[i - 1]) else None
      invariant AllSized(nodes) && Views(nodes) == vs
      invariant forall j :: 0 <= j < i ==> StandsSound(t, vs, path, j)
      decreases |path| - i
    {
      assert Leads(vs, path, i);
      var x := nodes[n.value];
      f := CheckNode(t, x, n.value == 0);
      StillViews(nodes, vs);
      CleanShaped(t, vs[n.value].p, x.firstHint, n.value == 0, f);
      if f != Clean {
        DirtyFails(t, vs, path, i, f);
        return;
      }
      if prev.Some? {
        SoundBefore(t, vs, path, i - 1);
        f := CheckAcross(t, nodes[prev.value].data, x.data);
        StillViews(nodes, vs);
        BorderIs(t, vs, path, i);
        if f != Clean { return; }
      } else {
        FirstIsSound(t, vs, path);
      }
      prev := n;
      n := x.data.next;
      i := i + 1;
    }
    f := Clean;
  }

  lemma SoundBefore<E(!new)>(t: Traits<E>, vs: seq<View<E>>, path: seq<NodeId>, i: nat)
    requires StandsSound(t, vs, path, i)
    ensures path[i] < |vs| && vs[path[i]].p.Shaped()
  {
    CleanShaped(t, vs[path[i]].p, vs[path[i]].hint, path[i] == 0, Clean);
  }

  lemma FirstIsSound<E(!new)>(t: Traits<E>, vs: seq<View<E>>, path: seq<NodeId>)
    requires |path| > 0 && NodeReports(t, vs, path[0], Clean)
    ensures StandsSound(t, vs, path, 0)
  {
    hide Reports;
  }

  /** The border decides once both nodes are clean. */
  lemma BorderIs<E(!new)>(t: Traits<E>, vs: seq<View<E>>, path: seq<NodeId>, i: nat)
    requires 0 < i < |path| && NodeReports(t, vs, path[i], Clean) && path[i - 1] < |vs|
    requires vs[path[i - 1]].p.Shaped() && vs[path[i]].p.Shaped() && forall j :: 0 <= j < i ==> StandsSound(t, vs, path, j)
    ensures Across(t, vs[path[i - 1]].p, vs[path[i]].p) ==> StandsSound(t, vs, path, i)
    ensures !Across(t, vs[path[i - 1]].p, vs[path[i]].p) ==>
      WalkFails(t, vs, path, i, NodesOutOfOrder) && !StandsSound(t, vs, path, i)
  {
    hide Reports, Across;
  }

  lemma DirtyFails<E(!new)>(t: Traits<E>, vs: seq<View<E>>, path: seq<NodeId>, i: nat, f: Finding)
    requires i < |path| && forall j :: 0 <= j < i ==> StandsSound(t, vs, path, j)
    requires NodeReports(t, vs, path[i], f) && f != Clean && f != NodesOutOfOrder
    ensures WalkFails(t, vs, path, i, f) && !StandsSound(t, vs, path, i)
  {
    hide Reports;
    if NodeReports(t, vs, path[i], Clean) {
      OneFinding(t, vs[path[i]].p, vs[path[i]].hint, path[i] == 0, f, Clean);
    }
  }

  lemma StillViews<E(!new)>(nodes: seq<ListNode<E>>, vs: seq<View<E>>)
    requires |vs| == |nodes|
    requires forall n :: 0 <= n < |nodes| ==> nodes[n].data.Sized() && ViewOf(nodes[n]) == vs[n]
    ensures AllSized(nodes) && Views(nodes) == vs
  {
  }

  // ---- on a sound table ------------------------------------------------------------------------

  lemma NodeHint<E(!new)>(table: MemTable<E>, n: NodeId)
    requires table.Valid() && n < |table.nodes|
    ensures var d := table.nodes[n].data;
      d.Valid() && (|d.perm| > 0 ==> table.nodes[n].firstHint == table.t.Hint(d.KeyAt(d.order, 0)))
  {
    assert table.Mirrors(n);
    hide AtRest;
    RestParts(table.t, table.sh);
    hide SharedInv;
    DataIs(table.t, table.sh, n);
    HintsExact(table.t, table.sh, n);
    FirstSlot(table.nodes[n].data);
    SeenIsRun(table.t, table.nodes[n].data.Value());
  }

  /** The payload of the i-th node on level 0. */
  function PayloadOf<E(!new)>(t: Traits<E>, sh: Shared<E>, i: nat): Payload<E>
    requires i < |sh.chain|
  {
    PayloadAt(t, sh, DataOf(t, sh, sh.chain[i]))
  }

  /** Node i passes everything that is asked of it alone. */
  ghost predicate Passes<E(!new)>(t: Traits<E>, sh: Shared<E>, i: nat)
  {
    i < |sh.chain| && PayloadOf(t, sh, i).Shaped() && NodeSound(t, PayloadOf(t, sh, i), i == 0)
  }

  lemma NodeStands<E(!new)>(table: MemTable<E>, n: NodeId)
    requires table.Valid() && n < |table.nodes|
    ensures n in table.sh.chain && table.nodes[n].data.Valid()
    ensures var i := IndexOf(table.sh.chain, n);
      PayloadOf(table.t, table.sh, i) == table.nodes[n].data.Value() && (n == 0 <==> i == 0)
  {
    assert table.Mirrors(n);
    RestParts(table.t, table.sh);
    hide AtRest, SharedInv, Decodes, Permutation;
    HeadFirst(table.t, table.sh);
    DataIs(table.t, table.sh, n);
  }

  lemma LastBelowFirst<E(!new)>(t: Traits<E>, sh: Shared<E>, i: nat)
    requires t.TotalOrder() && SharedInv(t, sh) && i + 1 < |sh.chain|
    ensures var a, b := RunAt(t, sh, i), RunAt(t, sh, i + 1);
      |a| > 0 && |b| > 0 ==> t.compare(a[|a| - 1], b[0]) <= 0
  {
    hide SharedInv;
    RunFacts(t, sh, i);
    NodeRun(t, sh, i + 1);
    HeldRun(t, sh, sh.chain[i]);
    var a, b := RunAt(t, sh, i), RunAt(t, sh, i + 1);
    SeenIsRun(t, PayloadOf(t, sh, i));
    if |a| > 0 && |b| > 0 {
      assert a[|a| - 1] in a;
      t.Order3(a[|a| - 1], b[0], a[|a| - 1]);
    }
  }

  /** Keys in order: only the lanes are left to compare. */
  lemma KeysFine<E(!new)>(t: Traits<E>, p: Payload<E>)
    requires t.TotalOrder() && p.Shaped() && Sorted(t, p.Run())
    ensures forall r :: 0 < r < p.Count() ==> KeysStep(t, p, r)
    ensures OrderFine(t, p, p.Count()) <==> RankSorted(p.lanes, p.order)
  {
    forall r | 0 < r < p.Count()
      ensures KeysStep(t, p, r)
    {
      assert t.Lt(p.Run()[r - 1], p.Run()[r]);
      t.Order3(p.KeyAt(r - 1), p.KeyAt(r), p.KeyAt(r - 1));
    }
    if RankSorted(p.lanes, p.order) {
      forall r | 0 < r < p.Count()
        ensures LanesStep(p, r)
      {
        assert p.lanes[p.order[r - 1]] <= p.lanes[p.order[r]];
      }
    }
    if OrderFine(t, p, p.Count()) {
      forall i, j | 0 <= i < j < |p.order|
        ensures p.lanes[p.order[i]] <= p.lanes[p.order[j]]
      {
        LanesClimb(t, p, i, j);
      }
    }
  }

  lemma {:induction false} LanesClimb<E(!new)>(t: Traits<E>, p: Payload<E>, i: nat, j: nat)
    requires p.Shaped() && i < j < p.Count() && OrderFine(t, p, p.Count())
    ensures p.LaneAt(i) <= p.LaneAt(j)
    decreases j
  {
    hide KeysStep, Permutation;
    assert LanesStep(p, j);
    if i < j - 1 { LanesClimb(t, p, i, j - 1); }
  }

  /** With the keys in order and the hint right, a node is clean exactly when its lanes and prefix are sound. */
  lemma CleanIsSound<E(!new)>(t: Traits<E>, p: Payload<E>, hint: uint64, isHead: bool)
    requires t.TotalOrder() && p.Shaped() && Sorted(t, p.Run()) && HintSound(t, p, hint)
    ensures Reports(t, p, hint, isHead, Clean) <==> NodeSound(t, p, isHead)
  {
    KeysFine(t, p);
    hide OrderFine, LaneSound, RankSorted, PrefixSound, HintSound, Permutation, Sorted;
    hide ReportsSlots, ReportsOrder, ReportsLanes;
  }

  lemma SoundKinds<E(!new)>(t: Traits<E>, p: Payload<E>, hint: uint64, isHead: bool, f: Finding)
    requires t.TotalOrder() && p.Shaped() && Sorted(t, p.Run()) && HintSound(t, p, hint) && Reports(t, p, hint, isHead, f)
    ensures f == Clean || f == LanesOutOfOrder || f == LaneDisagrees || f == LaneUnsaturated || f == PrefixTooShort
  {
    KeysFine(t, p);
    hide KeysStep, LanesStep, OrderFine, FirstUnsound, AllLanesSound, PrefixSound, HintSound, OnAlphabet, Permutation, Sorted;
    hide ReportsSlots;
  }

  /** What the checks see of a sound table's i-th node. */
  lemma TableView<E(!new)>(table: MemTable<E>, i: nat)
    requires table.Valid() && i < |table.sh.chain|
    ensures var n := table.sh.chain[i];
      && n < |table.nodes| && (n == 0 <==> i == 0) && table.nodes[n].data.Sized()
      && ViewOf(table.nodes[n]) == View(PayloadOf(table.t, table.sh, i), table.nodes[n].firstHint)
      && PayloadOf(table.t, table.sh, i).Shaped() && Sorted(table.t, PayloadOf(table.t, table.sh, i).Run())
      && HintSound(table.t, PayloadOf(table.t, table.sh, i), table.nodes[n].firstHint)
      && PayloadOf(table.t, table.sh, i).next == ChainFrom(table.sh.chain, i + 1)
  {
    hide AtRest, SharedInv, Decodes, Permutation, OrderCount, OrderSlot, Sorted;
    RestParts(table.t, table.sh);
    ChainInRange(table.t, table.sh);
    ChainIndex(table.t, table.sh, i);
    var n := table.sh.chain[i];
    assert n in table.sh.chain;
    NodeStands(table, n);
    NodeRunIs(table, n);
    NodeHint(table, n);
    NextIs(table, n);
    FirstSlot(table.nodes[n].data);
    SlotsOfDecoded(table.nodes[n].data.order, table.nodes[n].data.perm);
  }

  /** The view of the i-th node is that of a sound table's. */
  ghost predicate Stands<E(!new)>(table: MemTable<E>, vs: seq<View<E>>, i: nat)
    requires |vs| == |table.nodes| && i < |table.sh.chain|
    reads table
  {
    var n, p := table.sh.chain[i], PayloadOf(table.t, table.sh, i);
    && n < |vs| && (n == 0 <==> i == 0) && vs[n] == View(p, table.nodes[n].firstHint) && Stored(p)
    && p.Shaped() && Sorted(table.t, p.Run()) && HintSound(table.t, p, table.nodes[n].firstHint)
    && p.next == ChainFrom(table.sh.chain, i + 1)
  }

  ghost predicate TableViews<E(!new)>(table: MemTable<E>, vs: seq<View<E>>)
    reads table
  {
    |vs| == |table.nodes| && forall i :: 0 <= i < |table.sh.chain| ==> Stands(table, vs, i)
  }

  /** No border of a sound table is out of order. */
  lemma TableAcross<E(!new)>(table: MemTable<E>, vs: seq<View<E>>, i: nat)
    requires table.Valid() && i < |table.sh.chain| && TableViews(table, vs)
    ensures AcrossAt(table.t, vs, table.sh.chain, i)
  {
    hide AtRest, SharedInv, SeenRun, Permutation, Sorted, HintSound;
    RestParts(table.t, table.sh);
    if i > 0 {
      LastBelowFirst(table.t, table.sh, i - 1);
      assert Stands(table, vs, i) && Stands(table, vs, i - 1);
      SeenIsRun(table.t, PayloadOf(table.t, table.sh, i - 1));
      SeenIsRun(table.t, PayloadOf(table.t, table.sh, i));
    }
  }

  lemma TableSized<E(!new)>(table: MemTable<E>)
    requires table.Valid()
    ensures AllSized(table.nodes)
  {
    forall n | 0 <= n < |table.nodes|
      ensures table.nodes[n].data.Sized()
    {
      NodeStands(table, n);
    }
  }

  lemma TableStands<E(!new)>(table: MemTable<E>)
    requires table.Valid() && AllSized(table.nodes)
    ensures TableViews(table, Views(table.nodes)) && Path(Views(table.nodes), table.sh.chain)
  {
    HeadFirst(table.t, table.sh);
    hide AtRest, SharedInv, Decodes, Permutation, OrderCount, OrderSlot, Sorted, PayloadOf, HintSound;
    forall i | 0 <= i < |table.sh.chain|
      ensures Stands(table, Views(table.nodes), i)
    {
      TableView(table, i);
    }
    StandPath(table, Views(table.nodes));
  }

  lemma StandPath<E(!new)>(table: MemTable<E>, vs: seq<View<E>>)
    requires TableViews(table, vs) && |table.sh.chain| > 0 && table.sh.chain[0] == 0
    ensures Path(vs, table.sh.chain)
  {
    hide Permutation, Sorted, PayloadOf, HintSound;
    forall i | 0 <= i < |table.sh.chain|
      ensures Leads(vs, table.sh.chain, i)
    {
      assert Stands(table, vs, i);
    }
  }

  lemma StandsIs<E(!new)>(table: MemTable<E>, vs: seq<View<E>>, i: nat, f: Finding)
    requires table.Valid() && TableViews(table, vs) && i < |table.sh.chain|
    ensures StandsSound(table.t, vs, table.sh.chain, i) <==> Passes(table.t, table.sh, i)
    ensures WalkFails(table.t, vs, table.sh.chain, i, f) ==>
      f == LanesOutOfOrder || f == LaneDisagrees || f == LaneUnsaturated || f == PrefixTooShort
  {
    hide AtRest, SharedInv, Reports, Permutation, Sorted, PayloadOf, HintSound, NodeSound;
    assert Stands(table, vs, i);
    var n := table.sh.chain[i];
    CleanIsSound(table.t, vs[n].p, vs[n].hint, n == 0);
    if WalkFails(table.t, vs, table.sh.chain, i, f) && f != NodesOutOfOrder {
      SoundKinds(table.t, vs[n].p, vs[n].hint, n == 0, f);
    }
    TableAcross(table, vs, i);
  }

  /** Nodes before the i-th pass, and the finding is what the checks say of the i-th and its header. */
  ghost predicate FirstFails<E(!new)>(t: Traits<E>, sh: Shared<E>, i: nat, f: Finding)
  {
    && i < |sh.chain| && (forall j :: 0 <= j < i ==> Passes(t, sh, j))
    && sh.chain[i] < |sh.nodes| && Stored(PayloadOf(t, sh, i))
    && Reports(t, PayloadOf(t, sh, i), sh.nodes[sh.chain[i]].hint, i == 0, f)
  }

  /** check_invariants on a sound table: clean exactly when every node passes, and otherwise the finding of the first that fails. */
  method CheckInvariants<E(!new)>(table: MemTable<E>) returns (f: Finding)
    requires table.Valid()
    ensures f == Clean || f == LanesOutOfOrder || f == LaneDisagrees || f == LaneUnsaturated || f == PrefixTooShort
    ensures f == Clean <==> forall i :: 0 <= i < |table.sh.chain| ==> Passes(table.t, table.sh, i)
    ensures f != Clean ==> exists i :: FirstFails(table.t, table.sh, i, f)
  {
    hide AtRest, SharedInv, Decodes, Permutation, OrderCount, OrderSlot, Reports, StandsSound, WalkFails, Passes, FirstFails;
    TableSized(table);
    TableStands(table);
    f := CheckWalk(table.t, table.nodes, table.sh.chain);
    TableStands(table);
    Verdict(table, Views(table.nodes), f);
  }

  /** The walk's verdict in terms of the table. */
  lemma Verdict<E(!new)>(table: MemTable<E>, vs: seq<View<E>>, f: Finding)
    requires table.Valid() && TableViews(table, vs)
    requires f == Clean <==> forall i :: 0 <= i < |table.sh.chain| ==> StandsSound(table.t, vs, table.sh.chain, i)
    requires f != Clean ==> exists i :: WalkFails(table.t, vs, table.sh.chain, i, f)
    ensures f == Clean || f == LanesOutOfOrder || f == LaneDisagrees || f == LaneUnsaturated || f == PrefixTooShort
    ensures f == Clean <==> forall i :: 0 <= i < |table.sh.chain| ==> Passes(table.t, table.sh, i)
    ensures f != Clean ==> exists i :: FirstFails(table.t, table.sh, i, f)
  {
    hide AtRest, SharedInv, Permutation, StandsSound, Passes, PayloadOf, Reports, TableViews;
    forall i | 0 <= i < |table.sh.chain|
      ensures StandsSound(table.t, vs, table.sh.chain, i) <==> Passes(table.t, table.sh, i)
    {
      StandsIs(table, vs, i, f);
    }
    if f != Clean {
      var i :| WalkFails(table.t, vs, table.sh.chain, i, f);
      StandsIs(table, vs, i, f);
      FailsThere(table, vs, i, f);
    }
  }

  lemma FailsThere<E(!new)>(table: MemTable<E>, vs: seq<View<E>>, i: nat, f: Finding)
    requires table.Valid() && TableViews(table, vs) && WalkFails(table.t, vs, table.sh.chain, i, f) && f != NodesOutOfOrder
    requires forall j :: 0 <= j < i ==> Passes(table.t, table.sh, j)
    ensures FirstFails(table.t, table.sh, i, f)
  {
    hide AtRest, SharedInv, Reports, Permutation, Sorted, PayloadOf, HintSound, StandsSound, Passes;
    assert Stands(table, vs, i);
    assert table.Mirrors(table.sh.chain[i]);
  }

  lemma LaterPasses<E(!new)>(t: Traits<E>, sh: Shared<E>, i: nat)
    requires t.TotalOrder() && t.Bytewise() && AtRest(t, sh) && 0 < i < |sh.chain|
    ensures Passes(t, sh, i)
  {
    RestParts(t, sh);
    hide AtRest, SharedInv, LanesExact, PrefixLongEnough;
    HeadFirst(t, sh);
    DataIs(t, sh, sh.chain[i]);
    Reachable.PayloadHolds(t, sh, DataOf(t, sh, sh.chain[i]));
    ExactSound(t, PayloadOf(t, sh, i));
  }

  /**
   Under a bytewise-compatible comparator only the head can fail the walk, and only by its
   lanes: no other node, no prefix, no hint and no key order. A head never split is always
   clean, and so is one with exact lanes.
   */
  lemma HeadDecides<E(!new)>(t: Traits<E>, sh: Shared<E>)
    requires t.TotalOrder() && t.Bytewise() && AtRest(t, sh)
    ensures |sh.chain| > 0 && PayloadOf(t, sh, 0).Shaped()
    ensures (forall i :: 0 <= i < |sh.chain| ==> Passes(t, sh, i)) <==> LanesSound(t, PayloadOf(t, sh, 0))
    ensures PayloadOf(t, sh, 0).next.None? ==> LanesSound(t, PayloadOf(t, sh, 0))
    ensures PayloadOf(t, sh, 0).Count() > 0 && LanesExact(t, PayloadOf(t, sh, 0)) ==> LanesSound(t, PayloadOf(t, sh, 0))
  {
    RestParts(t, sh);
    hide AtRest, SharedInv, LanesExact, PrefixLongEnough, LaneSound, LanesSound, Unstripped;
    HeadFirst(t, sh);
    DataIs(t, sh, 0);
    Reachable.PayloadHolds(t, sh, DataOf(t, sh, 0));
    var p := PayloadOf(t, sh, 0);
    forall i | 0 < i < |sh.chain|
      ensures Passes(t, sh, i)
    {
      LaterPasses(t, sh, i);
    }
    if p.next.None? { UnstrippedSound(t, p); }
    if p.Count() > 0 && LanesExact(t, p) { ExactSound(t, p); }
    assert Passes(t, sh, 0) <==> LanesSound(t, p);
  }
}
