/**
 BasicMemTable with one writer (include/aparajita/memtable.hpp): the node pool, the
 descents, append, split and tower linking, on mutable payloads. A node is named by
 its index in the pool, as the source names it by its address. `sh` mirrors the pool
 as a value, so that what is proved of the machine's structure holds here too.
 */
module Tables {
  import opened OrderWord
  import opened Surrogate
  import opened Ordering
  import opened Kernels
  import opened Payloads
  import opened NodeDatas
  import opened Machine
  import opened Invariant
  import opened Publishing
  import opened NodeSplit
  import opened Descents
  import opened ReaderSteps
  import opened LevelZero
  import opened Quiet
  import opened Scan
  import opened Levels

  datatype ListNode<E(!new)> = ListNode(
    data: NodeData<E>,
    firstHint: uint64,
    height: nat,
    tower: seq<Option<NodeId>>)

  ghost function Parts<E(!new)>(d: NodeData<E>): set<object>
  {
    {d, d.surrogates, d.keys}
  }

  class MemTable<E(!new)> {
    const t: Traits<E>
    const isa: Isa
    var nodes: seq<ListNode<E>>
    ghost var sh: Shared<E>
    ghost var Repr: set<object>

    ghost predicate Separate()
      reads this
    {
      forall m, n :: 0 <= m < n < |nodes| ==> Parts(nodes[m].data) !! Parts(nodes[n].data)
    }

    /** Pool entry n is node n of the mirror. */
    ghost predicate Mirrors(n: NodeId)
      requires n < |nodes| && Parts(nodes[n].data) <= Repr
      reads this, Repr
    {
      var x := nodes[n];
      && n < |sh.nodes| && sh.nodes[n].data.Some? && sh.nodes[n].data.value < |sh.payloads|
      && x.data.Valid() && x.data.Value() == sh.payloads[sh.nodes[n].data.value].d
      && x.firstHint == sh.nodes[n].hint && x.height == sh.nodes[n].height && x.tower == sh.nodes[n].tower
    }

    ghost predicate Valid()
      reads this, Repr
    {
      && t.TotalOrder() && t.HintPromise()
      && AtRest(t, sh) && |nodes| == |sh.nodes| && Separate()
      && this !in Repr && (forall n :: 0 <= n < |nodes| ==> Parts(nodes[n].data) <= Repr)
      && forall n :: 0 <= n < |nodes| ==> Mirrors(n)
    }

    /** The entries in the table, in order. */
    ghost function Entries(): (s: seq<E>)
      reads this, Repr
      requires Valid()
      ensures Sorted(t, s)
    {
      ContentsExact(t, sh);
      Contents(t, sh)
    }

    /** The head: full height, an empty payload. */
    constructor (traits: Traits<E>, kernels: Isa)
      requires traits.TotalOrder() && traits.HintPromise()
      ensures Valid() && Entries() == [] && t == traits && fresh(Repr)
    {
      hide AtRest, Contents, FreshPayload, Filled, Decodes, Permutation, Init, Identity, Sorted, SharedInv;
      InitRests(traits);
      t, isa := traits, kernels;
      var d := new NodeData(traits);
      nodes := [ListNode(d, 0, MAX_HEIGHT, seq(MAX_HEIGHT, i => None))];
      sh := Init(traits, 0).sh;
      Repr := Parts(d);
      new;
      assert Mirrors(0);
    }

    // ---- descents ----------------------------------------------------------------------------

    method StartsAtOrBelow(n: NodeId, key: E, hint: uint64) returns (b: bool)
      requires Valid() && n < |nodes| && n != 0 && hint == (if t.hintOrdering then t.Hint(key) else 0)
      ensures b <==> !t.Lt(key, sh.nodes[n].low)
    {
      assert Mirrors(n);
      hide SharedInv, Distinct, Decodes, OrderCount, OrderSlot, AtRest;
      HeaderFacts(t, sh, n);
      if t.hintOrdering {
        var h := nodes[n].firstHint;
        if h != hint {
          t.Order3(key, sh.nodes[n].low, key);
          return h < hint;
        }
      }
      var d := nodes[n].data;
      FirstSlot(d);
      b := OrderCount(d.order) > 0 && t.compare(d.KeyAt(d.order, 0), key) <= 0;
    }

    method StartsStrictlyBelow(n: NodeId, key: E, hint: uint64) returns (b: bool)
      requires Valid() && n < |nodes| && n != 0 && hint == (if t.hintOrdering then t.Hint(key) else 0)
      ensures b <==> t.Lt(sh.nodes[n].low, key)
    {
      assert Mirrors(n);
      hide SharedInv, Distinct, Decodes, OrderCount, OrderSlot, AtRest;
      HeaderFacts(t, sh, n);
      if t.hintOrdering {
        var h := nodes[n].firstHint;
        if h != hint {
          t.Order3(sh.nodes[n].low, key, sh.nodes[n].low);
          return h < hint;
        }
      }
      var d := nodes[n].data;
      FirstSlot(d);
      b := OrderCount(d.order) > 0 && t.compare(d.KeyAt(d.order, 0), key) < 0;
    }

    /** The search key's hint, once per search. */
    method SearchHint(key: E) returns (hint: uint64)
      ensures hint == if t.hintOrdering then t.Hint(key) else 0
    {
      hint := 0;
      if t.hintOrdering { hint := ComputeDescentHint(t.orderBytes(key)); }
    }

    ghost predicate StandsBelow(cur: NodeId, key: E)
      reads this
    {
      AtOrBelow(t, sh, cur, key) && cur < |nodes|
    }

    /** One tower level: on while the next node on it starts at or below the key. */
    method AlongLevel(from: NodeId, lv: nat, key: E, hint: uint64) returns (cur: NodeId)
      requires Valid() && StandsBelow(from, key) && lv < MAX_HEIGHT
      requires hint == (if t.hintOrdering then t.Hint(key) else 0)
      ensures StandsBelow(cur, key)
      ensures Above(t, sh, TowerAt(t, sh, cur, lv), key)
      ensures (cur == from || LedTo(t, sh, cur, lv)) && (OnLevel(t, sh, lv, from) ==> OnLevel(t, sh, lv, cur))
    {
      hide SharedInv, Distinct, AtRest, Decodes, OnLevel;
      RestParts(t, sh);
      cur := from;
      while true
        invariant Valid() && StandsBelow(cur, key)
        invariant (cur == from || LedTo(t, sh, cur, lv)) && (OnLevel(t, sh, lv, from) ==> OnLevel(t, sh, lv, cur))
        decreases |sh.chain| - IndexOf(sh.chain, cur)
      {
        assert Mirrors(cur);
        TowerSound(t, sh, cur, lv);
        TowerWide(t, sh, cur);
        var nx := nodes[cur].tower[lv];
        if nx.None? { return; }
        var on := StartsAtOrBelow(nx.value, key, hint);
        if !on { return; }
        FurtherAlong(t, sh, cur, nx.value);
        assert TowerAt(t, sh, cur, lv) == nx && LedTo(t, sh, nx.value, lv);
        if OnLevel(t, sh, lv, cur) { NextOnLevel(t, sh, lv, cur); }
        cur := nx.value;
      }
    }

    /** descend: towers first, then the payload links. It lands where the comparator-only scan lands. */
    method Descend(key: E) returns (cur: NodeId)
      requires Valid()
      ensures cur < |nodes| && cur == ScanFrom(t, sh, 0, key, |sh.chain|)
      ensures Chosen(t, sh, key, cur, DataOf(t, sh, cur))
    {
      hide SharedInv, Distinct, AtRest, Decodes, ScanFrom, Scan.BeginsBy;
      RestParts(t, sh);
      HeadFirst(t, sh);
      DataIs(t, sh, 0);
      var hint := SearchHint(key);
      cur := 0;
      var lv := MAX_HEIGHT - 1;
      while lv >= 1
        invariant Valid() && 0 <= lv < MAX_HEIGHT && StandsBelow(cur, key)
      {
        cur := AlongLevel(cur, lv, key, hint);
        lv := lv - 1;
      }
      while true
        invariant Valid() && StandsBelow(cur, key)
        decreases |sh.chain| - IndexOf(sh.chain, cur)
      {
        assert Mirrors(cur);
        DataIs(t, sh, cur);
        BaseSound(t, sh, cur);
        var nx := nodes[cur].data.next;
        if nx.None? { break; }
        var on := StartsAtOrBelow(nx.value, key, hint);
        if !on { break; }
        FurtherAlong(t, sh, cur, nx.value);
        cur := nx.value;
      }
      AgreesWithScan(t, sh, cur, key);
    }

    /** pred_at_level: the last node found at or above level `lv` that starts at or below the key. */
    method PredAtLevel(lv: nat, key: E, hint: uint64) returns (cur: NodeId)
      requires Valid() && lv < MAX_HEIGHT && hint == (if t.hintOrdering then t.Hint(key) else 0)
      ensures StandsBelow(cur, key) && Above(t, sh, TowerAt(t, sh, cur, lv), key)
      ensures cur == 0 || LedTo(t, sh, cur, lv)
      ensures lv >= 1 && Nested(t, sh) ==> OnLevel(t, sh, lv, cur)
    {
      hide SharedInv, Distinct, AtRest, Decodes, OnLevel;
      RestParts(t, sh);
      HeadFirst(t, sh);
      DataIs(t, sh, 0);
      HeadOnLevel(t, sh, MAX_HEIGHT - 1);
      cur := AlongLevel(0, MAX_HEIGHT - 1, key, hint);
      var l := MAX_HEIGHT - 1;
      while l > lv
        invariant Valid() && lv <= l < MAX_HEIGHT && StandsBelow(cur, key) && Above(t, sh, TowerAt(t, sh, cur, l), key)
        invariant cur == 0 || LedTo(t, sh, cur, l)
        invariant lv >= 1 && Nested(t, sh) ==> OnLevel(t, sh, l, cur)
      {
        l := l - 1;
        if lv >= 1 && Nested(t, sh) { assert OnLevel(t, sh, l + 1, cur); }
        cur := AlongLevel(cur, l, key, hint);
      }
    }

    /** last_node: by tower, then by payload links. */
    method LastNode() returns (cur: NodeId)
      requires Valid()
      ensures cur == sh.chain[|sh.chain| - 1] && cur < |nodes|
    {
      hide SharedInv, Distinct, AtRest, Decodes;
      RestParts(t, sh);
      HeadFirst(t, sh);
      DataIs(t, sh, 0);
      cur := 0;
      var lv := MAX_HEIGHT - 1;
      while lv >= 1
        invariant Valid() && 0 <= lv < MAX_HEIGHT && cur in sh.chain && cur < |nodes|
      {
        while true
          invariant Valid() && cur in sh.chain && cur < |nodes|
          decreases |sh.chain| - IndexOf(sh.chain, cur)
        {
          assert Mirrors(cur);
          TowerSound(t, sh, cur, lv);
          TowerWide(t, sh, cur);
          var nx := nodes[cur].tower[lv];
          if nx.None? { break; }
          FurtherAlong(t, sh, cur, nx.value);
          cur := nx.value;
        }
        lv := lv - 1;
      }
      while true
        invariant Valid() && cur in sh.chain && cur < |nodes|
        decreases |sh.chain| - IndexOf(sh.chain, cur)
      {
        assert Mirrors(cur);
        DataIs(t, sh, cur);
        BaseSound(t, sh, cur);
        ChainPosition(t, sh, 0, IndexOf(sh.chain, cur));
        var nx := nodes[cur].data.next;
        if nx.None? { return; }
        FurtherAlong(t, sh, cur, nx.value);
        cur := nx.value;
      }
    }

    /** Where pred_node may stand: on the chain, strictly before node `n`. */
    ghost predicate Precedes(cur: NodeId, n: NodeId)
      reads this
    {
      cur in sh.chain && cur < |nodes| && IndexOf(sh.chain, cur) < IndexOf(sh.chain, n)
    }

    method BelowAlongLevel(from: NodeId, lv: nat, n: NodeId, first: E, hint: uint64) returns (cur: NodeId)
      requires Valid() && 0 < n < |nodes| && n in sh.chain && lv < MAX_HEIGHT && Precedes(from, n)
      requires first == sh.nodes[n].low && hint == (if t.hintOrdering then t.Hint(first) else 0)
      ensures Precedes(cur, n)
    {
      hide SharedInv, Distinct, AtRest, Decodes, OrderCount, OrderSlot;
      RestParts(t, sh);
      cur := from;
      while true
        invariant Valid() && Precedes(cur, n)
        decreases |sh.chain| - IndexOf(sh.chain, cur)
      {
        assert Mirrors(cur);
        TowerSound(t, sh, cur, lv);
        TowerWide(t, sh, cur);
        var nx := nodes[cur].tower[lv];
        if nx.None? || nx.value == n { return; }
        var on := StartsStrictlyBelow(nx.value, first, hint);
        if !on { return; }
        FurtherAlong(t, sh, cur, nx.value);
        BelowIsBefore(t, sh, nx.value, n);
        cur := nx.value;
      }
    }

    /** The last stretch of pred_node, along the payload links. */
    method BelowAlongLinks(from: NodeId, n: NodeId, first: E, hint: uint64) returns (cur: NodeId)
      requires Valid() && 0 < n < |nodes| && n in sh.chain && first == sh.nodes[n].low && Precedes(from, n)
      requires hint == (if t.hintOrdering then t.Hint(first) else 0)
      ensures Precedes(cur, n) && IndexOf(sh.chain, cur) + 1 == IndexOf(sh.chain, n)
    {
      hide SharedInv, Distinct, AtRest, Decodes, OrderCount, OrderSlot, Permutation, IndexOf, Forward;
      RestParts(t, sh);
      cur := from;
      while true
        invariant Valid() && Precedes(cur, n)
        decreases |sh.chain| - IndexOf(sh.chain, cur)
      {
        assert Mirrors(cur);
        DataIs(t, sh, cur);
        BaseSound(t, sh, cur);
        SuccessorIndex(t, sh, cur, n);
        var nx := nodes[cur].data.next;
        if nx.None? || nx.value == n { return; }
        var on := StartsStrictlyBelow(nx.value, first, hint);
        if !on {
          BetweenBefore(t, sh, nx.value, n);
          return;
        }
        BelowIsBefore(t, sh, nx.value, n);
        cur := nx.value;
      }
    }

    /** pred_node: the node before `n` on level 0, found by descending on n's own first key; none for the head. */
    method PredNode(n: NodeId, order: Word) returns (pred: Option<NodeId>)
      requires Valid() && n < |nodes| && order == nodes[n].data.order
      ensures n in sh.chain
      ensures pred == if n == 0 then None else Some(sh.chain[IndexOf(sh.chain, n) - 1])
      ensures pred.Some? ==> pred.value < |nodes|
    {
      hide SharedInv, Distinct, AtRest, Decodes, OrderCount, OrderSlot;
      RestParts(t, sh);
      HeadFirst(t, sh);
      assert Mirrors(n);
      FirstSlot(nodes[n].data);
      if n != 0 { HeaderFacts(t, sh, n); }
      if n == 0 || OrderCount(order) == 0 { return None; }
      var first := nodes[n].data.KeyAt(order, 0);
      var hint := SearchHint(first);
      DataIs(t, sh, 0);
      ChainIndex(t, sh, 0);
      assert IndexOf(sh.chain, n) > 0;
      var cur: NodeId := 0;
      var lv := MAX_HEIGHT - 1;
      while lv >= 1
        invariant Valid() && 0 <= lv < MAX_HEIGHT && Precedes(cur, n)
      {
        cur := BelowAlongLevel(cur, lv, n, first, hint);
        lv := lv - 1;
      }
      cur := BelowAlongLinks(cur, n, first, hint);
      pred := Some(cur);
    }

    /** contains_target: membership among the entries, by the comparator's equality. */
    method ContainsTarget(key: E) returns (found: bool)
      requires Valid()
      ensures found <==> exists i :: 0 <= i < |Entries()| && t.compare(Entries()[i], key) == 0
    {
      hide SharedInv, Distinct, AtRest, Decodes, OrderCount, OrderSlot, ScanFrom, LowerBound, Sorted, Contents, Permutation;
      RestParts(t, sh);
      var cur := Descend(key);
      assert Mirrors(cur);
      DataIs(t, sh, cur);
      InstalledFirst(t, sh, DataOf(t, sh, cur), cur);
      var d := nodes[cur].data;
      ghost var run, all := d.Value().Run(), Entries();
      RunContains(t, run, key);
      EntriesContain(t, sh, cur, key);
      SortedInOrder(t, run);
      FirstSlot(d);
      assert d.Seen(d.perm) == d.Value();
      found := FoundIn(d, d.order, key, run);
      assert Entries() == all;
    }

    /** The two comparisons contains_target makes after its search. */
    method FoundIn(d: NodeData<E>, order: Word, key: E, ghost run: seq<E>) returns (found: bool)
      requires d.Valid() && order == d.order && run == d.Value().Run() && t.TotalOrder() && InOrder(t, run)
      ensures var r := LowerBound(t, run, key); found <==> r < |run| && t.compare(run[r], key) == 0
    {
      hide Decodes, OrderSlot, OrderCount, LowerBound, InOrder;
      CountOfDecoded(order, d.perm);
      assert d.Seen(d.perm) == d.Value();
      var n := OrderCount(order);
      var p, _ := d.SortedPosition(t, isa, order, n, key, t.orderBytes(key), d.perm);
      SlotNamed(d, p);
      found := p < n && t.compare(d.KeyAt(order, p), key) == 0;
    }

    // ---- insert --------------------------------------------------------------------------------

    /** publish_hint: stored only when it changes. */
    method PublishHint(n: NodeId, first: E)
      requires n < |nodes|
      modifies `nodes
      ensures nodes == old(nodes)[n := old(nodes)[n].(firstHint := t.Hint(first))]
    {
      var h := ComputeDescentHint(t.orderBytes(first));
      if nodes[n].firstHint != h { nodes := nodes[n := nodes[n].(firstHint := h)]; }
    }

    /** An insert into a node with room: two slot stores and the order word, in place. */
    method Append(cur: NodeId, key: E)
      requires Valid() && cur < |nodes| && Chosen(t, sh, key, cur, DataOf(t, sh, cur)) && Unpublished(t, sh, key)
      requires |nodes[cur].data.perm| < NODE_CAPACITY
      modifies this, Repr
      ensures Valid() && Repr == old(Repr) && |nodes| == old(|nodes|)
      ensures sh.published == old(sh.published) + [key]
      ensures forall n :: 0 <= n < |nodes| ==> nodes[n].data == old(nodes[n].data)
    {
      hide SharedInv, Distinct, AtRest, Decodes, OrderCount, OrderSlot, LowerBound, Appended, Chosen, Unpublished, Sorted, Permutation;
      RestParts(t, sh);
      assert Mirrors(cur);
      ChosenIs(t, sh, key, cur, DataOf(t, sh, cur));
      var d := nodes[cur].data;
      ghost var id, a := DataOf(t, sh, cur), sh;
      InstalledFirst(t, sh, id, cur);
      ghost var b := AppendAtRest(t, sh, key, cur, id);
      ghost var was := d.Value();
      SortedInOrder(t, was.Run());
      FirstSlot(d);
      var rank := d.Append(t, isa, OrderCount(d.order), key, t.orderBytes(key));
      if rank == 0 { PublishHint(cur, key); }
      sh := b;
      assert Mirrors(cur);
      forall n | 0 <= n < |nodes| && n != cur
        ensures Mirrors(n)
      {
        assert old(Mirrors(n));
        PayloadsDiffer(t, a, n, cur);
        assert Parts(nodes[n].data) !! Parts(d);
        assert nodes[n].data.Valid() && nodes[n].data.Value() == old(nodes[n].data.Value());
      }
    }

    // ---- split ---------------------------------------------------------------------------------

    /** Nothing but towers differs from an earlier pool. */
    ghost predicate OnlyTowersDiffer(was: seq<ListNode<E>>, before: Shared<E>)
      reads this
    {
      && |nodes| == |was| && |sh.nodes| == |before.nodes| && sh.published == before.published && sh.chain == before.chain
      && sh.payloads == before.payloads
      && (forall n :: 0 <= n < |nodes| ==> nodes[n] == was[n].(tower := nodes[n].tower))
      && (forall n :: 0 <= n < |sh.nodes| ==> sh.nodes[n].low == before.nodes[n].low && sh.nodes[n].data == before.nodes[n].data)
    }

    method StoreTower(n: NodeId, lv: nat, v: Option<NodeId>)
      requires Valid() && n < |nodes| && lv < MAX_HEIGHT && Forward(t, sh, n, v)
      modifies `nodes, `sh
      ensures Valid() && OnlyTowersDiffer(old(nodes), old(sh))
      ensures nodes == old(nodes)[n := nodes[n]]
      ensures OnePointer(t, old(sh), sh, n, lv) && TowerAt(t, sh, n, lv) == v
      ensures |nodes[n].tower| == |old(nodes)[n].tower| == MAX_HEIGHT && nodes[n].tower == old(nodes)[n].tower[lv := v]
    {
      hide SharedInv, Distinct, AtRest, Decodes, Permutation, Forward;
      RestParts(t, sh);
      assert Mirrors(n);
      TowerWide(t, sh, n);
      TowerAtRest(t, sh, n, lv, v);
      nodes := nodes[n := nodes[n].(tower := nodes[n].tower[lv := v])];
      sh := SetTower(t, sh, n, lv, v);
      forall m | 0 <= m < |nodes|
        ensures Mirrors(m)
      {
        assert old(Mirrors(m));
      }
    }

    /** The two stores of an attempt; `fails` says whether the weak compare_exchange fails for no reason. */
    method Exchange(sib: NodeId, lv: nat, pred: NodeId, nx: Option<NodeId>, fails: bool) returns (linked: bool)
      requires Valid() && 0 < sib < |nodes| && pred < |nodes| && pred != sib && 1 <= lv < MAX_HEIGHT
      requires nx == TowerAt(t, sh, pred, lv) && Forward(t, sh, sib, nx) && Forward(t, sh, pred, Some(sib))
      modifies `nodes, `sh
      ensures Valid() && OnlyTowersDiffer(old(nodes), old(sh)) && linked == !fails
      ensures !linked ==> OnePointer(t, old(sh), sh, sib, lv) && TowerAt(t, sh, sib, lv) == nx
      ensures linked && Unled(t, old(sh), sib, lv) ==>
        JoinedAt(t, old(sh), sh, lv, pred, sib) && LevelGains(t, old(sh), sh, lv, pred, sib)
    {
      hide SharedInv, Distinct, AtRest, Decodes, Permutation, LevelGains, JoinedAt, Unled, Forward, Separate;
      ghost var a := sh;
      StoreTower(sib, lv, nx);
      ghost var x := sh;
      RestParts(t, sh);
      assert Mirrors(pred) && TowerAt(t, sh, pred, lv) == nx;
      TowerWide(t, sh, pred);
      linked := nodes[pred].tower[lv] == nx && !fails;
      if linked {
        ForwardStays(a, x, pred, sib);
        StoreTower(pred, lv, Some(sib));
        if Unled(t, a, sib, lv) { TwoStores(t, a, x, sh, lv, pred, sib); }
      }
    }

    lemma ForwardStays(a: Shared<E>, b: Shared<E>, n: NodeId, m: NodeId)
      requires Forward(t, a, n, Some(m)) && b.chain == a.chain && |b.nodes| == |a.nodes|
      requires forall k :: 0 <= k < |b.nodes| ==> b.nodes[k].low == a.nodes[k].low
      ensures Forward(t, b, n, Some(m))
    {
    }

    /** One attempt of link_tower at one level. */
    method LinkLevel(sib: NodeId, lv: nat, first: E, hint: uint64, fails: bool) returns (linked: bool)
      requires Valid() && 0 < sib < |nodes| && 1 <= lv < MAX_HEIGHT && first == sh.nodes[sib].low
      requires hint == (if t.hintOrdering then t.Hint(first) else 0)
      modifies `nodes, `sh
      ensures Valid() && OnlyTowersDiffer(old(nodes), old(sh))
      ensures Unled(t, old(sh), sib, lv) ==>
        && linked == !fails
        && if linked then Added(t, old(sh), sh, lv, sib) else OwnOnly(t, old(sh), sh, lv, sib)
    {
      hide SharedInv, Distinct, AtRest, Decodes, Permutation, OnLevel, Nested, LevelGains, JoinedAt, OnePointer, Unled, Separate;
      RestParts(t, sh);
      ghost var a := sh;
      var pred := PredAtLevel(lv, first, hint);
      if pred == sib { return true; }
      assert Mirrors(pred);
      TowerWide(t, sh, pred);
      TowerSound(t, sh, pred, lv);
      var nx := nodes[pred].tower[lv];
      assert nx == TowerAt(t, sh, pred, lv);
      if nx.Some? {
        var ahead := StartsAtOrBelow(nx.value, first, hint);
        if ahead { return false; }
      }
      HeadFirst(t, sh);
      if pred != 0 { LowsDiffer(t, sh, pred, sib); }
      if Unled(t, a, sib, lv) { UnledPointer(t, a, sib, lv, pred); }
      linked := Exchange(sib, lv, pred, nx, fails);
      if linked && Unled(t, a, sib, lv) { assert AddedAfter(t, a, sh, lv, pred, sib); }
    }

    /** The attempts of link_tower at one level. */
    method LinkAttempts(sib: NodeId, lv: nat, first: E, hint: uint64, fails: (nat, nat) -> bool)
      requires Valid() && 0 < sib < |nodes| && 1 <= lv < MAX_HEIGHT && first == sh.nodes[sib].low
      requires hint == (if t.hintOrdering then t.Hint(first) else 0)
      modifies `nodes, `sh
      ensures Valid() && OnlyTowersDiffer(old(nodes), old(sh))
      ensures Unled(t, old(sh), sib, lv) ==> LevelDone(t, old(sh), sh, lv, sib, GivenUp(fails, lv))
    {
      hide SharedInv, Distinct, AtRest, Decodes, Permutation, Unled, Added, OwnOnly, Separate;
      ghost var b := sh;
      var attempt, linked := 0, false;
      if Unled(t, b, sib, lv) { NothingStored(t, b, lv, sib); }
      while attempt < ATTEMPTS && !linked
        invariant Valid() && OnlyTowersDiffer(old(nodes), old(sh)) && attempt <= ATTEMPTS
        invariant Unled(t, b, sib, lv) ==> LevelDone(t, b, sh, lv, sib, !linked)
        invariant Unled(t, b, sib, lv) && !linked ==> forall k :: 0 <= k < attempt ==> fails(lv, k)
        invariant Unled(t, b, sib, lv) && linked ==> !GivenUp(fails, lv)
        decreases ATTEMPTS - attempt
      {
        ghost var x := sh;
        if Unled(t, b, sib, lv) { OneMore(t, b, x, x, lv, sib, false); }
        linked := LinkLevel(sib, lv, first, hint, fails(lv, attempt));
        if Unled(t, b, sib, lv) { OneMore(t, b, x, sh, lv, sib, linked); }
        attempt := attempt + 1;
      }
    }

    /**
     link_tower: best effort, up to eight attempts a level; `fails` says of which the weak
     exchange fails. The contents do not depend on how it goes.
     */
    method LinkTower(sib: NodeId, first: E, fails: (nat, nat) -> bool)
      requires Valid() && 0 < sib < |nodes| && first == sh.nodes[sib].low
      modifies `nodes, `sh
      ensures Valid() && OnlyTowersDiffer(old(nodes), old(sh)) && Entries() == old(Entries())
      ensures Unled(t, old(sh), sib, 1) ==> TowerLinked(t, old(sh), sh, nodes[sib].height, sib, fails)
    {
      hide SharedInv, Distinct, AtRest, Decodes, Permutation, Contents, Sorted, Unled, LevelDone, TowerLinked, GivenUp, Separate;
      var hint := SearchHint(first);
      var lv := 1;
      ghost var a := sh;
      assert Mirrors(sib);
      RestParts(t, sh);
      TowerTall(t, sh, sib);
      TowerNone(t, a, sib, fails);
      while lv < nodes[sib].height
        invariant Valid() && OnlyTowersDiffer(old(nodes), old(sh)) && 1 <= lv <= nodes[sib].height <= MAX_HEIGHT
        invariant Unled(t, a, sib, 1) ==> TowerLinked(t, a, sh, lv, sib, fails) && Unled(t, sh, sib, lv)
        decreases nodes[sib].height - lv
      {
        ghost var b := sh;
        LinkAttempts(sib, lv, first, hint, fails);
        if Unled(t, a, sib, 1) {
          TowerNext(t, a, b, sh, lv, sib, fails);
          LevelDoneFacts(t, b, sh, lv, sib, GivenUp(fails, lv));
        }
        lv := lv + 1;
      }
      ContentsSame(t, old(sh), sh);
    }

    /** merge and the two fills of a split: the full node's run with the key in it, cut in the middle. */
    method BuildHalves(d: NodeData<E>, sib: NodeId, key: E) returns (left: NodeData<E>, right: NodeData<E>, first: E)
      requires d.Valid() && |d.perm| == NODE_CAPACITY && t.TotalOrder() && Sorted(t, d.Value().Run())
      ensures fresh(Parts(left)) && fresh(Parts(right)) && Parts(left) !! Parts(right)
      ensures left.Valid() && right.Valid()
      ensures var m := FullRun(t, d.Value(), key);
        left.Value() == Filled(t, m[..MID], Some(sib)) && right.Value() == Filled(t, m[MID..], d.next) && first == m[MID]
    {
      hide Decodes, OrderCount, OrderSlot, LowerBound, Filled, FreshPayload, Permutation, Sorted, InOrder;
      FirstSlot(d);
      SortedInOrder(t, d.Value().Run());
      assert d.Seen(d.perm) == d.Value();
      ghost var m := FullRun(t, d.Value(), key);
      var merged := new E[NODE_CAPACITY + 1](i => t.nullEntry);
      var total := d.Merge(t, isa, d.order, OrderCount(d.order), key, t.orderBytes(key), merged, d.perm);
      assert merged[..] == merged[..total] == m;
      assert merged[MID..MID + (total - MID)] == m[MID..] && merged[0..0 + MID] == m[..MID];
      right := FilledFrom(merged, MID, total - MID, d.next);
      left := FilledFrom(merged, 0, MID, Some(sib));
      first := merged[MID];
    }

    /** A fresh payload filled from part of a sorted run. */
    method FilledFrom(src: array<E>, off: nat, n: nat, next: Option<NodeId>) returns (d: NodeData<E>)
      requires n <= NODE_CAPACITY && off + n <= src.Length
      ensures fresh(Parts(d)) && d.Valid() && d.Value() == Filled(t, src[off..off + n], next)
    {
      hide Decodes, Filled, FreshPayload, Permutation;
      d := new NodeData(t);
      d.Fill(t, src, off, n, next);
    }

    /** publish: the hint first, then the payload pointer. */
    method Publish(n: NodeId, d: NodeData<E>)
      requires n < |nodes| && d.Valid() && |d.perm| > 0
      modifies `nodes
      ensures nodes == old(nodes)[n := old(nodes)[n].(firstHint := t.Hint(d.Value().KeyAt(0)), data := d)]
    {
      FirstSlot(d);
      if OrderCount(d.order) > 0 { PublishHint(n, d.KeyAt(d.order, 0)); }
      nodes := nodes[n := nodes[n].(data := d)];
    }

    /** What the structure is once both halves are published. */
    ghost predicate IsSplit(b: Shared<E>, cur: NodeId, left: NodeData<E>, right: NodeData<E>, h: nat)
      requires left.Valid() && right.Valid()
      reads this, left, left.keys, left.surrogates, right, right.keys, right.surrogates
    {
      var sib := |sh.nodes|;
      && AtRest(t, b) && cur < sib && left.Value().Count() > 0 && right.Value().Count() > 0
      && b.payloads == sh.payloads + [Cell(right.Value(), sib, 0), Cell(left.Value(), cur, 0)]
      && b.nodes == sh.nodes[cur := sh.nodes[cur].(hint := t.Hint(left.Value().KeyAt(0)), data := Some(|sh.payloads| + 1))]
                    + [Node(Some(|sh.payloads|), t.Hint(right.Value().KeyAt(0)), None, h, seq(MAX_HEIGHT, i => None),
                            right.Value().KeyAt(0), 0)]
    }

    /** The sibling is published first, then the left half with its link to it. */
    method PublishHalves(cur: NodeId, left: NodeData<E>, right: NodeData<E>, h: nat, ghost b: Shared<E>)
      requires Valid() && left.Valid() && right.Valid() && IsSplit(b, cur, left, right, h)
      requires Parts(left) !! Parts(right) && Parts(left) !! Repr && Parts(right) !! Repr
      requires this !in Parts(left) && this !in Parts(right)
      modifies this
      ensures Valid() && sh == b && Repr == old(Repr) + Parts(left) + Parts(right)
      ensures |nodes| == old(|nodes|) + 1
    {
      hide AtRest, Decodes, Permutation, Filled;
      var sib := |nodes|;
      nodes := nodes + [ListNode(right, 0, h, seq(MAX_HEIGHT, i => None))];
      Publish(sib, right);
      Publish(cur, left);
      sh := b;
      Repr := Repr + Parts(left) + Parts(right);
      forall n | 0 <= n < |nodes|
        ensures Mirrors(n)
      {
        if n < sib { assert old(Mirrors(n)); }
      }
    }

    /** Both halves published, then the sibling linked into its towers. */
    method PublishAndLink(cur: NodeId, left: NodeData<E>, right: NodeData<E>, first: E, h: nat,
        fails: (nat, nat) -> bool, ghost b: Shared<E>)
      requires Valid() && left.Valid() && right.Valid() && IsSplit(b, cur, left, right, h) && first == right.Value().KeyAt(0)
      requires Parts(left) !! Parts(right) && Parts(left) !! Repr && Parts(right) !! Repr
      requires this !in Parts(left) && this !in Parts(right)
      modifies this
      ensures Valid() && sh.published == b.published && Repr == old(Repr) + Parts(left) + Parts(right)
      ensures |nodes| == old(|nodes|) + 1
      ensures TowerLinked(t, old(sh), sh, h, old(|nodes|), fails)
    {
      hide AtRest, SharedInv, Decodes, Permutation, Filled, TowerLinked, SameTowers, Unled, Sorted, Separate;
      ghost var a := sh;
      var sib := |nodes|;
      RestParts(t, sh);
      SplitTowers(t, a, b, cur, h);
      PublishHalves(cur, left, right, h, b);
      assert Mirrors(sib);
      LinkTower(sib, first, fails);
      TowerThrough(t, a, b, sh, h, sib, fails);
    }

    /** A full node becomes two, and only then is the sibling linked into its towers. */
    method SplitAndInsert(cur: NodeId, key: E, h: nat, fails: (nat, nat) -> bool)
      requires Valid() && cur < |nodes| && Chosen(t, sh, key, cur, DataOf(t, sh, cur)) && Unpublished(t, sh, key)
      requires |nodes[cur].data.perm| == NODE_CAPACITY && 1 <= h <= MAX_HEIGHT
      modifies this
      ensures Valid() && fresh(Repr - old(Repr)) && |nodes| == old(|nodes|) + 1
      ensures sh.published == old(sh.published) + [key]
      ensures TowerLinked(t, old(sh), sh, h, old(|nodes|), fails)
    {
      hide SharedInv, Distinct, AtRest, Decodes, LowerBound, Filled, Chosen, Unpublished, Sorted, Permutation, FullRun, ChainWith;
      hide TowerLinked, SameTowers, Unled;
      RestParts(t, sh);
      assert Mirrors(cur);
      ChosenIs(t, sh, key, cur, DataOf(t, sh, cur));
      InstalledFirst(t, sh, DataOf(t, sh, cur), cur);
      ghost var b := SplitAtRest(t, sh, key, cur, DataOf(t, sh, cur), h);
      var sib := |nodes|;
      ghost var m := FullRun(t, nodes[cur].data.Value(), key);
      HalvesFirst(t, m, nodes[cur].data.next, sib);
      var left, right, first := BuildHalves(nodes[cur].data, sib, key);
      PublishAndLink(cur, left, right, first, h, fails, b);
    }

    /** belongs_here: whether the locked node's successor starts above the key. */
    method BelongsHere(cur: NodeId, key: E) returns (b: bool)
      requires Valid() && cur < |nodes|
      ensures b <==> Above(t, sh, PayloadAt(t, sh, DataOf(t, sh, cur)).next, key)
    {
      hide SharedInv, Distinct, AtRest, Decodes, Permutation, OrderCount, OrderSlot;
      RestParts(t, sh);
      assert Mirrors(cur);
      DataIs(t, sh, cur);
      BaseSound(t, sh, cur);
      var nx := nodes[cur].data.next;
      if nx.None? { return true; }
      assert Mirrors(nx.value);
      HeaderFacts(t, sh, nx.value);
      var nd := nodes[nx.value].data;
      FirstSlot(nd);
      b := OrderCount(nd.order) == 0 || t.compare(nd.KeyAt(nd.order, 0), key) > 0;
    }

    /**
     insert_entry by the only writer: the entries gain the key in its place. The node
     descend chose always still belongs, so the retry is never taken; `h` is the height
     the sibling would be given, `fails` the exchanges that fail for no reason.
     */
    method InsertEntry(key: E, h: nat, fails: (nat, nat) -> bool)
      requires Valid() && Fresh(t, Entries(), key) && 1 <= h <= MAX_HEIGHT
      modifies this, Repr
      ensures Valid() && fresh(Repr - old(Repr))
      ensures Entries() == Splice(old(Entries()), LowerBound(t, old(Entries()), key), key)
      ensures |nodes| > old(|nodes|) ==> TowerLinked(t, old(sh), sh, h, old(|nodes|), fails)
    {
      hide SharedInv, Distinct, AtRest, Decodes, Permutation, OrderCount, OrderSlot, LowerBound, Contents, Sorted, ScanFrom, Chosen;
      hide TowerLinked;
      ghost var a := sh;
      ContentsExact(t, sh);
      FreshInBag(t, Contents(t, sh), sh.published, key);
      var cur := Descend(key);
      assert Mirrors(cur);
      var belongs := BelongsHere(cur, key);
      assert belongs by { ChosenAbove(t, sh, key, cur); }
      FirstSlot(nodes[cur].data);
      if OrderCount(nodes[cur].data.order) < NODE_CAPACITY {
        Append(cur, key);
      } else {
        CountAtMost(nodes[cur].data);
        SplitAndInsert(cur, key, h, fails);
      }
      ContentsGain(t, a, sh, key);
    }
  }

  lemma InitRests<E(!new)>(t: Traits<E>)
    ensures AtRest(t, Init(t, 0).sh) && Contents(t, Init(t, 0).sh) == []
    ensures Init(t, 0).sh.payloads == [Cell(FreshPayload(t), 0, 0)]
    ensures Init(t, 0).sh.nodes == [Node(Some(0), 0, None, MAX_HEIGHT, seq(MAX_HEIGHT, i => None), t.nullEntry, 0)]
  {
    Safety.InitInv(t, 0);
    var sh := Init(t, 0).sh;
    assert SeenRun(t, sh.payloads[0].d, sh.payloads[0].d.order) == [];
    assert Reads(t, sh, None, 0) == [];
  }

  /** A split's new node stands in no tower, and no other tower has changed. */
  lemma SplitTowers<E(!new)>(t: Traits<E>, a: Shared<E>, b: Shared<E>, cur: NodeId, h: nat)
    requires SharedInv(t, a) && cur < |a.nodes| && |b.nodes| == |a.nodes| + 1
    requires forall n :: 0 <= n < |a.nodes| ==> b.nodes[n].tower == a.nodes[n].tower
    requires b.nodes[|a.nodes|].tower == seq(MAX_HEIGHT, i => None)
    ensures SameTowers(t, a, b) && Unled(t, b, |a.nodes|, 1)
  {
    hide SharedInv;
    forall n: NodeId, l: nat
      ensures TowerAt(t, b, n, l) == TowerAt(t, a, n, l) && TowerAt(t, b, n, l) != Some(|a.nodes|)
    {
      if n < |a.nodes| { TowerSound(t, a, n, l); }
    }
  }

  lemma HeaderFacts<E(!new)>(t: Traits<E>, sh: Shared<E>, n: NodeId)
    requires AtRest(t, sh) && n < |sh.nodes| && n != 0
    ensures n in sh.chain && sh.nodes[n].hint == t.Hint(sh.nodes[n].low)
    ensures sh.nodes[n].data.Some? && sh.nodes[n].data.value < |sh.payloads|
    ensures var p := sh.payloads[sh.nodes[n].data.value].d; p.Shaped() && p.Count() > 0 && p.KeyAt(0) == sh.nodes[n].low
  {
    RestParts(t, sh);
    hide SharedInv;
    DataIs(t, sh, n);
    WriterSteps.PublishedHint(t, sh, n);
    InstalledFirst(t, sh, DataOf(t, sh, n), n);
  }

  lemma InstalledFirst<E(!new)>(t: Traits<E>, sh: Shared<E>, d: PayloadId, n: NodeId)
    requires SharedInv(t, sh) && IsPayloadOf(sh, d, n)
    ensures sh.payloads[d].d.Shaped() && Sorted(t, sh.payloads[d].d.Run())
    ensures n != 0 ==> n < |sh.nodes| && sh.payloads[d].d.Count() > 0 && sh.payloads[d].d.KeyAt(0) == sh.nodes[n].low
  {
    assert PayloadOk(t, sh, d);
  }

  /** The order word's rank 0 names the first key of the run. */
  lemma FirstSlot<E(!new)>(d: NodeData<E>)
    requires d.Valid()
    ensures OrderCount(d.order) == |d.perm|
    ensures |d.perm| > 0 ==> d.KeyAt(d.order, 0) == d.Value().KeyAt(0)
  {
    CountOfDecoded(d.order, d.perm);
  }

  lemma SlotNamed<E(!new)>(d: NodeData<E>, r: nat)
    requires d.Valid()
    ensures r < |d.perm| ==> d.KeyAt(d.order, r) == d.Value().Run()[r]
  {
  }

  lemma TowerWide<E(!new)>(t: Traits<E>, sh: Shared<E>, n: NodeId)
    requires SharedInv(t, sh) && n < |sh.nodes|
    ensures |sh.nodes[n].tower| == MAX_HEIGHT && forall lv :: 0 <= lv < MAX_HEIGHT ==> TowerAt(t, sh, n, lv) == sh.nodes[n].tower[lv]
  {
    assert TowerOk(t, sh, n);
  }

  /** A node starting strictly below another lies before it. */
  lemma BelowIsBefore<E(!new)>(t: Traits<E>, sh: Shared<E>, m: NodeId, n: NodeId)
    requires t.TotalOrder() && SharedInv(t, sh) && m in sh.chain && n in sh.chain && m != 0 && n != 0
    requires m < |sh.nodes| && n < |sh.nodes| && t.Lt(sh.nodes[m].low, sh.nodes[n].low)
    ensures IndexOf(sh.chain, m) < IndexOf(sh.chain, n)
  {
    hide SharedInv;
    HeadFirst(t, sh);
    var i, j := IndexOf(sh.chain, m), IndexOf(sh.chain, n);
    if j <= i {
      LowsAscend(t, sh, j, i);
      assert false;
    }
  }

  lemma ChainIndex<E(!new)>(t: Traits<E>, sh: Shared<E>, i: nat)
    requires SharedInv(t, sh) && i < |sh.chain|
    ensures IndexOf(sh.chain, sh.chain[i]) == i
  {
    hide PayloadsOk, TowersOk, AllLocated, HeadHintLow, Occupied;
    var j := IndexOf(sh.chain, sh.chain[i]);
    assert sh.chain[j] == sh.chain[i];
  }

  /** A node not starting strictly below `n` does not lie before it. */
  /** The payload link of a node before n leads one along the chain. */
  lemma SuccessorIndex<E(!new)>(t: Traits<E>, sh: Shared<E>, cur: NodeId, n: NodeId)
    requires SharedInv(t, sh) && cur in sh.chain && n in sh.chain && IndexOf(sh.chain, cur) < IndexOf(sh.chain, n)
    ensures var nx := PayloadAt(t, sh, DataOf(t, sh, cur)).next;
      && nx.Some? && nx.value in sh.chain && nx.value != 0 && nx.value < |sh.nodes|
      && IndexOf(sh.chain, nx.value) == IndexOf(sh.chain, cur) + 1
  {
    hide SharedInv;
    var i := IndexOf(sh.chain, cur);
    ChainPosition(t, sh, 0, i);
    ChainPosition(t, sh, 0, i + 1);
    HeadFirst(t, sh);
    ChainIndex(t, sh, i + 1);
  }

  lemma BetweenBefore<E(!new)>(t: Traits<E>, sh: Shared<E>, m: NodeId, n: NodeId)
    requires t.TotalOrder() && SharedInv(t, sh) && m in sh.chain && n in sh.chain && m != 0 && n != 0
    requires m < |sh.nodes| && n < |sh.nodes| && !t.Lt(sh.nodes[m].low, sh.nodes[n].low)
    ensures IndexOf(sh.chain, n) <= IndexOf(sh.chain, m)
  {
    hide SharedInv;
    HeadFirst(t, sh);
    var i, j := IndexOf(sh.chain, m), IndexOf(sh.chain, n);
    if i < j { AscendsFrom(t, sh, i, j); }
  }

  lemma AscendsFrom<E(!new)>(t: Traits<E>, sh: Shared<E>, i: nat, j: nat)
    requires SharedInv(t, sh) && 1 <= i < j < |sh.chain|
    ensures t.Lt(NodeAt(t, sh, sh.chain[i]).low, NodeAt(t, sh, sh.chain[j]).low)
  {
    hide PayloadsOk, TowersOk, AllLocated, HeadHintLow, Occupied, Linked;
  }

  /** In a sorted run, an entry equal to the key sits at its lower bound. */
  lemma RunContains<E(!new)>(t: Traits<E>, run: seq<E>, key: E)
    requires t.TotalOrder() && Sorted(t, run)
    ensures var r := LowerBound(t, run, key);
      (exists i :: 0 <= i < |run| && t.compare(run[i], key) == 0) <==> r < |run| && t.compare(run[r], key) == 0
  {
    var r := LowerBound(t, run, key);
    SortedInOrder(t, run);
    LowerBoundSplits(t, run, key);
    hide LowerBound;
    if i :| 0 <= i < |run| && t.compare(run[i], key) == 0 {
      if r < i { EqualsOrder(t, run[i], key, run[r]); }
    }
  }

  /** The entries equal to a key are those its node's run holds. */
  lemma EntriesContain<E(!new)>(t: Traits<E>, sh: Shared<E>, cur: NodeId, key: E)
    requires t.TotalOrder() && AtRest(t, sh) && Chosen(t, sh, key, cur, DataOf(t, sh, cur))
    requires sh.payloads[DataOf(t, sh, cur)].d.Shaped()
    ensures var run, all := sh.payloads[DataOf(t, sh, cur)].d.Run(), Contents(t, sh);
      (exists i :: 0 <= i < |all| && t.compare(all[i], key) == 0) <==> (exists i :: 0 <= i < |run| && t.compare(run[i], key) == 0)
  {
    RestParts(t, sh);
    ContentsExact(t, sh);
    hide SharedInv, Distinct, AtRest, Contents, Sorted;
    var d := DataOf(t, sh, cur);
    var p := sh.payloads[d].d;
    var run, all := p.Run(), Contents(t, sh);
    if i :| 0 <= i < |all| && t.compare(all[i], key) == 0 {
      assert all[i] in multiset(sh.published);
      var j :| 0 <= j < |sh.published| && sh.published[j] == all[i];
      assert KnownKey(t, sh, key, |sh.published|);
      KnownCovered(t, sh, cur, key, |sh.published|);
      AboveNotReached(t, sh, p.next, key);
      var s :| 0 <= s < p.Count() && t.compare(p.keys[s], key) == 0;
      RunNames(p, s);
    }
    if i :| 0 <= i < |run| && t.compare(run[i], key) == 0 {
      DataIs(t, sh, cur);
      NamedBelowNext(t, sh, d, run[i]);
      assert run[i] in multiset(all);
    }
  }

  lemma ChosenIs<E(!new)>(t: Traits<E>, sh: Shared<E>, key: E, cur: NodeId, d: PayloadId)
    requires AtRest(t, sh) && Chosen(t, sh, key, cur, d)
    ensures cur in sh.chain && cur < |sh.nodes| && sh.nodes[cur].data == Some(d) && IsPayloadOf(sh, d, cur)
  {
    RestParts(t, sh);
    hide SharedInv;
    DataIs(t, sh, cur);
  }

  /** Two nodes never hold the same payload. */
  lemma PayloadsDiffer<E(!new)>(t: Traits<E>, sh: Shared<E>, m: NodeId, n: NodeId)
    requires AtRest(t, sh) && m < |sh.nodes| && n < |sh.nodes| && m != n
    ensures sh.nodes[m].data.Some? && sh.nodes[n].data.Some? && sh.nodes[m].data != sh.nodes[n].data
  {
    RestParts(t, sh);
    hide SharedInv;
    DataIs(t, sh, m);
    DataIs(t, sh, n);
  }

  lemma TowerTall<E(!new)>(t: Traits<E>, sh: Shared<E>, n: NodeId)
    requires SharedInv(t, sh) && n < |sh.nodes|
    ensures 1 <= sh.nodes[n].height <= MAX_HEIGHT
  {
    assert TowerOk(t, sh, n);
  }

  lemma HalvesFirst<E(!new)>(t: Traits<E>, m: seq<E>, next: Option<NodeId>, sib: NodeId)
    requires |m| == NODE_CAPACITY + 1
    ensures var q := Filled(t, m[..MID], Some(sib)); q.Count() == MID && q.KeyAt(0) == m[0]
    ensures var q := Filled(t, m[MID..], next); q.Count() == MID && q.KeyAt(0) == m[MID]
  {
    assert Filled(t, m[..MID], Some(sib)).Run()[0] == m[0];
    assert Filled(t, m[MID..], next).Run()[0] == m[MID];
  }

  lemma ChosenAbove<E(!new)>(t: Traits<E>, sh: Shared<E>, key: E, cur: NodeId)
    requires Chosen(t, sh, key, cur, DataOf(t, sh, cur))
    ensures Above(t, sh, PayloadAt(t, sh, DataOf(t, sh, cur)).next, key)
  {
  }

  lemma CountAtMost<E(!new)>(d: NodeData<E>)
    requires d.Valid()
    ensures |d.perm| <= NODE_CAPACITY
  {
  }
}
