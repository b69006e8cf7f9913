/**
 The two-way iterator of BasicMemTable (include/aparajita/memtable.hpp, lines 280-409)
 with no writer at work: it is a cursor over the table's entries in order.
 */
module Cursors {
  import opened OrderWord
  import opened Ordering
  import opened Payloads
  import opened NodeDatas
  import opened Machine
  import opened Invariant
  import opened Publishing
  import opened NodeSplit
  import opened ReaderSteps
  import opened LevelZero
  import opened Quiet
  import opened Scan
  import opened Tables

  // ---- the cursor ----------------------------------------------------------------------------

  /** A position among n entries, or off either end. */
  datatype Cursor = Off | At(k: nat)

  function Settled(k: nat, n: nat): Cursor
  {
    if k < n then At(k) else Off
  }

  function Ahead(c: Cursor, n: nat): Cursor
  {
    if c.At? then Settled(c.k + 1, n) else Off
  }

  function Back(c: Cursor): Cursor
  {
    if c.At? && c.k > 0 then At(c.k - 1) else Off
  }

  // ---- nodes and positions -------------------------------------------------------------------

  function RunAt<E(!new)>(t: Traits<E>, sh: Shared<E>, i: nat): seq<E>
    requires i < |sh.chain|
  {
    var p := PayloadAt(t, sh, DataOf(t, sh, sh.chain[i]));
    SeenRun(t, p, p.order)
  }

  /** How many entries lie before the i-th node. */
  function Offset<E(!new)>(t: Traits<E>, sh: Shared<E>, i: nat): nat
    requires i <= |sh.chain|
  {
    if i == 0 then 0 else Offset(t, sh, i - 1) + |RunAt(t, sh, i - 1)|
  }

  ghost function Suffix<E(!new)>(t: Traits<E>, sh: Shared<E>, i: nat): seq<E>
    requires i <= |sh.chain|
  {
    Reads(t, sh, ChainFrom(sh.chain, i), |sh.chain| - i)
  }

  lemma SuffixStep<E(!new)>(t: Traits<E>, sh: Shared<E>, i: nat)
    requires SharedInv(t, sh) && i < |sh.chain|
    ensures Suffix(t, sh, i) == RunAt(t, sh, i) + Suffix(t, sh, i + 1)
  {
    hide SharedInv;
    ChainPosition(t, sh, i, i);
  }

  /** The entries from the i-th node on start at its offset. */
  lemma {:induction false} EntriesFrom<E(!new)>(t: Traits<E>, sh: Shared<E>, i: nat)
    requires SharedInv(t, sh) && i <= |sh.chain|
    ensures Offset(t, sh, i) <= |Contents(t, sh)|
    ensures Contents(t, sh)[Offset(t, sh, i)..] == Suffix(t, sh, i)
  {
    hide SharedInv, RunAt, Reads;
    HeadFirst(t, sh);
    if i > 0 {
      EntriesFrom(t, sh, i - 1);
      SuffixStep(t, sh, i - 1);
      var all, o, run := Contents(t, sh), Offset(t, sh, i - 1), RunAt(t, sh, i - 1);
      assert all[o..][|run|..] == all[o + |run|..];
    }
  }

  /** The i-th node's run, in place among the entries; after the last node nothing follows. */
  lemma EntriesOfNode<E(!new)>(t: Traits<E>, sh: Shared<E>, i: nat)
    requires SharedInv(t, sh) && i < |sh.chain|
    ensures Offset(t, sh, i + 1) == Offset(t, sh, i) + |RunAt(t, sh, i)| <= |Contents(t, sh)|
    ensures forall r :: 0 <= r < |RunAt(t, sh, i)| ==> Contents(t, sh)[Offset(t, sh, i) + r] == RunAt(t, sh, i)[r]
    ensures i + 1 == |sh.chain| ==> Offset(t, sh, i + 1) == |Contents(t, sh)|
  {
    hide SharedInv, RunAt, Reads;
    EntriesFrom(t, sh, i);
    EntriesFrom(t, sh, i + 1);
    SuffixStep(t, sh, i);
    var all, o, run := Contents(t, sh), Offset(t, sh, i), RunAt(t, sh, i);
    forall r | 0 <= r < |run|
      ensures all[o + r] == run[r]
    {
      assert all[o..][r] == (run + Suffix(t, sh, i + 1))[r];
    }
    if i + 1 == |sh.chain| { assert Suffix(t, sh, i + 1) == [] by { NoSuffix(t, sh); } }
  }

  lemma NoSuffix<E(!new)>(t: Traits<E>, sh: Shared<E>)
    ensures Suffix(t, sh, |sh.chain|) == []
  {
  }

  /** Of a table at rest, only the head can be empty, and its own first key begins a later node's run. */
  lemma NodeRun<E(!new)>(t: Traits<E>, sh: Shared<E>, i: nat)
    requires SharedInv(t, sh) && i < |sh.chain|
    ensures sh.chain[i] < |sh.nodes|
    ensures i > 0 ==> |RunAt(t, sh, i)| > 0 && RunAt(t, sh, i)[0] == sh.nodes[sh.chain[i]].low
  {
    hide SharedInv;
    HeadFirst(t, sh);
    ChainPosition(t, sh, i, i);
    if i > 0 { Reachable.FirstKeys(t, sh, sh.chain[i]); }
  }

  /** Everything before the search's answer lies below the key. */
  lemma SeekLeft<E(!new)>(t: Traits<E>, sh: Shared<E>, i: nat, key: E, q: nat)
    requires t.TotalOrder() && AtRest(t, sh) && i < |sh.chain| && Chosen(t, sh, key, sh.chain[i], DataOf(t, sh, sh.chain[i]))
    requires q <= |RunAt(t, sh, i)| && (q > 0 ==> t.Lt(RunAt(t, sh, i)[q - 1], key))
    ensures Offset(t, sh, i) + q <= |Contents(t, sh)|
    ensures Offset(t, sh, i) + q > 0 ==> t.Lt(Contents(t, sh)[Offset(t, sh, i) + q - 1], key)
  {
    RestParts(t, sh);
    ContentsExact(t, sh);
    EntriesOfNode(t, sh, i);
    NodeRun(t, sh, i);
    HeadFirst(t, sh);
    OffsetZero(t, sh);
    hide SharedInv, RunAt, Contents, AtRest, Offset;
    var all, run, p := Contents(t, sh), RunAt(t, sh, i), Offset(t, sh, i) + q;
    if q > 0 {
      assert all[Offset(t, sh, i) + (q - 1)] == run[q - 1];
    } else if p > 0 {
      assert all[Offset(t, sh, i) + 0] == run[0];
      assert t.Lt(all[p - 1], all[p]);
      t.Order3(all[p - 1], run[0], key);
    }
  }

  /** Nothing from the search's answer on lies below the key. */
  lemma SeekRight<E(!new)>(t: Traits<E>, sh: Shared<E>, i: nat, key: E, q: nat)
    requires t.TotalOrder() && AtRest(t, sh) && i < |sh.chain| && Chosen(t, sh, key, sh.chain[i], DataOf(t, sh, sh.chain[i]))
    requires q <= |RunAt(t, sh, i)| && (q < |RunAt(t, sh, i)| ==> !t.Lt(RunAt(t, sh, i)[q], key))
    requires Offset(t, sh, i) + q <= |Contents(t, sh)|
    ensures Offset(t, sh, i) + q < |Contents(t, sh)| ==> !t.Lt(Contents(t, sh)[Offset(t, sh, i) + q], key)
  {
    hide SharedInv, RunAt, Contents, AtRest, Offset, Chosen;
    RestParts(t, sh);
    EntriesOfNode(t, sh, i);
    if q < |RunAt(t, sh, i)| {
      assert Contents(t, sh)[Offset(t, sh, i) + q] == RunAt(t, sh, i)[q];
    } else if i + 1 < |sh.chain| {
      FirstEntryOf(t, sh, i + 1);
      NextLow(t, sh, i, key);
      t.Order3(key, sh.nodes[sh.chain[i + 1]].low, key);
    }
  }

  lemma FirstEntryOf<E(!new)>(t: Traits<E>, sh: Shared<E>, i: nat)
    requires SharedInv(t, sh) && 0 < i < |sh.chain|
    ensures sh.chain[i] < |sh.nodes| && Offset(t, sh, i) < |Contents(t, sh)|
    ensures Contents(t, sh)[Offset(t, sh, i)] == sh.nodes[sh.chain[i]].low
  {
    hide SharedInv, RunAt, Contents, Offset;
    EntriesOfNode(t, sh, i);
    NodeRun(t, sh, i);
    assert Contents(t, sh)[Offset(t, sh, i) + 0] == RunAt(t, sh, i)[0];
  }

  /** A search in the chosen node finds the lower bound among all the entries. */
  lemma SeekIsLowerBound<E(!new)>(t: Traits<E>, sh: Shared<E>, i: nat, key: E)
    requires t.TotalOrder() && AtRest(t, sh) && i < |sh.chain| && Chosen(t, sh, key, sh.chain[i], DataOf(t, sh, sh.chain[i]))
    requires Sorted(t, RunAt(t, sh, i))
    ensures LowerBound(t, Contents(t, sh), key) == Offset(t, sh, i) + LowerBound(t, RunAt(t, sh, i), key)
  {
    hide RunAt, Contents, AtRest, LowerBound, Offset, Sorted, InOrder, Chosen;
    var q := BoundSides(t, RunAt(t, sh, i), key);
    SeekLeft(t, sh, i, key, q);
    SeekRight(t, sh, i, key, q);
    ContentsExact(t, sh);
    SortedInOrder(t, Contents(t, sh));
    ConfirmedIsLowerBound(t, Contents(t, sh), key, Offset(t, sh, i) + q);
  }

  lemma BoundSides<E(!new)>(t: Traits<E>, run: seq<E>, key: E) returns (q: nat)
    requires t.TotalOrder() && Sorted(t, run)
    ensures q == LowerBound(t, run, key) <= |run|
    ensures q > 0 ==> t.Lt(run[q - 1], key)
    ensures q < |run| ==> !t.Lt(run[q], key)
  {
    q := LowerBound(t, run, key);
    SortedInOrder(t, run);
    LowerBoundSplits(t, run, key);
  }

  lemma OffsetZero<E(!new)>(t: Traits<E>, sh: Shared<E>)
    ensures Offset(t, sh, 0) == 0
  {
  }

  lemma NextLow<E(!new)>(t: Traits<E>, sh: Shared<E>, i: nat, key: E)
    requires SharedInv(t, sh) && i + 1 < |sh.chain| && Chosen(t, sh, key, sh.chain[i], DataOf(t, sh, sh.chain[i]))
    ensures sh.chain[i + 1] < |sh.nodes| && t.Lt(key, sh.nodes[sh.chain[i + 1]].low)
  {
    hide SharedInv;
    ChainPosition(t, sh, i, i);
    DataIs(t, sh, sh.chain[i]);
  }

  // ---- the iterator --------------------------------------------------------------------------

  class Iterator<E(!new)> {
    const table: MemTable<E>
    var node: Option<NodeId>
    var data: NodeData?<E>
    var order: Word
    var count: nat
    var pos: int

    /** Unpositioned: valid only once a seek has placed it. */
    constructor (t: MemTable<E>)
      requires t.Valid()
      ensures table == t && Ok() && Where() == Off
    {
      table := t;
      node, data, order, count, pos := None, null, 0, 0, 0;
      new;
      EmptyDecodes();
      CountOfDecoded(0, []);
    }

    /** The snapshot is of the node's payload as it stands. */
    ghost predicate Loaded()
      reads this, table, table.Repr
    {
      && table.Valid() && this !in table.Repr
      && (data == null ==> node == Some(0) || OrderCount(order) == 0)
      && (data != null ==>
            && node.Some? && node.value < |table.nodes| && data == table.nodes[node.value].data
            && data.Valid() && order == data.order && count == |data.perm|)
    }

    /** Between operations: on an entry, or off the table. */
    ghost predicate Ok()
      reads this, table, table.Repr
    {
      Loaded() && (data != null ==> 0 <= pos < count)
    }

    /** The chain position of the node stood on. */
    ghost function Index(): (i: nat)
      requires Loaded() && data != null
      reads this, table, table.Repr
      ensures i < |table.sh.chain| && table.sh.chain[i] == node.value
    {
      RestParts(table.t, table.sh);
      IndexOf(table.sh.chain, node.value)
    }

    /** What the iterator refines. */
    ghost function Where(): Cursor
      requires Ok()
      reads this, table, table.Repr
    {
      if data == null then Off else At(Offset(table.t, table.sh, Index()) + pos)
    }

    predicate IsValid()
      reads this
    {
      data != null && 0 <= pos < count
    }

    /** key(): the entry stood on. */
    method Key() returns (e: E)
      requires Ok() && Where().At?
      ensures Where().k < |table.Entries()| && e == table.Entries()[Where().k]
    {
      hide AtRest, SharedInv, Decodes, Permutation, OrderSlot, OrderCount, Contents, Offset, RunAt;
      RestParts(table.t, table.sh);
      NodeRunIs(table, node.value);
      EntriesOfNode(table.t, table.sh, Index());
      SlotNamed(data, pos);
      e := data.KeyAt(order, pos);
    }

    /** adopt: stand on a node, with one snapshot of its order word. */
    method Adopt(n: Option<NodeId>)
      requires table.Valid() && this !in table.Repr && (n.Some? ==> n.value < |table.nodes|)
      modifies this
      ensures Loaded() && node == n && (data != null <==> n.Some?) && pos == old(pos)
    {
      hide AtRest, SharedInv, Permutation, OrderSlot, OrderCount;
      node := n;
      if n.Some? {
        assert table.Mirrors(n.value);
        data := table.nodes[n.value].data;
        order := data.order;
        CountOfDecoded(order, data.perm);
      } else {
        data, order := null, 0;
        EmptyDecodes();
        CountOfDecoded(0, []);
      }
      count := OrderCount(order);
    }

    /** Its abstract position, a node's end being the start of the next. */
    ghost function Reach(): nat
      requires Loaded() && data != null && pos >= 0
      reads this, table, table.Repr
    {
      Offset(table.t, table.sh, Index()) + pos
    }

    /** One turn of skip_forward. */
    method EnterNext()
      requires Loaded() && data != null && pos == count
      modifies this
      ensures Loaded() && (data != null ==> pos == 0 && Reach() == old(Reach()) && Index() == old(Index()) + 1)
      ensures data == null ==> old(Reach()) == |table.Entries()|
    {
      hide AtRest, SharedInv, Permutation, OrderSlot, OrderCount, Decodes, Contents, Offset, RunAt, Sorted;
      RestParts(table.t, table.sh);
      StandsAt(this);
      ghost var i := Index();
      NextIs(table, node.value);
      Adopt(data.next);
      pos := 0;
      if data != null { IndexIs(this, i + 1); }
    }

    /** skip_forward: on to the next node while this one is exhausted. */
    method SkipForward()
      requires Loaded() && (data != null ==> 0 <= pos <= count)
      modifies this
      ensures Ok()
      ensures Where() == if old(data) == null then Off else Settled(old(Reach()), |table.Entries()|)
    {
      hide AtRest, SharedInv, Permutation, OrderSlot, OrderCount, Decodes, Contents, Offset, RunAt, Sorted;
      ghost var k := if data == null then 0 else Reach();
      while data != null && pos >= count
        invariant Loaded() && (data != null ==> 0 <= pos <= count)
        invariant old(data) == null ==> data == null
        invariant old(data) != null ==> if data != null then Reach() == k else k == |table.Entries()|
        decreases if data == null then 0 else |table.sh.chain| - Index()
      {
        EnterNext();
      }
      if data != null { StandsAt(this); }
    }

    /** pred_node of the node stood on: none for the head, and none with nothing loaded. */
    method Before() returns (p: Option<NodeId>)
      requires Loaded()
      ensures data == null || Index() == 0 ==> p == None
      ensures data != null && Index() > 0 ==> p == Some(table.sh.chain[Index() - 1]) && p.value < |table.nodes|
    {
      hide AtRest, SharedInv, Permutation, OrderSlot, OrderCount, Decodes;
      RestParts(table.t, table.sh);
      HeadFirst(table.t, table.sh);
      ChainIndex(table.t, table.sh, 0);
      if node == Some(0) || OrderCount(order) == 0 {
        if data != null && node != Some(0) {
          NodeRunIs(table, node.value);
          NodeRun(table.t, table.sh, Index());
        }
        return None;
      }
      p := table.PredNode(node.value, order);
    }

    /** One turn of skip_backward: the last slot of the node before, or off the front. */
    method EnterPrevious()
      requires Loaded()
      modifies this
      ensures Loaded() && (old(data) == null ==> data == null)
      ensures data == null && old(data) != null ==> old(Offset(table.t, table.sh, Index())) == 0
      ensures data != null ==> old(data) != null && pos == count - 1 && Index() == old(Index()) - 1
      ensures data != null ==> Offset(table.t, table.sh, Index()) + count == old(Offset(table.t, table.sh, Index()))
    {
      hide AtRest, SharedInv, Permutation, OrderSlot, OrderCount, Decodes, Contents, Offset, RunAt, Sorted;
      RestParts(table.t, table.sh);
      OffsetZero(table.t, table.sh);
      var p := Before();
      if p.None? {
        HeadRests(this);
        data := null;
        return;
      }
      ghost var i := Index();
      Adopt(p);
      IndexIs(this, i - 1);
      StandsAt(this);
      pos := count - 1;
    }

    /** skip_backward: to the last entry before this node, or off the front. */
    method SkipBackward()
      requires Loaded()
      modifies this
      ensures Ok()
      ensures Where() == if old(data) == null || old(Offset(table.t, table.sh, Index())) == 0 then Off
                         else At(old(Offset(table.t, table.sh, Index())) - 1)
    {
      hide AtRest, SharedInv, Permutation, OrderSlot, OrderCount, Decodes, Contents, Offset, RunAt, Sorted;
      ghost var k := if data == null then 0 else Offset(table.t, table.sh, Index());
      while true
        invariant Loaded()
        invariant if old(data) == null then data == null else data != null && Offset(table.t, table.sh, Index()) == k
        decreases if data == null then 0 else Index()
      {
        EnterPrevious();
        if data == null || pos >= 0 { return; }
      }
    }

    /** next: one entry on, or off the end. */
    method Next()
      requires Ok()
      modifies this
      ensures Ok() && Where() == Ahead(old(Where()), |table.Entries()|)
    {
      hide AtRest, SharedInv, Permutation, OrderSlot, OrderCount, Decodes, Contents, Offset, RunAt, Sorted;
      pos := pos + 1;
      SkipForward();
    }

    /** prev: one entry back, or off the front; across nodes by re-descending for the predecessor. */
    method Prev()
      requires Ok()
      modifies this
      ensures Ok() && Where() == Back(old(Where()))
    {
      hide AtRest, SharedInv, Permutation, OrderSlot, OrderCount, Decodes, Contents, Offset, RunAt, Sorted;
      if pos > 0 {
        pos := pos - 1;
      } else {
        SkipBackward();
      }
    }

    /** seek_to_first. */
    method SeekToFirst()
      requires Loaded()
      modifies this
      ensures Ok() && Where() == Settled(0, |table.Entries()|)
    {
      hide AtRest, SharedInv, Permutation, OrderSlot, OrderCount, Decodes, Contents, RunAt, Sorted;
      RestParts(table.t, table.sh);
      HeadFirst(table.t, table.sh);
      ChainInRange(table.t, table.sh);
      Adopt(Some(0));
      IndexIs(this, 0);
      pos := 0;
      SkipForward();
    }

    /** seek_to_last: the greatest entry, if there is one. */
    method SeekToLast()
      requires Loaded()
      modifies this
      ensures Ok() && Where() == if |table.Entries()| == 0 then Off else At(|table.Entries()| - 1)
    {
      hide AtRest, SharedInv, Permutation, OrderSlot, OrderCount, Decodes, Contents, RunAt, Sorted, Offset;
      RestParts(table.t, table.sh);
      HeadFirst(table.t, table.sh);
      var last := table.LastNode();
      Adopt(Some(last));
      ghost var i := |table.sh.chain| - 1;
      IndexIs(this, i);
      StandsAt(this);
      NodeRun(table.t, table.sh, i);
      OffsetZero(table.t, table.sh);
      pos := count - 1;
      if pos < 0 { SkipBackward(); }
    }

    /** seek: the least entry at or above the target. */
    method Seek(target: E)
      requires Loaded()
      modifies this
      ensures Ok() && Where() == Settled(LowerBound(table.t, table.Entries(), target), |table.Entries()|)
    {
      hide AtRest, SharedInv, Permutation, OrderSlot, OrderCount, Decodes, Contents, RunAt, Sorted;
      hide Offset, LowerBound, ScanFrom, InOrder;
      RestParts(table.t, table.sh);
      var cur := table.Descend(target);
      Adopt(Some(cur));
      NodeRunIs(table, cur);
      ghost var run := data.Value().Run();
      SortedInOrder(table.t, run);
      assert data.Seen(data.perm) == data.Value();
      var p, _ := data.SortedPosition(table.t, table.isa, order, count, target, table.t.orderBytes(target), data.perm);
      pos := p;
      SeekIsLowerBound(table.t, table.sh, Index(), target);
      SkipForward();
    }

    /** seek_for_prev: the greatest entry at or below the target. */
    method SeekForPrev(target: E)
      requires Loaded()
      modifies this
      ensures Ok()
      ensures Where().At? ==> Where().k < |table.Entries()| && !table.t.Lt(target, table.Entries()[Where().k])
      ensures forall j :: 0 <= j < |table.Entries()| && (Where().At? ==> Where().k < j) ==> table.t.Lt(target, table.Entries()[j])
    {
      hide AtRest, SharedInv, Permutation, OrderSlot, OrderCount, Decodes, Contents, RunAt, Offset, LowerBound;
      ghost var all := table.Entries();
      SortedInOrder(table.t, all);
      LowerBoundSplits(table.t, all, target);
      Seek(target);
      if !IsValid() {
        SeekToLast();
        LastBelow(table.t, all, target);
        return;
      }
      var here := Key();
      UpperSplits(table.t, all, target);
      if table.t.compare(here, target) > 0 { Prev(); }
    }
  }

  lemma NodeRunIs<E(!new)>(table: MemTable<E>, n: NodeId)
    requires table.Valid() && n < |table.nodes|
    ensures var i, d := IndexOf(table.sh.chain, n), table.nodes[n].data;
      && i < |table.sh.chain| && table.sh.chain[i] == n
      && d.Valid() && RunAt(table.t, table.sh, i) == d.Value().Run() && OrderCount(d.order) == |d.perm|
      && Sorted(table.t, d.Value().Run())
  {
    assert table.Mirrors(n);
    RestParts(table.t, table.sh);
    hide AtRest, SharedInv;
    DataIs(table.t, table.sh, n);
    InstalledFirst(table.t, table.sh, DataOf(table.t, table.sh, n), n);
    SeenIsRun(table.t, table.nodes[n].data.Value());
    FirstSlot(table.nodes[n].data);
  }

  /** Where a loaded iterator stands among the entries. */
  lemma StandsAt<E(!new)>(it: Iterator<E>)
    requires it.Loaded() && it.data != null
    ensures var i := it.Index();
      && it.count == |RunAt(it.table.t, it.table.sh, i)|
      && Offset(it.table.t, it.table.sh, i + 1) == Offset(it.table.t, it.table.sh, i) + it.count <= |it.table.Entries()|
      && (i + 1 == |it.table.sh.chain| ==> Offset(it.table.t, it.table.sh, i + 1) == |it.table.Entries()|)
  {
    hide AtRest, SharedInv, Decodes, Permutation, Offset, RunAt, Contents, Sorted;
    RestParts(it.table.t, it.table.sh);
    NodeRunIs(it.table, it.node.value);
    EntriesOfNode(it.table.t, it.table.sh, it.Index());
  }

  lemma LinkIs<E(!new)>(t: Traits<E>, sh: Shared<E>, n: NodeId)
    requires SharedInv(t, sh) && n in sh.chain
    ensures var i := IndexOf(sh.chain, n);
      && PayloadAt(t, sh, DataOf(t, sh, n)).next == ChainFrom(sh.chain, i + 1)
      && (i + 1 < |sh.chain| ==> sh.chain[i + 1] < |sh.nodes|)
  {
    hide SharedInv;
    var i := IndexOf(sh.chain, n);
    ChainPosition(t, sh, 0, i);
    if i + 1 < |sh.chain| { ChainPosition(t, sh, 0, i + 1); }
  }

  lemma NextIs<E(!new)>(table: MemTable<E>, n: NodeId)
    requires table.Valid() && n < |table.nodes|
    ensures n in table.sh.chain
    ensures var i := IndexOf(table.sh.chain, n);
      && table.nodes[n].data.next == ChainFrom(table.sh.chain, i + 1)
      && (i + 1 < |table.sh.chain| ==> table.sh.chain[i + 1] < |table.nodes|)
  {
    hide AtRest, SharedInv, Decodes, Permutation, ChainFrom, IndexOf;
    RestParts(table.t, table.sh);
    DataIs(table.t, table.sh, n);
    LinkIs(table.t, table.sh, n);
    assert table.Mirrors(n);
    assert table.nodes[n].data.Value().next == table.nodes[n].data.next;
  }

  lemma IndexIs<E(!new)>(it: Iterator<E>, i: nat)
    requires it.Loaded() && it.data != null && i < |it.table.sh.chain| && it.node == Some(it.table.sh.chain[i])
    ensures it.Index() == i
  {
    RestParts(it.table.t, it.table.sh);
    hide AtRest, SharedInv;
    ChainIndex(it.table.t, it.table.sh, i);
  }

  /** Off the front: the node stood on is the head, or none. */
  lemma HeadRests<E(!new)>(it: Iterator<E>)
    requires it.Loaded() && (it.data != null ==> it.Index() == 0)
    ensures it.node == Some(0) || OrderCount(it.order) == 0
  {
    RestParts(it.table.t, it.table.sh);
    hide AtRest, SharedInv;
    HeadFirst(it.table.t, it.table.sh);
  }

  /** Entries about a target's lower bound: those before it are below, those after it are above. */
  lemma UpperSplits<E(!new)>(t: Traits<E>, all: seq<E>, target: E)
    requires t.TotalOrder() && Sorted(t, all)
    ensures var k := LowerBound(t, all, target);
      && (forall j :: 0 <= j < k ==> !t.Lt(target, all[j]))
      && (forall j :: k < j < |all| ==> t.Lt(target, all[j]))
  {
    var k := LowerBound(t, all, target);
    SortedInOrder(t, all);
    LowerBoundSplits(t, all, target);
    hide LowerBound;
    forall j | 0 <= j < |all|
      ensures j < k ==> !t.Lt(target, all[j])
      ensures k < j ==> t.Lt(target, all[j])
    {
      t.Order3(all[j], target, all[j]);
      if k < j { t.Order3(target, all[k], all[j]); }
    }
  }

  lemma LastBelow<E(!new)>(t: Traits<E>, all: seq<E>, target: E)
    requires t.TotalOrder() && Sorted(t, all) && LowerBound(t, all, target) == |all|
    ensures forall j :: 0 <= j < |all| ==> !t.Lt(target, all[j])
  {
    UpperSplits(t, all, target);
  }

  // ---- clients -------------------------------------------------------------------------------

  /** prev undoes next, also across nodes. */
  method PrevUndoesNext<E(!new)>(it: Iterator<E>)
    requires it.Ok() && it.Where().At? && it.Where().k + 1 < |it.table.Entries()|
    modifies it
    ensures it.Ok() && it.Where() == old(it.Where())
  {
    hide AtRest, SharedInv, Contents, Offset;
    it.Next();
    it.Prev();
  }

  /** size(): a full walk from begin() counts the entries. */
  method Size<E(!new)>(table: MemTable<E>) returns (n: nat)
    requires table.Valid()
    ensures n == |table.Entries()|
  {
    hide AtRest, SharedInv, Contents, Offset;
    var it := new Iterator(table);
    it.SeekToFirst();
    n := 0;
    while it.IsValid()
      invariant fresh(it) && it.table == table && it.Ok() && n <= |table.Entries()|
      invariant it.Where() == Settled(n, |table.Entries()|)
      decreases |table.Entries()| - n
    {
      it.Next();
      n := n + 1;
    }
  }
}
