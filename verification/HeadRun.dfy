/**
 The machine reaches the head's payloads that HeadLanes speaks of: a lone writer inserts
 sixteen ascending keys, which split the head, and then keys below the ninth of them, which
 all go to the head. The two inputs of HeadInputs are such runs.
 */
module HeadRun {
  import opened OrderWord
  import opened Surrogate
  import opened Ordering
  import opened Kernels
  import opened Payloads
  import opened Machine
  import opened Invariant
  import opened Safety
  import opened Quiet
  import opened Scan
  import opened Solo
  import opened LostLookup
  import opened HeadLanes
  import opened HeadSteps
  import opened HeadInputs

  /** The head and one sibling starting at `low`. */
  ghost predicate HeadAndSibling<E(!new)>(sh: Shared<E>, p: Payload<E>, low: E, published: seq<E>)
  {
    && sh.chain == [0, 1] && |sh.nodes| == 2 && |sh.payloads| == 3 && sh.nodes[0].data == Some(2) && sh.nodes[1].low == low
    && sh.payloads[2].d == p && p.Shaped() && p.next == Some(1) && sh.published == published
  }

  ghost predicate TwoNodes<E(!new)>(t: Traits<E>, s: State<E>, p: Payload<E>, low: E, published: seq<E>)
  {
    Rested(t, s) && s.threads[1].Idle? && HeadAndSibling(s.sh, p, low, published)
  }

  lemma TwoInChain()
    ensures ChainWith([0], 0, 1) == [0, 1]
  {
  }

  lemma SplitHasTwo<E(!new)>(t: Traits<E>, a: State<E>, b: Shared<E>, ks: seq<E>)
    requires |ks| == NODE_CAPACITY + 1 && HeadHolds(t, a, ks, NODE_CAPACITY)
    requires IsSplitAlone(t, a.sh, b, ks[NODE_CAPACITY], 0, 0)
    ensures HeadAndSibling(b, Filled(t, ks[..MID], Some(1)), ks[MID], ks)
  {
    hide Attained, Sorted, Filled, FullRun, LowerBound, Permutation, HeadAndSibling, IsSplitAlone;
    FullRunIsAll(t, a, ks);
    TwoOf(t, a.sh, b, ks);
  }

  lemma TwoOf<E(!new)>(t: Traits<E>, a: Shared<E>, b: Shared<E>, ks: seq<E>)
    requires |ks| == NODE_CAPACITY + 1 && a.chain == [0] && |a.nodes| == 1 && |a.payloads| == 1 && a.payloads[0].d.Shaped()
    requires a.published == ks[..NODE_CAPACITY] && a.payloads[0].d.Count() == NODE_CAPACITY
    requires FullRun(t, a.payloads[0].d, ks[NODE_CAPACITY]) == ks && IsSplitAlone(t, a, b, ks[NODE_CAPACITY], 0, 0)
    ensures HeadAndSibling(b, Filled(t, ks[..MID], Some(1)), ks[MID], ks)
  {
    TwoInChain();
    hide Filled, FullRun, LowerBound, ChainWith, Permutation;
    assert ks[..NODE_CAPACITY] + [ks[NODE_CAPACITY]] == ks;
  }

  lemma SplitsHead<E(!new)>(t: Traits<E>, ks: seq<E>) returns (s: State<E>)
    requires t.TotalOrder() && t.HintPromise() && Sorted(t, ks) && |ks| == NODE_CAPACITY + 1
    ensures TwoNodes(t, s, Filled(t, ks[..MID], Some(1)), ks[MID], ks)
  {
    hide Attained, Sorted, LowerBound, Leads, ScanFrom, Filled, IsSplitAlone, HeadAndSibling, Admissible;
    var key := ks[NODE_CAPACITY];
    var a := HeadFills(t, ks, NODE_CAPACITY);
    NextAdmissible(t, a, ks, NODE_CAPACITY);
    ScanStays(t, a, ks, NODE_CAPACITY, key);
    var cur, d;
    s, cur, d := InsertsBySplit(t, a, key);
    SplitHasTwo(t, a, s.sh, ks);
  }

  /** Below the sibling's first key the scan stays at the head. */
  lemma GoesToHead<E(!new)>(t: Traits<E>, s: State<E>, p: Payload<E>, low: E, published: seq<E>, key: E)
    requires TwoNodes(t, s, p, low, published) && t.Lt(key, low)
    ensures ScanFrom(t, s.sh, 0, key, |s.sh.chain|) == 0
  {
    hide Attained, SharedInv, BeginsBy;
    AttainedInv(t, 2, s);
    StartsByLow(t, s.sh, 1, key);
  }

  lemma MayInsert<E(!new)>(t: Traits<E>, s: State<E>, p: Payload<E>, low: E, published: seq<E>, key: E)
    requires TwoNodes(t, s, p, low, published) && Fresh(t, published, key)
    ensures Admissible(t, s, key)
  {
    forall u | 0 <= u < |s.threads|
      ensures !Pending(s.threads[u])
    {
      assert u == 0 || u == 1;
    }
  }

  lemma HeadGains<E(!new)>(t: Traits<E>, s: State<E>, p: Payload<E>, low: E, published: seq<E>, key: E) returns (s': State<E>)
    requires TwoNodes(t, s, p, low, published) && t.Lt(key, low) && Fresh(t, published, key) && p.Count() < NODE_CAPACITY
    ensures TwoNodes(t, s', Appended(t, p, key), low, published + [key])
  {
    hide Attained, LowerBound, Leads, ScanFrom, Appended, Admissible, Fresh;
    MayInsert(t, s, p, low, published, key);
    GoesToHead(t, s, p, low, published, key);
    var cur, d;
    s', cur, d := InsertsByAppend(t, s, key);
  }

  /** Keys below `low`, each different from everything before it. */
  ghost predicate Insertable<E(!new)>(t: Traits<E>, keys: seq<E>, low: E, published: seq<E>)
  {
    keys != [] ==> t.Lt(keys[0], low) && Fresh(t, published, keys[0]) && Insertable(t, keys[1..], low, published + [keys[0]])
  }

  lemma {:induction false} HeadGainsAll<E(!new)>(t: Traits<E>, s: State<E>, p: Payload<E>, low: E, published: seq<E>, keys: seq<E>)
    returns (s': State<E>)
    requires p.Shaped() && TwoNodes(t, s, p, low, published) && Insertable(t, keys, low, published)
    requires p.Count() + |keys| <= NODE_CAPACITY
    ensures TwoNodes(t, s', AppendAll(t, p, keys), low, published + keys)
    decreases |keys|
  {
    hide TwoNodes, Appended, Fresh;
    s' := s;
    assert published + [] == published;
    if keys != [] {
      s' := HeadGains(t, s, p, low, published, keys[0]);
      s' := HeadGainsAll(t, s', Appended(t, p, keys[0]), low, published + [keys[0]], keys[1..]);
      assert published + [keys[0]] + keys[1..] == published + keys;
    }
  }

  /**
   Every run of appends HeadLanes speaks of is a run of the machine: under any comparator,
   after any sixteen ascending inserts and then any keys below the ninth, the head holds its
   filled left half with exactly those keys appended.
   */
  lemma HeadReaches<E(!new)>(t: Traits<E>, ks: seq<E>, keys: seq<E>) returns (s: State<E>)
    requires t.TotalOrder() && t.HintPromise() && Sorted(t, ks) && |ks| == NODE_CAPACITY + 1
    requires |keys| < MID && Insertable(t, keys, ks[MID], ks)
    ensures Attained(t, 2, s) && HeadPayload(t, s.sh) == AppendAll(t, Filled(t, ks[..MID], Some(1)), keys)
    ensures s.sh.published == ks + keys
  {
    hide Attained, Sorted, Insertable, Filled, AppendAll;
    s := SplitsHead(t, ks);
    s := HeadGainsAll(t, s, Filled(t, ks[..MID], Some(1)), ks[MID], ks, keys);
  }

  // ---- the inputs ------------------------------------------------------------------------------

  /** tt00 up to tt15. */
  function Sixteen(): (ks: seq<Bytes>)
    ensures |ks| == NODE_CAPACITY + 1 && forall i :: 0 <= i < |ks| ==> ks[i] == [116, 116, 48 + i / 10, 48 + i % 10]
  {
    seq(NODE_CAPACITY + 1, i => [116, 116, 48 + i / 10, 48 + i % 10])
  }

  lemma SixteenAscend()
    ensures Sorted(StandaloneTraits(), Sixteen())
    ensures Filled(StandaloneTraits(), Sixteen()[..MID], Some(1)) == SplitHead()
  {
    var ks := Sixteen();
    hide StandaloneTraits, CompareKeys;
    forall i, j | 0 <= i < j < |ks|
      ensures StandaloneTraits().Lt(ks[i], ks[j])
    {
      CompareKeysMeaning(ks[i], ks[j]);
      StandaloneLt(ks[i], ks[j]);
      if i / 10 == j / 10 { assert SplitAt(ks[i], ks[j], 3); } else { assert SplitAt(ks[i], ks[j], 2); }
    }
    assert ks[..MID] == [TT(0), TT(1), TT(2), TT(3), TT(4), TT(5), TT(6), TT(7)];
  }

  /** Keys of another length, or starting with another letter, are none of the sixteen. */
  lemma NoneOfSixteen(key: Bytes)
    requires |key| != 4 || key[0] != 116
    ensures Fresh(StandaloneTraits(), Sixteen(), key)
  {
    StandaloneKeepsPromises();
    hide StandaloneTraits;
  }

  lemma BelowNinth()
    ensures Sixteen()[MID] == TT(8)
    ensures StandaloneTraits().Lt(AAAA, TT(8)) && StandaloneTraits().Lt(TT035, TT(8)) && StandaloneTraits().Lt(AAAB, TT(8))
  {
    TTOrder(8, 8);
    CompareKeysTotal(TT(8), TT035, TT(8));
    AAABBelow(8);
  }

  lemma InputsInsertable(key: Bytes)
    requires key == TT035 || key == AAAB
    ensures Insertable(StandaloneTraits(), [AAAA, key], TT(8), Sixteen())
  {
    var t, ks := StandaloneTraits(), Sixteen();
    StandaloneKeepsPromises();
    BelowNinth();
    NoneOfSixteen(AAAA);
    NoneOfSixteen(key);
    hide StandaloneTraits, TT, Sixteen;
    assert Fresh(t, ks + [AAAA], key);
    assert [AAAA, key][1..] == [key] && [key][1..] == [];
    assert Insertable(t, [key], TT(8), ks + [AAAA]);
  }

  lemma HeadAfter(key: Bytes) returns (s: State<Bytes>)
    requires key == TT035 || key == AAAB
    ensures Attained(StandaloneTraits(), 2, s)
    ensures HeadPayload(StandaloneTraits(), s.sh) == Appended(StandaloneTraits(), Appended(StandaloneTraits(), SplitHead(), AAAA), key)
    ensures s.sh.published == Sixteen() + [AAAA, key]
  {
    var t := StandaloneTraits();
    StandaloneKeepsPromises();
    SixteenAscend();
    BelowNinth();
    InputsInsertable(key);
    hide StandaloneTraits, Attained, Sorted, Insertable, Filled, SplitHead, Sixteen, Appended;
    s := HeadReaches(t, Sixteen(), [AAAA, key]);
    var p := SplitHead();
    assert [AAAA, key][1..] == [key] && [key][1..] == [];
    assert AppendAll(t, p, [AAAA, key]) == AppendAll(t, Appended(t, p, AAAA), [key]);
  }

  /**
   tt00..tt15, "aaaa", then "tt035" or "aaab": a reachable state of the machine whose head
   has its keys in order and its lanes out of order.
   */
  lemma LanesBreakInARun(key: Bytes) returns (s: State<Bytes>)
    requires key == TT035 || key == AAAB
    ensures Attained(StandaloneTraits(), 2, s) && s.sh.published == Sixteen() + [AAAA, key]
    ensures var p := HeadPayload(StandaloneTraits(), s.sh);
      p.Shaped() && Sorted(StandaloneTraits(), p.Run()) && !RankSorted(p.lanes, p.order)
  {
    s := HeadAfter(key);
    HeadLanesBreak();
    HeadLanesBreakShared();
    hide StandaloneTraits, Attained, Sorted, SplitHead, Sixteen, Appended, RankSorted, Fits, Shares;
  }
}
