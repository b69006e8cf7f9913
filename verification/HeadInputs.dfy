/**
 Inputs at which the comments about a node's lanes fail: on the head as tt00..tt15 leave
 it, under the standalone comparator. HeadLanes has the exact conditions.
 */
module HeadInputs {
  import opened OrderWord
  import opened Surrogate
  import opened Ordering
  import opened Kernels
  import opened Payloads
  import opened HeadLanes

  function TT(i: nat): (k: Bytes)
    requires i < 10
    ensures |k| == 4
  {
    [116, 116, 48, 48 + i]
  }

  const AAAA: Bytes := [97, 97, 97, 97]
  const TT035: Bytes := [116, 116, 48, 51, 53]

  lemma TTOrder(i: nat, j: nat)
    requires i < 10 && j < 10
    ensures CompareKeys(TT(i), TT(j)) < 0 <==> i < j
    ensures CompareKeys(TT(i), TT035) < 0 <==> i <= 3
    ensures CompareKeys(AAAA, TT(i)) < 0 && CompareKeys(AAAA, TT035) < 0
  {
    CompareKeysMeaning(TT(i), TT(j));
    CompareKeysMeaning(TT(j), TT(i));
    if i < j { assert SplitAt(TT(i), TT(j), 3); }
    if j < i { assert SplitAt(TT(j), TT(i), 3); }
    CompareKeysTotal(TT(j), TT(i), TT(i));
    CompareKeysMeaning(TT(i), TT035);
    CompareKeysMeaning(TT035, TT(i));
    if i < 3 { assert SplitAt(TT(i), TT035, 3); }
    if i == 3 { assert SplitAt(TT(i), TT035, 4); }
    if i > 3 { assert SplitAt(TT035, TT(i), 3); CompareKeysTotal(TT035, TT(i), TT035); }
    CompareKeysMeaning(AAAA, TT(i));
    CompareKeysMeaning(AAAA, TT035);
    assert SplitAt(AAAA, TT(i), 0) && SplitAt(AAAA, TT035, 0);
  }

  /** The head's payload after tt00..tt15: the left half, filled, linked to its sibling. */
  function SplitHead(): (p: Payload<Bytes>)
    ensures p.Shaped() && p.Count() == 8 && p.Run() == [TT(0), TT(1), TT(2), TT(3), TT(4), TT(5), TT(6), TT(7)]
  {
    Filled(StandaloneTraits(), [TT(0), TT(1), TT(2), TT(3), TT(4), TT(5), TT(6), TT(7)], Some(1))
  }

  lemma StandaloneBytes(a: Bytes)
    ensures StandaloneTraits().orderBytes(a) == a
  {
  }

  lemma StandaloneLt(a: Bytes, b: Bytes)
    ensures StandaloneTraits().Lt(a, b) <==> CompareKeys(a, b) < 0
    ensures StandaloneTraits().compare(a, b) == 0 <==> a == b
  {
    CompareKeysTotal(a, b, b);
  }

  lemma TTSorted(run: seq<Bytes>)
    requires |run| == 8 && forall i :: 0 <= i < 8 ==> run[i] == TT(i)
    ensures Sorted(StandaloneTraits(), run)
  {
    hide TT, CompareKeys, StandaloneTraits;
    forall i, j | 0 <= i < j < 8
      ensures StandaloneTraits().Lt(run[i], run[j])
    {
      TTOrder(i, j);
      StandaloneLt(run[i], run[j]);
    }
  }

  lemma SplitHeadFacts()
    ensures SplitHead().prefixLen == 3
    ensures Sorted(StandaloneTraits(), SplitHead().Run()) && LanesExact(StandaloneTraits(), SplitHead())
    ensures RankSorted(SplitHead().lanes, SplitHead().order)
  {
    assert TT(0)[..3] == TT(7)[..3];
    CommonPrefixIs(TT(0), TT(7), 3);
    StandaloneBytes(TT(0));
    StandaloneBytes(TT(7));
    StandaloneKeepsPromises();
    hide CompareKeys, TT, StandaloneTraits, CommonPrefix, SurrogateAt;
    var t, p := StandaloneTraits(), SplitHead();
    TTSorted(p.Run());
    FilledLanes(t, p.Run(), Some(1));
    LanesSorted(t, p);
  }

  /** Once "aaaa" is in: it holds rank 0, so "tt035" is compared against it and judged off the alphabet. */
  lemma AfterAAAA()
    ensures var t, p := StandaloneTraits(), SplitHead();
      var q := Appended(t, p, AAAA);
      && LowerBound(t, p.Run(), AAAA) == 0 && q.Run() == [AAAA] + p.Run() && q.prefixLen == 3
      && !Shares(t, p, AAAA) && !Shares(t, q, TT035)
  {
    var t, p := StandaloneTraits(), SplitHead();
    SplitHeadFacts();
    StandaloneKeepsPromises();
    hide Filled, CompareKeys;
    SortedInOrder(t, p.Run());
    TTOrder(0, 0);
    assert p.Run()[0] == TT(0);
    CompareKeysTotal(AAAA, TT(0), AAAA);
    ConfirmedIsLowerBound(t, p.Run(), AAAA, 0);
    assert AAAA[..3][0] != TT(0)[..3][0];
    var q := Appended(t, p, AAAA);
    assert q.Run()[0] == AAAA;
    assert TT035[..3][0] != AAAA[..3][0];
  }

  lemma RunAfterAAAA(run: seq<Bytes>)
    requires |run| == 9 && run[0] == AAAA && forall i :: 0 < i < 9 ==> run[i] == TT(i - 1)
    ensures Sorted(StandaloneTraits(), run) && Fresh(StandaloneTraits(), run, TT035)
    ensures StandaloneTraits().Lt(run[4], TT035) && !StandaloneTraits().Lt(run[5], TT035)
  {
    hide TT, CompareKeys, StandaloneTraits;
    var t := StandaloneTraits();
    forall i, j | 0 <= i < j < 9
      ensures t.Lt(run[i], run[j])
    {
      StandaloneLt(run[i], run[j]);
      if i == 0 { TTOrder(j - 1, 0); } else { TTOrder(i - 1, j - 1); }
    }
    TTOrder(3, 0);
    TTOrder(4, 0);
    StandaloneLt(run[4], TT035);
    StandaloneLt(run[5], TT035);
    forall i | 0 <= i < 9
      ensures t.compare(run[i], TT035) != 0
    {
      StandaloneLt(run[i], TT035);
      assert |run[i]| == 4;
    }
  }

  lemma RankOfTT035()
    ensures var t, q := StandaloneTraits(), Appended(StandaloneTraits(), SplitHead(), AAAA);
      Sorted(t, q.Run()) && LowerBound(t, q.Run(), TT035) == 5 && Fresh(t, q.Run(), TT035)
  {
    hide Filled, CompareKeys, Appended, LowerBound, TT, StandaloneTraits, Sorted, Fresh;
    var t, p := StandaloneTraits(), SplitHead();
    var run := Appended(t, p, AAAA).Run();
    AfterAAAA();
    StandaloneKeepsPromises();
    RunAfterAAAA(run);
    SortedInOrder(t, run);
    ConfirmedIsLowerBound(t, run, TT035, 5);
  }

  /** Past a three-byte prefix a four-byte key's lane is its last byte, at the top. */
  lemma LaneOfFourth(k: Bytes)
    requires |k| == 4
    ensures SurrogateAt(k, 3) == k[3] as int * 0x100_0000
  {
    var last: Bytes := [k[3]];
    assert k[3..] == last;
    Widths();
    SpelledPadding(last, 1, 4);
    assert Spelled(last, 1) == k[3] by { assert Spelled(last, 0) == 0; }
    assert Shift(2) == 65536;
    assert Shift(3) == 256 * Shift(2);
  }

  lemma LanesAfterAAAA()
    ensures var t, p := StandaloneTraits(), SplitHead();
      var q := Appended(t, p, AAAA);
      && RankSorted(p.lanes, p.order) && RankSorted(q.lanes, q.order)
      && q.LaneAt(5) == 52 * 0x100_0000 && q.LaneAt(1) == 48 * 0x100_0000
  {
    SplitHeadFacts();
    AfterAAAA();
    LaneOfFourth(TT(4));
    LaneOfFourth(TT(0));
    StandaloneKeepsPromises();
    var p := SplitHead();
    assert p.KeyAt(4) == p.Run()[4] == TT(4) && p.KeyAt(0) == p.Run()[0] == TT(0);
    hide CompareKeys, Appended, LowerBound, SurrogateAt, Shares, TT, StandaloneTraits, RankSorted;
    var t := StandaloneTraits();
    StandaloneBytes(AAAA);
    StandaloneBytes(TT(4));
    StandaloneBytes(TT(0));
    SaturatedAppendSortedIff(t, p, AAAA);
    AppendedLaneAt(t, p, AAAA, 5);
    AppendedLaneAt(t, p, AAAA, 1);
    FilledCarries(t, p.Run(), Some(1), 4);
    FilledCarries(t, p.Run(), Some(1), 0);
    hide Filled, SplitHead;
    assert LaneExact(t, p, 4) && LaneExact(t, p, 0);
  }

  /**
   The counterexample. After "aaaa" takes rank 0 the lanes are still sorted; "tt035"
   carries tt0, yet is judged off the alphabet, and its saturated lane lands mid-node.
   The keys are in order throughout.
   */
  lemma HeadLanesBreak()
    ensures var t, p := StandaloneTraits(), SplitHead();
      var q := Appended(t, p, AAAA);
      var r := Appended(t, q, TT035);
      && Sorted(t, r.Run())
      && RankSorted(p.lanes, p.order) && RankSorted(q.lanes, q.order)
      && SharesPrefix(TT035, TT(3), 3) && p.prefixLen == 3 && !Shares(t, q, TT035)
      && !RankSorted(r.lanes, r.order)
  {
    hide CompareKeys, Appended, LowerBound, Shares, StandaloneTraits, RankSorted, Sorted, Fresh, Filled, SplitHead;
    var t, p := StandaloneTraits(), SplitHead();
    var q := Appended(t, p, AAAA);
    SplitHeadFacts();
    StandaloneKeepsPromises();
    AfterAAAA();
    RankOfTT035();
    assert TT035[..3] == TT(3)[..3];
    LanesAfterAAAA();
    StandaloneBytes(TT035);
    SaturatedAppendSortedIff(t, q, TT035);
    SpliceSorted(t, q.Run(), TT035);
  }

  const AAAB: Bytes := [97, 97, 97, 98]

  lemma RunBeforeAAAB(run: seq<Bytes>)
    requires |run| == 9 && run[0] == AAAA && forall i :: 0 < i < 9 ==> run[i] == TT(i - 1)
    ensures StandaloneTraits().Lt(run[0], AAAB) && !StandaloneTraits().Lt(run[1], AAAB)
    ensures Fresh(StandaloneTraits(), run, AAAB)
  {
    StandaloneKeepsPromises();
    hide TT, CompareKeys, StandaloneTraits;
    var t := StandaloneTraits();
    CompareKeysMeaning(AAAA, AAAB);
    assert SplitAt(AAAA, AAAB, 3);
    StandaloneLt(AAAA, AAAB);
    forall i | 0 <= i < 9
      ensures t.compare(run[i], AAAB) != 0
      ensures i > 0 ==> !t.Lt(run[i], AAAB)
    {
      if i > 0 { AAABBelow(i - 1); }
      t.Order3(run[i], AAAB, run[i]);
    }
  }

  lemma RankOfAAAB()
    ensures var t, q := StandaloneTraits(), Appended(StandaloneTraits(), SplitHead(), AAAA);
      LowerBound(t, q.Run(), AAAB) == 1 && Fresh(t, q.Run(), AAAB) && Sorted(t, q.Run())
  {
    hide Filled, CompareKeys, Appended, LowerBound, TT, StandaloneTraits, Sorted, Fresh;
    var t, p := StandaloneTraits(), SplitHead();
    var run := Appended(t, p, AAAA).Run();
    AfterAAAA();
    RankOfTT035();
    StandaloneKeepsPromises();
    RunBeforeAAAB(run);
    SortedInOrder(t, run);
    ConfirmedIsLowerBound(t, run, AAAB, 1);
  }

  lemma AAABBelow(i: nat)
    requires i < 10
    ensures StandaloneTraits().Lt(AAAB, TT(i))
  {
    CompareKeysMeaning(AAAB, TT(i));
    assert SplitAt(AAAB, TT(i), 0);
  }

  lemma SharesAAAB()
    ensures var t, p := StandaloneTraits(), SplitHead();
      !Shares(t, p, AAAB) && Shares(t, Appended(t, p, AAAA), AAAB)
  {
    SplitHeadFacts();
    AfterAAAA();
    var t, p := StandaloneTraits(), SplitHead();
    assert p.KeyAt(0) == p.Run()[0] == TT(0);
    hide CompareKeys, LowerBound, Filled, SplitHead, Appended;
    var q := Appended(t, p, AAAA);
    assert q.KeyAt(0) == q.Run()[0] == AAAA;
    assert AAAB[..3][0] != TT(0)[..3][0];
    assert AAAB[..3] == AAAA[..3];
  }

  /**
   A second input, through the other branch. After "aaaa" the key "aaab" is judged on the
   alphabet, since it agrees with the wrong first key, and its own surrogate goes before
   smaller lanes.
   */
  lemma HeadLanesBreakShared()
    ensures var t, p := StandaloneTraits(), SplitHead();
      var q := Appended(t, p, AAAA);
      var r := Appended(t, q, AAAB);
      && Sorted(t, r.Run()) && RankSorted(q.lanes, q.order)
      && !Shares(t, p, AAAB) && Shares(t, q, AAAB) && !Fits(t, q, AAAB) && !RankSorted(r.lanes, r.order)
  {
    var t, p := StandaloneTraits(), SplitHead();
    var q := Appended(t, p, AAAA);
    StandaloneKeepsPromises();
    SplitHeadFacts();
    AfterAAAA();
    LanesAfterAAAA();
    RankOfAAAB();
    LaneOfFourth(AAAB);
    SharesAAAB();
    StandaloneBytes(AAAB);
    hide CompareKeys, Appended, LowerBound, RankSorted, Sorted, Fresh, Filled, SplitHead, SurrogateAt, Shares, StandaloneTraits;
    AppendSortedIff(t, q, AAAB);
    SpliceSorted(t, q.Run(), AAAB);
  }

  const ZZ: Bytes := [122, 122]
  const YY: Bytes := [121, 121]

  lemma ZZAbove(i: nat)
    requires i < 10
    ensures StandaloneTraits().Lt(TT(i), ZZ) && StandaloneTraits().Lt(TT(i), YY) && StandaloneTraits().Lt(YY, ZZ)
  {
    CompareKeysMeaning(TT(i), ZZ);
    CompareKeysMeaning(TT(i), YY);
    CompareKeysMeaning(YY, ZZ);
    assert SplitAt(TT(i), ZZ, 0) && SplitAt(TT(i), YY, 0) && SplitAt(YY, ZZ, 0);
  }

  lemma RunBeforeZZ(run: seq<Bytes>)
    requires |run| == 8 && forall i :: 0 <= i < 8 ==> run[i] == TT(i)
    ensures forall i :: 0 <= i < 8 ==> StandaloneTraits().Lt(run[i], ZZ) && StandaloneTraits().Lt(run[i], YY)
    ensures StandaloneTraits().Lt(YY, ZZ) && Fresh(StandaloneTraits(), run, ZZ)
  {
    hide TT, StandaloneTraits;
    forall i | 0 <= i < 8
      ensures StandaloneTraits().Lt(run[i], ZZ) && StandaloneTraits().Lt(run[i], YY) && StandaloneTraits().Lt(YY, ZZ)
    {
      ZZAbove(i);
    }
    ZZAbove(0);
  }

  lemma OffZZ()
    ensures !Shares(StandaloneTraits(), SplitHead(), ZZ)
  {
    SplitHeadFacts();
    hide Filled, SplitHead;
  }

  lemma AfterZZ()
    ensures var t, p := StandaloneTraits(), SplitHead();
      var q := Appended(t, p, ZZ);
      && !Shares(t, p, ZZ) && LowerBound(t, p.Run(), ZZ) == 8 && LanesExact(t, q)
      && q.Run() == p.Run() + [ZZ] && Sorted(t, q.Run()) && q.prefixLen == 3
  {
    hide CompareKeys, LowerBound, Filled, StandaloneTraits, TT, LanesExact, Appended, Sorted, Fresh, InOrder, Shares;
    OffZZ();
    var t, p := StandaloneTraits(), SplitHead();
    StandaloneKeepsPromises();
    SplitHeadFacts();
    hide SplitHead;
    var run := p.Run();
    RunBeforeZZ(run);
    SortedInOrder(t, run);
    ConfirmedIsLowerBound(t, run, ZZ, 8);
    SpliceSorted(t, run, ZZ);
    AppendedLanes(t, p, ZZ);
    assert Splice(run, 8, ZZ) == run + [ZZ];
  }

  /** An input at which a key off the alphabet ranks strictly between 0 and n: tt00..tt07, then "zz", then "yy". */
  lemma OutsiderBetween()
    ensures var t, p := StandaloneTraits(), SplitHead();
      var q := Appended(t, p, ZZ);
      && Sorted(t, q.Run()) && LanesExact(t, q) && q.Count() == 9
      && !Shares(t, p, ZZ) && !Shares(t, q, YY) && LowerBound(t, q.Run(), YY) == 8
  {
    var t, p := StandaloneTraits(), SplitHead();
    StandaloneKeepsPromises();
    AfterZZ();
    StandaloneBytes(YY);
    RunBeforeZZ(p.Run());
    hide CompareKeys, LowerBound, Filled, SplitHead, StandaloneTraits, TT, LanesExact, Appended, Sorted, Fresh;
    var q := Appended(t, p, ZZ);
    SortedInOrder(t, q.Run());
    t.Order3(YY, ZZ, YY);
    ConfirmedIsLowerBound(t, q.Run(), YY, 8);
  }

  /** The walk reports the head although its lanes are in rank order: "aaaa" is first, and its lane is not its own. */
  lemma ReportedThoughSorted()
    ensures var t, q := StandaloneTraits(), Appended(StandaloneTraits(), SplitHead(), AAAA);
      Sorted(t, q.Run()) && RankSorted(q.lanes, q.order) && !LanesSound(t, q)
  {
    var t, p := StandaloneTraits(), SplitHead();
    StandaloneKeepsPromises();
    SplitHeadFacts();
    AfterAAAA();
    RankOfTT035();
    LanesAfterAAAA();
    LaneOfFourth(AAAA);
    StandaloneBytes(AAAA);
    FreshAAAA();
    hide CompareKeys, LowerBound, Filled, SplitHead, StandaloneTraits, Appended, SurrogateAt;
    hide LanesExact, Sorted, Fresh, LanesSound, Shares, RankSorted;
    ForeignSoundIff(t, p, AAAA);
  }

  lemma FreshAAAA()
    ensures Fresh(StandaloneTraits(), SplitHead().Run(), AAAA)
  {
    StandaloneKeepsPromises();
    hide Filled, CompareKeys, StandaloneTraits;
    var run := SplitHead().Run();
    forall i | 0 <= i < 8
      ensures StandaloneTraits().compare(run[i], AAAA) != 0
    {
      assert run[i] == TT(i) && TT(i)[0] != AAAA[0];
    }
  }
}
