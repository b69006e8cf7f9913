/**
 The list a tower level is: the nodes met from the head along its pointers. What storing
 one pointer does to it, off the list and when it joins a node to it.
 */
module Levels {
  import opened Ordering
  import opened Payloads
  import opened Machine
  import opened Invariant
  import opened NodeSplit
  import opened Descents
  import opened ReaderSteps
  import opened Scan

  /** The node met after k pointers of level lv from the head. */
  function LevelHop<E(!new)>(t: Traits<E>, sh: Shared<E>, lv: nat, k: nat): Option<NodeId>
  {
    if k == 0 then Some(0)
    else
      var p := LevelHop(t, sh, lv, k - 1);
      if p.None? then None else TowerAt(t, sh, p.value, lv)
  }

  ghost predicate OnLevel<E(!new)>(t: Traits<E>, sh: Shared<E>, lv: nat, m: NodeId)
  {
    exists k: nat :: LevelHop(t, sh, lv, k) == Some(m)
  }

  lemma HeadOnLevel<E(!new)>(t: Traits<E>, sh: Shared<E>, lv: nat)
    ensures OnLevel(t, sh, lv, 0)
  {
    assert LevelHop(t, sh, lv, 0) == Some(0);
  }

  lemma NextOnLevel<E(!new)>(t: Traits<E>, sh: Shared<E>, lv: nat, m: NodeId)
    requires OnLevel(t, sh, lv, m) && TowerAt(t, sh, m, lv).Some?
    ensures OnLevel(t, sh, lv, TowerAt(t, sh, m, lv).value)
  {
    hide TowerAt;
    var k: nat :| LevelHop(t, sh, lv, k) == Some(m);
    assert LevelHop(t, sh, lv, k + 1) == TowerAt(t, sh, m, lv);
  }

  lemma {:induction false} HopPublished<E(!new)>(t: Traits<E>, sh: Shared<E>, lv: nat, k: nat)
    requires SharedInv(t, sh) && LevelHop(t, sh, lv, k).Some?
    ensures var m := LevelHop(t, sh, lv, k).value; m in sh.chain && m < |sh.nodes|
  {
    hide SharedInv, TowerAt;
    HeadFirst(t, sh);
    if k > 0 {
      HopPublished(t, sh, lv, k - 1);
      TowerSound(t, sh, LevelHop(t, sh, lv, k - 1).value, lv);
    } else {
      ChainInRange(t, sh);
    }
  }

  /** A level's list is a subsequence of level 0: each node on it stands further along than the one before. */
  lemma {:induction false} LevelAscends<E(!new)>(t: Traits<E>, sh: Shared<E>, lv: nat, j: nat, k: nat)
    requires t.TotalOrder() && SharedInv(t, sh) && j < k && LevelHop(t, sh, lv, k).Some?
    ensures LevelHop(t, sh, lv, j).Some?
    ensures var a, b := LevelHop(t, sh, lv, j).value, LevelHop(t, sh, lv, k).value;
      a in sh.chain && b in sh.chain && IndexOf(sh.chain, a) < IndexOf(sh.chain, b)
    decreases k
  {
    hide SharedInv, TowerAt;
    var p := LevelHop(t, sh, lv, k - 1).value;
    HopPublished(t, sh, lv, k);
    HopPublished(t, sh, lv, k - 1);
    TowerSound(t, sh, p, lv);
    FurtherAlong(t, sh, p, LevelHop(t, sh, lv, k).value);
    if j < k - 1 { LevelAscends(t, sh, lv, j, k - 1); }
  }

  // ---- storing one pointer -------------------------------------------------------------------

  ghost predicate SameTowers<E(!new)>(t: Traits<E>, a: Shared<E>, b: Shared<E>)
  {
    forall n: NodeId, l: nat :: TowerAt(t, b, n, l) == TowerAt(t, a, n, l)
  }

  ghost predicate OnePointer<E(!new)>(t: Traits<E>, a: Shared<E>, b: Shared<E>, at: NodeId, lv: nat)
  {
    forall n: NodeId, l: nat :: n != at || l != lv ==> TowerAt(t, b, n, l) == TowerAt(t, a, n, l)
  }

  ghost predicate SameLevels<E(!new)>(t: Traits<E>, a: Shared<E>, b: Shared<E>)
  {
    forall lv: nat, m: NodeId :: OnLevel(t, b, lv, m) <==> OnLevel(t, a, lv, m)
  }

  lemma {:induction false} OffLevelHop<E(!new)>(t: Traits<E>, a: Shared<E>, b: Shared<E>, at: NodeId, lv: nat, l: nat, k: nat)
    requires OnePointer(t, a, b, at, lv) && !OnLevel(t, a, lv, at)
    ensures LevelHop(t, b, l, k) == LevelHop(t, a, l, k)
  {
    hide TowerAt;
    if k > 0 {
      OffLevelHop(t, a, b, at, lv, l, k - 1);
      var p := LevelHop(t, a, l, k - 1);
      if p.Some? { assert OnLevel(t, a, l, p.value); }
    }
  }

  /** A pointer of a node that is not on the level changes no level. */
  lemma OffLevelEdit<E(!new)>(t: Traits<E>, a: Shared<E>, b: Shared<E>, at: NodeId, lv: nat)
    requires OnePointer(t, a, b, at, lv) && !OnLevel(t, a, lv, at)
    ensures SameLevels(t, a, b)
  {
    hide LevelHop, TowerAt, OnePointer;
    forall l: nat, m: NodeId
      ensures OnLevel(t, b, l, m) <==> OnLevel(t, a, l, m)
    {
      forall k: nat
        ensures LevelHop(t, b, l, k) == LevelHop(t, a, l, k)
      {
        OffLevelHop(t, a, b, at, lv, l, k);
      }
    }
  }

  lemma {:induction false} SameHop<E(!new)>(t: Traits<E>, a: Shared<E>, b: Shared<E>, l: nat, k: nat)
    requires SameTowers(t, a, b)
    ensures LevelHop(t, b, l, k) == LevelHop(t, a, l, k)
  {
    hide TowerAt;
    if k > 0 { SameHop(t, a, b, l, k - 1); }
  }

  lemma SameTowersLevels<E(!new)>(t: Traits<E>, a: Shared<E>, b: Shared<E>)
    requires SameTowers(t, a, b)
    ensures SameLevels(t, a, b)
  {
    hide LevelHop, TowerAt, SameTowers;
    forall l: nat, m: NodeId
      ensures OnLevel(t, b, l, m) <==> OnLevel(t, a, l, m)
    {
      forall k: nat
        ensures LevelHop(t, b, l, k) == LevelHop(t, a, l, k)
      {
        SameHop(t, a, b, l, k);
      }
    }
  }

  // ---- joining a node --------------------------------------------------------------------------

  /** The compare-exchange: pred's pointer, and only it, now leads to a node that is not on the level and leads where pred did. */
  ghost predicate Joins<E(!new)>(t: Traits<E>, a: Shared<E>, b: Shared<E>, lv: nat, pred: NodeId, sib: NodeId)
  {
    && OnePointer(t, a, b, pred, lv) && TowerAt(t, b, pred, lv) == Some(sib)
    && TowerAt(t, a, sib, lv) == TowerAt(t, a, pred, lv) && pred != sib && !OnLevel(t, a, lv, sib)
  }

  lemma {:induction false} JoinedBefore<E(!new)>(t: Traits<E>, a: Shared<E>, b: Shared<E>, lv: nat, pred: NodeId, sib: NodeId,
    p: nat, j: nat)
    requires t.TotalOrder() && SharedInv(t, a) && Joins(t, a, b, lv, pred, sib) && LevelHop(t, a, lv, p) == Some(pred) && j <= p
    ensures LevelHop(t, b, lv, j) == LevelHop(t, a, lv, j)
    decreases j
  {
    hide SharedInv, TowerAt;
    if j > 0 {
      JoinedBefore(t, a, b, lv, pred, sib, p, j - 1);
      LevelAscends(t, a, lv, j - 1, p);
    }
  }

  lemma {:induction false} JoinedAfter<E(!new)>(t: Traits<E>, a: Shared<E>, b: Shared<E>, lv: nat, pred: NodeId, sib: NodeId,
    p: nat, j: nat)
    requires t.TotalOrder() && SharedInv(t, a) && Joins(t, a, b, lv, pred, sib) && LevelHop(t, a, lv, p) == Some(pred) && j > p
    ensures LevelHop(t, b, lv, p + 1) == Some(sib) && LevelHop(t, b, lv, j + 1) == LevelHop(t, a, lv, j)
    decreases j
  {
    hide SharedInv, TowerAt;
    JoinedBefore(t, a, b, lv, pred, sib, p, p);
    if j > p + 1 {
      JoinedAfter(t, a, b, lv, pred, sib, p, j - 1);
      if LevelHop(t, a, lv, j - 1).Some? { LevelAscends(t, a, lv, p, j - 1); }
    }
  }

  /** Everything stays on its level, and the node is on the level from then on exactly when pred was. */
  lemma JoinEdit<E(!new)>(t: Traits<E>, a: Shared<E>, b: Shared<E>, lv: nat, pred: NodeId, sib: NodeId)
    requires t.TotalOrder() && SharedInv(t, a) && Joins(t, a, b, lv, pred, sib)
    ensures forall l: nat, m: NodeId ::
      OnLevel(t, b, l, m) <==> OnLevel(t, a, l, m) || (l == lv && m == sib && OnLevel(t, a, lv, pred))
  {
    hide SharedInv, TowerAt, LevelHop;
    if !OnLevel(t, a, lv, pred) {
      OffLevelEdit(t, a, b, pred, lv);
    } else {
      var p: nat :| LevelHop(t, a, lv, p) == Some(pred);
      forall l: nat, m: NodeId
        ensures OnLevel(t, b, l, m) <==> OnLevel(t, a, l, m) || (l == lv && m == sib)
      {
        if l == lv { JoinedList(t, a, b, lv, pred, sib, p, m); } else { OtherLevel(t, a, b, pred, lv, l, m); }
      }
    }
  }

  lemma OtherLevel<E(!new)>(t: Traits<E>, a: Shared<E>, b: Shared<E>, at: NodeId, lv: nat, l: nat, m: NodeId)
    requires OnePointer(t, a, b, at, lv) && l != lv
    ensures OnLevel(t, b, l, m) <==> OnLevel(t, a, l, m)
  {
    hide TowerAt, LevelHop, OnePointer;
    forall k: nat
      ensures LevelHop(t, b, l, k) == LevelHop(t, a, l, k)
    {
      OtherHop(t, a, b, at, lv, l, k);
    }
  }

  lemma {:induction false} OtherHop<E(!new)>(t: Traits<E>, a: Shared<E>, b: Shared<E>, at: NodeId, lv: nat, l: nat, k: nat)
    requires OnePointer(t, a, b, at, lv) && l != lv
    ensures LevelHop(t, b, l, k) == LevelHop(t, a, l, k)
  {
    hide TowerAt;
    if k > 0 { OtherHop(t, a, b, at, lv, l, k - 1); }
  }

  lemma JoinedList<E(!new)>(t: Traits<E>, a: Shared<E>, b: Shared<E>, lv: nat, pred: NodeId, sib: NodeId, p: nat, m: NodeId)
    requires t.TotalOrder() && SharedInv(t, a) && Joins(t, a, b, lv, pred, sib) && LevelHop(t, a, lv, p) == Some(pred)
    ensures OnLevel(t, b, lv, m) <==> OnLevel(t, a, lv, m) || m == sib
  {
    hide SharedInv, TowerAt, LevelHop, Joins;
    JoinedAfter(t, a, b, lv, pred, sib, p, p + 1);
    if OnLevel(t, a, lv, m) {
      var j: nat :| LevelHop(t, a, lv, j) == Some(m);
      if j <= p { JoinedBefore(t, a, b, lv, pred, sib, p, j); } else { JoinedAfter(t, a, b, lv, pred, sib, p, j); }
    }
    if OnLevel(t, b, lv, m) {
      var j: nat :| LevelHop(t, b, lv, j) == Some(m);
      if j <= p {
        JoinedBefore(t, a, b, lv, pred, sib, p, j);
      } else if j > p + 1 {
        JoinedAfter(t, a, b, lv, pred, sib, p, j - 1);
      }
    }
  }

  // ---- what linking a sibling leaves -----------------------------------------------------------

  /** Every node of a level is on the level below too, as it is unless a level was given up. */
  ghost predicate Nested<E(!new)>(t: Traits<E>, sh: Shared<E>)
  {
    forall lv: nat, m: NodeId :: lv >= 1 && OnLevel(t, sh, lv + 1, m) ==> OnLevel(t, sh, lv, m)
  }

  /** What joining the sibling to one level does: its pointer is pred's former one, pred's leads to it, no other changes. */
  ghost predicate JoinedAt<E(!new)>(t: Traits<E>, a: Shared<E>, b: Shared<E>, lv: nat, pred: NodeId, sib: NodeId)
  {
    && pred != sib && TowerAt(t, b, pred, lv) == Some(sib) && TowerAt(t, b, sib, lv) == TowerAt(t, a, pred, lv)
    && forall m: NodeId, l: nat :: l != lv || (m != pred && m != sib) ==> TowerAt(t, b, m, l) == TowerAt(t, a, m, l)
  }

  /** And the level then holds what it held and the sibling. */
  ghost predicate LevelGains<E(!new)>(t: Traits<E>, a: Shared<E>, b: Shared<E>, lv: nat, pred: NodeId, sib: NodeId)
  {
    forall l: nat, m: NodeId :: OnLevel(t, b, l, m) <==> OnLevel(t, a, l, m) || (l == lv && m == sib && OnLevel(t, a, lv, pred))
  }

  /** On this level the sibling follows pred and leads where pred led; nobody else's pointer differs. */
  ghost predicate Follows<E(!new)>(t: Traits<E>, a: Shared<E>, b: Shared<E>, lv: nat, pred: NodeId, sib: NodeId)
  {
    && pred != sib && TowerAt(t, b, pred, lv) == Some(sib) && TowerAt(t, b, sib, lv) == TowerAt(t, a, pred, lv)
    && forall m: NodeId :: m != pred && m != sib ==> TowerAt(t, b, m, lv) == TowerAt(t, a, m, lv)
  }

  ghost predicate Followed<E(!new)>(t: Traits<E>, a: Shared<E>, b: Shared<E>, lv: nat, sib: NodeId)
  {
    exists pred :: Follows(t, a, b, lv, pred, sib)
  }

  ghost predicate SameLevel<E(!new)>(t: Traits<E>, a: Shared<E>, b: Shared<E>, lv: nat)
  {
    forall m: NodeId :: TowerAt(t, b, m, lv) == TowerAt(t, a, m, lv)
  }

  lemma JoinedFollows<E(!new)>(t: Traits<E>, a: Shared<E>, b: Shared<E>, lv: nat, pred: NodeId, sib: NodeId)
    requires JoinedAt(t, a, b, lv, pred, sib)
    ensures Follows(t, a, b, lv, pred, sib) && forall l: nat :: l != lv ==> SameLevel(t, a, b, l)
  {
    hide TowerAt;
  }

  lemma FollowsLater<E(!new)>(t: Traits<E>, a: Shared<E>, b: Shared<E>, c: Shared<E>, lv: nat, pred: NodeId, sib: NodeId)
    ensures Follows(t, a, b, lv, pred, sib) && SameLevel(t, b, c, lv) ==> Follows(t, a, c, lv, pred, sib)
    ensures SameLevel(t, a, b, lv) && Follows(t, b, c, lv, pred, sib) ==> Follows(t, a, c, lv, pred, sib)
    ensures SameLevel(t, a, b, lv) && SameLevel(t, b, c, lv) ==> SameLevel(t, a, c, lv)
  {
    hide TowerAt;
  }

  /** Levels nested, and the sibling on every level below lv. */
  ghost predicate NestedTo<E(!new)>(t: Traits<E>, sh: Shared<E>, sib: NodeId, lv: nat)
  {
    Nested(t, sh) && forall l: nat :: 1 <= l < lv ==> OnLevel(t, sh, l, sib)
  }

  lemma NestedOn<E(!new)>(t: Traits<E>, a: Shared<E>, b: Shared<E>, lv: nat, pred: NodeId, sib: NodeId)
    requires NestedTo(t, a, sib, lv) && LevelGains(t, a, b, lv, pred, sib) && OnLevel(t, a, lv, pred)
    ensures NestedTo(t, b, sib, lv + 1)
  {
    hide OnLevel;
  }

  /** Every level from lv up to the height, the rest as it was. */
  ghost predicate Climbed<E(!new)>(t: Traits<E>, a: Shared<E>, b: Shared<E>, lv: nat, height: nat, sib: NodeId)
  {
    && (forall l: nat :: lv <= l < height ==> Followed(t, a, b, l, sib))
    && (forall l: nat :: l < lv || l >= height ==> SameLevel(t, a, b, l))
    && (NestedTo(t, a, sib, lv) ==>
          && Nested(t, b)
          && forall l: nat, m: NodeId :: OnLevel(t, b, l, m) <==> OnLevel(t, a, l, m) || (lv <= l < height && m == sib))
  }

  lemma ClimbedNone<E(!new)>(t: Traits<E>, a: Shared<E>, lv: nat, height: nat, sib: NodeId)
    requires lv >= height
    ensures Climbed(t, a, a, lv, height, sib)
  {
    hide TowerAt, OnLevel;
  }

  lemma ClimbedOne<E(!new)>(t: Traits<E>, a: Shared<E>, b: Shared<E>, c: Shared<E>, lv: nat, height: nat, pred: NodeId, sib: NodeId)
    requires lv < height && JoinedAt(t, a, b, lv, pred, sib) && LevelGains(t, a, b, lv, pred, sib)
    requires (Nested(t, a) ==> OnLevel(t, a, lv, pred)) && Climbed(t, b, c, lv + 1, height, sib)
    ensures Climbed(t, a, c, lv, height, sib)
  {
    hide JoinedAt, Follows, SameLevel, OnLevel, Nested;
    JoinedFollows(t, a, b, lv, pred, sib);
    FollowsLater(t, a, b, c, lv, pred, sib);
    forall l: nat | lv <= l < height
      ensures Followed(t, a, c, l, sib)
    {
      if l > lv {
        assert Followed(t, b, c, l, sib);
        var pd :| Follows(t, b, c, l, pd, sib);
        FollowsLater(t, a, b, c, l, pd, sib);
      }
    }
    forall l: nat | l < lv || l >= height
      ensures SameLevel(t, a, c, l)
    {
      FollowsLater(t, a, b, c, l, pred, sib);
    }
    if NestedTo(t, a, sib, lv) { NestedOn(t, a, b, lv, pred, sib); }
  }

  /** No pointer on these levels leads to the node. */
  ghost predicate Unled<E(!new)>(t: Traits<E>, sh: Shared<E>, m: NodeId, from: nat)
  {
    forall n: NodeId, l: nat :: l >= from ==> TowerAt(t, sh, n, l) != Some(m)
  }

  /** Some pointer on these levels does. */
  ghost predicate LedTo<E(!new)>(t: Traits<E>, sh: Shared<E>, m: NodeId, from: nat)
  {
    !Unled(t, sh, m, from)
  }

  lemma UnledOff<E(!new)>(t: Traits<E>, sh: Shared<E>, m: NodeId, from: nat, l: nat)
    requires Unled(t, sh, m, from) && m != 0 && l >= from
    ensures !OnLevel(t, sh, l, m)
  {
    hide TowerAt;
  }

  /** The sibling has been added to the level: behind a node that is on it, if levels are nested. */
  ghost predicate Added<E(!new)>(t: Traits<E>, a: Shared<E>, b: Shared<E>, lv: nat, sib: NodeId)
  {
    exists pred :: AddedAfter(t, a, b, lv, pred, sib)
  }

  ghost predicate AddedAfter<E(!new)>(t: Traits<E>, a: Shared<E>, b: Shared<E>, lv: nat, pred: NodeId, sib: NodeId)
  {
    JoinedAt(t, a, b, lv, pred, sib) && LevelGains(t, a, b, lv, pred, sib) && (Nested(t, a) ==> OnLevel(t, a, lv, pred))
  }

  /** A failed attempt: the sibling's own pointer on the level, and nothing else, may differ; it does not lead to itself. */
  ghost predicate OwnOnly<E(!new)>(t: Traits<E>, a: Shared<E>, b: Shared<E>, lv: nat, sib: NodeId)
  {
    OnePointer(t, a, b, sib, lv) && TowerAt(t, b, sib, lv) != Some(sib)
  }

  lemma UnledPointer<E(!new)>(t: Traits<E>, sh: Shared<E>, m: NodeId, lv: nat, n: NodeId)
    requires Unled(t, sh, m, lv)
    ensures TowerAt(t, sh, n, lv) != Some(m)
  {
  }

  /** The two stores of a successful attempt. */
  lemma TwoStores<E(!new)>(t: Traits<E>, a: Shared<E>, x: Shared<E>, b: Shared<E>, lv: nat, pred: NodeId, sib: NodeId)
    requires t.TotalOrder() && SharedInv(t, x) && pred != sib && sib != 0 && Unled(t, a, sib, lv)
    requires OnePointer(t, a, x, sib, lv) && TowerAt(t, x, sib, lv) == TowerAt(t, a, pred, lv)
    requires OnePointer(t, x, b, pred, lv) && TowerAt(t, b, pred, lv) == Some(sib)
    ensures JoinedAt(t, a, b, lv, pred, sib) && LevelGains(t, a, b, lv, pred, sib)
  {
    hide SharedInv, TowerAt, OnLevel;
    UnledOff(t, a, sib, lv, lv);
    OffLevelEdit(t, a, x, sib, lv);
    assert TowerAt(t, x, pred, lv) == TowerAt(t, a, pred, lv);
    JoinEdit(t, x, b, lv, pred, sib);
  }

  lemma SameNested<E(!new)>(t: Traits<E>, a: Shared<E>, b: Shared<E>)
    requires SameLevels(t, a, b) && Nested(t, a)
    ensures Nested(t, b)
  {
    hide OnLevel;
  }

  /** Failed attempts before it, which stored only the sibling's own pointer, do not matter. */
  lemma OwnThenAdded<E(!new)>(t: Traits<E>, a: Shared<E>, x: Shared<E>, b: Shared<E>, lv: nat, sib: NodeId)
    requires sib != 0 && Unled(t, a, sib, lv) && OnePointer(t, a, x, sib, lv) && Added(t, x, b, lv, sib)
    ensures Added(t, a, b, lv, sib)
  {
    hide TowerAt, OnLevel, Nested;
    UnledOff(t, a, sib, lv, lv);
    OffLevelEdit(t, a, x, sib, lv);
    var pred :| AddedAfter(t, x, b, lv, pred, sib);
    if Nested(t, a) { SameNested(t, a, x); }
    assert TowerAt(t, x, pred, lv) == TowerAt(t, a, pred, lv);
    assert AddedAfter(t, a, b, lv, pred, sib);
  }

  lemma UnledOwn<E(!new)>(t: Traits<E>, a: Shared<E>, b: Shared<E>, lv: nat, sib: NodeId)
    requires Unled(t, a, sib, lv) && OnePointer(t, a, b, sib, lv) && TowerAt(t, b, sib, lv) != Some(sib)
    ensures Unled(t, b, sib, lv)
  {
    hide TowerAt;
  }

  /** With the sibling on every level below, nested levels stay nested as it is added to the next. */
  lemma AddedNested<E(!new)>(t: Traits<E>, a: Shared<E>, b: Shared<E>, c: Shared<E>, lv: nat, sib: NodeId)
    requires lv >= 1 && Climbed(t, a, b, 1, lv, sib) && Added(t, b, c, lv, sib)
    ensures Climbed(t, a, c, 1, lv + 1, sib)
  {
    hide JoinedAt, Follows, SameLevel, OnLevel, Nested;
    var pred :| AddedAfter(t, b, c, lv, pred, sib);
    JoinedFollows(t, b, c, lv, pred, sib);
    FollowsLater(t, a, b, c, lv, pred, sib);
    forall l: nat | 1 <= l < lv + 1
      ensures Followed(t, a, c, l, sib)
    {
      if l < lv {
        assert Followed(t, a, b, l, sib);
        var pd :| Follows(t, a, b, l, pd, sib);
        FollowsLater(t, a, b, c, l, pd, sib);
      }
    }
    forall l: nat | l < 1 || l >= lv + 1
      ensures SameLevel(t, a, c, l)
    {
      FollowsLater(t, a, b, c, l, pred, sib);
    }
    if NestedTo(t, a, sib, 1) { NestedOn(t, b, c, lv, pred, sib); }
  }

  /** All eight attempts fail on the level. */
  ghost predicate GivenUp(fails: (nat, nat) -> bool, lv: nat)
  {
    forall k :: 0 <= k < ATTEMPTS ==> fails(lv, k)
  }

  ghost predicate OthersKept<E(!new)>(t: Traits<E>, a: Shared<E>, b: Shared<E>, lv: nat, sib: NodeId)
  {
    forall m: NodeId :: m != sib ==> TowerAt(t, b, m, lv) == TowerAt(t, a, m, lv)
  }

  /**
   What link_tower leaves once it has been through the levels below hi. On a level not given
   up the sibling follows some node and leads where that node led; on one given up nobody
   else's pointer has changed; with none given up, levels that were nested still are, and
   each has gained the sibling and lost nothing.
   */
  ghost predicate TowerLinked<E(!new)>(t: Traits<E>, a: Shared<E>, b: Shared<E>, hi: nat, sib: NodeId, fails: (nat, nat) -> bool)
  {
    && (forall l: nat :: 1 <= l < hi ==> if GivenUp(fails, l) then OthersKept(t, a, b, l, sib) else Followed(t, a, b, l, sib))
    && (forall l: nat :: l < 1 || l >= hi ==> SameLevel(t, a, b, l))
    && ((forall l: nat :: 1 <= l < hi ==> !GivenUp(fails, l)) ==> Climbed(t, a, b, 1, hi, sib))
  }

  lemma TowerNone<E(!new)>(t: Traits<E>, a: Shared<E>, sib: NodeId, fails: (nat, nat) -> bool)
    ensures TowerLinked(t, a, a, 1, sib, fails)
  {
    hide TowerAt, OnLevel;
  }

  lemma KeptLater<E(!new)>(t: Traits<E>, a: Shared<E>, b: Shared<E>, c: Shared<E>, lv: nat, sib: NodeId)
    ensures OthersKept(t, a, b, lv, sib) && SameLevel(t, b, c, lv) ==> OthersKept(t, a, c, lv, sib)
    ensures SameLevel(t, a, b, lv) && OthersKept(t, b, c, lv, sib) ==> OthersKept(t, a, c, lv, sib)
  {
    hide TowerAt;
  }

  /** What one level's attempts leave. */
  ghost predicate LevelDone<E(!new)>(t: Traits<E>, b: Shared<E>, c: Shared<E>, lv: nat, sib: NodeId, givenUp: bool)
  {
    if givenUp then OwnOnly(t, b, c, lv, sib) else Added(t, b, c, lv, sib)
  }

  lemma LevelDoneFacts<E(!new)>(t: Traits<E>, b: Shared<E>, c: Shared<E>, lv: nat, sib: NodeId, givenUp: bool)
    requires LevelDone(t, b, c, lv, sib, givenUp)
    ensures forall l: nat :: l != lv ==> SameLevel(t, b, c, l)
    ensures if givenUp then OthersKept(t, b, c, lv, sib) else Followed(t, b, c, lv, sib)
    ensures Unled(t, b, sib, lv) ==> Unled(t, c, sib, lv + 1)
  {
    hide TowerAt, LevelGains, OnLevel, Nested;
    if !givenUp {
      var pred :| AddedAfter(t, b, c, lv, pred, sib);
      JoinedFollows(t, b, c, lv, pred, sib);
    }
  }

  lemma TowerNext<E(!new)>(t: Traits<E>, a: Shared<E>, b: Shared<E>, c: Shared<E>, lv: nat, sib: NodeId, fails: (nat, nat) -> bool)
    requires lv >= 1 && TowerLinked(t, a, b, lv, sib, fails) && LevelDone(t, b, c, lv, sib, GivenUp(fails, lv))
    ensures TowerLinked(t, a, c, lv + 1, sib, fails)
  {
    hide SameLevel, OthersKept, Followed, OwnOnly, Added, Climbed, GivenUp;
    LevelDoneFacts(t, b, c, lv, sib, GivenUp(fails, lv));
    forall l: nat | 1 <= l < lv + 1
      ensures if GivenUp(fails, l) then OthersKept(t, a, c, l, sib) else Followed(t, a, c, l, sib)
    {
      KeptLater(t, a, b, c, l, sib);
      FollowedLater(t, a, b, c, l, sib);
    }
    forall l: nat | l < 1 || l >= lv + 1
      ensures SameLevel(t, a, c, l)
    {
      FollowsLater(t, a, b, c, l, 0, sib);
    }
    if forall l: nat :: 1 <= l < lv + 1 ==> !GivenUp(fails, l) { AddedNested(t, a, b, c, lv, sib); }
  }

  lemma FollowedLater<E(!new)>(t: Traits<E>, a: Shared<E>, b: Shared<E>, c: Shared<E>, lv: nat, sib: NodeId)
    ensures Followed(t, a, b, lv, sib) && SameLevel(t, b, c, lv) ==> Followed(t, a, c, lv, sib)
    ensures SameLevel(t, a, b, lv) && Followed(t, b, c, lv, sib) ==> Followed(t, a, c, lv, sib)
  {
    hide Follows, SameLevel;
    if Followed(t, a, b, lv, sib) && SameLevel(t, b, c, lv) {
      var pred :| Follows(t, a, b, lv, pred, sib);
      FollowsLater(t, a, b, c, lv, pred, sib);
    }
    if SameLevel(t, a, b, lv) && Followed(t, b, c, lv, sib) {
      var pred :| Follows(t, b, c, lv, pred, sib);
      FollowsLater(t, a, b, c, lv, pred, sib);
    }
  }

  lemma NothingStored<E(!new)>(t: Traits<E>, b: Shared<E>, lv: nat, sib: NodeId)
    requires Unled(t, b, sib, lv)
    ensures LevelDone(t, b, b, lv, sib, true)
  {
    hide TowerAt;
  }

  /** One more attempt on the level begun at b, the earlier ones having failed. */
  lemma OneMore<E(!new)>(t: Traits<E>, b: Shared<E>, x: Shared<E>, c: Shared<E>, lv: nat, sib: NodeId, linked: bool)
    requires sib != 0 && Unled(t, b, sib, lv) && OwnOnly(t, b, x, lv, sib)
    ensures Unled(t, x, sib, lv)
    ensures LevelDone(t, x, c, lv, sib, !linked) ==> LevelDone(t, b, c, lv, sib, !linked)
  {
    hide TowerAt, Added;
    UnledOwn(t, b, x, lv, sib);
    if linked && Added(t, x, c, lv, sib) { OwnThenAdded(t, b, x, c, lv, sib); }
  }

  /** From before the split as from after it. */
  lemma TowerThrough<E(!new)>(t: Traits<E>, a: Shared<E>, b: Shared<E>, c: Shared<E>, hi: nat, sib: NodeId, fails: (nat, nat) -> bool)
    requires SameTowers(t, a, b) && TowerLinked(t, b, c, hi, sib, fails)
    ensures TowerLinked(t, a, c, hi, sib, fails)
  {
    hide Follows, OnLevel, GivenUp, TowerAt, Nested, Followed, OthersKept;
    SameTowersLevels(t, a, b);
    forall l: nat
      ensures SameLevel(t, a, b, l)
    {
      OneLevelSame(t, a, b, l);
    }
    forall l: nat
      ensures Followed(t, b, c, l, sib) ==> Followed(t, a, c, l, sib)
      ensures OthersKept(t, b, c, l, sib) ==> OthersKept(t, a, c, l, sib)
      ensures SameLevel(t, b, c, l) ==> SameLevel(t, a, c, l)
    {
      FollowedLater(t, a, b, c, l, sib);
      KeptLater(t, a, b, c, l, sib);
    }
    if Nested(t, a) { SameNested(t, a, b); }
  }

  lemma OneLevelSame<E(!new)>(t: Traits<E>, a: Shared<E>, b: Shared<E>, l: nat)
    requires SameTowers(t, a, b)
    ensures SameLevel(t, a, b, l)
  {
    hide TowerAt;
  }
}
