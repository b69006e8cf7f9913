/**
 What any thread would read along level 0 from the head, in every reachable state:
 exactly the published entries, each once, in strictly increasing order.
 */
module LevelZero {
  import opened OrderWord
  import opened Ordering
  import opened Payloads
  import opened Machine
  import opened Invariant
  import opened Publishing
  import opened NodeSplit
  import opened ReaderSteps
  import opened Safety

  /** The keys met by following payload links from `n` over at most `hops` nodes. */
  function Reads<E(!new)>(t: Traits<E>, sh: Shared<E>, n: Option<NodeId>, hops: nat): seq<E>
    decreases hops
  {
    if n.None? || hops == 0 then []
    else
      var p := PayloadAt(t, sh, DataOf(t, sh, n.value));
      SeenRun(t, p, p.order) + Reads(t, sh, p.next, hops - 1)
  }

  function ChainFrom(chain: seq<NodeId>, i: nat): Option<NodeId>
  {
    if i < |chain| then Some(chain[i]) else None
  }

  /** Level 0 from the i-th node on: sorted, published, and holding all that nodes from there on hold. */
  lemma {:induction false} ReadsSuffix<E(!new)>(t: Traits<E>, sh: Shared<E>, i: nat, hops: nat)
    requires t.TotalOrder() && SharedInv(t, sh) && i <= |sh.chain| <= i + hops
    ensures var r := Reads(t, sh, ChainFrom(sh.chain, i), hops);
      && Sorted(t, r)
      && (forall e :: e in r ==> e in sh.published && (0 < i < |sh.chain| ==> !t.Lt(e, NodeAt(t, sh, sh.chain[i]).low)))
      && (forall j, e :: i <= j < |sh.chain| && HeldBy(t, sh, e, sh.chain[j]) ==> e in r)
    decreases hops
  {
    hide SharedInv, HeldBy, Sorted, NodeAt;
    if i < |sh.chain| {
      var n := sh.chain[i];
      ChainPosition(t, sh, i, i);
      HeldRun(t, sh, n);
      var d := DataOf(t, sh, n);
      var p := sh.payloads[d].d;
      SeenIsRun(t, p);
      ShapedSorted(t, sh, d);
      assert p.next == ChainFrom(sh.chain, i + 1);
      ReadsSuffix(t, sh, i + 1, hops - 1);
      var rest := Reads(t, sh, p.next, hops - 1);
      HeadFirst(t, sh);
      RunFacts(t, sh, i);
      JoinSorted(t, sh, p.Run(), rest, i);
      forall j, e | i <= j < |sh.chain| && HeldBy(t, sh, e, sh.chain[j])
        ensures e in p.Run() + rest
      {
        if j == i { assert e in p.Run(); }
      }
    } else {
      assert Sorted<E>(t, []) by { EmptySorted<E>(t); }
    }
  }

  lemma EmptySorted<E(!new)>(t: Traits<E>)
    ensures Sorted<E>(t, [])
  {
  }

  /** The i-th node's own keys: published, at or above its first key, below its successor's. */
  lemma RunFacts<E(!new)>(t: Traits<E>, sh: Shared<E>, i: nat)
    requires t.TotalOrder() && SharedInv(t, sh) && i < |sh.chain|
    ensures IsPayloadOf(sh, DataOf(t, sh, sh.chain[i]), sh.chain[i]) && sh.payloads[DataOf(t, sh, sh.chain[i])].d.Shaped()
    ensures forall e :: e in sh.payloads[DataOf(t, sh, sh.chain[i])].d.Run() ==>
      && e in sh.published
      && (0 < i ==> !t.Lt(e, NodeAt(t, sh, sh.chain[i]).low))
      && (i + 1 < |sh.chain| ==> t.Lt(e, NodeAt(t, sh, sh.chain[i + 1]).low))
    ensures 0 < i && i + 1 < |sh.chain| ==> t.Lt(NodeAt(t, sh, sh.chain[i]).low, NodeAt(t, sh, sh.chain[i + 1]).low)
  {
    hide SharedInv;
    HeldRun(t, sh, sh.chain[i]);
    ChainPosition(t, sh, i, i);
    HeadFirst(t, sh);
    var d := DataOf(t, sh, sh.chain[i]);
    forall e | e in sh.payloads[d].d.Run()
      ensures e in sh.published
      ensures 0 < i ==> !t.Lt(e, NodeAt(t, sh, sh.chain[i]).low)
      ensures i + 1 < |sh.chain| ==> t.Lt(e, NodeAt(t, sh, sh.chain[i + 1]).low)
    {
      NamedBelowNext(t, sh, d, e);
      if i > 0 { var lo := NodeAt(t, sh, sh.chain[i]).low; t.Order3(lo, e, lo); t.Order3(lo, lo, lo); }
    }
    if 0 < i && i + 1 < |sh.chain| { ChainAscends(t, sh, i); }
  }

  lemma ChainAscends<E(!new)>(t: Traits<E>, sh: Shared<E>, i: nat)
    requires SharedInv(t, sh) && 0 < i && i + 1 < |sh.chain|
    ensures t.Lt(NodeAt(t, sh, sh.chain[i]).low, NodeAt(t, sh, sh.chain[i + 1]).low)
  {
    hide PayloadsOk, TowersOk, AllLocated, HeadHintLow, Occupied;
  }

  lemma JoinSorted<E(!new)>(t: Traits<E>, sh: Shared<E>, run: seq<E>, rest: seq<E>, i: nat)
    requires t.TotalOrder() && i < |sh.chain| && Sorted(t, run) && Sorted(t, rest)
    requires forall e :: e in run ==> i + 1 < |sh.chain| ==> t.Lt(e, NodeAt(t, sh, sh.chain[i + 1]).low)
    requires forall e :: e in run ==> 0 < i ==> !t.Lt(e, NodeAt(t, sh, sh.chain[i]).low)
    requires forall e :: e in rest ==> i + 1 < |sh.chain| && !t.Lt(e, NodeAt(t, sh, sh.chain[i + 1]).low)
    requires 0 < i && i + 1 < |sh.chain| ==> t.Lt(NodeAt(t, sh, sh.chain[i]).low, NodeAt(t, sh, sh.chain[i + 1]).low)
    ensures Sorted(t, run + rest)
    ensures forall e :: e in run + rest ==> 0 < i ==> !t.Lt(e, NodeAt(t, sh, sh.chain[i]).low)
  {
    hide NodeAt;
    var s := run + rest;
    forall a, b | 0 <= a < b < |s|
      ensures t.Lt(s[a], s[b])
    {
      if a < |run| <= b {
        assert s[b] in rest && s[a] in run;
        var hi := NodeAt(t, sh, sh.chain[i + 1]).low;
        t.Order3(s[a], hi, s[b]);
        t.Order3(hi, s[b], hi);
      }
    }
    forall e | e in rest && 0 < i
      ensures !t.Lt(e, NodeAt(t, sh, sh.chain[i]).low)
    {
      var lo, hi := NodeAt(t, sh, sh.chain[i]).low, NodeAt(t, sh, sh.chain[i + 1]).low;
      t.Order3(e, lo, hi);
      t.Order3(lo, hi, lo);
    }
  }

  // ---- no entry lost, none doubled ---------------------------------------------------------

  ghost predicate NoRepeats<E>(s: seq<E>)
  {
    forall i, j :: 0 <= i < j < |s| ==> s[i] != s[j]
  }

  lemma {:induction false} OnceEach<E>(s: seq<E>, e: E)
    requires NoRepeats(s)
    ensures multiset(s)[e] == if e in s then 1 else 0
    decreases |s|
  {
    if s != [] {
      var n := |s| - 1;
      assert s == s[..n] + [s[n]];
      OnceEach(s[..n], e);
      assert multiset(s) == multiset(s[..n]) + multiset{s[n]};
    }
  }

  lemma SameBag<E>(r: seq<E>, s: seq<E>)
    requires NoRepeats(r) && NoRepeats(s) && (forall e :: e in r <==> e in s)
    ensures multiset(r) == multiset(s)
  {
    forall e | e in multiset(r) + multiset(s)
      ensures multiset(r)[e] == multiset(s)[e]
    {
      OnceEach(r, e);
      OnceEach(s, e);
    }
    forall e
      ensures multiset(r)[e] == multiset(s)[e]
    {
      OnceEach(r, e);
      OnceEach(s, e);
    }
  }

  /** No two published entries compare equal. */
  ghost predicate Distinct<E(!new)>(t: Traits<E>, sh: Shared<E>)
  {
    forall i, j :: 0 <= i < j < |sh.published| ==> t.compare(sh.published[i], sh.published[j]) != 0
  }

  /** With enough hops to cross it, level 0 reads as the published entries in order. */
  lemma ReadsExact<E(!new)>(t: Traits<E>, sh: Shared<E>, hops: nat)
    requires t.TotalOrder() && SharedInv(t, sh) && Distinct(t, sh) && hops >= |sh.chain|
    ensures Sorted(t, Reads(t, sh, Some(0), hops))
    ensures multiset(Reads(t, sh, Some(0), hops)) == multiset(sh.published)
  {
    hide SharedInv, Sorted, HeldBy, Distinct;
    var r := Reads(t, sh, Some(0), hops);
    HeadFirst(t, sh);
    ReadsSuffix(t, sh, 0, hops);
    forall e | e in sh.published
      ensures e in r
    {
      WhereHeld(t, sh, e);
    }
    SortedNoRepeats(t, r);
    PublishedNoRepeats(t, sh);
    SameBag(r, sh.published);
  }

  lemma ReadsAll<E(!new)>(t: Traits<E>, s: State<E>, hops: nat)
    requires t.TotalOrder() && Inv(t, s) && hops >= |s.sh.chain|
    ensures Sorted(t, Reads(t, s.sh, Some(0), hops))
    ensures multiset(Reads(t, s.sh, Some(0), hops)) == multiset(s.sh.published)
  {
    hide SharedInv, ThreadOk, Sorted, Reads;
    ReadsExact(t, s.sh, hops);
  }

  lemma WhereHeld<E(!new)>(t: Traits<E>, sh: Shared<E>, e: E)
    requires SharedInv(t, sh) && e in sh.published
    ensures exists j :: 0 <= j < |sh.chain| && HeldBy(t, sh, e, sh.chain[j])
  {
    hide ChainOk, PayloadsOk, TowersOk, HeadHintLow, Occupied, HeldBy;
    var k :| 0 <= k < |sh.published| && sh.published[k] == e;
    assert Located(t, sh, sh.published[k]);
    var n :| n in sh.chain && HeldBy(t, sh, e, n);
  }

  lemma SortedNoRepeats<E(!new)>(t: Traits<E>, s: seq<E>)
    requires t.TotalOrder() && Sorted(t, s)
    ensures NoRepeats(s)
  {
    forall i, j | 0 <= i < j < |s|
      ensures s[i] != s[j]
    {
      t.Order3(s[i], s[j], s[i]);
    }
  }

  lemma PublishedNoRepeats<E(!new)>(t: Traits<E>, sh: Shared<E>)
    requires t.TotalOrder() && Distinct(t, sh)
    ensures NoRepeats(sh.published)
  {
    var p := sh.published;
    forall i, j | 0 <= i < j < |p|
      ensures p[i] != p[j]
    {
      t.Order3(p[i], p[i], p[i]);
    }
  }

  /**
   In every reachable state, between the two stores of a split as anywhere else, level 0
   reads as exactly the inserts past their publishing store, strictly increasing: none
   lost, none doubled.
   */
  lemma LevelZeroExact<E(!new)>(t: Traits<E>, n: nat, s: State<E>, hops: nat)
    requires t.TotalOrder() && t.HintPromise() && Attained(t, n, s) && hops >= |s.sh.chain|
    ensures Sorted(t, Reads(t, s.sh, Some(0), hops))
    ensures multiset(Reads(t, s.sh, Some(0), hops)) == multiset(s.sh.published)
  {
    hide Inv, Reads, Sorted, Attained;
    AttainedInv(t, n, s);
    ReadsAll(t, s, hops);
  }

  /**
   Level 0 changes at the two publishing stores and nowhere else: there it gains the
   writer's key, and every other step of any thread leaves it as it reads.
   */
  lemma StepConserves<E(!new)>(t: Traits<E>, n: nat, s: State<E>, me: Tid, next: State<E>, hops: nat)
    requires t.TotalOrder() && t.HintPromise() && Attained(t, n, s) && me < |s.threads| && StepOf(t, s, me, next)
    requires hops >= |s.sh.chain| && hops >= |next.sh.chain|
    ensures var before, after := Reads(t, s.sh, Some(0), hops), Reads(t, next.sh, Some(0), hops);
      if AtPublishingStore(s.threads[me])
      then after == Splice(before, LowerBound(t, before, s.threads[me].key), s.threads[me].key)
      else after == before
  {
    hide Inv, ThreadStep, Reads, Sorted, Pending, Attained;
    AttainedInv(t, n, s);
    var c: Choice<E> :| next == Step(t, s, me, c);
    var before, after := Reads(t, s.sh, Some(0), hops), Reads(t, next.sh, Some(0), hops);
    StepKeepsInv(t, s, me, c);
    ReadsAll(t, s, hops);
    ReadsAll(t, next, hops);
    ThreadPublishes(t, s, me, c);
    if AtPublishingStore(s.threads[me]) {
      var key := s.threads[me].key;
      PendingFresh(t, s, me);
      FreshInBag(t, s.sh.published, before, key);
      SpliceSorted(t, before, key);
      SpliceBag(before, LowerBound(t, before, key), key);
      assert multiset(s.sh.published + [key]) == multiset(s.sh.published) + multiset{key};
      SortedUnique(t, after, Splice(before, LowerBound(t, before, key), key));
    } else {
      SortedUnique(t, after, before);
    }
  }

  lemma PendingFresh<E(!new)>(t: Traits<E>, s: State<E>, me: Tid)
    requires Inv(t, s) && me < |s.threads| && Pending(s.threads[me])
    ensures Fresh(t, s.sh.published, s.threads[me].key)
  {
  }

  lemma FreshInBag<E(!new)>(t: Traits<E>, p: seq<E>, r: seq<E>, key: E)
    requires multiset(p) == multiset(r) && Fresh(t, p, key)
    ensures Fresh(t, r, key)
  {
    forall i | 0 <= i < |r|
      ensures t.compare(r[i], key) != 0
    {
      assert r[i] in multiset(p);
    }
  }

  lemma SpliceBag<E>(s: seq<E>, r: nat, x: E)
    requires r <= |s|
    ensures multiset(Splice(s, r, x)) == multiset(s) + multiset{x}
  {
    assert s == s[..r] + s[r..];
    assert Splice(s, r, x) == s[..r] + [x] + s[r..];
  }

  lemma FirstIsLeast<E(!new)>(t: Traits<E>, s: seq<E>, x: E)
    requires Sorted(t, s) && x in s
    ensures x == s[0] || t.Lt(s[0], x)
  {
  }

  /** A strictly increasing sequence is determined by what it holds. */
  lemma {:induction false} SortedUnique<E(!new)>(t: Traits<E>, r: seq<E>, s: seq<E>)
    requires t.TotalOrder() && Sorted(t, r) && Sorted(t, s) && multiset(r) == multiset(s)
    ensures r == s
    decreases |r|
  {
    assert |r| == |multiset(r)| == |multiset(s)| == |s|;
    if r != [] {
      assert r[0] in multiset(s) && s[0] in multiset(r);
      FirstIsLeast(t, s, r[0]);
      FirstIsLeast(t, r, s[0]);
      t.Order3(s[0], r[0], s[0]);
      assert r == [r[0]] + r[1..] && s == [s[0]] + s[1..];
      assert multiset(r[1..]) == multiset(r) - multiset{r[0]} == multiset(s[1..]);
      SortedUnique(t, r[1..], s[1..]);
    }
  }
}
