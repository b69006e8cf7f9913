/**
 Where lane order ends (include/aparajita/memtable.hpp, lines 797-806 and 908-926).
 Nodes other than the head keep exact lanes. In the head a key below the range may take
 rank 0 without carrying the stored prefix; shares_prefix compares later keys against
 it, and both of append's branches may then store a lane out of order: the saturated one
 for a key judged off the alphabet, and a surrogate for one that agrees with the wrong
 first key. The exact condition is local: the stored lane fits between its neighbours.
 */
module HeadLanes {
  import opened OrderWord
  import opened Surrogate
  import opened Ordering
  import opened Kernels
  import opened Payloads

  /** An append whose key sits at rank `rank` of `q`, seen from the payload before. */
  lemma AppendedLaneAt<E(!new)>(t: Traits<E>, p: Payload<E>, key: E, r: nat)
    requires p.Shaped() && p.Count() < NODE_CAPACITY && r <= p.Count()
    ensures var q, rank := Appended(t, p, key), LowerBound(t, p.Run(), key);
      && q.KeyAt(r) == (if r < rank then p.KeyAt(r) else if r == rank then key else p.KeyAt(r - 1))
      && q.LaneAt(r) == (if r < rank then p.LaneAt(r)
                         else if r == rank then LaneFor(t, p, rank, t.orderBytes(key)) else p.LaneAt(r - 1))
  {
    hide LowerBound, LaneFor;
  }

  /** What append can check before it stores: the new lane fits between the lanes at its rank. */
  ghost predicate Fits<E(!new)>(t: Traits<E>, p: Payload<E>, key: E)
    requires p.Shaped()
  {
    var rank := LowerBound(t, p.Run(), key);
    var lane := LaneFor(t, p, rank, t.orderBytes(key));
    (rank == 0 || p.LaneAt(rank - 1) <= lane) && (rank == p.Count() || lane <= p.LaneAt(rank))
  }

  lemma SpliceAt<T>(s: seq<T>, rank: nat, x: T, r: nat)
    requires rank <= |s| && r <= |s|
    ensures Splice(s, rank, x)[r] == if r < rank then s[r] else if r == rank then x else s[r - 1]
  {
  }

  /** append splices its lane into the lanes in rank order. */
  lemma RankedAppend<E(!new)>(t: Traits<E>, p: Payload<E>, key: E)
    requires p.Shaped() && p.Count() < NODE_CAPACITY
    ensures var rank := LowerBound(t, p.Run(), key);
      Ranked(Appended(t, p, key)) == Splice(Ranked(p), rank, LaneFor(t, p, rank, t.orderBytes(key)))
  {
    hide LowerBound, Appended, LaneFor, Splice, Permutation;
    var q, rank := Appended(t, p, key), LowerBound(t, p.Run(), key);
    var lane := LaneFor(t, p, rank, t.orderBytes(key));
    forall r | 0 <= r <= p.Count()
      ensures Ranked(q)[r] == Splice(Ranked(p), rank, lane)[r]
    {
      AppendedLaneAt(t, p, key, r);
      SpliceAt(Ranked(p), rank, lane, r);
    }
  }

  /**
   append leaves the lanes sorted exactly when they were and the new lane fits: for every
   payload, every key and either branch of the lane computation. Nothing repairs an order
   once broken.
   */
  lemma AppendSortedIff<E(!new)>(t: Traits<E>, p: Payload<E>, key: E)
    requires p.Shaped() && p.Count() < NODE_CAPACITY
    ensures RankSorted(Appended(t, p, key).lanes, Appended(t, p, key).order) <==> RankSorted(p.lanes, p.order) && Fits(t, p, key)
  {
    hide LowerBound, Appended, LaneFor, RankSorted, NonDecreasing;
    var rank := LowerBound(t, p.Run(), key);
    RankedSorted(p);
    RankedSorted(Appended(t, p, key));
    RankedAppend(t, p, key);
    InsertedSorted(Ranked(p), rank, LaneFor(t, p, rank, t.orderBytes(key)));
  }

  /** The lanes in rank order. */
  ghost function Ranked<E(!new)>(p: Payload<E>): (s: seq<uint32>)
    requires p.Shaped()
    ensures |s| == p.Count() && forall r :: 0 <= r < |s| ==> s[r] == p.LaneAt(r)
  {
    seq(p.Count(), r requires 0 <= r < p.Count() => p.LaneAt(r))
  }

  lemma RankedSorted<E(!new)>(p: Payload<E>)
    requires p.Shaped()
    ensures RankSorted(p.lanes, p.order) <==> NonDecreasing(Ranked(p))
  {
    var s := Ranked(p);
    if NonDecreasing(s) {
      forall i, j | 0 <= i < j < |p.order|
        ensures p.lanes[p.order[i]] <= p.lanes[p.order[j]]
      {
        assert s[i] <= s[j];
      }
    }
    if RankSorted(p.lanes, p.order) {
      forall i, j | 0 <= i < j < |s|
        ensures s[i] <= s[j]
      {
        assert p.lanes[p.order[i]] <= p.lanes[p.order[j]];
      }
    }
  }

  ghost predicate NonDecreasing(s: seq<uint32>)
  {
    forall i, j :: 0 <= i < j < |s| ==> s[i] <= s[j]
  }

  lemma InsertedSorted(s: seq<uint32>, rank: nat, x: uint32)
    requires rank <= |s|
    ensures NonDecreasing(Splice(s, rank, x)) <==> NonDecreasing(s) && (rank == 0 || s[rank - 1] <= x) && (rank == |s| || x <= s[rank])
  {
    var u := Splice(s, rank, x);
    if NonDecreasing(u) {
      forall i, j | 0 <= i < j < |s|
        ensures s[i] <= s[j]
      {
        var i', j' := if i < rank then i else i + 1, if j < rank then j else j + 1;
        assert u[i'] == s[i] && u[j'] == s[j] && u[i'] <= u[j'];
      }
      if rank > 0 { assert u[rank - 1] <= u[rank]; }
      if rank < |s| { assert u[rank] <= u[rank + 1]; }
    }
    if NonDecreasing(s) && (rank == 0 || s[rank - 1] <= x) && (rank == |s| || x <= s[rank]) {
      forall i, j | 0 <= i < j < |u|
        ensures u[i] <= u[j]
      {
        if i < rank { assert s[i] <= s[rank - 1]; }
        if rank < j { assert s[rank] <= s[j - 1]; }
      }
    }
  }

  /** append's saturated lane keeps sorted lanes sorted exactly when its rank is 0 or n, or it goes before a saturated lane. */
  lemma SaturatedAppendSortedIff<E(!new)>(t: Traits<E>, p: Payload<E>, key: E)
    requires p.Shaped() && 0 < p.Count() < NODE_CAPACITY && RankSorted(p.lanes, p.order)
    requires !Shares(t, p, t.orderBytes(key))
    ensures var q, rank := Appended(t, p, key), LowerBound(t, p.Run(), key);
      RankSorted(q.lanes, q.order) <==> rank == 0 || rank == p.Count() || p.LaneAt(rank) == EMPTY_KEY
  {
    hide LowerBound, Appended, Shares, RankSorted;
    AppendSortedIff(t, p, key);
  }

  /**
   A key off the alphabet of a node with exact lanes ranks below the whole node or above
   every carrier of its prefix. Above them it ranks last exactly when no key off the
   alphabet that came earlier lies above it; such keys' lanes are saturated too.
   */
  lemma OutsiderRank<E(!new)>(t: Traits<E>, p: Payload<E>, key: E)
    requires t.TotalOrder() && t.Bytewise()
    requires p.Shaped() && p.Count() < NODE_CAPACITY && Sorted(t, p.Run()) && LanesExact(t, p)
    requires !Shares(t, p, t.orderBytes(key))
    ensures var rank := LowerBound(t, p.Run(), key);
      && (rank > 0 ==> forall r :: rank <= r < p.Count() ==> !Carries(t, p, r) && p.LaneAt(r) == EMPTY_KEY)
      && (rank > 0 ==> (rank == p.Count() <==> forall r :: 0 <= r < p.Count() && !Carries(t, p, r) ==> t.Lt(p.KeyAt(r), key)))
    ensures RankSorted(Appended(t, p, key).lanes, Appended(t, p, key).order)
  {
    var rank := LowerBound(t, p.Run(), key);
    SortedInOrder(t, p.Run());
    LowerBoundSplits(t, p.Run(), key);
    hide LowerBound, Appended;
    forall r | rank <= r < p.Count() && rank > 0
      ensures !Carries(t, p, r) && p.LaneAt(r) == EMPTY_KEY
    {
      assert LaneExact(t, p, r);
      var lo, hi := p.KeyAt(0), p.KeyAt(r);
      assert t.Lt(p.Run()[0], key) && !t.Lt(p.Run()[r], key);
      t.Order3(lo, key, lo);
      t.BytesFollow(lo, key);
      t.BytesFollow(key, hi);
      if Carries(t, p, r) {
        BetweenSharesPrefix(t.orderBytes(lo), t.orderBytes(key), t.orderBytes(hi), p.prefixLen);
        assert false;
      }
    }
    if 0 < rank < p.Count() { assert !t.Lt(p.Run()[rank], key); }
    LanesSorted(t, p);
    SaturatedAppendSortedIff(t, p, key);
  }

  /** The head keeps exact lanes as long as a key taking rank 0 carries the stored prefix. */
  lemma FirstAppendLanes<E(!new)>(t: Traits<E>, p: Payload<E>, key: E)
    requires p.Shaped() && p.Count() < NODE_CAPACITY && LanesExact(t, p)
    requires LowerBound(t, p.Run(), key) == 0 && Shares(t, p, t.orderBytes(key))
    ensures LanesExact(t, Appended(t, p, key))
  {
    var q := Appended(t, p, key);
    var bytes, first, n := t.orderBytes(key), t.orderBytes(p.KeyAt(0)), p.prefixLen;
    assert SharesPrefix(bytes, first, n) by { if n == 0 { assert bytes[..0] == first[..0]; } }
    hide LowerBound, Appended;
    AppendedLaneAt(t, p, key, 0);
    forall r | 0 <= r < q.Count()
      ensures LaneExact(t, q, r)
    {
      AppendedLaneAt(t, p, key, r);
      if r > 0 { assert LaneExact(t, p, r - 1); }
    }
  }

  /** Inserting in order, as one node's appends do. */
  ghost function AppendAll<E(!new)>(t: Traits<E>, p: Payload<E>, keys: seq<E>): (q: Payload<E>)
    requires p.Shaped() && p.Count() + |keys| <= NODE_CAPACITY
    ensures q.Shaped() && q.Count() == p.Count() + |keys|
    decreases |keys|
  {
    if keys == [] then p else AppendAll(t, Appended(t, p, keys[0]), keys[1..])
  }

  /** Every key of the run either lands above rank 0 or carries the prefix. */
  ghost predicate KeepPrefix<E(!new)>(t: Traits<E>, p: Payload<E>, keys: seq<E>)
    requires p.Shaped() && p.Count() + |keys| <= NODE_CAPACITY
    decreases |keys|
  {
    keys != [] ==>
      && (LowerBound(t, p.Run(), keys[0]) > 0 || Shares(t, p, t.orderBytes(keys[0])))
      && KeepPrefix(t, Appended(t, p, keys[0]), keys[1..])
  }

  /** Over any run of appends to any node, the head included: while rank 0 carries the prefix, lanes stay exact. */
  lemma {:induction false} AppendsKeepLanes<E(!new)>(t: Traits<E>, p: Payload<E>, keys: seq<E>)
    requires p.Shaped() && p.Count() + |keys| <= NODE_CAPACITY && LanesExact(t, p) && KeepPrefix(t, p, keys)
    ensures LanesExact(t, AppendAll(t, p, keys))
    decreases |keys|
  {
    hide LanesExact, Appended, LowerBound, Shares;
    if keys != [] {
      if LowerBound(t, p.Run(), keys[0]) > 0 { AppendedLanes(t, p, keys[0]); } else { FirstAppendLanes(t, p, keys[0]); }
      AppendsKeepLanes(t, Appended(t, p, keys[0]), keys[1..]);
    }
  }

  /** Every append of the run stores a lane that fits, judged against the payload as it then stands. */
  ghost predicate AllFit<E(!new)>(t: Traits<E>, p: Payload<E>, keys: seq<E>)
    requires p.Shaped() && p.Count() + |keys| <= NODE_CAPACITY
    decreases |keys|
  {
    keys != [] ==> Fits(t, p, keys[0]) && AllFit(t, Appended(t, p, keys[0]), keys[1..])
  }

  /** Over any run of appends to any payload: the lanes end sorted exactly when they began so and every stored lane fitted. */
  lemma {:induction false} AppendsSortedIff<E(!new)>(t: Traits<E>, p: Payload<E>, keys: seq<E>)
    requires p.Shaped() && p.Count() + |keys| <= NODE_CAPACITY
    ensures RankSorted(AppendAll(t, p, keys).lanes, AppendAll(t, p, keys).order)
            <==> RankSorted(p.lanes, p.order) && AllFit(t, p, keys)
    decreases |keys|
  {
    hide Appended, Fits, RankSorted;
    if keys != [] {
      AppendSortedIff(t, p, keys[0]);
      AppendsSortedIff(t, Appended(t, p, keys[0]), keys[1..]);
    }
  }

  /** A head that strips nothing keeps exact, sorted lanes whatever is appended: the head before its first split. */
  lemma {:induction false} UnstrippedAppends<E(!new)>(t: Traits<E>, p: Payload<E>, keys: seq<E>)
    requires p.Shaped() && p.Count() + |keys| <= NODE_CAPACITY && Unstripped(t, p)
    ensures Unstripped(t, AppendAll(t, p, keys))
    ensures p.Count() + |keys| > 0 ==> LanesExact(t, AppendAll(t, p, keys))
    decreases |keys|
  {
    hide Appended, Unstripped, LanesExact;
    if keys != [] {
      AppendedUnstripped(t, p, keys[0]);
      UnstrippedAppends(t, Appended(t, p, keys[0]), keys[1..]);
    } else if p.Count() > 0 {
      UnstrippedExact(t, p);
    }
  }

  /** A key that took rank 0 without carrying the prefix. */
  ghost predicate Foreign<E(!new)>(t: Traits<E>, p: Payload<E>, x: E)
    requires p.Shaped()
  {
    && t.TotalOrder() && t.Bytewise() && p.Count() < NODE_CAPACITY && Sorted(t, p.Run()) && LanesExact(t, p)
    && !Shares(t, p, t.orderBytes(x)) && LowerBound(t, p.Run(), x) == 0 && Fresh(t, p.Run(), x)
  }

  /**
   It goes before everything, at lane 0, and lanes stay sorted; keys carrying the prefix
   are judged off the alphabet from then on.
   */
  lemma ForeignTakesOver<E(!new)>(t: Traits<E>, p: Payload<E>, x: E)
    requires p.Shaped() && Foreign(t, p, x)
    ensures var q := Appended(t, p, x);
      && q.Run() == [x] + p.Run() && q.prefixLen == p.prefixLen && Sorted(t, q.Run())
      && q.LaneAt(0) == 0 && (forall i :: 0 <= i < p.Count() ==> q.LaneAt(i + 1) == p.LaneAt(i))
      && RankSorted(q.lanes, q.order)
      && (forall b: Bytes :: Shares(t, p, b) ==> !Shares(t, q, b))
  {
    var q := Appended(t, p, x);
    OutsiderRank(t, p, x);
    SpliceSorted(t, p.Run(), x);
    assert q.Run() == [x] + p.Run();
    AppendedLaneAt(t, p, x, 0);
    forall i | 0 <= i < p.Count()
      ensures q.LaneAt(i + 1) == p.LaneAt(i)
    {
      AppendedLaneAt(t, p, x, i + 1);
    }
  }

  /**
   The head once a key off the prefix holds its rank 0. An ordinary key, one that carries
   the prefix, is judged off the alphabet and its saturated lane leaves the order sorted
   exactly when every key above it is saturated already.
   */
  lemma OrdinaryAfterForeign<E(!new)>(t: Traits<E>, p: Payload<E>, x: E, key: E)
    requires p.Shaped() && Foreign(t, p, x) && p.Count() + 2 <= NODE_CAPACITY
    requires Shares(t, p, t.orderBytes(key)) && Fresh(t, Appended(t, p, x).Run(), key)
    ensures var r := Appended(t, Appended(t, p, x), key);
      RankSorted(r.lanes, r.order) <==> forall i :: 0 <= i < p.Count() && t.Lt(key, p.KeyAt(i)) ==> p.LaneAt(i) == EMPTY_KEY
  {
    ForeignTakesOver(t, p, x);
    RankAboveForeign(t, p, x, key);
    LanesSorted(t, p);
    hide Appended, Shares, LanesExact, Foreign;
    var q := Appended(t, p, x);
    SaturatedAppendSortedIff(t, q, key);
    SpliceSorted(t, q.Run(), key);
    hide LowerBound, Fresh, RankSorted, Sorted;
    var rank := LowerBound(t, q.Run(), key);
    forall i | 0 <= i < p.Count()
      ensures t.Lt(key, p.KeyAt(i)) <==> rank <= i + 1
    {
      assert q.Run()[i + 1] == p.KeyAt(i);
      t.Order3(key, p.KeyAt(i), key);
    }
    if rank < q.Count() && p.LaneAt(rank - 1) == EMPTY_KEY { SaturatedFrom(p, rank - 1); }
    if rank < q.Count() { assert q.LaneAt(rank) == p.LaneAt(rank - 1) && t.Lt(key, p.KeyAt(rank - 1)); }
  }

  lemma SaturatedFrom<E(!new)>(p: Payload<E>, k: nat)
    requires p.Shaped() && RankSorted(p.lanes, p.order) && k < p.Count() && p.LaneAt(k) == EMPTY_KEY
    ensures forall i :: k <= i < p.Count() ==> p.LaneAt(i) == EMPTY_KEY
  {
    forall i | k < i < p.Count()
      ensures p.LaneAt(i) == EMPTY_KEY
    {
      assert p.lanes[p.order[k]] <= p.lanes[p.order[i]];
    }
  }

  /** A carrier of the prefix lies above a foreign first key. */
  lemma RankAboveForeign<E(!new)>(t: Traits<E>, p: Payload<E>, x: E, key: E)
    requires p.Shaped() && Foreign(t, p, x)
    requires Shares(t, p, t.orderBytes(key)) && Fresh(t, Appended(t, p, x).Run(), key)
    ensures LowerBound(t, Appended(t, p, x).Run(), key) > 0
  {
    var q := Appended(t, p, x);
    assert q.Run()[0] == x;
    var first, foreign, bytes, n := t.orderBytes(p.KeyAt(0)), t.orderBytes(x), t.orderBytes(key), p.prefixLen;
    assert p.Run()[0] == p.KeyAt(0) && t.compare(p.KeyAt(0), x) != 0 && t.compare(x, key) != 0;
    if !t.Lt(x, key) {
      t.Order3(key, x, p.KeyAt(0));
      t.BytesFollow(key, x);
      t.Order3(x, p.KeyAt(0), x);
      t.BytesFollow(x, p.KeyAt(0));
      ForeignBetween(bytes, foreign, first, n);
    }
  }

  lemma ForeignBetween(lo: Bytes, mid: Bytes, hi: Bytes, n: nat)
    requires SharesPrefix(lo, hi, n) && CompareKeys(lo, mid) <= 0 && CompareKeys(mid, hi) <= 0
    ensures SharesPrefix(mid, hi, n)
  {
    BetweenSharesPrefix(lo, mid, hi, n);
  }

  // ---- what check_invariants asks of lanes -------------------------------------------------

  /** The lane at a rank: the surrogate its key has at this prefix, or saturated for a key judged off the alphabet. */
  ghost predicate LaneSound<E(!new)>(t: Traits<E>, p: Payload<E>, r: nat)
    requires p.Shaped() && r < p.Count()
  {
    var bytes := t.orderBytes(p.KeyAt(r));
    if Shares(t, p, bytes) then p.LaneAt(r) == SurrogateAt(bytes, p.prefixLen) else Saturated(p.LaneAt(r))
  }

  predicate Saturated(lane: uint32)
  {
    lane == 0 || lane == EMPTY_KEY
  }

  /** Lanes in rank order, each its key's own or saturated. */
  ghost predicate LanesSound<E(!new)>(t: Traits<E>, p: Payload<E>)
    requires p.Shaped()
  {
    RankSorted(p.lanes, p.order) && forall r :: 0 <= r < p.Count() ==> LaneSound(t, p, r)
  }

  /** Exact lanes are in order and sound. */
  lemma ExactSound<E(!new)>(t: Traits<E>, p: Payload<E>)
    requires t.TotalOrder() && t.Bytewise() && p.Shaped() && Sorted(t, p.Run()) && LanesExact(t, p)
    ensures LanesSound(t, p)
  {
    LanesSorted(t, p);
    forall r | 0 <= r < p.Count()
      ensures LaneSound(t, p, r)
    {
      assert LaneExact(t, p, r);
      if p.prefixLen == 0 { assert t.orderBytes(p.KeyAt(r))[..0] == t.orderBytes(p.KeyAt(0))[..0]; }
    }
  }

  /** So are those of a payload that strips nothing, the empty one included. */
  lemma UnstrippedSound<E(!new)>(t: Traits<E>, p: Payload<E>)
    requires t.TotalOrder() && t.Bytewise() && p.Shaped() && Sorted(t, p.Run()) && Unstripped(t, p)
    ensures LanesSound(t, p)
  {
    if p.Count() > 0 {
      UnstrippedExact(t, p);
      ExactSound(t, p);
    }
  }

  /**
   A foreign first key leaves the lanes in rank order, and sound exactly when it is too
   short or empty past the prefix and every lane it now stands before is saturated.
   */
  lemma ForeignSoundIff<E(!new)>(t: Traits<E>, p: Payload<E>, x: E)
    requires p.Shaped() && Foreign(t, p, x)
    ensures LanesSound(t, Appended(t, p, x)) <==>
      (|t.orderBytes(x)| < p.prefixLen || SurrogateAt(t.orderBytes(x), p.prefixLen) == 0)
      && forall r :: 0 <= r < p.Count() ==> Saturated(p.LaneAt(r))
  {
    ForeignTakesOver(t, p, x);
    var q, foreign, n := Appended(t, p, x), t.orderBytes(x), p.prefixLen;
    assert q.KeyAt(0) == q.Run()[0] == x;
    hide Appended, LowerBound, RankSorted, SurrogateAt;
    assert LaneSound(t, q, 0) <==> |foreign| < n || SurrogateAt(foreign, n) == 0;
    forall r | 0 <= r < p.Count()
      ensures LaneSound(t, q, r + 1) <==> Saturated(p.LaneAt(r))
    {
      assert q.KeyAt(r + 1) == q.Run()[r + 1] == p.KeyAt(r);
      ForeignSharesNone(t, p, x, r);
    }
    if forall r :: 0 <= r < p.Count() ==> Saturated(p.LaneAt(r)) {
      forall r | 0 < r < q.Count()
        ensures LaneSound(t, q, r)
      {
        assert Saturated(p.LaneAt(r - 1));
      }
    }
  }

  /** No key of the node agrees with a foreign first key on the stored length. */
  lemma ForeignSharesNone<E(!new)>(t: Traits<E>, p: Payload<E>, x: E, r: nat)
    requires p.Shaped() && Foreign(t, p, x) && r < p.Count()
    ensures !SharesPrefix(t.orderBytes(p.KeyAt(r)), t.orderBytes(x), p.prefixLen)
  {
    var first, foreign, bytes := t.orderBytes(p.KeyAt(0)), t.orderBytes(x), t.orderBytes(p.KeyAt(r));
    SortedInOrder(t, p.Run());
    LowerBoundSplits(t, p.Run(), x);
    assert !t.Lt(p.Run()[0], x) && !t.Lt(p.Run()[r], p.Run()[0]);
    t.BytesFollow(x, p.KeyAt(0));
    if r > 0 { assert t.Lt(p.Run()[0], p.Run()[r]); t.Order3(p.KeyAt(0), p.KeyAt(r), p.KeyAt(0)); }
    t.Order3(p.KeyAt(r), p.KeyAt(0), p.KeyAt(r));
    WeaklyBelowAt(t, p, r);
    if SharesPrefix(bytes, foreign, p.prefixLen) { BetweenSharesPrefix(foreign, first, bytes, p.prefixLen); }
  }

  lemma WeaklyBelowAt<E(!new)>(t: Traits<E>, p: Payload<E>, r: nat)
    requires t.TotalOrder() && t.Bytewise() && p.Shaped() && Sorted(t, p.Run()) && r < p.Count()
    ensures CompareKeys(t.orderBytes(p.KeyAt(0)), t.orderBytes(p.KeyAt(r))) <= 0
  {
    if r > 0 { assert t.Lt(p.Run()[0], p.Run()[r]); }
    WeaklyBelow(t, p.KeyAt(0), p.KeyAt(r));
  }

  // ---- runs of appends to the head -----------------------------------------------------------

  /** Entries are distinct, as the table's are. */
  ghost predicate AllFresh<E(!new)>(t: Traits<E>, p: Payload<E>, keys: seq<E>)
    requires p.Shaped() && p.Count() + |keys| <= NODE_CAPACITY
    decreases |keys|
  {
    keys != [] ==> Fresh(t, p.Run(), keys[0]) && AllFresh(t, Appended(t, p, keys[0]), keys[1..])
  }

  /** A lane that is its key's own at a prefix the first key does not carry: check_invariants reports it. */
  ghost predicate Misjudged<E(!new)>(t: Traits<E>, p: Payload<E>)
    requires p.Shaped()
  {
    exists r :: 0 <= r < p.Count() && MisjudgedAt(t, p, r)
  }

  ghost predicate MisjudgedAt<E(!new)>(t: Traits<E>, p: Payload<E>, r: nat)
    requires p.Shaped() && r < p.Count()
  {
    && p.prefixLen > 0 && !Saturated(p.LaneAt(r))
    && !SharesPrefix(t.orderBytes(p.KeyAt(r)), t.orderBytes(p.KeyAt(0)), p.prefixLen)
  }

  /** A key below the first one carries even less of what the others carry. */
  lemma LowerFirst<E(!new)>(t: Traits<E>, p: Payload<E>, key: E, r: nat)
    requires t.TotalOrder() && t.Bytewise() && p.Shaped() && Sorted(t, p.Run()) && r < p.Count()
    requires LowerBound(t, p.Run(), key) == 0 && Fresh(t, p.Run(), key)
    requires !SharesPrefix(t.orderBytes(p.KeyAt(r)), t.orderBytes(p.KeyAt(0)), p.prefixLen)
    ensures !SharesPrefix(t.orderBytes(p.KeyAt(r)), t.orderBytes(key), p.prefixLen)
  {
    var low, first, bytes, n := t.orderBytes(key), t.orderBytes(p.KeyAt(0)), t.orderBytes(p.KeyAt(r)), p.prefixLen;
    SpliceSorted(t, p.Run(), key);
    assert t.Lt(key, p.Run()[0]);
    hide LowerBound, CompareKeys, SharesPrefix;
    WeaklyBelow(t, key, p.KeyAt(0));
    WeaklyBelowAt(t, p, r);
    if SharesPrefix(bytes, low, n) { BetweenShares(low, first, bytes, n); }
  }

  lemma BetweenShares(lo: Bytes, mid: Bytes, hi: Bytes, n: nat)
    requires SharesPrefix(hi, lo, n) && CompareKeys(lo, mid) <= 0 && CompareKeys(mid, hi) <= 0
    ensures SharesPrefix(hi, mid, n)
  {
    BetweenSharesPrefix(lo, mid, hi, n);
  }

  /** No later append mends it: first keys only move further from the prefix. */
  lemma MisjudgedStays<E(!new)>(t: Traits<E>, p: Payload<E>, key: E)
    requires t.TotalOrder() && t.Bytewise() && p.Shaped() && p.Count() < NODE_CAPACITY && Sorted(t, p.Run()) && Fresh(t, p.Run(), key)
    requires Misjudged(t, p)
    ensures Misjudged(t, Appended(t, p, key))
  {
    hide Appended, LowerBound, SharesPrefix, Sorted, Fresh;
    var r :| 0 <= r < p.Count() && MisjudgedAt(t, p, r);
    var rank := LowerBound(t, p.Run(), key);
    if rank == 0 { LowerFirst(t, p, key, r); }
    var r' := if r < rank then r else r + 1;
    AppendedLaneAt(t, p, key, r');
    AppendedLaneAt(t, p, key, 0);
    assert MisjudgedAt(t, Appended(t, p, key), r');
  }

  lemma {:induction false} MisjudgedForever<E(!new)>(t: Traits<E>, p: Payload<E>, keys: seq<E>)
    requires t.TotalOrder() && t.Bytewise() && p.Shaped() && p.Count() + |keys| <= NODE_CAPACITY && Sorted(t, p.Run())
    requires AllFresh(t, p, keys) && Misjudged(t, p)
    ensures !LanesSound(t, AppendAll(t, p, keys))
    decreases |keys|
  {
    hide Appended, RankSorted;
    if keys != [] {
      MisjudgedStays(t, p, keys[0]);
      SpliceSorted(t, p.Run(), keys[0]);
      MisjudgedForever(t, Appended(t, p, keys[0]), keys[1..]);
    } else {
      var r :| 0 <= r < p.Count() && MisjudgedAt(t, p, r);
      assert !LaneSound(t, p, r);
    }
  }

  ghost predicate Telling<E(!new)>(p: Payload<E>)
    requires p.Shaped()
  {
    exists r :: 0 <= r < p.Count() && !Saturated(p.LaneAt(r))
  }

  /**
   The head over any run of appends, from exact lanes of which one is not saturated: what
   check_invariants asks of the lanes holds at the end exactly when every key that took
   rank 0 carried the stored prefix.
   */
  lemma {:induction false} SoundIffKeepPrefix<E(!new)>(t: Traits<E>, p: Payload<E>, keys: seq<E>)
    requires t.TotalOrder() && t.Bytewise() && p.Shaped() && p.Count() + |keys| <= NODE_CAPACITY
    requires Sorted(t, p.Run()) && LanesExact(t, p) && Telling(p) && AllFresh(t, p, keys)
    ensures LanesSound(t, AppendAll(t, p, keys)) <==> KeepPrefix(t, p, keys)
    decreases |keys|
  {
    hide LanesExact, LanesSound, Appended, LowerBound, Shares;
    if keys == [] {
      ExactSound(t, p);
    } else {
      var key := keys[0];
      SpliceSorted(t, p.Run(), key);
      if LowerBound(t, p.Run(), key) > 0 || Shares(t, p, t.orderBytes(key)) {
        if LowerBound(t, p.Run(), key) > 0 { AppendedLanes(t, p, key); } else { FirstAppendLanes(t, p, key); }
        TellingStays(t, p, key);
        SoundIffKeepPrefix(t, Appended(t, p, key), keys[1..]);
      } else {
        ForeignMisjudges(t, p, key);
        MisjudgedForever(t, Appended(t, p, key), keys[1..]);
      }
    }
  }

  lemma TellingStays<E(!new)>(t: Traits<E>, p: Payload<E>, key: E)
    requires p.Shaped() && p.Count() < NODE_CAPACITY && Telling(p)
    ensures Telling(Appended(t, p, key))
  {
    var r :| 0 <= r < p.Count() && !Saturated(p.LaneAt(r));
    hide Appended, LowerBound;
    var r' := if r < LowerBound(t, p.Run(), key) then r else r + 1;
    AppendedLaneAt(t, p, key, r');
    assert !Saturated(Appended(t, p, key).LaneAt(r'));
  }

  lemma NotShared(a: Bytes, b: Bytes, c: Bytes, n: nat)
    requires SharesPrefix(a, c, n) && !SharesPrefix(b, c, n)
    ensures !SharesPrefix(a, b, n)
  {
  }

  lemma ForeignMisjudges<E(!new)>(t: Traits<E>, p: Payload<E>, x: E)
    requires t.TotalOrder() && t.Bytewise() && p.Shaped() && p.Count() < NODE_CAPACITY
    requires Sorted(t, p.Run()) && LanesExact(t, p) && Telling(p) && Fresh(t, p.Run(), x)
    requires !Shares(t, p, t.orderBytes(x)) && LowerBound(t, p.Run(), x) == 0
    ensures Misjudged(t, Appended(t, p, x))
  {
    var r :| 0 <= r < p.Count() && !Saturated(p.LaneAt(r));
    var q, n := Appended(t, p, x), p.prefixLen;
    assert LaneExact(t, p, r);
    SpliceSorted(t, p.Run(), x);
    hide Appended, LowerBound;
    AppendedLaneAt(t, p, x, r + 1);
    AppendedLaneAt(t, p, x, 0);
    var first, foreign, bytes := t.orderBytes(p.KeyAt(0)), t.orderBytes(x), t.orderBytes(p.KeyAt(r));
    NotShared(bytes, foreign, first, n);
    assert MisjudgedAt(t, q, r + 1);
  }
}
