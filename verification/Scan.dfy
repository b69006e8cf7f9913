/**
 descend without its accelerators: a scan of level 0 by the comparator alone. It lands
 on the only node an operation on `key` may use.
 */
module Scan {
  import opened Ordering
  import opened Payloads
  import opened Machine
  import opened Invariant
  import opened NodeSplit
  import opened Descents
  import opened ReaderSteps
  import opened Reachable
  import opened Quiet

  predicate BeginsBy<E(!new)>(t: Traits<E>, sh: Shared<E>, n: NodeId, key: E)
  {
    var p := PayloadAt(t, sh, DataOf(t, sh, n));
    |p.order| > 0 && t.compare(FirstOf(t, p), key) <= 0
  }

  /** From `n`, along the payload links, while the next node starts at or below the key. */
  function ScanFrom<E(!new)>(t: Traits<E>, sh: Shared<E>, n: NodeId, key: E, hops: nat): NodeId
    decreases hops
  {
    var nx := PayloadAt(t, sh, DataOf(t, sh, n)).next;
    if hops == 0 || nx.None? || !BeginsBy(t, sh, nx.value, key) then n
    else ScanFrom(t, sh, nx.value, key, hops - 1)
  }

  lemma StartsByLow<E(!new)>(t: Traits<E>, sh: Shared<E>, n: NodeId, key: E)
    requires t.TotalOrder() && SharedInv(t, sh) && n in sh.chain && n != 0
    ensures n < |sh.nodes| && (BeginsBy(t, sh, n, key) <==> !t.Lt(key, sh.nodes[n].low))
  {
    hide SharedInv;
    FirstKeys(t, sh, n);
  }

  lemma {:induction false} ScanLands<E(!new)>(t: Traits<E>, sh: Shared<E>, i: nat, key: E, hops: nat)
    requires t.TotalOrder() && SharedInv(t, sh) && i < |sh.chain| <= i + hops && AtOrBelow(t, sh, sh.chain[i], key)
    ensures var r := ScanFrom(t, sh, sh.chain[i], key, hops);
      AtOrBelow(t, sh, r, key) && Above(t, sh, PayloadAt(t, sh, DataOf(t, sh, r)).next, key)
    decreases hops
  {
    hide SharedInv, BeginsBy;
    ChainPosition(t, sh, i, i);
    if i + 1 < |sh.chain| {
      HeadFirst(t, sh);
      StartsByLow(t, sh, sh.chain[i + 1], key);
      if BeginsBy(t, sh, sh.chain[i + 1], key) { ScanLands(t, sh, i + 1, key, hops - 1); }
    }
  }

  lemma LandedNotBefore<E(!new)>(t: Traits<E>, sh: Shared<E>, i: nat, j: nat, key: E)
    requires t.TotalOrder() && SharedInv(t, sh) && i < |sh.chain| && j < |sh.chain|
    requires Above(t, sh, PayloadAt(t, sh, DataOf(t, sh, sh.chain[i])).next, key) && AtOrBelow(t, sh, sh.chain[j], key)
    ensures j <= i
  {
    hide SharedInv;
    if i < j {
      ChainPosition(t, sh, i, i);
      HeadFirst(t, sh);
      LowsAscend(t, sh, i + 1, j);
      t.Order3(key, NodeAt(t, sh, sh.chain[i + 1]).low, NodeAt(t, sh, sh.chain[j]).low);
      assert false;
    }
  }

  /** Only one node starts at or below the key while its successor starts above it. */
  lemma LandedUnique<E(!new)>(t: Traits<E>, sh: Shared<E>, m: NodeId, n: NodeId, key: E)
    requires t.TotalOrder() && SharedInv(t, sh) && AtOrBelow(t, sh, m, key) && AtOrBelow(t, sh, n, key)
    requires Above(t, sh, PayloadAt(t, sh, DataOf(t, sh, m)).next, key)
    requires Above(t, sh, PayloadAt(t, sh, DataOf(t, sh, n)).next, key)
    ensures m == n
  {
    hide SharedInv, Above;
    var i :| 0 <= i < |sh.chain| && sh.chain[i] == m;
    var j :| 0 <= j < |sh.chain| && sh.chain[j] == n;
    LandedNotBefore(t, sh, i, j, key);
    LandedNotBefore(t, sh, j, i, key);
  }

  /** Whoever lands there agrees with the scan from the head. */
  lemma AgreesWithScan<E(!new)>(t: Traits<E>, sh: Shared<E>, cur: NodeId, key: E)
    requires t.TotalOrder() && SharedInv(t, sh) && AtOrBelow(t, sh, cur, key)
    requires Above(t, sh, PayloadAt(t, sh, DataOf(t, sh, cur)).next, key)
    ensures cur == ScanFrom(t, sh, 0, key, |sh.chain|)
  {
    hide SharedInv, Above, ScanFrom;
    HeadFirst(t, sh);
    ChainInRange(t, sh);
    ScanLands(t, sh, 0, key, |sh.chain|);
    LandedUnique(t, sh, cur, ScanFrom(t, sh, 0, key, |sh.chain|), key);
  }

  /** A forward pointer leads further along the chain. */
  lemma FurtherAlong<E(!new)>(t: Traits<E>, sh: Shared<E>, n: NodeId, to: NodeId)
    requires t.TotalOrder() && SharedInv(t, sh) && n in sh.chain && Forward(t, sh, n, Some(to))
    ensures IndexOf(sh.chain, n) < IndexOf(sh.chain, to) < |sh.chain|
  {
    hide SharedInv;
    var i, j := IndexOf(sh.chain, n), IndexOf(sh.chain, to);
    HeadFirst(t, sh);
    if n != 0 && j <= i {
      LowsAscend(t, sh, j, i);
      assert false;
    }
  }

  // ---- descents of the machine agree with the scan -----------------------------------------

  /** A descent run to its end with no other step in between. */
  function DescendFrom<E(!new)>(t: Traits<E>, sh: Shared<E>, key: E, at: Descent, loads: nat): Outcome
    decreases loads
  {
    if loads == 0 then Going(at)
    else match DescentStep(t, sh, key, at)
         case Going(to) => DescendFrom(t, sh, key, to, loads - 1)
         case Reached(cur, base) => Reached(cur, base)
  }

  /** An upper bound on the loads a descent still needs: every hop goes further along the chain. */
  function LoadsLeft<E(!new)>(sh: Shared<E>, at: Descent): nat
  {
    8 * (|sh.chain| - IndexOf(sh.chain, at.cur)) + 8 * at.lv + Stage(at.probe)
  }

  function Stage(p: Option<Probe>): nat
  {
    match p
    case None => 4
    case Some(AtHint(_)) => 3
    case Some(AtData(_)) => 2
    case Some(AtOrder(_, _)) => 1
  }

  lemma LoadsDrop<E(!new)>(t: Traits<E>, sh: Shared<E>, key: E, at: Descent)
    requires t.TotalOrder() && SharedInv(t, sh) && DescentOk(t, sh, key, at) && DescentStep(t, sh, key, at).Going?
    ensures LoadsLeft(sh, DescentStep(t, sh, key, at).at) < LoadsLeft(sh, at)
  {
    hide SharedInv;
    if at.probe.Some? { FurtherAlong(t, sh, at.cur, at.probe.value.nx); }
  }

  /**
   For any tower satisfying the forward invariant, however many links are missing: a
   descent ends, and at the node the comparator-only scan ends at.
   */
  lemma {:induction false} DescentIsScan<E(!new)>(t: Traits<E>, sh: Shared<E>, key: E, at: Descent, loads: nat)
    requires t.TotalOrder() && t.HintPromise() && SharedInv(t, sh) && DescentOk(t, sh, key, at) && at.floor == 0
    requires at.probe.Some? && at.lv == 0 ==> at.base == DataOf(t, sh, at.cur)
    ensures var out := DescendFrom(t, sh, key, at, loads);
      && (loads >= LoadsLeft(sh, at) ==> out.Reached?)
      && (out.Reached? ==> out.cur == ScanFrom(t, sh, 0, key, |sh.chain|))
    decreases loads
  {
    hide SharedInv, DescentOk, Landed, ScanFrom, DescentStep;
    if loads > 0 {
      DescentSound(t, sh, key, at);
      match DescentStep(t, sh, key, at)
      case Going(to) =>
        LoadsDrop(t, sh, key, at);
        DescentData(t, sh, key, at, to);
        DescentIsScan(t, sh, key, to, loads - 1);
      case Reached(cur, base) =>
        DescentLands(t, sh, key, at, cur, base);
        AgreesWithScan(t, sh, cur, key);
    }
  }

  lemma DescentData<E(!new)>(t: Traits<E>, sh: Shared<E>, key: E, at: Descent, to: Descent)
    requires DescentStep(t, sh, key, at) == Going(to)
    requires at.probe.Some? && at.lv == 0 ==> at.base == DataOf(t, sh, at.cur)
    ensures to.probe.Some? && to.lv == 0 ==> to.base == DataOf(t, sh, to.cur)
  {
    hide ProbeStep;
  }

  lemma DescentLands<E(!new)>(t: Traits<E>, sh: Shared<E>, key: E, at: Descent, cur: NodeId, base: PayloadId)
    requires SharedInv(t, sh) && DescentOk(t, sh, key, at) && at.floor == 0
    requires DescentStep(t, sh, key, at) == Reached(cur, base) && Landed(t, sh, key, cur, base)
    requires at.probe.Some? && at.lv == 0 ==> at.base == DataOf(t, sh, at.cur)
    ensures AtOrBelow(t, sh, cur, key) && Above(t, sh, PayloadAt(t, sh, DataOf(t, sh, cur)).next, key)
  {
    hide ProbeStep, SharedInv;
    DataIs(t, sh, cur);
  }
}
