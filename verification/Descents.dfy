/**
 Every load of a descent, in whatever order other threads interleave: hints and
 tower only ever move it to a node that starts at or below the key.
 */
module Descents {
  import opened Ordering
  import opened Payloads
  import opened Machine
  import opened Invariant
  import opened Publishing

  /** A published non-head payload begins with its node's first key, retired or not. */
  lemma FirstIsLow<E(!new)>(t: Traits<E>, sh: Shared<E>, d: PayloadId, n: NodeId)
    requires SharedInv(t, sh) && IsPayloadOf(sh, d, n) && n != 0
    ensures n < |sh.nodes| && n in sh.chain
    ensures var run := SeenRun(t, PayloadAt(t, sh, d), PayloadAt(t, sh, d).order);
      |run| > 0 && run[0] == sh.nodes[n].low
  {
    assert PayloadOk(t, sh, d);
    SeenIsRun(t, sh.payloads[d].d);
  }

  /** One probe: still sound, or decided as the comparator would decide. */
  lemma ProbeSound<E(!new)>(t: Traits<E>, sh: Shared<E>, key: E, cur: NodeId, p: Probe)
    requires t.TotalOrder() && t.HintPromise() && SharedInv(t, sh) && ProbeOk(t, sh, cur, p)
    ensures p.nx < |sh.nodes| && p.nx in sh.chain && p.nx != 0
    ensures match ProbeStep(t, sh, key, p)
            case Undecided(q) => ProbeOk(t, sh, cur, q) && q.nx == p.nx
            case Decided(yes) => yes <==> !t.Lt(key, sh.nodes[p.nx].low)
  {
    hide PayloadsOk, TowersOk, AllLocated, HeadHintLow, Occupied, Linked, Ascending;
    assert NodeOk(t, sh, p.nx);
    var low := sh.nodes[p.nx].low;
    match p
    case AtHint(nx) => t.Order3(low, key, low);
    case AtData(nx) =>
    case AtOrder(nx, d) => FirstIsLow(t, sh, d, nx);
  }

  /** The node a load on level 0 finds next is the successor on level 0. */
  lemma BaseSound<E(!new)>(t: Traits<E>, sh: Shared<E>, cur: NodeId)
    requires SharedInv(t, sh) && cur in sh.chain
    ensures IsPayloadOf(sh, DataOf(t, sh, cur), cur)
    ensures Forward(t, sh, cur, PayloadAt(t, sh, DataOf(t, sh, cur)).next)
  {
    assert NodeOk(t, sh, cur);
    assert PayloadOk(t, sh, DataOf(t, sh, cur));
  }

  lemma DescentSound<E(!new)>(t: Traits<E>, sh: Shared<E>, key: E, at: Descent)
    requires t.TotalOrder() && t.HintPromise() && SharedInv(t, sh) && DescentOk(t, sh, key, at)
    ensures match DescentStep(t, sh, key, at)
            case Going(to) =>
              && DescentOk(t, sh, key, to) && to.floor == at.floor
              && (to.probe.Some? && to.lv == 0 ==>
                    && at.lv == 0
                    && (if at.probe.None? then to.base == DataOf(t, sh, to.cur) else to.base == at.base && to.cur == at.cur))
            case Reached(cur, base) =>
              && AtOrBelow(t, sh, cur, key)
              && (at.floor == 0 ==>
                    && Landed(t, sh, key, cur, base) && at.lv == 0
                    && (if at.probe.None? then base == DataOf(t, sh, cur) else base == at.base && cur == at.cur))
  {
    hide SharedInv;
    match at.probe
    case None =>
      if at.lv == 0 {
        BaseSound(t, sh, at.cur);
      } else {
        TowerSound(t, sh, at.cur, at.lv);
      }
    case Some(p) => ProbeSound(t, sh, key, at.cur, p);
  }

  lemma TowerSound<E(!new)>(t: Traits<E>, sh: Shared<E>, n: NodeId, lv: nat)
    requires SharedInv(t, sh) && n < |sh.nodes|
    ensures Forward(t, sh, n, TowerAt(t, sh, n, lv))
  {
    assert TowerOk(t, sh, n);
  }

  lemma DescentBegins<E(!new)>(t: Traits<E>, sh: Shared<E>, key: E, floor: nat)
    requires SharedInv(t, sh) && floor < MAX_HEIGHT
    ensures DescentOk(t, sh, key, Descend(floor))
  {
    assert sh.chain[0] == 0 && NodeOk(t, sh, 0);
  }

  /** Two published nodes other than the head have different first keys, ordered one way or the other. */
  lemma LowsDiffer<E(!new)>(t: Traits<E>, sh: Shared<E>, m: NodeId, n: NodeId)
    requires SharedInv(t, sh) && m in sh.chain && n in sh.chain && m != n && m != 0 && n != 0
    ensures m < |sh.nodes| && n < |sh.nodes|
    ensures t.Lt(sh.nodes[m].low, sh.nodes[n].low) || t.Lt(sh.nodes[n].low, sh.nodes[m].low)
  {
    hide PayloadsOk, TowersOk, AllLocated, HeadHintLow, Occupied, Linked;
    assert NodeOk(t, sh, m) && NodeOk(t, sh, n);
    var i :| 0 <= i < |sh.chain| && sh.chain[i] == m;
    var j :| 0 <= j < |sh.chain| && sh.chain[j] == n;
    assert i < j ==> t.Lt(NodeAt(t, sh, sh.chain[i]).low, NodeAt(t, sh, sh.chain[j]).low);
  }
}
