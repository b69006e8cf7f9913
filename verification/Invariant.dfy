/**
 What every reachable state of the machine keeps: the shared structure's
 invariant, each thread's own assertion at its program counter, and the relation
 every step of one thread keeps for all the others.
 */
module Invariant {
  import opened OrderWord
  import opened Ordering
  import opened Payloads
  import opened Machine

  // ---- the shared structure ----------------------------------------------------

  /** A payload a published node holds or has held. */
  ghost predicate PayloadOk<E(!new)>(t: Traits<E>, sh: Shared<E>, p: PayloadId)
    requires p < |sh.payloads|
  {
    var c := sh.payloads[p];
    && c.d.Shaped() && Sorted(t, c.d.Run())
    && c.home in sh.chain && c.home < |sh.nodes|
    // the node's first key: fixed at publication, the same in every payload it ever holds
    && (c.home != 0 ==> c.d.Count() > 0 && c.d.KeyAt(0) == sh.nodes[c.home].low)
    // everything here lies below the successor's first key
    && (c.d.next.Some? ==> c.d.next.value in sh.chain && c.d.next.value != 0 && c.d.next.value < |sh.nodes|
                           && BelowNext(t, sh, c.d)
                           && (c.home != 0 ==> t.Lt(sh.nodes[c.home].low, sh.nodes[c.d.next.value].low)))
    // a retired payload is full, so nothing is ever appended to it
    && (sh.nodes[c.home].data != Some(p) ==> c.d.Count() == NODE_CAPACITY)
  }

  ghost predicate BelowNext<E(!new)>(t: Traits<E>, sh: Shared<E>, d: Payload<E>)
    requires d.Shaped() && d.next.Some? && d.next.value < |sh.nodes|
  {
    forall s :: 0 <= s < d.Count() ==> t.Lt(d.keys[s], sh.nodes[d.next.value].low)
  }

  /** Nothing is named that was not inserted. */
  ghost predicate OnlyPublished<E(!new)>(sh: Shared<E>, p: PayloadId)
    requires p < |sh.payloads| && sh.payloads[p].d.Shaped()
  {
    forall s :: 0 <= s < sh.payloads[p].d.Count() ==> sh.payloads[p].d.keys[s] in sh.published
  }

  /** A published node. */
  ghost predicate NodeOk<E(!new)>(t: Traits<E>, sh: Shared<E>, n: NodeId)
  {
    && n < |sh.nodes|
    && sh.nodes[n].data.Some?
    && sh.nodes[n].data.value in sh.installed
    && sh.nodes[n].data.value < |sh.payloads|
    && sh.payloads[sh.nodes[n].data.value].home == n
    && (n != 0 ==> sh.nodes[n].hint == t.Hint(sh.nodes[n].low))
  }

  /** A tower pointer, when there is one, leads to a published node with a greater first key. */
  ghost predicate Forward<E(!new)>(t: Traits<E>, sh: Shared<E>, n: NodeId, v: Option<NodeId>)
  {
    v.Some? ==>
      && v.value in sh.chain && v.value != 0
      && n < |sh.nodes| && v.value < |sh.nodes|
      && (n != 0 ==> t.Lt(sh.nodes[n].low, sh.nodes[v.value].low))
  }

  ghost predicate TowerOk<E(!new)>(t: Traits<E>, sh: Shared<E>, n: NodeId)
    requires n < |sh.nodes|
  {
    && |sh.nodes[n].tower| == MAX_HEIGHT && 1 <= sh.nodes[n].height <= MAX_HEIGHT
    && (forall lv :: 0 <= lv < MAX_HEIGHT ==> Forward(t, sh, n, sh.nodes[n].tower[lv]))
  }

  ghost predicate LinkAt<E(!new)>(t: Traits<E>, sh: Shared<E>, i: nat)
    requires i < |sh.chain|
  {
    PayloadAt(t, sh, DataOf(t, sh, sh.chain[i])).next == if i + 1 < |sh.chain| then Some(sh.chain[i + 1]) else None
  }

  /** Level 0 is the chain: each payload's link is the next node in it. */
  ghost predicate Linked<E(!new)>(t: Traits<E>, sh: Shared<E>)
  {
    forall i :: 0 <= i < |sh.chain| ==> LinkAt(t, sh, i)
  }

  ghost predicate Ascending<E(!new)>(t: Traits<E>, sh: Shared<E>)
  {
    forall i, j :: 1 <= i < j < |sh.chain| ==> t.Lt(NodeAt(t, sh, sh.chain[i]).low, NodeAt(t, sh, sh.chain[j]).low)
  }

  /** Entry `e` is named by the payload node `n` holds now. */
  ghost predicate HeldBy<E(!new)>(t: Traits<E>, sh: Shared<E>, e: E, n: NodeId)
  {
    e in SeenRun(t, PayloadAt(t, sh, DataOf(t, sh, n)), PayloadAt(t, sh, DataOf(t, sh, n)).order)
  }

  ghost predicate Located<E(!new)>(t: Traits<E>, sh: Shared<E>, e: E)
  {
    exists n :: n in sh.chain && HeldBy(t, sh, e, n)
  }

  /** The head's hint never exceeds that of its first key, when hints are consulted at all. */
  ghost predicate HeadHintLow<E(!new)>(t: Traits<E>, sh: Shared<E>)
  {
    var p := PayloadAt(t, sh, DataOf(t, sh, 0));
    t.hintOrdering && |p.order| > 0 ==> NodeAt(t, sh, 0).hint <= t.Hint(FirstOf(t, p))
  }

  /** After the first split every published payload holds at least MID keys. */
  ghost predicate Occupied<E(!new)>(sh: Shared<E>)
  {
    |sh.chain| > 1 ==> forall p :: p in sh.installed && p < |sh.payloads| ==> |sh.payloads[p].d.order| >= MID
  }

  /**
   The one payload fill did not build strips nothing, and the head holds it until it first
   links to a sibling. Under a bytewise-compatible comparator
   the lanes of every non-head node are exact, and no filled prefix is too short.
   */
  ghost predicate LanesOk<E(!new)>(t: Traits<E>, sh: Shared<E>, p: PayloadId)
    requires p < |sh.payloads| && sh.payloads[p].d.Shaped()
  {
    && (p == 0 ==> Unstripped(t, sh.payloads[p].d))
    && (p != 0 && sh.payloads[p].home == 0 ==> sh.payloads[p].d.next.Some?)
    && (t.Bytewise() ==>
      && (sh.payloads[p].home != 0 ==> LanesExact(t, sh.payloads[p].d))
      && (p != 0 ==> sh.payloads[p].d.Count() >= 2 && PrefixLongEnough(t, sh.payloads[p].d)))
  }

  ghost predicate ChainOk<E(!new)>(t: Traits<E>, sh: Shared<E>)
  {
    && |sh.chain| > 0 && sh.chain[0] == 0
    && (forall i, j :: 0 <= i < j < |sh.chain| ==> sh.chain[i] != sh.chain[j])
    && (forall n :: n in sh.chain ==> NodeOk(t, sh, n))
    && Linked(t, sh)
    && Ascending(t, sh)
  }

  ghost predicate PayloadsOk<E(!new)>(t: Traits<E>, sh: Shared<E>)
  {
    forall p :: p in sh.installed ==>
      p < |sh.payloads| && PayloadOk(t, sh, p) && OnlyPublished(sh, p) && LanesOk(t, sh, p)
  }

  ghost predicate TowersOk<E(!new)>(t: Traits<E>, sh: Shared<E>)
  {
    forall n :: 0 <= n < |sh.nodes| ==> TowerOk(t, sh, n)
  }

  ghost predicate AllLocated<E(!new)>(t: Traits<E>, sh: Shared<E>)
  {
    forall i :: 0 <= i < |sh.published| ==> Located(t, sh, sh.published[i])
  }

  ghost predicate SharedInv<E(!new)>(t: Traits<E>, sh: Shared<E>)
  {
    && ChainOk(t, sh)
    && PayloadsOk(t, sh)
    && TowersOk(t, sh)
    && AllLocated(t, sh)
    && HeadHintLow(t, sh)
    && Occupied(sh)
  }

  // ---- what each thread knows ----------------------------------------------------

  ghost predicate AtOrBelow<E(!new)>(t: Traits<E>, sh: Shared<E>, n: NodeId, key: E)
  {
    n in sh.chain && n < |sh.nodes| && (n != 0 ==> !t.Lt(key, sh.nodes[n].low))
  }

  ghost predicate Above<E(!new)>(t: Traits<E>, sh: Shared<E>, v: Option<NodeId>, key: E)
  {
    v.Some? ==> v.value < |sh.nodes| && t.Lt(key, sh.nodes[v.value].low)
  }

  ghost predicate IsPayloadOf<E(!new)>(sh: Shared<E>, p: PayloadId, n: NodeId)
  {
    p in sh.installed && p < |sh.payloads| && sh.payloads[p].home == n
  }

  ghost predicate ProbeOk<E(!new)>(t: Traits<E>, sh: Shared<E>, cur: NodeId, p: Probe)
  {
    && Forward(t, sh, cur, Some(p.nx)) && (p.AtOrder? ==> IsPayloadOf(sh, p.d, p.nx))
    && (p.AtHint? ==> t.hintOrdering)
  }

  ghost predicate DescentOk<E(!new)>(t: Traits<E>, sh: Shared<E>, key: E, at: Descent)
  {
    && at.floor <= at.lv < MAX_HEIGHT
    && AtOrBelow(t, sh, at.cur, key)
    && (at.probe.Some? ==> ProbeOk(t, sh, at.cur, at.probe.value))
    && (at.probe.Some? && at.lv == 0 ==>
          IsPayloadOf(sh, at.base, at.cur) && sh.payloads[at.base].d.next == Some(at.probe.value.nx))
  }

  /** Where descend leaves off: `cur` starts at or below the key, and the payload last loaded links above it. */
  ghost predicate Landed<E(!new)>(t: Traits<E>, sh: Shared<E>, key: E, cur: NodeId, base: PayloadId)
  {
    && AtOrBelow(t, sh, cur, key)
    && IsPayloadOf(sh, base, cur)
    && Above(t, sh, sh.payloads[base].d.next, key)
  }

  /** The chosen node was split since its payload was loaded only if the chain has grown since. */
  ghost predicate SplitsSeen<E(!new)>(t: Traits<E>, sh: Shared<E>, cur: NodeId, base: PayloadId, seen: nat)
  {
    seen <= |sh.chain| && (DataOf(t, sh, cur) != base ==> seen < |sh.chain|)
  }

  ghost predicate Holds<E(!new)>(t: Traits<E>, me: Tid, sh: Shared<E>, cur: NodeId)
  {
    cur in sh.chain && cur < |sh.nodes| && sh.nodes[cur].lock == Some(me)
  }

  ghost predicate HoldsData<E(!new)>(t: Traits<E>, me: Tid, sh: Shared<E>, cur: NodeId, d: PayloadId)
  {
    Holds(t, me, sh, cur) && sh.nodes[cur].data == Some(d) && IsPayloadOf(sh, d, cur)
  }

  /** The key belongs to the locked node: at or above its first key, below its successor's. */
  ghost predicate BelongsTo<E(!new)>(t: Traits<E>, me: Tid, sh: Shared<E>, key: E, cur: NodeId, d: PayloadId)
  {
    HoldsData(t, me, sh, cur, d) && AtOrBelow(t, sh, cur, key) && Above(t, sh, sh.payloads[d].d.next, key)
  }

  ghost predicate Appending<E(!new)>(t: Traits<E>, me: Tid, sh: Shared<E>, key: E, cur: NodeId, d: PayloadId, o: seq<nat>)
  {
    BelongsTo(t, me, sh, key, cur, d) && sh.payloads[d].d.order == o && |o| < NODE_CAPACITY
  }

  ghost predicate Splitting<E(!new)>(t: Traits<E>, me: Tid, sh: Shared<E>, key: E, cur: NodeId, d: PayloadId,
                                     sib: NodeId, right: PayloadId, left: PayloadId)
  {
    && BelongsTo(t, me, sh, key, cur, d) && |sh.payloads[d].d.order| == NODE_CAPACITY
    && sib !in sh.chain && sib < |sh.nodes| && sib != 0 && sh.nodes[sib].maker == me
    && right !in sh.installed && right < |sh.payloads| && sh.payloads[right].maker == me
    && left !in sh.installed && left < |sh.payloads| && sh.payloads[left].maker == me
    && left != right && left != 0 && right != 0
    && (var m := Merged(t, sh.payloads[d].d, sh.payloads[d].d.order, key);
        && sh.nodes[sib].low == m[MID] && (forall lv :: 0 <= lv < |sh.nodes[sib].tower| ==> sh.nodes[sib].tower[lv] == None)
        && sh.payloads[right].home == sib && sh.payloads[right].d == Filled(t, m[MID..], sh.payloads[d].d.next)
        && sh.payloads[left].home == cur && sh.payloads[left].d == Filled(t, m[..MID], Some(sib)))
  }

  ghost predicate SiblingReady<E(!new)>(t: Traits<E>, sh: Shared<E>, sib: NodeId, right: PayloadId)
  {
    sib < |sh.nodes| && sh.nodes[sib].hint == t.Hint(sh.nodes[sib].low) && sh.nodes[sib].data == Some(right)
  }

  /** Before a publishing store that lowers the head's first key, the head's hint is already as low. */
  ghost predicate HintLowered<E(!new)>(t: Traits<E>, sh: Shared<E>, cur: NodeId, first: E)
  {
    cur == 0 && cur < |sh.nodes| ==> sh.nodes[0].hint == t.Hint(first)
  }

  ghost predicate LinkingOk<E(!new)>(t: Traits<E>, me: Tid, sh: Shared<E>, cur: NodeId, sib: NodeId, first: E, lv: nat)
  {
    Holds(t, me, sh, cur) && sib in sh.chain && sib != 0 && sib < |sh.nodes| && first == sh.nodes[sib].low && 1 <= lv
  }

  ghost predicate PredOk<E(!new)>(t: Traits<E>, sh: Shared<E>, pred: NodeId, sib: NodeId)
  {
    pred in sh.chain && pred < |sh.nodes| && sib < |sh.nodes| && (pred != 0 ==> t.Lt(sh.nodes[pred].low, sh.nodes[sib].low))
  }

  ghost predicate WriterOk<E(!new)>(t: Traits<E>, me: Tid, sh: Shared<E>, key: E, w: WriterPc<E>, seen: nat)
  {
    match w
    case Descending(at) => DescentOk(t, sh, key, at) && at.floor == 0 &&
      (at.probe.Some? && at.lv == 0 ==> SplitsSeen(t, sh, at.cur, at.base, seen))
    case Locking(cur, base) => Landed(t, sh, key, cur, base) && SplitsSeen(t, sh, cur, base, seen)
    case LoadingData(cur, base) => Landed(t, sh, key, cur, base) && SplitsSeen(t, sh, cur, base, seen) && Holds(t, me, sh, cur)
    case LoadingNext(cur, base, d) =>
      Landed(t, sh, key, cur, base) && SplitsSeen(t, sh, cur, base, seen) && HoldsData(t, me, sh, cur, d)
    case LoadingNextOrder(cur, base, d, nd) =>
      && Landed(t, sh, key, cur, base) && SplitsSeen(t, sh, cur, base, seen) && HoldsData(t, me, sh, cur, d)
      && sh.payloads[d].d.next.Some? && IsPayloadOf(sh, nd, sh.payloads[d].d.next.value)
    case Refusing(cur) => Holds(t, me, sh, cur) && seen < |sh.chain|
    case LoadingOrder(cur, d) => BelongsTo(t, me, sh, key, cur, d)
    case StoringKey(cur, d, o) => Appending(t, me, sh, key, cur, d, o)
    case StoringLane(cur, d, o) => Appending(t, me, sh, key, cur, d, o) && SlotHolds(sh, d, o, key)
    case CheckingHint(cur, d, o) =>
      Appending(t, me, sh, key, cur, d, o) && SlotReady(t, sh, d, o, key) && RankIn(t, sh.payloads[d].d, o, key) == 0
    case StoringHint(cur, d, o) =>
      Appending(t, me, sh, key, cur, d, o) && SlotReady(t, sh, d, o, key) && RankIn(t, sh.payloads[d].d, o, key) == 0
    case StoringOrder(cur, d, o) =>
      && Appending(t, me, sh, key, cur, d, o) && SlotReady(t, sh, d, o, key)
      && (RankIn(t, sh.payloads[d].d, o, key) == 0 ==> HintLowered(t, sh, cur, key))
    case Building(cur, d, o) =>
      BelongsTo(t, me, sh, key, cur, d) && sh.payloads[d].d.order == o && |o| == NODE_CAPACITY
    case HintingSibling(cur, d, sib, right, left) => Splitting(t, me, sh, key, cur, d, sib, right, left)
    case FillingSibling(cur, d, sib, right, left) =>
      Splitting(t, me, sh, key, cur, d, sib, right, left) && sh.nodes[sib].hint == t.Hint(sh.nodes[sib].low)
    case CheckingLeftHint(cur, d, sib, right, left) =>
      Splitting(t, me, sh, key, cur, d, sib, right, left) && SiblingReady(t, sh, sib, right)
    case StoringLeftHint(cur, d, sib, right, left) =>
      Splitting(t, me, sh, key, cur, d, sib, right, left) && SiblingReady(t, sh, sib, right)
    case Swapping(cur, d, sib, right, left) =>
      && Splitting(t, me, sh, key, cur, d, sib, right, left) && SiblingReady(t, sh, sib, right)
      && HintLowered(t, sh, cur, FirstOf(t, sh.payloads[left].d))
    case Linking(cur, sib, first, lv, attempt) => LinkingOk(t, me, sh, cur, sib, first, lv)
    case LinkDescending(cur, sib, first, lv, attempt, at) =>
      LinkingOk(t, me, sh, cur, sib, first, lv) && DescentOk(t, sh, first, at) && at.floor == lv
    case LinkLoading(cur, sib, first, lv, attempt, pred) =>
      LinkingOk(t, me, sh, cur, sib, first, lv) && PredOk(t, sh, pred, sib)
    case LinkProbing(cur, sib, first, lv, attempt, pred, probe) =>
      LinkingOk(t, me, sh, cur, sib, first, lv) && PredOk(t, sh, pred, sib) && ProbeOk(t, sh, pred, probe)
    case LinkStoring(cur, sib, first, lv, attempt, pred, succ) =>
      LinkingOk(t, me, sh, cur, sib, first, lv) && PredOk(t, sh, pred, sib) && Forward(t, sh, sib, succ)
    case LinkSwapping(cur, sib, first, lv, attempt, pred, succ) =>
      LinkingOk(t, me, sh, cur, sib, first, lv) && PredOk(t, sh, pred, sib)
    case Unlocking(cur) => Holds(t, me, sh, cur)
  }

  ghost predicate SlotHolds<E(!new)>(sh: Shared<E>, d: PayloadId, o: seq<nat>, key: E)
  {
    d < |sh.payloads| && |o| < |sh.payloads[d].d.keys| && sh.payloads[d].d.keys[|o|] == key
  }

  ghost predicate SlotReady<E(!new)>(t: Traits<E>, sh: Shared<E>, d: PayloadId, o: seq<nat>, key: E)
  {
    && SlotHolds(sh, d, o, key)
    && |o| < |sh.payloads[d].d.lanes| && sh.payloads[d].d.lanes[|o|] == LaneOf(t, sh.payloads[d].d, o, key)
  }

  // ---- readers ---------------------------------------------------------------------

  /** Some entry among the first `k` published compares equal to `key`. */
  ghost predicate KnownKey<E(!new)>(t: Traits<E>, sh: Shared<E>, key: E, k: nat)
  {
    exists i :: 0 <= i < k && i < |sh.published| && t.compare(sh.published[i], key) == 0
  }

  ghost predicate NamesKey<E(!new)>(t: Traits<E>, p: Payload<E>, key: E)
    requires p.Shaped()
  {
    exists s :: 0 <= s < p.Count() && t.compare(p.keys[s], key) == 0
  }

  ghost predicate NextReaches<E(!new)>(t: Traits<E>, sh: Shared<E>, v: Option<NodeId>, key: E)
  {
    v.Some? && v.value < |sh.nodes| && !t.Lt(key, sh.nodes[v.value].low)
  }

  ghost predicate ReaderOk<E(!new)>(t: Traits<E>, sh: Shared<E>, key: E, r: ReaderPc, known: nat)
  {
    && known <= |sh.published|
    && match r
       case Seeking(at) => DescentOk(t, sh, key, at) && at.floor == 0
       case Reloading(cur, base) => Landed(t, sh, key, cur, base)
       case Snapshotting(cur, base, d) =>
         && Landed(t, sh, key, cur, base) && IsPayloadOf(sh, d, cur) && sh.payloads[d].d.Shaped()
         && (KnownKey(t, sh, key, known) ==>
               NamesKey(t, sh.payloads[d].d, key) || NextReaches(t, sh, sh.payloads[d].d.next, key))
       case Answered(result, base, d) =>
         && d in sh.installed && d < |sh.payloads| && base in sh.installed && base < |sh.payloads|
         && (result ==> exists i :: 0 <= i < |sh.published| && t.compare(sh.published[i], key) == 0)
         && (KnownKey(t, sh, key, known) ==> (result <==> !NextReaches(t, sh, sh.payloads[d].d.next, key)))
         && !NextReaches(t, sh, sh.payloads[base].d.next, key)
  }

  // ---- the forward walk ------------------------------------------------------------

  ghost predicate NextAtOrBelow<E(!new)>(t: Traits<E>, sh: Shared<E>, v: Option<NodeId>, e: E)
  {
    v.Some? && v.value < |sh.nodes| && !t.Lt(e, sh.nodes[v.value].low)
  }

  ghost predicate YieldsBelow<E(!new)>(t: Traits<E>, ys: seq<E>, e: E)
  {
    forall i :: 0 <= i < |ys| ==> t.Lt(ys[i], e)
  }

  ghost predicate WalkerOk<E(!new)>(t: Traits<E>, sh: Shared<E>, k: WalkerPc, known: nat, ys: seq<E>)
  {
    && known <= |sh.published|
    && Sorted(t, ys) && (forall y :: y in ys ==> y in sh.published)
    && match k
       case Adopting(n) =>
         && n in sh.chain && n < |sh.nodes|
         && (if n == 0 then ys == [] else YieldsBelow(t, ys, sh.nodes[n].low))
         && (forall i :: 0 <= i < known && n != 0 ==> sh.published[i] in ys || !t.Lt(sh.published[i], sh.nodes[n].low))
       case AdoptingOrder(n, d) =>
         && IsPayloadOf(sh, d, n) && n < |sh.nodes| && sh.payloads[d].d.Shaped()
         && (if n == 0 then ys == [] else YieldsBelow(t, ys, sh.nodes[n].low))
         && (forall i :: 0 <= i < known ==>
               sh.published[i] in ys || NextAtOrBelow(t, sh, sh.payloads[d].d.next, sh.published[i])
               || sh.published[i] in sh.payloads[d].d.Run())
       case Standing(n, d, o, pos) =>
         && IsPayloadOf(sh, d, n) && sh.payloads[d].d.Shaped()
         && Permutation(o) && |o| <= sh.payloads[d].d.Count() && pos <= |o|
         && (var run := SeenRun(t, sh.payloads[d].d, o);
             && Sorted(t, run)
             && (pos < |run| ==> YieldsBelow(t, ys, run[pos]))
             && (sh.payloads[d].d.next.Some? ==>
                   (sh.payloads[d].d.next.value < |sh.nodes|
                    && YieldsBelow(t, ys, sh.nodes[sh.payloads[d].d.next.value].low)))
             && (forall i :: 0 <= i < known ==>
                   sh.published[i] in ys || NextAtOrBelow(t, sh, sh.payloads[d].d.next, sh.published[i])
                   || sh.published[i] in run[pos..]))
       case Ended => forall i :: 0 <= i < known ==> sh.published[i] in ys
  }

  ghost predicate ThreadOk<E(!new)>(t: Traits<E>, me: Tid, sh: Shared<E>, th: Thread<E>)
  {
    match th
    case Idle => true
    case Insert(key, w, start, retries, seen) =>
      WriterOk(t, me, sh, key, w, seen) && start + retries <= seen <= |sh.chain|
    case Lookup(key, r, known) => ReaderOk(t, sh, key, r, known)
    case Walk(k, known, ys) => WalkerOk(t, sh, k, known, ys)
  }

  /** Pending entries differ from each other and from everything published. */
  ghost predicate KeysApart<E(!new)>(t: Traits<E>, s: State<E>)
  {
    && (forall u :: 0 <= u < |s.threads| && Pending(s.threads[u]) ==> Unpublished(t, s.sh, s.threads[u].key))
    && (forall u, v | 0 <= u < |s.threads| && 0 <= v < |s.threads| && u != v
          :: Pending(s.threads[u]) && Pending(s.threads[v]) ==> t.compare(s.threads[u].key, s.threads[v].key) != 0)
    && (forall i, j :: 0 <= i < j < |s.sh.published| ==> t.compare(s.sh.published[i], s.sh.published[j]) != 0)
  }

  ghost predicate Inv<E(!new)>(t: Traits<E>, s: State<E>)
  {
    && SharedInv(t, s.sh)
    && (forall u :: 0 <= u < |s.threads| ==> ThreadOk(t, u, s.sh, s.threads[u]))
    && KeysApart(t, s)
  }

  // ---- interference ------------------------------------------------------------------

  /** A payload only gains names: what is named, its prefix and its link never change. */
  ghost predicate PayloadGrows<E(!new)>(p: Payload<E>, q: Payload<E>)
  {
    && q.next == p.next && q.prefixLen == p.prefixLen
    && |q.keys| == |p.keys| && |q.lanes| == |p.lanes|
    && |p.order| <= |q.order|
    && (forall s :: 0 <= s < |p.order| && s < |p.keys| ==> q.keys[s] == p.keys[s])
    && (forall s :: 0 <= s < |p.order| && s < |p.lanes| ==> q.lanes[s] == p.lanes[s])
    && (p.Shaped() ==> q.Shaped())
    && (p.Shaped() && q.Shaped() ==> forall e :: e in p.Run() ==> e in q.Run())
  }

  /** What a step of thread `me` may do to the shared structure, as the other threads see it. */
  ghost predicate Guarantee<E(!new)>(t: Traits<E>, me: Tid, a: Shared<E>, b: Shared<E>)
  {
    && |a.nodes| <= |b.nodes| && |a.payloads| <= |b.payloads| && |a.chain| <= |b.chain|
    && a.published <= b.published
    && a.installed <= b.installed
    && (forall n :: n in a.chain ==> n in b.chain)
    && (forall n :: 0 <= n < |a.nodes| ==> NodeGrows(me, a, b, n))
    && (forall p :: 0 <= p < |a.payloads| ==> CellGrows(me, a, b, p))
  }

  ghost predicate NodeGrows<E(!new)>(me: Tid, a: Shared<E>, b: Shared<E>, n: NodeId)
    requires n < |a.nodes| && n < |b.nodes|
  {
    var x, y := a.nodes[n], b.nodes[n];
    && y.low == x.low && y.maker == x.maker && y.height == x.height
    && (n in a.chain && y.data != x.data ==> |a.chain| < |b.chain|)
    // locked by another thread: only its tower may change
    && (n in a.chain && x.lock.Some? && x.lock.value != me ==>
          y.lock == x.lock && y.data == x.data && y.hint == x.hint)
    // not yet published by another thread: untouched
    && (n !in a.chain && x.maker != me ==> y == x && n !in b.chain)
  }

  ghost predicate CellGrows<E(!new)>(me: Tid, a: Shared<E>, b: Shared<E>, p: PayloadId)
    requires p < |a.payloads| && p < |b.payloads|
  {
    var x, y := a.payloads[p], b.payloads[p];
    && y.home == x.home && y.maker == x.maker
    && PayloadGrows(x.d, y.d)
    && (p in a.installed && LockedByOther(me, a, x.home) && a.nodes[x.home].data == Some(p) ==> y == x)
    && (p !in a.installed && x.maker != me ==> y == x && p !in b.installed)
  }

  ghost predicate LockedByOther<E(!new)>(me: Tid, a: Shared<E>, n: NodeId)
  {
    n in a.chain && n < |a.nodes| && a.nodes[n].lock.Some? && a.nodes[n].lock.value != me
  }
}
