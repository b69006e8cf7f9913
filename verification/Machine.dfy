/**
 BasicMemTable under any number of threads (include/aparajita/memtable.hpp): a
 machine whose steps are the loads, stores, compare-exchanges and lock operations
 of insert_entry, contains_target and a forward walk from begin(), interleaved by
 an arbitrary schedule. Plain reads of fields that are frozen when they become
 visible ride along with the load that made them visible.

 `low`, `home`, `maker`, `chain`, `installed`, `published` and the counters of a
 thread are history: steps write them, no step's outcome depends on them.
 */
module Machine {
  import opened OrderWord
  import opened Surrogate
  import opened Ordering
  import opened Payloads

  const MAX_HEIGHT: nat := 12
  const MID: nat := (NODE_CAPACITY + 1) / 2
  const ATTEMPTS: nat := 8

  type Tid = nat
  type PayloadId = nat

  /** A list node: payload pointer, descent hint, write lock and tower. */
  datatype Node<E> = Node(
    data: Option<PayloadId>,
    hint: uint64,
    lock: Option<Tid>,
    height: nat,
    tower: seq<Option<NodeId>>,
    low: E,       // history: the first key it was published with
    maker: Tid)   // history: the thread that allocated it

  datatype Cell<E(!new)> = Cell(
    d: Payload<E>,
    home: NodeId,  // history: the node it was built for
    maker: Tid)    // history: the thread that allocated it

  datatype Shared<E(!new)> = Shared(
    nodes: seq<Node<E>>,
    payloads: seq<Cell<E>>,
    chain: seq<NodeId>,          // history: the nodes published on level 0, in order
    installed: set<PayloadId>,   // history: every payload a published node has held
    published: seq<E>)           // history: the inserts past their publishing store

  // ---- threads ---------------------------------------------------------------

  /** starts_at_or_below, one load at a time. */
  datatype Probe = AtHint(nx: NodeId) | AtData(nx: NodeId) | AtOrder(nx: NodeId, d: PayloadId)

  /** descend (floor 0) or pred_at_level (floor >= 1). `base` is the payload whose `next` is being probed on level 0. */
  datatype Descent = Descent(lv: nat, floor: nat, cur: NodeId, probe: Option<Probe>, base: PayloadId)

  datatype WriterPc<E> =
    | Descending(at: Descent)
    | Locking(cur: NodeId, base: PayloadId)
    | LoadingData(cur: NodeId, base: PayloadId)
    | LoadingNext(cur: NodeId, base: PayloadId, d: PayloadId)
    | LoadingNextOrder(cur: NodeId, base: PayloadId, d: PayloadId, nd: PayloadId)
    | Refusing(cur: NodeId)
    | LoadingOrder(cur: NodeId, d: PayloadId)
    | StoringKey(cur: NodeId, d: PayloadId, o: seq<nat>)
    | StoringLane(cur: NodeId, d: PayloadId, o: seq<nat>)
    | CheckingHint(cur: NodeId, d: PayloadId, o: seq<nat>)
    | StoringHint(cur: NodeId, d: PayloadId, o: seq<nat>)
    | StoringOrder(cur: NodeId, d: PayloadId, o: seq<nat>)
    | Building(cur: NodeId, d: PayloadId, o: seq<nat>)
    | HintingSibling(cur: NodeId, d: PayloadId, sib: NodeId, right: PayloadId, left: PayloadId)
    | FillingSibling(cur: NodeId, d: PayloadId, sib: NodeId, right: PayloadId, left: PayloadId)
    | CheckingLeftHint(cur: NodeId, d: PayloadId, sib: NodeId, right: PayloadId, left: PayloadId)
    | StoringLeftHint(cur: NodeId, d: PayloadId, sib: NodeId, right: PayloadId, left: PayloadId)
    | Swapping(cur: NodeId, d: PayloadId, sib: NodeId, right: PayloadId, left: PayloadId)
    | Linking(cur: NodeId, sib: NodeId, first: E, lv: nat, attempt: nat)
    | LinkDescending(cur: NodeId, sib: NodeId, first: E, lv: nat, attempt: nat, at: Descent)
    | LinkLoading(cur: NodeId, sib: NodeId, first: E, lv: nat, attempt: nat, pred: NodeId)
    | LinkProbing(cur: NodeId, sib: NodeId, first: E, lv: nat, attempt: nat, pred: NodeId, probe: Probe)
    | LinkStoring(cur: NodeId, sib: NodeId, first: E, lv: nat, attempt: nat, pred: NodeId, succ: Option<NodeId>)
    | LinkSwapping(cur: NodeId, sib: NodeId, first: E, lv: nat, attempt: nat, pred: NodeId, succ: Option<NodeId>)
    | Unlocking(cur: NodeId)

  datatype ReaderPc =
    | Seeking(at: Descent)
    | Reloading(cur: NodeId, base: PayloadId)
    | Snapshotting(cur: NodeId, base: PayloadId, d: PayloadId)
    | Answered(result: bool, base: PayloadId, d: PayloadId)

  datatype WalkerPc =
    | Adopting(n: NodeId)
    | AdoptingOrder(n: NodeId, d: PayloadId)
    | Standing(n: NodeId, d: PayloadId, o: seq<nat>, pos: nat)
    | Ended

  datatype Thread<E> =
    | Idle
    // start: |chain| when the insert began; seen: |chain| at its last level-0 load or retry
    | Insert(key: E, w: WriterPc<E>, start: nat, retries: nat, seen: nat)
    // known: how many inserts were published when the operation began
    | Lookup(key: E, r: ReaderPc, known: nat)
    | Walk(k: WalkerPc, known: nat, yielded: seq<E>)

  datatype State<E(!new)> = State(sh: Shared<E>, threads: seq<Thread<E>>)

  // ---- memory access ---------------------------------------------------------

  function NodeAt<E(!new)>(t: Traits<E>, sh: Shared<E>, n: NodeId): Node<E>
  {
    if n < |sh.nodes| then sh.nodes[n] else Node(None, 0, None, 0, [], t.nullEntry, 0)
  }

  function PayloadAt<E(!new)>(t: Traits<E>, sh: Shared<E>, p: PayloadId): Payload<E>
  {
    if p < |sh.payloads| then sh.payloads[p].d else FreshPayload(t)
  }

  function DataOf<E(!new)>(t: Traits<E>, sh: Shared<E>, n: NodeId): PayloadId
  {
    var d := NodeAt(t, sh, n).data;
    if d.Some? then d.value else |sh.payloads|
  }

  function TowerAt<E(!new)>(t: Traits<E>, sh: Shared<E>, n: NodeId, lv: nat): Option<NodeId>
  {
    var tw := NodeAt(t, sh, n).tower;
    if lv < |tw| then tw[lv] else None
  }

  /** The keys a snapshot `o` of the order word names, in rank order. */
  function SeenRun<E(!new)>(t: Traits<E>, p: Payload<E>, o: seq<nat>): (s: seq<E>)
    ensures |s| == |o|
  {
    seq(|o|, r requires 0 <= r < |o| => if o[r] < |p.keys| then p.keys[o[r]] else t.nullEntry)
  }

  function SetNode<E(!new)>(sh: Shared<E>, n: NodeId, v: Node<E>): Shared<E>
  {
    if n < |sh.nodes| then sh.(nodes := sh.nodes[n := v]) else sh
  }

  function SetPayload<E(!new)>(sh: Shared<E>, p: PayloadId, v: Payload<E>): Shared<E>
  {
    if p < |sh.payloads| then sh.(payloads := sh.payloads[p := sh.payloads[p].(d := v)]) else sh
  }

  function SetLock<E(!new)>(t: Traits<E>, sh: Shared<E>, n: NodeId, v: Option<Tid>): Shared<E>
  {
    SetNode(sh, n, NodeAt(t, sh, n).(lock := v))
  }

  function SetHint<E(!new)>(t: Traits<E>, sh: Shared<E>, n: NodeId, h: uint64): Shared<E>
  {
    SetNode(sh, n, NodeAt(t, sh, n).(hint := h))
  }

  function SetData<E(!new)>(t: Traits<E>, sh: Shared<E>, n: NodeId, p: PayloadId): Shared<E>
  {
    SetNode(sh, n, NodeAt(t, sh, n).(data := Some(p)))
  }

  function SetTower<E(!new)>(t: Traits<E>, sh: Shared<E>, n: NodeId, lv: nat, v: Option<NodeId>): Shared<E>
  {
    var node := NodeAt(t, sh, n);
    if lv < |node.tower| then SetNode(sh, n, node.(tower := node.tower[lv := v])) else sh
  }

  // ---- the descent -----------------------------------------------------------

  datatype Verdict = Undecided(p: Probe) | Decided(yes: bool)

  function Aim<E(!new)>(t: Traits<E>, nx: NodeId): Probe
  {
    if t.hintOrdering then AtHint(nx) else AtData(nx)
  }

  /** One load of starts_at_or_below. */
  function ProbeStep<E(!new)>(t: Traits<E>, sh: Shared<E>, key: E, p: Probe): Verdict
  {
    match p
    case AtHint(nx) =>
      var h := NodeAt(t, sh, nx).hint;
      if h != t.Hint(key) then Decided(h < t.Hint(key)) else Undecided(AtData(nx))
    case AtData(nx) => Undecided(AtOrder(nx, DataOf(t, sh, nx)))
    case AtOrder(nx, d) =>
      var run := SeenRun(t, PayloadAt(t, sh, d), PayloadAt(t, sh, d).order);
      Decided(|run| > 0 && t.compare(run[0], key) <= 0)
  }

  datatype Outcome = Going(at: Descent) | Reached(cur: NodeId, base: PayloadId)

  function Descend(floor: nat): Descent
  {
    Descent(MAX_HEIGHT - 1, floor, 0, None, 0)
  }

  function Down(at: Descent): Outcome
  {
    if at.lv <= at.floor then Reached(at.cur, at.base) else Going(at.(lv := at.lv - 1, probe := None))
  }

  /** One load of descend or pred_at_level. */
  function DescentStep<E(!new)>(t: Traits<E>, sh: Shared<E>, key: E, at: Descent): Outcome
  {
    match at.probe
    case None =>
      var base := if at.lv == 0 then DataOf(t, sh, at.cur) else at.base;
      var nx := if at.lv == 0 then PayloadAt(t, sh, base).next else TowerAt(t, sh, at.cur, at.lv);
      if nx.None? then Down(at.(base := base)) else Going(at.(base := base, probe := Some(Aim(t, nx.value))))
    case Some(p) =>
      match ProbeStep(t, sh, key, p)
      case Undecided(p') => Going(at.(probe := Some(p')))
      case Decided(yes) => if yes then Going(at.(cur := p.nx, probe := None)) else Down(at)
  }

  // ---- insert_entry ----------------------------------------------------------

  function IndexOf(chain: seq<NodeId>, n: NodeId): (i: nat)
    ensures i <= |chain|
    ensures n in chain ==> i < |chain| && chain[i] == n
  {
    if chain == [] || chain[0] == n then 0 else 1 + IndexOf(chain[1..], n)
  }

  function ChainWith(chain: seq<NodeId>, cur: NodeId, sib: NodeId): seq<NodeId>
  {
    var i := IndexOf(chain, cur);
    if i < |chain| then chain[..i + 1] + [sib] + chain[i + 1..] else chain
  }

  /** The key's rank in a snapshot of a payload. */
  function RankIn<E(!new)>(t: Traits<E>, p: Payload<E>, o: seq<nat>, key: E): (r: nat)
    ensures r <= |o|
  {
    LowerBound(t, SeenRun(t, p, o), key)
  }

  function LaneOf<E(!new)>(t: Traits<E>, p: Payload<E>, o: seq<nat>, key: E): uint32
  {
    var run, bytes := SeenRun(t, p, o), t.orderBytes(key);
    if |o| == 0 || p.prefixLen == 0 || SharesPrefix(bytes, t.orderBytes(run[0]), p.prefixLen)
    then SurrogateAt(bytes, p.prefixLen)
    else if RankIn(t, p, o, key) == 0 then 0 else EMPTY_KEY
  }

  /** The full node's run with the new key in its place. */
  function Merged<E(!new)>(t: Traits<E>, p: Payload<E>, o: seq<nat>, key: E): (m: seq<E>)
    ensures |m| == |o| + 1
  {
    Splice(SeenRun(t, p, o), RankIn(t, p, o, key), key)
  }

  function FirstOf<E(!new)>(t: Traits<E>, p: Payload<E>): E
  {
    var run := SeenRun(t, p, p.order);
    if |run| > 0 then run[0] else t.nullEntry
  }

  /** What the scheduler and the environment choose: a height, a spurious CAS failure, the next operation. */
  datatype Choice<E> = Choice(height: nat, spurious: bool, op: Op<E>)
  datatype Op<E> = DoInsert(key: E) | DoLookup(key: E) | DoWalk

  function Height<E>(c: Choice<E>): (h: nat)
    ensures 1 <= h <= MAX_HEIGHT
  {
    if 1 <= c.height <= MAX_HEIGHT then c.height else 1
  }

  /** create_node, two fresh_data and two fill calls on memory no other thread can reach yet. */
  function Build<E(!new)>(t: Traits<E>, me: Tid, sh: Shared<E>, cur: NodeId, d: PayloadId, m: seq<E>, h: nat): Shared<E>
    requires MID < |m| <= NODE_CAPACITY + 1
  {
    var sib := |sh.nodes|;
    var right := Filled(t, m[MID..], PayloadAt(t, sh, d).next);
    var left := Filled(t, m[..MID], Some(sib));
    sh.(nodes := sh.nodes + [Node(None, 0, None, h, seq(MAX_HEIGHT, i => None), m[MID], me)],
        payloads := sh.payloads + [Cell(right, sib, me), Cell(left, cur, me)])
  }

  function Restart<E>(th: Thread<E>, seen: nat): Thread<E>
    requires th.Insert?
  {
    th.(w := Descending(Descend(0)), retries := th.retries + 1, seen := seen)
  }

  /** One step of insert_entry. */
  function WriterStep<E(!new)>(t: Traits<E>, me: Tid, sh: Shared<E>, th: Thread<E>, c: Choice<E>): (Shared<E>, Thread<E>)
    requires th.Insert?
  {
    var key := th.key;
    match th.w
    case Descending(at) =>
      var seen := if at.lv == 0 && at.probe.None? then |sh.chain| else th.seen;
      (match DescentStep(t, sh, key, at)
       case Going(at') => (sh, th.(w := Descending(at'), seen := seen))
       case Reached(cur, base) => (sh, th.(w := Locking(cur, base), seen := seen)))
    case Locking(cur, base) =>
      if NodeAt(t, sh, cur).lock.None?
      then (SetLock(t, sh, cur, Some(me)), th.(w := LoadingData(cur, base)))
      else (sh, th)
    case LoadingData(cur, base) => (sh, th.(w := LoadingNext(cur, base, DataOf(t, sh, cur))))
    case LoadingNext(cur, base, d) =>
      var nx := PayloadAt(t, sh, d).next;
      (sh, th.(w := if nx.None? then LoadingOrder(cur, d) else LoadingNextOrder(cur, base, d, DataOf(t, sh, nx.value))))
    case LoadingNextOrder(cur, base, d, nd) =>
      var run := SeenRun(t, PayloadAt(t, sh, nd), PayloadAt(t, sh, nd).order);
      var belongs := |run| == 0 || t.compare(run[0], key) > 0;
      (sh, th.(w := if belongs then LoadingOrder(cur, d) else Refusing(cur)))
    case Refusing(cur) => (SetLock(t, sh, cur, None), Restart(th, |sh.chain|))
    case LoadingOrder(cur, d) =>
      var o := PayloadAt(t, sh, d).order;
      (sh, th.(w := if |o| < NODE_CAPACITY then StoringKey(cur, d, o) else Building(cur, d, o)))
    case StoringKey(cur, d, o) =>
      var p := PayloadAt(t, sh, d);
      (if |o| < |p.keys| then SetPayload(sh, d, p.(keys := p.keys[|o| := key])) else sh, th.(w := StoringLane(cur, d, o)))
    case StoringLane(cur, d, o) =>
      var p := PayloadAt(t, sh, d);
      (if |o| < |p.lanes| then SetPayload(sh, d, p.(lanes := p.lanes[|o| := LaneOf(t, p, o, key)])) else sh,
       th.(w := if RankIn(t, p, o, key) == 0 then CheckingHint(cur, d, o) else StoringOrder(cur, d, o)))
    case CheckingHint(cur, d, o) =>
      (sh, th.(w := if NodeAt(t, sh, cur).hint != t.Hint(key) then StoringHint(cur, d, o) else StoringOrder(cur, d, o)))
    case StoringHint(cur, d, o) => (SetHint(t, sh, cur, t.Hint(key)), th.(w := StoringOrder(cur, d, o)))
    case StoringOrder(cur, d, o) =>
      var p := PayloadAt(t, sh, d);
      (SetPayload(sh, d, p.(order := Splice(o, RankIn(t, p, o, key), |o|))).(published := sh.published + [key]),
       th.(w := Unlocking(cur)))
    case Building(cur, d, o) =>
      var m := Merged(t, PayloadAt(t, sh, d), o, key);
      if MID < |m| <= NODE_CAPACITY + 1
      then (Build(t, me, sh, cur, d, m, Height(c)),
            th.(w := HintingSibling(cur, d, |sh.nodes|, |sh.payloads|, |sh.payloads| + 1)))
      else (sh, th)
    case HintingSibling(cur, d, sib, right, left) =>
      (SetHint(t, sh, sib, t.Hint(FirstOf(t, PayloadAt(t, sh, right)))), th.(w := FillingSibling(cur, d, sib, right, left)))
    case FillingSibling(cur, d, sib, right, left) =>
      (SetData(t, sh, sib, right), th.(w := CheckingLeftHint(cur, d, sib, right, left)))
    case CheckingLeftHint(cur, d, sib, right, left) =>
      (sh, th.(w := if NodeAt(t, sh, cur).hint != t.Hint(FirstOf(t, PayloadAt(t, sh, left)))
                    then StoringLeftHint(cur, d, sib, right, left) else Swapping(cur, d, sib, right, left)))
    case StoringLeftHint(cur, d, sib, right, left) =>
      (SetHint(t, sh, cur, t.Hint(FirstOf(t, PayloadAt(t, sh, left)))), th.(w := Swapping(cur, d, sib, right, left)))
    case Swapping(cur, d, sib, right, left) =>
      (SetData(t, sh, cur, left).(chain := ChainWith(sh.chain, cur, sib),
                                  installed := sh.installed + {left, right},
                                  published := sh.published + [key]),
       th.(w := Linking(cur, sib, FirstOf(t, PayloadAt(t, sh, right)), 1, 0)))
    case Unlocking(cur) => (SetLock(t, sh, cur, None), Idle)
    case _ => LinkStep(t, sh, th, c)
  }

  /** One step of link_tower. */
  function LinkStep<E(!new)>(t: Traits<E>, sh: Shared<E>, th: Thread<E>, c: Choice<E>): (Shared<E>, Thread<E>)
    requires th.Insert?
  {
    match th.w
    case Linking(cur, sib, first, lv, attempt) =>
      (sh, th.(w := if lv >= NodeAt(t, sh, sib).height then Unlocking(cur)
                    else if attempt >= ATTEMPTS then Linking(cur, sib, first, lv + 1, 0)
                    else LinkDescending(cur, sib, first, lv, attempt, Descend(lv))))
    case LinkDescending(cur, sib, first, lv, attempt, at) =>
      (match DescentStep(t, sh, first, at)
       case Going(at') => (sh, th.(w := LinkDescending(cur, sib, first, lv, attempt, at')))
       case Reached(pred, _) =>
         (sh, th.(w := if pred == sib then Linking(cur, sib, first, lv + 1, 0)
                       else LinkLoading(cur, sib, first, lv, attempt, pred))))
    case LinkLoading(cur, sib, first, lv, attempt, pred) =>
      var nx := TowerAt(t, sh, pred, lv);
      (sh, th.(w := if nx.None? then LinkStoring(cur, sib, first, lv, attempt, pred, None)
                    else LinkProbing(cur, sib, first, lv, attempt, pred, Aim(t, nx.value))))
    case LinkProbing(cur, sib, first, lv, attempt, pred, probe) =>
      (match ProbeStep(t, sh, first, probe)
       case Undecided(p') => (sh, th.(w := LinkProbing(cur, sib, first, lv, attempt, pred, p')))
       case Decided(yes) =>
         (sh, th.(w := if yes then Linking(cur, sib, first, lv, attempt + 1)
                       else LinkStoring(cur, sib, first, lv, attempt, pred, Some(probe.nx)))))
    case LinkStoring(cur, sib, first, lv, attempt, pred, succ) =>
      (SetTower(t, sh, sib, lv, succ), th.(w := LinkSwapping(cur, sib, first, lv, attempt, pred, succ)))
    case LinkSwapping(cur, sib, first, lv, attempt, pred, succ) =>
      if TowerAt(t, sh, pred, lv) == succ && !c.spurious
      then (SetTower(t, sh, pred, lv, Some(sib)), th.(w := Linking(cur, sib, first, lv + 1, 0)))
      else (sh, th.(w := Linking(cur, sib, first, lv, attempt + 1)))
    case _ => (sh, th)
  }

  // ---- contains_target and the forward walk ----------------------------------

  /** contains_target's verdict on a snapshot. */
  function Contains<E(!new)>(t: Traits<E>, p: Payload<E>, o: seq<nat>, key: E): bool
  {
    var run, r := SeenRun(t, p, o), RankIn(t, p, o, key);
    r < |run| && t.compare(run[r], key) == 0
  }

  function ReaderStep<E(!new)>(t: Traits<E>, sh: Shared<E>, th: Thread<E>): Thread<E>
    requires th.Lookup?
  {
    match th.r
    case Seeking(at) =>
      (match DescentStep(t, sh, th.key, at)
       case Going(at') => th.(r := Seeking(at'))
       case Reached(cur, base) => th.(r := Reloading(cur, base)))
    case Reloading(cur, base) => th.(r := Snapshotting(cur, base, DataOf(t, sh, cur)))
    case Snapshotting(cur, base, d) =>
      th.(r := Answered(Contains(t, PayloadAt(t, sh, d), PayloadAt(t, sh, d).order, th.key), base, d))
    case Answered(_, _, _) => Idle
  }

  function WalkerStep<E(!new)>(t: Traits<E>, sh: Shared<E>, th: Thread<E>): Thread<E>
    requires th.Walk?
  {
    match th.k
    case Adopting(n) => th.(k := AdoptingOrder(n, DataOf(t, sh, n)))
    case AdoptingOrder(n, d) => th.(k := Standing(n, d, PayloadAt(t, sh, d).order, 0))
    case Standing(n, d, o, pos) =>
      var run := SeenRun(t, PayloadAt(t, sh, d), o);
      if pos < |run| then th.(k := Standing(n, d, o, pos + 1), yielded := th.yielded + [run[pos]])
      else
        var nx := PayloadAt(t, sh, d).next;
        th.(k := if nx.Some? then Adopting(nx.value) else Ended)
    case Ended => Idle
  }

  // ---- the machine -----------------------------------------------------------

  /** A key compares equal to none of the published ones. */
  ghost predicate Unpublished<E(!new)>(t: Traits<E>, sh: Shared<E>, key: E)
  {
    Payloads.Fresh(t, sh.published, key)
  }

  /** The thread is inserting `key` and has not passed its publishing store. */
  predicate Pending<E>(th: Thread<E>)
  {
    th.Insert? && !(th.w.Linking? || th.w.LinkDescending? || th.w.LinkLoading? || th.w.LinkProbing?
                    || th.w.LinkStoring? || th.w.LinkSwapping? || th.w.Unlocking?)
  }

  /** Entries are distinct, as sequence numbers make them: nobody inserts an entry equal to one already there or on its way. */
  ghost predicate Admissible<E(!new)>(t: Traits<E>, s: State<E>, key: E)
  {
    && Unpublished(t, s.sh, key)
    && forall u :: 0 <= u < |s.threads| && Pending(s.threads[u]) ==> t.compare(s.threads[u].key, key) != 0
  }

  ghost function Begin<E(!new)>(t: Traits<E>, s: State<E>, op: Op<E>): Thread<E>
  {
    match op
    case DoInsert(key) =>
      if Admissible(t, s, key) then Insert(key, Descending(Descend(0)), |s.sh.chain|, 0, |s.sh.chain|) else Idle
    case DoLookup(key) => Lookup(key, Seeking(Descend(0)), |s.sh.published|)
    case DoWalk => Walk(Adopting(0), |s.sh.published|, [])
  }

  ghost function ThreadStep<E(!new)>(t: Traits<E>, s: State<E>, me: Tid, c: Choice<E>): (Shared<E>, Thread<E>)
    requires me < |s.threads|
  {
    var th := s.threads[me];
    match th
    case Idle => (s.sh, Begin(t, s, c.op))
    case Insert(_, _, _, _, _) => WriterStep(t, me, s.sh, th, c)
    case Lookup(_, _, _) => (s.sh, ReaderStep(t, s.sh, th))
    case Walk(_, _, _) => (s.sh, WalkerStep(t, s.sh, th))
  }

  ghost function Step<E(!new)>(t: Traits<E>, s: State<E>, me: Tid, c: Choice<E>): State<E>
  {
    if me < |s.threads| then
      var (sh, th) := ThreadStep(t, s, me, c);
      State(sh, s.threads[me := th])
    else s
  }

  /** The constructor: a head of full height holding an empty payload, and `n` idle threads. */
  function Init<E(!new)>(t: Traits<E>, n: nat): State<E>
  {
    State(Shared([Node(Some(0), 0, None, MAX_HEIGHT, seq(MAX_HEIGHT, i => None), t.nullEntry, 0)],
                 [Cell(FreshPayload(t), 0, 0)], [0], {0}, []),
          seq(n, i => Idle))
  }

  /** The state after a schedule: any interleaving is some sequence of (thread, choice). */
  ghost function Run<E(!new)>(t: Traits<E>, n: nat, schedule: seq<(Tid, Choice<E>)>): State<E>
  {
    if schedule == [] then Init(t, n)
    else
      var last := |schedule| - 1;
      Step(t, Run(t, n, schedule[..last]), schedule[last].0, schedule[last].1)
  }
}
