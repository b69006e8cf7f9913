/**
 The bump allocator of include/aparajita/arena.hpp. What the system's aligned operator
 new returns is an input: some 64-byte aligned range no live chunk overlaps.
 */
module Arenas {

  const CHUNK_SIZE: nat := 64 * 1024
  const CHUNK_ALIGN: nat := 64

  datatype Chunk = Chunk(base: nat, size: nat)

  /** A block handed out: where it starts, how much was reserved, the alignment asked for. */
  datatype Block = Block(start: nat, len: nat, align: nat)

  /** One call: bytes and alignment, and where a new chunk will lie should one be needed. */
  datatype Request = Request(bytes: nat, align: nat, chunkAt: nat)

  /** The arena's fields; `blocks` records what has been handed out. */
  datatype ArenaState = ArenaState(chunks: seq<Chunk>, offset: nat, used: nat, blocks: seq<Block>)
  {
    function Cur(): nat
    {
      if chunks == [] then 0 else chunks[|chunks| - 1].base
    }

    function Limit(): nat
    {
      if chunks == [] then 0 else chunks[|chunks| - 1].size
    }
  }

  predicate PowerOfTwo(a: nat)
  {
    a == 1 || a == 2 || a == 4 || a == 8 || a == 16 || a == 32 || a == 64
  }

  /** Quotient and remainder are unique. */
  lemma RemainderIs(x: nat, a: nat, q: nat, r: nat)
    requires a > 0 && x == a * q + r && r < a
    ensures x % a == r
  {
    var d := q - x / a;
    assert x == a * (x / a) + x % a;
    assert a * d == a * q - a * (x / a);
    AtLeastOne(a, d);
  }

  lemma AtLeastOne(a: int, d: int)
    requires a > 0
    ensures d >= 1 ==> a * d >= a
    ensures d <= -1 ==> a * d <= -a
  {
    if d >= 1 { assert a * d == a * (d - 1) + a; }
    if d <= -1 { assert a * d == a * (d + 1) - a; }
  }

  /** A whole number of alignments, with its quotient. */
  predicate Aligned(x: nat, align: nat)
  {
    align > 0 && x % align == 0
  }

  lemma Multiple(x: nat, align: nat, q: nat)
    requires align > 0 && x == align * q
    ensures Aligned(x, align)
  {
    RemainderIs(x, align, q, 0);
  }

  /** (bytes + align - 1) & ~(align - 1): masking with align - 1, a power of two less one, takes the remainder. */
  function RoundUp(bytes: nat, align: nat): (need: nat)
    requires PowerOfTwo(align)
    ensures bytes <= need < bytes + align && Aligned(need, align)
  {
    var up := bytes + align - 1;
    Multiple(up - up % align, align, up / align);
    up - up % align
  }

  lemma PadAligns(offset: nat, align: nat)
    requires align > 0
    ensures Aligned(offset + (align - offset % align) % align, align)
  {
    var q, r := offset / align, offset % align;
    assert offset == align * q + r;
    if r == 0 {
      RemainderIs(align, align, 1, 0);
    } else {
      RemainderIs(align - r, align, 0, align - r);
      assert align * (q + 1) == align * q + align;
      Multiple(offset + (align - r), align, q + 1);
    }
  }

  /** (align - (offset & (align - 1))) & (align - 1). */
  function Pad(offset: nat, align: nat): (pad: nat)
    requires PowerOfTwo(align)
    ensures pad < align && Aligned(offset + pad, align)
  {
    PadAligns(offset, align);
    (align - offset % align) % align
  }

  function ChunkFor(need: nat): (size: nat)
  {
    if need > CHUNK_SIZE then need else CHUNK_SIZE
  }

  predicate NeedsChunk(a: ArenaState, r: Request)
    requires PowerOfTwo(r.align)
  {
    a.offset + Pad(a.offset, r.align) + RoundUp(r.bytes, r.align) > a.Limit()
  }

  /** One allocate call. */
  function Allocated(a: ArenaState, r: Request): ArenaState
    requires PowerOfTwo(r.align)
  {
    var need, pad := RoundUp(r.bytes, r.align), Pad(a.offset, r.align);
    if NeedsChunk(a, r)
    then ArenaState(a.chunks + [Chunk(r.chunkAt, ChunkFor(need))], need, a.used + need, a.blocks + [Block(r.chunkAt, need, r.align)])
    else ArenaState(a.chunks, a.offset + pad + need, a.used + need, a.blocks + [Block(a.Cur() + (a.offset + pad), need, r.align)])
  }

  predicate Apart(s: nat, m: nat, u: nat, n: nat)
  {
    s + m <= u || u + n <= s
  }

  /** The system allocator's promise: aligned, and disjoint from every chunk still held. */
  predicate Granted(a: ArenaState, r: Request)
  {
    && PowerOfTwo(r.align) && r.chunkAt % CHUNK_ALIGN == 0
    && forall c :: c in a.chunks ==> Apart(r.chunkAt, ChunkFor(RoundUp(r.bytes, r.align)), c.base, c.size)
  }

  ghost predicate AllGranted(a: ArenaState, rs: seq<Request>)
    decreases |rs|
  {
    rs != [] ==> Granted(a, rs[0]) && AllGranted(Allocated(a, rs[0]), rs[1..])
  }

  function AllocatedAll(a: ArenaState, rs: seq<Request>): ArenaState
    requires AllGranted(a, rs)
    decreases |rs|
  {
    if rs == [] then a else AllocatedAll(Allocated(a, rs[0]), rs[1..])
  }

  function Reserved(blocks: seq<Block>): nat
  {
    if blocks == [] then 0 else Reserved(blocks[..|blocks| - 1]) + blocks[|blocks| - 1].len
  }

  predicate Within(b: Block, c: Chunk)
  {
    c.base <= b.start && b.start + b.len <= c.base + c.size
  }

  /** A block is aligned, lies in a chunk, and in the current one only below the bump offset. */
  ghost predicate Placed(a: ArenaState, b: Block)
  {
    && Aligned(b.start, b.align)
    && (b.len > 0 ==> exists i :: 0 <= i < |a.chunks| && Within(b, a.chunks[i])
                                   && (i == |a.chunks| - 1 ==> b.start + b.len <= a.Cur() + a.offset))
  }

  ghost predicate Sound(a: ArenaState)
  {
    && a.offset <= a.Limit()
    && (forall c :: c in a.chunks ==> c.base % CHUNK_ALIGN == 0)
    && (forall i, j :: 0 <= i < j < |a.chunks| ==> Apart(a.chunks[i].base, a.chunks[i].size, a.chunks[j].base, a.chunks[j].size))
    && (forall b :: b in a.blocks ==> Placed(a, b))
    && (forall i, j :: 0 <= i < j < |a.blocks| && a.blocks[i].len > 0 && a.blocks[j].len > 0 ==>
          Apart(a.blocks[i].start, a.blocks[i].len, a.blocks[j].start, a.blocks[j].len))
    && a.used == Reserved(a.blocks)
  }

  lemma AlignedSum(base: nat, off: nat, align: nat)
    requires PowerOfTwo(align) && base % CHUNK_ALIGN == 0 && Aligned(off, align)
    ensures Aligned(base + off, align)
  {
    var c := ChunkOver(align);
    var m, j := base / 64, off / align;
    assert base == 64 * m && off == align * j;
    assert (align * c) * m == align * (c * m);
    assert align * (c * m) + align * j == align * (c * m + j);
    Multiple(base + off, align, c * m + j);
  }

  function ChunkOver(align: nat): (c: nat)
    requires PowerOfTwo(align)
    ensures align * c == CHUNK_ALIGN
  {
    if align == 1 then 64 else if align == 2 then 32 else if align == 4 then 16
    else if align == 8 then 8 else if align == 16 then 4 else if align == 32 then 2 else 1
  }

  /** Inside a chunk an address is aligned exactly when its offset is: chunks start at whole multiples of every alignment. */
  lemma AlignedOffset(base: nat, off: nat, align: nat)
    requires PowerOfTwo(align) && base % CHUNK_ALIGN == 0 && Aligned(base + off, align)
    ensures Aligned(off, align)
  {
    var c := ChunkOver(align);
    var m, q := base / 64, (base + off) / align;
    assert base == 64 * m && base + off == align * q;
    assert (align * c) * m == align * (c * m);
    assert align * q - align * (c * m) == align * (q - c * m);
    AtLeastOne(align, q - c * m);
    Multiple(off, align, q - c * m);
  }

  /** No aligned offset at or above the bump offset comes before the padded one. */
  lemma PadLeast(offset: nat, align: nat, o: nat)
    requires PowerOfTwo(align) && offset <= o && Aligned(o, align)
    ensures offset + Pad(offset, align) <= o
  {
    var s := offset + Pad(offset, align);
    assert s == align * (s / align) && o == align * (o / align);
    assert s - o == align * (s / align - o / align);
    AtLeastOne(align, s / align - o / align);
  }

  /** An aligned place in the current chunk, at or above the bump offset, that holds `need` bytes. */
  predicate HasRoom(a: ArenaState, p: nat, need: nat, align: nat)
  {
    a.Cur() + a.offset <= p && Aligned(p, align) && p + need <= a.Cur() + a.Limit()
  }

  lemma RoomAbovePad(a: ArenaState, r: Request, p: nat)
    requires Sound(a) && PowerOfTwo(r.align) && HasRoom(a, p, RoundUp(r.bytes, r.align), r.align)
    ensures a.Cur() + a.offset + Pad(a.offset, r.align) <= p && !NeedsChunk(a, r)
  {
    hide RoundUp, Pad;
    if a.chunks != [] { assert a.chunks[|a.chunks| - 1] in a.chunks; }
    AlignedOffset(a.Cur(), p - a.Cur(), r.align);
    PadLeast(a.offset, r.align, p - a.Cur());
  }

  /**
   Where a call puts its block. While an aligned place at or above the bump offset holds the
   rounded size inside the current chunk, no chunk is opened and the block starts at the
   least such place; otherwise one chunk is added, as large as the block or 64 KiB, and the
   block starts at its base.
   */
  ghost predicate Bumps(a: ArenaState, r: Request, a': ArenaState, p: nat)
    requires PowerOfTwo(r.align)
  {
    var need := RoundUp(r.bytes, r.align);
    && a'.blocks == a.blocks + [Block(p, need, r.align)] && a'.Cur() + a'.offset == p + need
    && if exists q :: HasRoom(a, q, need, r.align) then
         a'.chunks == a.chunks && HasRoom(a, p, need, r.align) && forall q :: HasRoom(a, q, need, r.align) ==> p <= q
       else
         a'.chunks == a.chunks + [Chunk(r.chunkAt, if need > 65536 then need else 65536)] && p == r.chunkAt
  }

  lemma AllocatedBumps(a: ArenaState, r: Request)
    requires Sound(a) && Granted(a, r)
    ensures Bumps(a, r, Allocated(a, r), Allocated(a, r).blocks[|a.blocks|].start)
  {
    hide RoundUp, Pad;
    var a' := Allocated(a, r);
    var p, need := a'.blocks[|a.blocks|].start, RoundUp(r.bytes, r.align);
    if a.chunks != [] { assert a.chunks[|a.chunks| - 1] in a.chunks; }
    if !NeedsChunk(a, r) {
      AlignedSum(a.Cur(), a.offset + Pad(a.offset, r.align), r.align);
      assert HasRoom(a, p, need, r.align);
      forall q | HasRoom(a, q, need, r.align)
        ensures p <= q
      {
        RoomAbovePad(a, r, q);
      }
    } else if q :| HasRoom(a, q, need, r.align) {
      RoomAbovePad(a, r, q);
      assert false;
    }
  }

  /** What was placed stays placed, and is apart from the new block. */
  lemma StaysPlaced(a: ArenaState, r: Request, b: Block)
    requires Sound(a) && Granted(a, r) && b in a.blocks
    ensures Placed(Allocated(a, r), b)
    ensures var n := Allocated(a, r).blocks[|a.blocks|]; b.len > 0 && n.len > 0 ==> Apart(b.start, b.len, n.start, n.len)
  {
    hide RoundUp, Pad;
    var a' := Allocated(a, r);
    assert Placed(a, b);
    if b.len > 0 {
      var i :| 0 <= i < |a.chunks| && Within(b, a.chunks[i]) && (i == |a.chunks| - 1 ==> b.start + b.len <= a.Cur() + a.offset);
      assert a'.chunks[i] == a.chunks[i];
      assert a.chunks[i] in a.chunks;
      if !NeedsChunk(a, r) && i < |a.chunks| - 1 {
        assert Apart(a.chunks[i].base, a.chunks[i].size, a.chunks[|a.chunks| - 1].base, a.chunks[|a.chunks| - 1].size);
      }
    }
  }

  lemma NewPlaced(a: ArenaState, r: Request)
    requires Sound(a) && Granted(a, r)
    ensures Placed(Allocated(a, r), Allocated(a, r).blocks[|a.blocks|]) && Allocated(a, r).offset <= Allocated(a, r).Limit()
  {
    hide RoundUp, Pad;
    var a', n := Allocated(a, r), |Allocated(a, r).chunks| - 1;
    if NeedsChunk(a, r) {
      AlignedSum(r.chunkAt, 0, r.align);
    } else {
      if a.chunks != [] { assert a.chunks[n] in a.chunks; }
      AlignedSum(a.Cur(), a.offset + Pad(a.offset, r.align), r.align);
    }
    assert a'.blocks[|a.blocks|].len > 0 ==> Within(a'.blocks[|a.blocks|], a'.chunks[n]);
  }

  lemma ChunksStayApart(a: ArenaState, r: Request)
    requires Sound(a) && Granted(a, r)
    ensures var a' := Allocated(a, r);
      && (forall c :: c in a'.chunks ==> c.base % CHUNK_ALIGN == 0)
      && (forall i, j :: 0 <= i < j < |a'.chunks| ==>
            Apart(a'.chunks[i].base, a'.chunks[i].size, a'.chunks[j].base, a'.chunks[j].size))
  {
    hide RoundUp, Pad, Placed, Reserved;
    forall c | c in a.chunks
      ensures Apart(c.base, c.size, r.chunkAt, ChunkFor(RoundUp(r.bytes, r.align)))
    {
    }
  }

  lemma BlocksStayPlaced(a: ArenaState, r: Request)
    requires Sound(a) && Granted(a, r)
    ensures forall b :: b in Allocated(a, r).blocks ==> Placed(Allocated(a, r), b)
  {
    NewPlaced(a, r);
    hide RoundUp, Pad, Placed, Apart, Granted;
    forall b | b in a.blocks
      ensures Placed(Allocated(a, r), b)
    {
      StaysPlaced(a, r, b);
    }
  }

  lemma BlocksStayApart(a: ArenaState, r: Request, i: nat, j: nat)
    requires Sound(a) && Granted(a, r) && i < j < |Allocated(a, r).blocks|
    requires Allocated(a, r).blocks[i].len > 0 && Allocated(a, r).blocks[j].len > 0
    ensures var bs := Allocated(a, r).blocks; Apart(bs[i].start, bs[i].len, bs[j].start, bs[j].len)
  {
    hide RoundUp, Pad, Placed, Apart, Granted;
    StaysPlaced(a, r, a.blocks[i]);
  }

  /** One call keeps every block aligned, inside its chunk, and apart from all others. */
  lemma AllocatedSound(a: ArenaState, r: Request)
    requires Sound(a) && Granted(a, r)
    ensures Sound(Allocated(a, r))
  {
    var a' := Allocated(a, r);
    assert a'.used == Reserved(a'.blocks) by { assert a'.blocks[..|a.blocks|] == a.blocks; }
    hide RoundUp, Pad, Placed, Apart, Granted, Reserved, Allocated;
    NewPlaced(a, r);
    ChunksStayApart(a, r);
    BlocksStayPlaced(a, r);
    forall i, j | 0 <= i < j < |a'.blocks| && a'.blocks[i].len > 0 && a'.blocks[j].len > 0
      ensures Apart(a'.blocks[i].start, a'.blocks[i].len, a'.blocks[j].start, a'.blocks[j].len)
    {
      BlocksStayApart(a, r, i, j);
    }
  }

  /**
   Over every sequence of calls: blocks are aligned, lie inside a chunk and are pairwise
   disjoint, and the usage counter is the sum of the rounded sizes.
   */
  lemma {:induction false} ArenaSound(a: ArenaState, rs: seq<Request>)
    requires Sound(a) && AllGranted(a, rs)
    ensures Sound(AllocatedAll(a, rs))
    ensures |AllocatedAll(a, rs).blocks| == |a.blocks| + |rs|
    ensures forall k :: 0 <= k < |rs| ==>
      var b := AllocatedAll(a, rs).blocks[|a.blocks| + k];
      PowerOfTwo(rs[k].align) && b.align == rs[k].align && b.len == RoundUp(rs[k].bytes, rs[k].align)
    decreases |rs|
  {
    hide Sound;
    if rs != [] {
      AllocatedSound(a, rs[0]);
      BlocksGrow(Allocated(a, rs[0]), rs[1..]);
      ArenaSound(Allocated(a, rs[0]), rs[1..]);
    }
  }

  lemma {:induction false} BlocksGrow(a: ArenaState, rs: seq<Request>)
    requires AllGranted(a, rs)
    ensures a.blocks <= AllocatedAll(a, rs).blocks
    decreases |rs|
  {
    if rs != [] { BlocksGrow(Allocated(a, rs[0]), rs[1..]); }
  }

  const EMPTY_ARENA := ArenaState([], 0, 0, [])

  /** A new arena is sound, so ArenaSound speaks of every arena's whole life. */
  lemma EmptySound()
    ensures Sound(EMPTY_ARENA)
  {
  }

  // ---- the arena itself --------------------------------------------------------------------------

  class Arena {
    var chunks: seq<Chunk>
    var cur: nat
    var offset: nat
    var limit: nat
    var used: nat
    ghost var blocks: seq<Block>

    ghost function State(): ArenaState
      reads this
    {
      ArenaState(chunks, offset, used, blocks)
    }

    ghost predicate Valid()
      reads this
    {
      Sound(State()) && cur == State().Cur() && limit == State().Limit()
    }

    constructor ()
      ensures Valid() && State() == EMPTY_ARENA
    {
      chunks, cur, offset, limit, used, blocks := [], 0, 0, 0, 0, [];
      new;
      EmptySound();
    }

    method NewChunk(size: nat, at: nat)
      modifies `chunks, `cur, `offset, `limit
      ensures chunks == old(chunks) + [Chunk(at, size)] && cur == at && offset == 0 && limit == size
    {
      chunks := chunks + [Chunk(at, size)];
      cur, offset, limit := at, 0, size;
    }

    /** allocate: round up, pad to the alignment, open a chunk when the current one is too short, bump. */
    method Allocate(bytes: nat, align: nat, chunkAt: nat) returns (p: nat)
      requires Valid() && Granted(State(), Request(bytes, align, chunkAt))
      modifies this
      ensures Valid() && State() == Allocated(old(State()), Request(bytes, align, chunkAt))
      ensures Aligned(p, align) && State().blocks[|old(blocks)|].start == p && State().blocks[|old(blocks)|].len >= bytes
      ensures Bumps(old(State()), Request(bytes, align, chunkAt), State(), p)
      ensures used == old(used) + RoundUp(bytes, align)
    {
      hide Sound, RoundUp, Pad, Bumps;
      AllocatedBumps(State(), Request(bytes, align, chunkAt));
      AllocatedSound(State(), Request(bytes, align, chunkAt));
      ghost var after := Allocated(State(), Request(bytes, align, chunkAt));
      NewPlaced(State(), Request(bytes, align, chunkAt));
      var need := RoundUp(bytes, align);
      var pad := Pad(offset, align);
      if offset + pad + need > limit {
        NewChunk(ChunkFor(need), chunkAt);
      } else {
        offset := offset + pad;
      }
      p := cur + offset;
      offset := offset + need;
      used := used + need;
      blocks := blocks + [Block(p, need, align)];
      assert State() == after;
    }

    method MemoryUsage() returns (n: nat)
      requires Valid()
      ensures n == Reserved(blocks)
    {
      n := used;
    }
  }
}
