/**
 The packed order word (include/aparajita/node.hpp): sixteen four-bit ranks in
 one 64-bit integer. Nibble r holds slot + 1 of sorted rank r, 0 means unused.

 The bit expressions are kept on bv64; `Bits` and `Num` are the implicit
 conversions between a small C++ int and its bit pattern. `Decodes` says which
 permutation a word stands for, and everything above this module speaks of
 permutations only.
 */
module OrderWord {

  const NODE_KEYS: nat := 16
  const NODE_CAPACITY: nat := 15
  const PAD_SLOT: nat := 15

  type Word = bv64

  function Bits(n: nat): (b: Word)
    requires n <= 16
    ensures b <= 16 && (n <= 15 ==> b <= 15) && (n <= 14 ==> b <= 14)
    ensures (n == 0 ==> b == 0) && (n == 15 ==> b == 15) && (n > 0 ==> b > 0)
  {
    if n == 0 then 0 else if n == 1 then 1 else if n == 2 then 2 else if n == 3 then 3
    else if n == 4 then 4 else if n == 5 then 5 else if n == 6 then 6 else if n == 7 then 7
    else if n == 8 then 8 else if n == 9 then 9 else if n == 10 then 10 else if n == 11 then 11
    else if n == 12 then 12 else if n == 13 then 13 else if n == 14 then 14 else if n == 15 then 15
    else 16
  }

  function Num(b: Word): (n: nat)
    requires b <= 15
    ensures n <= 15
    ensures Bits(n) == b
  {
    if b == 0 then 0 else if b == 1 then 1 else if b == 2 then 2 else if b == 3 then 3
    else if b == 4 then 4 else if b == 5 then 5 else if b == 6 then 6 else if b == 7 then 7
    else if b == 8 then 8 else if b == 9 then 9 else if b == 10 then 10 else if b == 11 then 11
    else if b == 12 then 12 else if b == 13 then 13 else if b == 14 then 14 else 15
  }

  /** The four bits of rank `r`. */
  function Nibble(o: Word, r: Word): Word
    requires r <= 15
  {
    (o >> (4 * r)) & 0xF
  }

  /** Slot holding sorted rank `rank`; a zero nibble borrows and lands on PAD_SLOT. */
  function OrderSlot(order: Word, rank: nat): (slot: nat)
    requires rank < NODE_KEYS
    ensures slot <= 15
  {
    Num(((order >> (4 * Bits(rank))) - 1) & 0xF)
  }

  /** Bits needed to write `x`, four at a time; `k` bounds the nibbles left. */
  function BitWidth(x: Word, k: nat): (n: nat)
    ensures n <= 4 * k + 4
    decreases k
  {
    if x <= 15 || k == 0 then
      if x == 0 then 0 else if x == 1 then 1 else if x <= 3 then 2 else if x <= 7 then 3 else 4
    else
      4 + BitWidth(x >> 4, k - 1)
  }

  /** std::countl_zero: 64 at zero. */
  function CountlZero(x: Word): (n: nat)
    ensures n <= 64
  {
    64 - BitWidth(x, 15)
  }

  /** Number of used ranks. */
  function OrderCount(order: Word): (c: nat)
    ensures c <= 16
  {
    (67 - CountlZero(order)) / 4
  }

  function OrderInsertBits(order: Word, r: Word, v: Word): Word
    requires r <= 14
  {
    var bit := 4 * r;
    var below := if bit == 0 then 0 else order & ((1 << bit) - 1);
    var above := (order >> bit) << (bit + 4);
    below | above | (v << bit)
  }

  /** `order` with `slot` spliced in at sorted rank `rank`. */
  function OrderInsert(order: Word, rank: nat, slot: nat): Word
    requires rank <= 14 && slot <= 14
  {
    OrderInsertBits(order, Bits(rank), Bits(slot + 1))
  }

  /** Word `o` stands for permutation `p`: rank r sits in slot p[r], every unused rank is padding. */
  ghost predicate Decodes(o: Word, p: seq<nat>)
  {
    && |p| <= NODE_CAPACITY
    && (forall r :: 0 <= r < |p| ==> p[r] < PAD_SLOT)
    && (forall r :: 0 <= r < NODE_KEYS ==> OrderSlot(o, r) == if r < |p| then p[r] else PAD_SLOT)
  }

  /** The slots any word names, rank by rank. */
  function SlotsOf(o: Word): (s: seq<nat>)
    ensures |s| == OrderCount(o) && forall r :: 0 <= r < |s| ==> s[r] == OrderSlot(o, r)
  {
    seq(OrderCount(o), r requires 0 <= r < OrderCount(o) => OrderSlot(o, r))
  }

  // ---- the nibbles behind order_slot -------------------------------------

  lemma SlotOfNibble(o: Word, r: nat)
    requires r < NODE_KEYS
    ensures OrderSlot(o, r) == if Nibble(o, Bits(r)) == 0 then PAD_SLOT else Num(Nibble(o, Bits(r)) - 1)
  {
    var x := o >> (4 * Bits(r));
    assert (x & 0xF) == 0 ==> ((x - 1) & 0xF) == 15;
    assert (x & 0xF) != 0 ==> ((x - 1) & 0xF) == (x & 0xF) - 1;
  }

  lemma InsertBelow(o: Word, r: Word, j: Word, v: Word)
    requires j < r <= 14 && v <= 15
    ensures Nibble(OrderInsertBits(o, r, v), j) == Nibble(o, j)
  {
  }

  lemma InsertAt(o: Word, r: Word, v: Word)
    requires r <= 14 && v <= 15
    ensures Nibble(OrderInsertBits(o, r, v), r) == v
  {
  }

  lemma InsertAbove(o: Word, r: Word, j: Word, v: Word)
    requires r < j <= 15 && v <= 15
    ensures Nibble(OrderInsertBits(o, r, v), j) == Nibble(o, j - 1)
  {
  }

  lemma BitsStep(n: nat)
    requires n < 16
    ensures Bits(n + 1) == Bits(n) + 1
  {
  }

  lemma {:induction false} BitsMonotone(i: nat, j: nat)
    requires i < j <= 16
    ensures Bits(i) < Bits(j)
    decreases j
  {
    BitsStep(j - 1);
    if i < j - 1 {
      BitsMonotone(i, j - 1);
    }
  }


  // ---- order_count --------------------------------------------------------

  function Shifted(o: Word, r: Word): Word
    requires r <= 15
  {
    o >> (4 * r)
  }

  lemma TopShift(o: Word, j: Word)
    requires 1 <= j <= 15 && 1 <= Shifted(o, j) <= 15
    ensures o > 15 && 1 <= Shifted(o >> 4, j - 1) <= 15
  {
  }

  lemma {:induction false} WidthOfTop(o: Word, j: nat, k: nat)
    requires j <= k <= 15 && 1 <= Shifted(o, Bits(j)) <= 15
    ensures 4 * j + 1 <= BitWidth(o, k) <= 4 * j + 4
    decreases j
  {
    hide Shifted, Bits;
    if j > 0 {
      BitsStep(j - 1);
      TopShift(o, Bits(j));
      WidthOfTop(o >> 4, j - 1, k - 1);
    } else {
      ShiftedZero(o);
    }
  }

  lemma ShiftedZero(o: Word)
    ensures Shifted(o, 0) == o
  {
  }

  lemma ZeroTop(o: Word)
    ensures Shifted(o, 15) == Nibble(o, 15)
  {
  }

  lemma ZeroStep(o: Word, c: Word)
    requires c <= 14 && Shifted(o, c + 1) == 0 && Nibble(o, c) == 0
    ensures Shifted(o, c) == 0
  {
  }

  lemma TopStep(o: Word, c: Word)
    requires c <= 14 && Shifted(o, c + 1) == 0 && Nibble(o, c) != 0
    ensures 1 <= Shifted(o, c) <= 15
  {
  }

  lemma NibbleOf(o: Word, p: seq<nat>, c: nat)
    requires Decodes(o, p) && c <= 15
    ensures Nibble(o, Bits(c)) == 0 <==> |p| <= c
  {
    SlotOfNibble(o, c);
  }

  ghost predicate Dense(o: Word, c: nat)
  {
    forall r {:trigger Bits(r)} :: 0 <= r < NODE_KEYS ==> (Nibble(o, Bits(r)) == 0 <==> c <= r)
  }

  lemma DecodedIsDense(o: Word, p: seq<nat>)
    requires Decodes(o, p)
    ensures Dense(o, |p|)
  {
    hide Nibble, OrderSlot;
    forall r {:trigger Bits(r)} | 0 <= r < NODE_KEYS
      ensures Nibble(o, Bits(r)) == 0 <==> |p| <= r
    {
      NibbleOf(o, p, r);
    }
  }

  lemma {:induction false} ZeroAbove(o: Word, n: nat, c: nat)
    requires Dense(o, n) && n <= c <= 15
    ensures Shifted(o, Bits(c)) == 0
    decreases 15 - c
  {
    hide Nibble, Shifted, Bits;
    assert Nibble(o, Bits(c)) == 0;
    if c == 15 {
      ZeroTop(o);
    } else {
      ZeroAbove(o, n, c + 1);
      BitsStep(c);
      ZeroStep(o, Bits(c));
    }
  }

  lemma CountOfDense(o: Word, c: nat)
    requires c <= 15 && Dense(o, c)
    ensures OrderCount(o) == c
  {
    hide Nibble, Shifted, Bits;
    ZeroAbove(o, c, c);
    if c == 0 {
      ShiftedZero(o);
    } else {
      assert Nibble(o, Bits(c - 1)) != 0;
      BitsStep(c - 1);
      TopStep(o, Bits(c - 1));
      WidthOfTop(o, c - 1, 15);
    }
  }

  /** order_count reads the occupancy off the word alone. */
  lemma CountOfDecoded(o: Word, p: seq<nat>)
    requires Decodes(o, p)
    ensures OrderCount(o) == |p|
  {
    hide Nibble, Bits, OrderSlot;
    DecodedIsDense(o, p);
    CountOfDense(o, |p|);
  }

  lemma SlotsOfDecoded(o: Word, p: seq<nat>)
    requires Decodes(o, p)
    ensures SlotsOf(o) == p
  {
    CountOfDecoded(o, p);
    hide OrderSlot, OrderCount;
  }

  // ---- splicing -----------------------------------------------------------

  /** `p` with `slot` at rank `r`, the ranks above moved up by one. */
  function Splice<T>(p: seq<T>, r: nat, slot: T): (q: seq<T>)
    requires r <= |p|
    ensures |q| == |p| + 1
  {
    p[..r] + [slot] + p[r..]
  }

  lemma NumOfBits(n: nat)
    requires n <= 15
    ensures Num(Bits(n)) == n
  {
  }

  /** A rank's slot depends on its nibble alone. */
  lemma SameSlot(o: Word, i: nat, w: Word, j: nat)
    requires i <= 15 && j <= 15 && Nibble(o, Bits(i)) == Nibble(w, Bits(j))
    ensures OrderSlot(o, i) == OrderSlot(w, j)
  {
    hide OrderSlot, Nibble, Bits, Num;
    SlotOfNibble(o, i);
    SlotOfNibble(w, j);
  }

  lemma SlotOfBits(w: Word, j: nat, slot: nat)
    requires j <= 15 && slot <= 14 && Nibble(w, Bits(j)) == Bits(slot + 1)
    ensures OrderSlot(w, j) == slot
  {
    hide OrderSlot, Nibble;
    SlotOfNibble(w, j);
    BitsStep(slot);
    NumOfBits(slot);
  }

  lemma SlotAfterInsert(o: Word, r: nat, j: nat, slot: nat)
    requires r <= 14 && slot <= 14 && j < NODE_KEYS
    ensures j < r ==> OrderSlot(OrderInsert(o, r, slot), j) == OrderSlot(o, j)
    ensures j == r ==> OrderSlot(OrderInsert(o, r, slot), j) == slot
    ensures r < j ==> OrderSlot(OrderInsert(o, r, slot), j) == OrderSlot(o, j - 1)
  {
    hide Nibble, Bits, OrderSlot, OrderInsertBits;
    var w := OrderInsert(o, r, slot);
    if j < r {
      BitsMonotone(j, r);
      InsertBelow(o, Bits(r), Bits(j), Bits(slot + 1));
      SameSlot(w, j, o, j);
    } else if j == r {
      InsertAt(o, Bits(r), Bits(slot + 1));
      SlotOfBits(w, j, slot);
    } else {
      BitsMonotone(r, j);
      InsertAbove(o, Bits(r), Bits(j), Bits(slot + 1));
      BitsStep(j - 1);
      SameSlot(w, j, o, j - 1);
    }
  }

  /** order_insert is the splice, on the word. */
  lemma InsertDecodes(o: Word, p: seq<nat>, r: nat)
    requires Decodes(o, p) && r <= |p| < NODE_CAPACITY
    ensures Decodes(OrderInsert(o, r, |p|), Splice(p, r, |p|))
  {
    hide OrderSlot, OrderInsert;
    var q := Splice(p, r, |p|);
    forall j | 0 <= j < NODE_KEYS
      ensures OrderSlot(OrderInsert(o, r, |p|), j) == if j < |q| then q[j] else PAD_SLOT
    {
      SlotAfterInsert(o, r, j, |p|);
    }
  }

  /** The slots 0..n-1 in slot order. */
  function Identity(n: nat): (p: seq<nat>)
  {
    seq(n, i => i)
  }

  /** The word of the identity order, built one nibble at a time. */
  method OrderIdentity(n: nat) returns (o: Word)
    requires n <= NODE_CAPACITY
    ensures Decodes(o, Identity(n))
  {
    o := 0;
    var i := 0;
    EmptyDecodes();
    while i < n
      invariant 0 <= i <= n
      invariant Decodes(o, Identity(i))
    {
      OrNibble(o, i);
      o := OrBits(o, Bits(i), Bits(i + 1));
      i := i + 1;
    }
  }

  lemma EmptyDecodes()
    ensures Decodes(0, [])
    ensures Identity(0) == []
  {
    forall r | 0 <= r < NODE_KEYS
      ensures OrderSlot(0, r) == PAD_SLOT
    {
      ZeroShifted(Bits(r));
    }
  }

  lemma ZeroShifted(r: Word)
    requires r <= 15
    ensures (((0 as Word) >> (4 * r)) - 1) & 0xF == 15
  {
  }

  function OrBits(o: Word, r: Word, v: Word): Word
    requires r <= 15
  {
    o | (v << (4 * r))
  }

  lemma OrNibbles(o: Word, r: Word, j: Word, v: Word)
    requires r <= 15 && j <= 15 && v <= 15
    ensures j != r ==> Nibble(OrBits(o, r, v), j) == Nibble(o, j)
    ensures j == r && Nibble(o, j) == 0 ==> Nibble(OrBits(o, r, v), j) == v
  {
  }

  /** Writing the next nibble of a dense word is an insert at its last rank. */
  lemma OrNibble(o: Word, i: nat)
    requires i < NODE_CAPACITY && Decodes(o, Identity(i))
    ensures Decodes(OrBits(o, Bits(i), Bits(i + 1)), Identity(i + 1))
  {
    hide OrderSlot, Nibble, Bits, OrBits;
    var w := OrBits(o, Bits(i), Bits(i + 1));
    forall j | 0 <= j < NODE_KEYS
      ensures OrderSlot(w, j) == if j <= i then j else PAD_SLOT
    {
      OrNibbles(o, Bits(i), Bits(j), Bits(i + 1));
      if j == i {
        NibbleOf(o, Identity(i), i);
        SlotOfBits(w, i, i);
      } else {
        BitsMonotone(if j < i then j else i, if j < i then i else j);
        SameSlot(w, j, o, j);
      }
    }
  }

  /** One permutation, one word: nothing but the decoded ranks is in the word. */
  lemma DecodesInjective(o: Word, o': Word, p: seq<nat>)
    requires Decodes(o, p) && Decodes(o', p)
    ensures o == o'
  {
    hide OrderSlot, Shifted;
    SameNibbles(o, o', p, 0);
    ShiftedZero(o);
    ShiftedZero(o');
  }

  lemma {:induction false} SameNibbles(o: Word, o': Word, p: seq<nat>, c: nat)
    requires Decodes(o, p) && Decodes(o', p) && c <= 15
    ensures Shifted(o, Bits(c)) == Shifted(o', Bits(c))
    decreases 15 - c
  {
    hide OrderSlot, Nibble, Bits, Shifted;
    SameNibble(o, o', c);
    if c == 15 {
      ZeroTop(o);
      ZeroTop(o');
    } else {
      SameNibbles(o, o', p, c + 1);
      BitsStep(c);
      ShiftFromNibble(o, o', Bits(c));
    }
  }

  lemma SameNibble(o: Word, o': Word, c: nat)
    requires c <= 15 && OrderSlot(o, c) == OrderSlot(o', c)
    ensures Nibble(o, Bits(c)) == Nibble(o', Bits(c))
  {
    SlotOfNibble(o, c);
    SlotOfNibble(o', c);
    NumOfNibble(Nibble(o, Bits(c)));
    NumOfNibble(Nibble(o', Bits(c)));
  }

  lemma NumOfNibble(b: Word)
    requires b <= 15
    ensures b != 0 ==> Num(b - 1) < PAD_SLOT && Bits(Num(b - 1)) == b - 1
  {
  }

  lemma ShiftFromNibble(o: Word, o': Word, c: Word)
    requires c <= 14 && Shifted(o, c + 1) == Shifted(o', c + 1) && Nibble(o, c) == Nibble(o', c)
    ensures Shifted(o, c) == Shifted(o', c)
  {
  }

  // ---- permutations -------------------------------------------------------

  /** Every slot below |p| at exactly one rank. */
  ghost predicate Permutation(p: seq<nat>)
  {
    && (forall i :: 0 <= i < |p| ==> p[i] < |p|)
    && (forall i, j :: 0 <= i < j < |p| ==> p[i] != p[j])
  }

  /** Appends never leave the well-formed words: what was a permutation stays one. */
  lemma SplicePermutation(p: seq<nat>, r: nat)
    requires Permutation(p) && r <= |p|
    ensures Permutation(Splice(p, r, |p|))
  {
    var q := Splice(p, r, |p|);
    forall i, j | 0 <= i < j < |q|
      ensures q[i] != q[j]
    {
    }
  }

  ghost function SlotsBelow(n: nat): (s: set<nat>)
    ensures |s| == n
    ensures forall x :: x in s <==> 0 <= x < n
  {
    if n == 0 then {} else SlotsBelow(n - 1) + {n - 1}
  }

  ghost function Named(p: seq<nat>): (s: set<nat>)
    ensures forall x :: x in s <==> x in p
  {
    set x | x in p
  }

  /** Every slot a permutation could name is named. */
  lemma PermutationCovers(p: seq<nat>, s: nat)
    requires Permutation(p) && s < |p|
    ensures s in p
  {
    NamedSize(p);
    SubsetFull(Named(p), SlotsBelow(|p|));
  }

  lemma {:induction false} NamedSize(p: seq<nat>)
    requires forall i, j :: 0 <= i < j < |p| ==> p[i] != p[j]
    ensures |Named(p)| == |p|
    decreases |p|
  {
    if p != [] {
      NamedSize(p[1..]);
      assert Named(p) == Named(p[1..]) + {p[0]};
    }
  }

  lemma SubsetFull<T>(a: set<T>, b: set<T>)
    requires a <= b && |a| == |b|
    ensures a == b
  {
    assert b == a + (b - a);
  }

  /** A run of appends at the given ranks. */
  function Appends(p: seq<nat>, ranks: seq<nat>): seq<nat>
    decreases |ranks|
  {
    if ranks == [] then p
    else if ranks[0] <= |p| < NODE_CAPACITY then Appends(Splice(p, ranks[0], |p|), ranks[1..])
    else Appends(p, ranks[1..])
  }

  function AppendWords(o: Word, n: nat, ranks: seq<nat>): Word
    requires n <= NODE_CAPACITY
    decreases |ranks|
  {
    if ranks == [] then o
    else if ranks[0] <= n < NODE_CAPACITY then
      AppendWords(OrderInsert(o, ranks[0], n), n + 1, ranks[1..])
    else AppendWords(o, n, ranks[1..])
  }

  /** Every run of appends stays well-formed: the word is a permutation of the filled slots, padded. */
  lemma {:induction false} AppendsDecode(o: Word, p: seq<nat>, ranks: seq<nat>)
    requires Decodes(o, p) && Permutation(p)
    ensures Permutation(Appends(p, ranks))
    ensures Decodes(AppendWords(o, |p|, ranks), Appends(p, ranks))
    decreases |ranks|
  {
    hide OrderSlot, OrderInsert;
    if ranks != [] {
      if ranks[0] <= |p| < NODE_CAPACITY {
        InsertDecodes(o, p, ranks[0]);
        SplicePermutation(p, ranks[0]);
        AppendsDecode(OrderInsert(o, ranks[0], |p|), Splice(p, ranks[0], |p|), ranks[1..]);
      } else {
        AppendsDecode(o, p, ranks[1..]);
      }
    }
  }
}
