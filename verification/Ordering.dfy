/**
 The policy a memtable is built over (include/aparajita/memtable.hpp, lines
 49-76): an authoritative comparator on entries, the bytes that feed prefix and
 surrogate, and the optional promises about how the two agree. No comparator is
 fixed; StandaloneTraits at the end is one instance.
 */
module Ordering {
  import opened Surrogate

  datatype Traits<!E(!new)> = Traits(
    compare: (E, E) -> int,
    orderBytes: E -> Bytes,
    nullEntry: E,
    hintOrdering: bool)
  {
    predicate Lt(a: E, b: E)
    {
      compare(a, b) < 0
    }

    function Hint(e: E): uint64
    {
      DescentHint(orderBytes(e))
    }

    /** A name for "a, b and c are being compared", so that the order axiom is only used where asked for. */
    ghost predicate Triple(a: E, b: E, c: E)
    {
      true
    }

    /** compare is a total preorder: antisymmetric in sign, and no element fits strictly outside every gap. */
    ghost predicate TotalOrder()
    {
      && (forall a, b :: compare(a, b) < 0 <==> compare(b, a) > 0)
      && (forall a, b, c {:trigger Triple(a, b, c)} :: Lt(a, c) ==> Lt(a, b) || Lt(b, c))
    }

    /** What hint_ordering() asserts: differing hints decide as the comparator does. */
    ghost predicate HintPromise()
    {
      hintOrdering ==> forall a, b {:trigger Hint(a), Hint(b)} :: Hint(a) < Hint(b) ==> Lt(a, b)
    }

    /** Bytewise-smaller order bytes compare smaller. */
    ghost predicate Bytewise()
    {
      forall a, b {:trigger orderBytes(a), orderBytes(b)} :: CompareKeys(orderBytes(a), orderBytes(b)) < 0 ==> Lt(a, b)
    }

    /** The order facts about three entries. */
    lemma Order3(a: E, b: E, c: E)
      requires TotalOrder()
      ensures Lt(a, b) && !Lt(c, b) ==> Lt(a, c)
      ensures !Lt(b, a) && Lt(b, c) ==> Lt(a, c)
      ensures !Lt(b, a) && !Lt(c, b) ==> !Lt(c, a)
      ensures Lt(a, b) ==> !Lt(b, a)
      ensures Lt(b, c) ==> !Lt(c, b)
    {
      assert Triple(a, c, b) && Triple(b, a, c) && Triple(c, b, a);
    }

    /** A comparator compatible with byte order never contradicts it. */
    lemma BytesFollow(a: E, b: E)
      requires TotalOrder() && Bytewise() && !Lt(b, a)
      ensures CompareKeys(orderBytes(a), orderBytes(b)) <= 0
    {
      CompareKeysTotal(orderBytes(b), orderBytes(a), orderBytes(a));
    }

    /** A bytewise-compatible comparator keeps the hint promise. */
    lemma BytewiseKeepsHints()
      requires Bytewise()
      ensures HintPromise()
    {
      forall a, b {:trigger Hint(a), Hint(b)} | Hint(a) < Hint(b)
        ensures Lt(a, b)
      {
        HintOrder(orderBytes(a), orderBytes(b));
      }
    }

    /** A non-greater entry has a non-greater hint, when the promise is made. */
    lemma HintFollows(a: E, b: E)
      requires TotalOrder() && HintPromise() && hintOrdering && !Lt(b, a)
      ensures Hint(a) <= Hint(b)
    {
    }
  }

  /** StringViewTraits: keys are their own order bytes, compared by compare_keys. */
  function StandaloneTraits(): Traits<Bytes>
  {
    Traits((a, b) => CompareKeys(a, b), e => e, [], true)
  }

  /** The standalone memtable's policy meets every promise, so every result here applies to it. */
  lemma StandaloneKeepsPromises()
    ensures StandaloneTraits().TotalOrder()
    ensures StandaloneTraits().Bytewise() && StandaloneTraits().HintPromise()
    ensures forall a: Bytes, b: Bytes :: StandaloneTraits().compare(a, b) == 0 <==> a == b
  {
    var t := StandaloneTraits();
    forall a: Bytes, b: Bytes
      ensures t.compare(a, b) < 0 <==> t.compare(b, a) > 0
      ensures t.compare(a, b) == 0 <==> a == b
    {
      CompareKeysTotal(a, b, b);
    }
    forall a: Bytes, b: Bytes, c: Bytes
      ensures t.Lt(a, c) ==> t.Lt(a, b) || t.Lt(b, c)
    {
      CompareKeysTotal(c, b, a);
      CompareKeysTotal(a, b, c);
      CompareKeysTotal(b, c, a);
    }
    t.BytewiseKeepsHints();
  }
}
