/**
  Lists of fixed-width scalars. The element type's own decoding is part of
  the layout; here an element is a cell of the abstract store.
 */
module PrimitiveList {
  import opened Layout

  datatype Reader<T> = Reader(reader: ListReader<T>) {
    /** The number of elements: one per cell of the wrapped list. */
    function Size(): (n: nat)
      ensures n == |reader.cells|
    {
      reader.Size()
    }

    /**
      The reader bridge as the source has it: it asks the slot for a list of
      Pointer encoding, whatever the element type. A null slot reads as the
      default, unchanged, or as an empty list; a stored list is accepted only
      if it is a list of pointers, so no list of scalars ever resolves.
     */
    static function GetFromPointer(p: PointerReader<T>, default: Option<ListReader<T>>): (r: Result<Reader<T>>)
      ensures p.Null? && default.Some? ==> r == Ok(Reader(default.value))
      ensures p.Null? && default.None? ==> r.Ok? && r.value.Size() == 0 && r.value.reader.elementSize == Pointer
      ensures p.ListPtr? ==> (r.Ok? <==> p.target.elementSize == Pointer)
      ensures p.ListPtr? && r.Ok? ==> r.value.reader == p.target
      ensures p.ListPtr? && r.Fail? ==> r.fault == IncompatibleList
    {
      match GetList(p, Pointer, default)
      case Ok(l) => Ok(Reader(l))
      case Fail(f) => Fail(f)
    }

    /**
      The reader bridge as evidently intended: it asks for the element type's
      own encoding `e`, so a stored list of that encoding reads as itself.
     */
    static function GetFromPointerOfEncoding(p: PointerReader<T>, e: ElementSize, default: Option<ListReader<T>>): (r: Result<Reader<T>>)
      ensures p.Null? && default.Some? ==> r == Ok(Reader(default.value))
      ensures p.Null? && default.None? ==> r.Ok? && r.value.Size() == 0 && r.value.reader.elementSize == e
      ensures p.ListPtr? ==> (r.Ok? <==> p.target.elementSize == e)
      ensures p.ListPtr? && p.target.elementSize == e ==> r == Ok(Reader(p.target))
    {
      match GetList(p, e, default)
      case Ok(l) => Ok(Reader(l))
      case Fail(f) => Fail(f)
    }

    function Index(i: nat): (r: T)
      requires i < Size()
    {
      reader.cells[i]
    }
  }

  /**
    Through the corrected bridge, a stored list of the element type's encoding
    reads as itself element by element: same size, and element i is the i-th
    stored value.
   */
  lemma ReadsStoredElements<T>(l: ListReader<T>, default: Option<ListReader<T>>, i: nat)
    requires i < l.Size()
    ensures Reader.GetFromPointerOfEncoding(ListPtr(l), l.elementSize, default).Ok?
    ensures var r := Reader.GetFromPointerOfEncoding(ListPtr(l), l.elementSize, default).value;
      r.Size() == l.Size() && r.Index(i) == l.cells[i]
  {
  }

  /** The source's reader bridge refuses every stored list of scalars. */
  lemma GetFromPointerRefusesScalarLists<T>(l: ListReader<T>, default: Option<ListReader<T>>)
    requires l.elementSize != Pointer
    ensures Reader.GetFromPointer(ListPtr(l), default) == Fail(IncompatibleList)
  {
  }

  datatype Builder<T> = Builder(builder: ListBuilder<T>) {
    /** The number of elements: the length of the shared storage, 0 when there is none. */
    function Size(): (n: nat)
      ensures builder.cells == null ==> n == 0
      ensures builder.cells != null ==> n == builder.cells.Length
    {
      builder.Size()
    }

    function Index(i: nat): (r: T)
      requires i < Size()
      reads builder.cells
    {
      builder.cells[i]
    }

    /** Writes `value` at element i of the shared list; nothing else changes. */
    method Set(i: nat, value: T)
      requires i < Size()
      modifies builder.cells
      ensures builder.Contents() == old(builder.Contents())[i := value]
      ensures Index(i) == value
      ensures forall j :: 0 <= j < Size() && j != i ==> Index(j) == old(Index(j))
    {
      builder.cells[i] := value;
    }

    /**
      Applies the `(index, value)` writes in order, one `Set` each. The
      contents become `AfterSets` of the old contents, so every element holds
      the last value written to it, or its old value if none was.
     */
    method SetAll(writes: seq<(nat, T)>)
      requires forall k :: 0 <= k < |writes| ==> writes[k].0 < Size()
      modifies builder.cells
      ensures |old(builder.Contents())| == Size() && builder.Contents() == AfterSets(old(builder.Contents()), writes)
      ensures forall i :: 0 <= i < Size() ==> Index(i) == LastWrite(writes, i, old(Index(i)))
    {
      ghost var original := builder.Contents();
      var k := 0;
      while k < |writes|
        invariant 0 <= k <= |writes|
        invariant builder.Contents() == AfterSets(original, writes[..k])
      {
        Set(writes[k].0, writes[k].1);
        assert writes[..k + 1][..k] == writes[..k];
        k := k + 1;
      }
      assert writes[..k] == writes;
      forall i | 0 <= i < Size()
        ensures Index(i) == LastWrite(writes, i, original[i])
      {
        AfterSetsLastWriteWins(original, writes, i);
      }
    }

    /** First-time allocation through the bridge is a stub: it always fails and writes nothing. */
    static method InitPointer(p: PointerBuilder<T>, size: nat) returns (r: Result<Builder<T>>)
      ensures r == Fail(Unimplemented)
    {
      r := Fail(Unimplemented);
    }

    /** Re-opening through the bridge is a stub too: it always fails. */
    static function GetFromPointer(s: Slot<T>, default: Option<ListBuilder<T>>): (r: Result<Builder<T>>)
      ensures r.Fail? && r.fault == Unimplemented
    {
      Fail(Unimplemented)
    }
  }

  /**
    Reading a builder whose contents are `AfterSets(original, writes)`, as
    `SetAll` leaves them: element i is the last value set there, or what it
    held before.
   */
  lemma IndexAfterSets<T>(b: Builder<T>, original: seq<T>, writes: seq<(nat, T)>, i: nat)
    requires |original| == b.Size()
    requires forall k :: 0 <= k < |writes| ==> writes[k].0 < |original|
    requires b.builder.Contents() == AfterSets(original, writes)
    requires i < b.Size()
    ensures b.Index(i) == LastWrite(writes, i, original[i])
  {
    AfterSetsLastWriteWins(original, writes, i);
  }
}
