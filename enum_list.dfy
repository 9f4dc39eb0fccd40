/**
  Lists of enumerators, stored as 16-bit codes. Reading decodes a code into
  `Some` enumerator, or `None` when the code names no enumerator (a newer
  schema's value); writing stores the enumerator's code.
 */
module EnumList {
  import opened Layout
  import opened Bridge

  datatype Reader = Reader(reader: ListReader<bv16>) {
    /** The number of elements: one per stored code. */
    function Size(): (n: nat)
      ensures n == |reader.cells|
    {
      reader.Size()
    }

    /**
      The reader bridge: asks the slot for a TwoBytes list. A null slot reads
      as the default, unchanged, or as an empty list.
     */
    static function GetFromPointer(p: PointerReader<bv16>, default: Option<ListReader<bv16>>): (r: Result<Reader>)
      ensures p.Null? && default.Some? ==> r == Ok(Reader(default.value))
      ensures p.Null? && default.None? ==> r.Ok? && r.value.Size() == 0 && r.value.reader.elementSize == TwoBytes
      ensures p.ListPtr? ==> (r.Ok? <==> p.target.elementSize == TwoBytes)
      ensures p.ListPtr? && r.Ok? ==> r.value.reader == p.target
      ensures p.ListPtr? && r.Fail? ==> r.fault == IncompatibleList
    {
      match GetList(p, TwoBytes, default)
      case Ok(l) => Ok(Reader(l))
      case Fail(f) => Fail(f)
    }

    function Index<E>(i: nat, codec: EnumCodec<E>): (r: Option<E>)
      requires i < Size()
    {
      codec.fromU16(reader.cells[i])
    }
  }

  /**
    Reading element i never faults: it is `Some(e)` exactly for the
    enumerator e whose code is stored there, and `None` exactly when no
    enumerator has that code.
   */
  lemma ReaderIndexDecodes<E(!new)>(r: Reader, i: nat, codec: EnumCodec<E>)
    requires i < r.Size()
    requires Lawful(codec)
    ensures forall e :: r.Index(i, codec) == Some(e) <==> codec.toU16(e) == r.reader.cells[i]
    ensures r.Index(i, codec) == None <==> forall e :: codec.toU16(e) != r.reader.cells[i]
  {
  }

  datatype Builder = Builder(builder: ListBuilder<bv16>) {
    /** The number of elements: the length of the shared storage, 0 when there is none. */
    function Size(): (n: nat)
      ensures builder.cells == null ==> n == 0
      ensures builder.cells != null ==> n == builder.cells.Length
    {
      builder.Size()
    }

    function Index<E>(i: nat, codec: EnumCodec<E>): (r: Option<E>)
      requires i < Size()
      reads builder.cells
    {
      codec.fromU16(builder.cells[i])
    }

    /**
      Stores the code of `value` at element i of the shared list; nothing else
      changes. Reading i back decodes that code.
     */
    method Set<E>(i: nat, value: E, codec: EnumCodec<E>)
      requires i < Size()
      modifies builder.cells
      ensures builder.Contents() == old(builder.Contents())[i := codec.toU16(value)]
      ensures Index(i, codec) == codec.fromU16(codec.toU16(value))
      ensures forall j :: 0 <= j < Size() && j != i ==> builder.cells[j] == old(builder.cells[j])
    {
      builder.cells[i] := codec.toU16(value);
    }

    /**
      First-time allocation: a fresh TwoBytes list of `size` zero codes,
      stored in the slot, which re-opens as this very builder.
     */
    static method InitPointer(p: PointerBuilder<bv16>, size: nat) returns (b: Builder)
      requires p.Valid()
      modifies p.owner
      ensures fresh(b.builder.cells)
      ensures b.builder.elementSize == TwoBytes && b.Size() == size
      ensures b.builder.Contents() == seq(size, _ => 0)
      ensures p.owner[..] == old(p.owner[..])[p.index := ListSlot(b.builder)]
      ensures GetFromPointer(p.owner[p.index], None) == Ok(b)
    {
      var l := InitList(p, TwoBytes, size, 0);
      b := Builder(l);
    }

    /**
      Re-opening: asks the slot for a TwoBytes list. A null slot opens as the
      default, unchanged, or as an empty list without storage.
     */
    static function GetFromPointer(s: Slot<bv16>, default: Option<ListBuilder<bv16>>): (r: Result<Builder>)
      ensures s.NullSlot? && default.Some? ==> r == Ok(Builder(default.value))
      ensures s.NullSlot? && default.None? ==> r.Ok? && r.value.Size() == 0 && r.value.builder.elementSize == TwoBytes
      ensures s.ListSlot? ==> (r.Ok? <==> s.target.elementSize == TwoBytes)
      ensures s.ListSlot? && r.Ok? ==> r.value.builder == s.target
      ensures s.ListSlot? && r.Fail? ==> r.fault == IncompatibleList
    {
      match GetListBuilder(s, TwoBytes, default)
      case Ok(l) => Ok(Builder(l))
      case Fail(f) => Fail(f)
    }
  }

  /** A builder decodes element i like a reader: the enumerator of the stored code, or `None`. */
  lemma BuilderIndexDecodes<E(!new)>(b: Builder, i: nat, codec: EnumCodec<E>)
    requires i < b.Size()
    requires Lawful(codec)
    ensures forall e :: b.Index(i, codec) == Some(e) <==> codec.toU16(e) == b.builder.cells[i]
    ensures b.Index(i, codec) == None <==> forall e :: codec.toU16(e) != b.builder.cells[i]
  {
  }
}
