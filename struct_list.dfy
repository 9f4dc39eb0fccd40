/**
  Lists of inline-composite struct elements. An element is not decoded as a
  scalar: it is wrapped as a typed struct view by the element type itself,
  at an offset that steps by one struct size per element.
 */
module StructList {
  import opened Layout
  import opened Bridge

  datatype Reader<S> = Reader(reader: ListReader<S>) {
    /** The number of elements: one per cell of the wrapped list. */
    function Size(): (n: nat)
      ensures n == |reader.cells|
    {
      reader.Size()
    }

    /**
      The reader bridge: asks the slot for an InlineComposite list. A null
      slot reads as the default, unchanged, or as an empty list.
     */
    static function GetFromPointer(p: PointerReader<S>, default: Option<ListReader<S>>): (r: Result<Reader<S>>)
      ensures p.Null? && default.Some? ==> r == Ok(Reader(default.value))
      ensures p.Null? && default.None? ==> r.Ok? && r.value.Size() == 0 && r.value.reader.elementSize == InlineComposite
      ensures p.ListPtr? ==> (r.Ok? <==> p.target.elementSize == InlineComposite)
      ensures p.ListPtr? && r.Ok? ==> r.value.reader == p.target
      ensures p.ListPtr? && r.Fail? ==> r.fault == IncompatibleList
    {
      match GetList(p, InlineComposite, default)
      case Ok(l) => Ok(Reader(l))
      case Fail(f) => Fail(f)
    }

    /**
      Element i, wrapped by the element type: the struct view it receives
      holds the i-th cell, has the list's struct size, and starts i struct
      sizes into the list.
     */
    function Index<R, B>(i: nat, kind: StructKind<S, R, B>): (r: R)
      requires i < Size()
      ensures r == kind.fromStructReader(StructReader(i * reader.structSize.Total(), reader.structSize, reader.cells[i]))
    {
      kind.fromStructReader(GetStructElement(reader, i))
    }
  }

  /** Consecutive elements of one list are exactly one struct size apart, whichever pair. */
  lemma ElementOffsetsStep<S>(l: ListReader<S>, i: nat, j: nat)
    requires i <= j < l.Size()
    ensures GetStructElement(l, j).offset - GetStructElement(l, i).offset == (j - i) * l.structSize.Total()
    ensures GetStructElement(l, i).size == GetStructElement(l, j).size == l.structSize
  {
  }

  datatype Builder<S> = Builder(builder: ListBuilder<S>) {
    /** The number of elements: the length of the shared storage, 0 when there is none. */
    function Size(): (n: nat)
      ensures builder.cells == null ==> n == 0
      ensures builder.cells != null ==> n == builder.cells.Length
    {
      builder.Size()
    }

    /**
      Element i, wrapped by the element type: the struct view it receives
      designates the i-th cell of the list's own storage (no copy), has the
      list's struct size, and starts i struct sizes into the list.
     */
    function Index<R, B>(i: nat, kind: StructKind<S, R, B>): (r: B)
      requires i < Size()
      ensures builder.cells != null
      ensures r == kind.fromStructBuilder(StructBuilder(builder.cells, i, i * builder.structSize.Total(), builder.structSize))
    {
      kind.fromStructBuilder(GetStructElementBuilder(builder, i))
    }

    /**
      First-time allocation: a fresh InlineComposite list of `size` zeroed
      structs, each of the element type's own struct size, stored in the slot;
      re-opening the slot with the same element type yields this very builder.
     */
    static method InitPointer<R, B>(p: PointerBuilder<S>, size: nat, kind: StructKind<S, R, B>) returns (b: Builder<S>)
      requires p.Valid()
      modifies p.owner
      ensures fresh(b.builder.cells)
      ensures b.builder.elementSize == InlineComposite && b.Size() == size
      ensures b.builder.structSize == kind.structSize
      ensures b.builder.Contents() == seq(size, _ => kind.zero)
      ensures p.owner[..] == old(p.owner[..])[p.index := ListSlot(b.builder)]
      ensures GetFromPointer(p.owner[p.index], None, kind) == Ok(b)
    {
      var l := InitStructList(p, size, kind.structSize, kind.zero);
      b := Builder(l);
    }

    /**
      Re-opening: asks the slot for an InlineComposite list with room for the
      element type's struct size. A null slot opens as the default, unchanged,
      or as an empty list of that struct size.
     */
    static function GetFromPointer<R, B>(s: Slot<S>, default: Option<ListBuilder<S>>, kind: StructKind<S, R, B>): (r: Result<Builder<S>>)
      ensures s.NullSlot? && default.Some? ==> r == Ok(Builder(default.value))
      ensures s.NullSlot? && default.None? ==>
        r.Ok? && r.value.Size() == 0 && r.value.builder.elementSize == InlineComposite
        && r.value.builder.structSize == kind.structSize
      ensures s.ListSlot? ==>
        (r.Ok? <==> s.target.elementSize == InlineComposite && s.target.structSize.Covers(kind.structSize))
      ensures s.ListSlot? && r.Ok? ==> r.value.builder == s.target
      ensures s.ListSlot? && r.Fail? ==> r.fault == IncompatibleList
    {
      match GetStructListBuilder(s, kind.structSize, default)
      case Ok(l) => Ok(Builder(l))
      case Fail(f) => Fail(f)
    }
  }
}
