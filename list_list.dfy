/**
  Lists whose elements are pointers, each resolved on access through the
  element type's own reader or builder bridge; nesting a list-of-lists in a
  list-of-lists is this recursion one level deeper.
 */
module ListList {
  import opened Layout
  import opened Bridge
  import EnumList

  datatype Reader<C> = Reader(reader: ListReader<PointerReader<C>>) {
    /** The number of elements: one per cell of the wrapped list. */
    function Size(): (n: nat)
      ensures n == |reader.cells|
    {
      reader.Size()
    }

    /**
      The reader bridge: asks the slot for a Pointer list. A null slot reads
      as the default, unchanged, or as an empty list.
     */
    static function GetFromPointer(p: PointerReader<PointerReader<C>>, default: Option<ListReader<PointerReader<C>>>): (r: Result<Reader<C>>)
      ensures p.Null? && default.Some? ==> r == Ok(Reader(default.value))
      ensures p.Null? && default.None? ==> r.Ok? && r.value.Size() == 0 && r.value.reader.elementSize == Pointer
      ensures p.ListPtr? ==> (r.Ok? <==> p.target.elementSize == Pointer)
      ensures p.ListPtr? && r.Ok? ==> r.value.reader == p.target
      ensures p.ListPtr? && r.Fail? ==> r.fault == IncompatibleList
    {
      match GetList(p, Pointer, default)
      case Ok(l) => Ok(Reader(l))
      case Fail(f) => Fail(f)
    }

    /**
      Element i, checked here rather than left to the layout: an index past
      the end faults; otherwise the i-th pointer is resolved by the element
      type's bridge with no default, so a null element reads as that type's
      empty view.
     */
    function Index<T>(i: nat, element: ReaderBridge<C, T>): (r: Result<T>)
      ensures i >= Size() ==> r == Fail(IndexOutOfRange)
      ensures i < Size() ==> r == element(reader.cells[i], None)
    {
      if i < Size() then element(reader.cells[i], None) else Fail(IndexOutOfRange)
    }
  }

  datatype Builder<C> = Builder(builder: ListBuilder<Slot<C>>) {
    /** The number of elements: the length of the shared storage, 0 when there is none. */
    function Size(): (n: nat)
      ensures builder.cells == null ==> n == 0
      ensures builder.cells != null ==> n == builder.cells.Length
    {
      builder.Size()
    }

    /**
      Element i: the i-th pointer of the list's own storage, resolved by the
      element type's builder bridge with no default. There is no bounds check
      at this layer.
     */
    function Index<T>(i: nat, element: BuilderBridge<C, T>): (r: Result<T>)
      requires i < Size()
      reads builder.cells
    {
      element(builder.cells[i], None)
    }

    /**
      First-time allocation: a fresh Pointer list of `size` null pointers,
      stored in the slot, which re-opens as this very builder.
     */
    static method InitPointer(p: PointerBuilder<Slot<C>>, size: nat) returns (b: Builder<C>)
      requires p.Valid()
      modifies p.owner
      ensures fresh(b.builder.cells)
      ensures b.builder.elementSize == Pointer && b.Size() == size
      ensures b.builder.Contents() == seq(size, _ => NullSlot)
      ensures p.owner[..] == old(p.owner[..])[p.index := ListSlot(b.builder)]
      ensures GetFromPointer(p.owner[p.index], None) == Ok(b)
    {
      var l := InitList(p, Pointer, size, NullSlot);
      b := Builder(l);
    }

    /**
      Re-opening: asks the slot for a Pointer list. A null slot opens as the
      default, unchanged, or as an empty list without storage.
     */
    static function GetFromPointer(s: Slot<Slot<C>>, default: Option<ListBuilder<Slot<C>>>): (r: Result<Builder<C>>)
      ensures s.NullSlot? && default.Some? ==> r == Ok(Builder(default.value))
      ensures s.NullSlot? && default.None? ==> r.Ok? && r.value.Size() == 0 && r.value.builder.elementSize == Pointer
      ensures s.ListSlot? ==> (r.Ok? <==> s.target.elementSize == Pointer)
      ensures s.ListSlot? && r.Ok? ==> r.value.builder == s.target
      ensures s.ListSlot? && r.Fail? ==> r.fault == IncompatibleList
    {
      match GetListBuilder(s, Pointer, default)
      case Ok(l) => Ok(Builder(l))
      case Fail(f) => Fail(f)
    }
  }

  /**
    A null element of a list of enum lists reads as an empty enum list, and a
    populated one as the list it points to, when that is a TwoBytes list.
   */
  lemma EnumElementResolves(r: Reader<bv16>, i: nat)
    requires i < r.Size()
    ensures r.reader.cells[i].Null? ==>
      r.Index(i, EnumList.Reader.GetFromPointer) == Ok(EnumList.Reader(EmptyList(TwoBytes)))
    ensures r.reader.cells[i].ListPtr? && r.reader.cells[i].target.elementSize == TwoBytes ==>
      r.Index(i, EnumList.Reader.GetFromPointer) == Ok(EnumList.Reader(r.reader.cells[i].target))
  {
  }

  /**
    The builder side of the same promise: a null element of a list of enum
    lists opens as an empty enum list without storage, and a populated one as
    the very list it points to (same storage), when that is a TwoBytes list.
   */
  lemma EnumElementOpens(b: Builder<bv16>, i: nat)
    requires i < b.Size()
    ensures b.builder.cells[i].NullSlot? ==>
      b.Index(i, EnumList.Builder.GetFromPointer) == Ok(EnumList.Builder(EmptyBuilder(TwoBytes, NoStruct)))
    ensures b.builder.cells[i].ListSlot? && b.builder.cells[i].target.elementSize == TwoBytes ==>
      b.Index(i, EnumList.Builder.GetFromPointer) == Ok(EnumList.Builder(b.builder.cells[i].target))
  {
  }

  /** Two levels of nesting: a null element of a list of lists of lists reads as an empty list of lists. */
  lemma NestedNullElementIsEmpty<D>(r: Reader<PointerReader<D>>, i: nat)
    requires i < r.Size() && r.reader.cells[i].Null?
    ensures r.Index(i, Reader<D>.GetFromPointer) == Ok(Reader(EmptyList(Pointer)))
  {
  }
}
