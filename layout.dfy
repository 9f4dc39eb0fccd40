/**
  An abstract model of the memory-layout engine that the typed list views
  sit on. Only what the views consume is modelled: a list is an element
  encoding tag, a per-element struct size and a run of cells; a pointer slot
  is either null or designates a list. Word encoding, bit packing, segments
  and far pointers are below this abstraction.
 */
module Layout {

  datatype Option<T> = None | Some(value: T)

  /** The wire encodings a list's elements can have. */
  datatype ElementSize =
    | Void | Bit | Byte | TwoBytes | FourBytes | EightBytes
    | Pointer | InlineComposite

  /** The size of one struct: data words and pointer words. */
  datatype StructSize = StructSize(data: nat, pointers: nat) {
    function Total(): nat { data + pointers }

    /** A struct of this size has room for every field of one of size `other`. */
    predicate Covers(other: StructSize) {
      data >= other.data && pointers >= other.pointers
    }
  }

  const NoStruct := StructSize(0, 0)

  /** The faults this layer and the layout can raise (Rust `fail!`/`assert!`). */
  datatype Fault =
    | IndexOutOfRange   // an explicit bounds assertion failed
    | IncompatibleList  // the stored list does not have the requested encoding
    | Unimplemented     // a stub that fails unconditionally

  datatype Result<T> = Ok(value: T) | Fail(fault: Fault)

  // ---------------------------------------------------------------------------
  // Reading side

  /** An immutable view over a run of list elements in a message. */
  datatype ListReader<C> = ListReader(elementSize: ElementSize, structSize: StructSize, cells: seq<C>) {
    function Size(): nat { |cells| }
  }

  /** A read-only pointer slot: null, or pointing at a list. */
  datatype PointerReader<C> = Null | ListPtr(target: ListReader<C>)

  /** The list a null slot reads as when no default is given. */
  function EmptyList<C>(e: ElementSize): ListReader<C> {
    ListReader(e, NoStruct, [])
  }

  /**
    Resolves a pointer slot as a list of encoding `expected`. A null slot reads
    as the default, or as an empty list of the requested encoding.
   */
  function GetList<C>(p: PointerReader<C>, expected: ElementSize, default: Option<ListReader<C>>): Result<ListReader<C>> {
    match p
    case Null => Ok(if default.Some? then default.value else EmptyList(expected))
    case ListPtr(l) => if l.elementSize == expected then Ok(l) else Fail(IncompatibleList)
  }

  /** A view of one struct element: where it starts within its list, its size and its content. */
  datatype StructReader<S> = StructReader(offset: nat, size: StructSize, content: S)

  /** The i-th element of an inline-composite list, one struct size after another. */
  function GetStructElement<S>(l: ListReader<S>, i: nat): StructReader<S>
    requires i < l.Size()
  {
    StructReader(i * l.structSize.Total(), l.structSize, l.cells[i])
  }

  // ---------------------------------------------------------------------------
  // Building side

  /**
    A mutable view over a run of list elements. It is a handle: copies share
    the same storage. A null `cells` is the storage-less empty list that a null
    slot resolves to.
   */
  datatype ListBuilder<C> = ListBuilder(elementSize: ElementSize, structSize: StructSize, cells: array?<C>) {
    function Size(): nat { if cells == null then 0 else cells.Length }

    ghost function Contents(): (s: seq<C>)
      reads cells
      ensures |s| == Size()
    {
      if cells == null then [] else cells[..]
    }
  }

  function EmptyBuilder<C>(e: ElementSize, size: StructSize): ListBuilder<C> {
    ListBuilder(e, size, null)
  }

  /** The content of a writable pointer slot. */
  datatype Slot<C> = NullSlot | ListSlot(target: ListBuilder<C>)

  /** A writable pointer slot: the index-th pointer of `owner`. */
  datatype PointerBuilder<C> = PointerBuilder(owner: array<Slot<C>>, index: nat) {
    predicate Valid() { index < owner.Length }
  }

  /** Resolves a slot's content as a list of encoding `expected`, like `GetList`. */
  function GetListBuilder<C>(s: Slot<C>, expected: ElementSize, default: Option<ListBuilder<C>>): Result<ListBuilder<C>> {
    match s
    case NullSlot => Ok(if default.Some? then default.value else EmptyBuilder(expected, NoStruct))
    case ListSlot(l) => if l.elementSize == expected then Ok(l) else Fail(IncompatibleList)
  }

  /**
    Resolves a slot's content as a struct list whose elements have room for
    structs of `size`. Upgrading a narrower stored list (a copy in the real
    layout) is not modelled: it is refused.
   */
  function GetStructListBuilder<S>(s: Slot<S>, size: StructSize, default: Option<ListBuilder<S>>): Result<ListBuilder<S>> {
    match s
    case NullSlot => Ok(if default.Some? then default.value else EmptyBuilder(InlineComposite, size))
    case ListSlot(l) =>
      if l.elementSize == InlineComposite && l.structSize.Covers(size) then Ok(l) else Fail(IncompatibleList)
  }

  /** Allocates a fresh list of `n` elements of encoding `e`, all `zero`, and stores it in the slot. */
  method InitList<C>(p: PointerBuilder<C>, e: ElementSize, n: nat, zero: C) returns (l: ListBuilder<C>)
    requires p.Valid()
    modifies p.owner
    ensures l.cells != null && fresh(l.cells)
    ensures l.elementSize == e && l.structSize == NoStruct
    ensures l.Contents() == seq(n, _ => zero)
    ensures p.owner[..] == old(p.owner[..])[p.index := ListSlot(l)]
  {
    var cells := new C[n](_ => zero);
    l := ListBuilder(e, NoStruct, cells);
    p.owner[p.index] := ListSlot(l);
  }

  /** Allocates a fresh inline-composite list of `n` structs of `size`, all `zero`, and stores it in the slot. */
  method InitStructList<S>(p: PointerBuilder<S>, n: nat, size: StructSize, zero: S) returns (l: ListBuilder<S>)
    requires p.Valid()
    modifies p.owner
    ensures l.cells != null && fresh(l.cells)
    ensures l.elementSize == InlineComposite && l.structSize == size
    ensures l.Contents() == seq(n, _ => zero)
    ensures p.owner[..] == old(p.owner[..])[p.index := ListSlot(l)]
  {
    var cells := new S[n](_ => zero);
    l := ListBuilder(InlineComposite, size, cells);
    p.owner[p.index] := ListSlot(l);
  }

  /** A writable view of one struct element: the index-th cell of `owner`. */
  datatype StructBuilder<S> = StructBuilder(owner: array<S>, index: nat, offset: nat, size: StructSize)

  function GetStructElementBuilder<S>(l: ListBuilder<S>, i: nat): StructBuilder<S>
    requires i < l.Size()
  {
    StructBuilder(l.cells, i, i * l.structSize.Total(), l.structSize)
  }

  // ---------------------------------------------------------------------------
  // The abstract store under a sequence of element writes

  /** The cells after writing `writes` in order, each pair being (index, value). */
  function AfterSets<C>(cells: seq<C>, writes: seq<(nat, C)>): (r: seq<C>)
    requires forall k :: 0 <= k < |writes| ==> writes[k].0 < |cells|
    ensures |r| == |cells|
    decreases |writes|
  {
    if writes == [] then cells
    else
      var last := writes[|writes| - 1];
      AfterSets(cells, writes[..|writes| - 1])[last.0 := last.1]
  }

  /** The value of the last write to index i, or `original` if none wrote there. */
  function LastWrite<C>(writes: seq<(nat, C)>, i: nat, original: C): C
    decreases |writes|
  {
    if writes == [] then original
    else if writes[|writes| - 1].0 == i then writes[|writes| - 1].1
    else LastWrite(writes[..|writes| - 1], i, original)
  }

  /** After any sequence of writes, each cell holds its last write, or its original value. */
  lemma {:induction false} AfterSetsLastWriteWins<C>(cells: seq<C>, writes: seq<(nat, C)>, i: nat)
    requires forall k :: 0 <= k < |writes| ==> writes[k].0 < |cells|
    requires i < |cells|
    ensures AfterSets(cells, writes)[i] == LastWrite(writes, i, cells[i])
    decreases |writes|
  {
    if writes != [] {
      AfterSetsLastWriteWins(cells, writes[..|writes| - 1], i);
    }
  }
}
