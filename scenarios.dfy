/**
  Client code over the typed views: what a caller can conclude from their
  contracts alone, for a list of integers, a list of colours, and lists of
  lists.
 */
module Scenarios {
  import opened Layout
  import opened Bridge
  import PrimitiveList
  import EnumList
  import ListList

  /** A three-valued enumeration and the code maps its schema would generate. */
  datatype Color = Red | Green | Blue

  function ColorFromU16(code: bv16): Option<Color> {
    if code == 0 then Some(Red)
    else if code == 1 then Some(Green)
    else if code == 2 then Some(Blue)
    else None
  }

  function ColorToU16(c: Color): bv16 {
    match c
    case Red => 0
    case Green => 1
    case Blue => 2
  }

  const ColorCodec: EnumCodec<Color> := EnumCodec(ColorFromU16, ColorToU16)

  /**
    A four-element list of 32-bit integers, allocated through the layout (the
    list kind's own allocation is a stub), written and read back in order.
   */
  method IntListRoundTrip() returns (size: nat, values: seq<bv32>)
    ensures size == 4 && values == [10, 20, 30, 40]
  {
    var root := new Slot<bv32>[1](_ => NullSlot);
    var l := InitList(PointerBuilder(root, 0), FourBytes, 4, 0);
    var b := PrimitiveList.Builder(l);
    b.Set(0, 10);
    b.Set(1, 20);
    b.Set(2, 30);
    b.Set(3, 40);
    size := b.Size();
    values := [b.Index(0), b.Index(1), b.Index(2), b.Index(3)];
  }

  /**
    A two-element colour list: written [Green, Blue] it reads back as such;
    after the raw code 5 is forced into element 0 through a 16-bit view of the
    same storage, element 0 reads as no colour and element 1 is untouched.
   */
  method ColorListRoundTrip() returns (written: seq<Option<Color>>, forced: seq<Option<Color>>)
    ensures written == [Some(Green), Some(Blue)]
    ensures forced == [None, Some(Blue)]
  {
    var root := new Slot<bv16>[1](_ => NullSlot);
    var b := EnumList.Builder.InitPointer(PointerBuilder(root, 0), 2);
    b.Set(0, Green, ColorCodec);
    b.Set(1, Blue, ColorCodec);
    written := [b.Index(0, ColorCodec), b.Index(1, ColorCodec)];
    var raw := PrimitiveList.Builder(b.builder);
    raw.Set(0, 5);
    forced := [b.Index(0, ColorCodec), b.Index(1, ColorCodec)];
  }

  /**
    A two-element list of colour lists: element 0 is never allocated and
    opens as an empty list; element 1 is allocated, written through its own
    builder, and re-opened through the outer list it shows what was written.
   */
  method NestedColorListRoundTrip() returns (first: Result<EnumList.Builder>, second: Option<Color>)
    ensures first.Ok? && first.value.Size() == 0
    ensures second == Some(Blue)
  {
    var root := new Slot<Slot<bv16>>[1](_ => NullSlot);
    var outer := ListList.Builder<bv16>.InitPointer(PointerBuilder(root, 0), 2);
    var inner := EnumList.Builder.InitPointer(PointerBuilder(outer.builder.cells, 1), 3);
    inner.Set(2, Blue, ColorCodec);
    first := outer.Index(0, EnumList.Builder.GetFromPointer);
    var reopened := outer.Index(1, EnumList.Builder.GetFromPointer);
    second := reopened.value.Index(2, ColorCodec);
  }

  /** A list of byte lists: element 0 null, element 1 the bytes [7, 8, 9]. */
  function NestedBytes(): ListList.Reader<bv8> {
    ListList.Reader(ListReader(Pointer, NoStruct, [Null, ListPtr(ListReader(Byte, NoStruct, [7, 8, 9]))]))
  }

  /** As written, the byte list cannot be read: its reader bridge asks for Pointer encoding. */
  lemma NestedBytesAsWritten()
    ensures NestedBytes().Index(0, PrimitiveList.Reader<bv8>.GetFromPointer).Ok?
    ensures NestedBytes().Index(1, PrimitiveList.Reader<bv8>.GetFromPointer) == Fail(IncompatibleList)
  {
  }

  /** Asking for the element type's own encoding, element 0 reads empty and element 1 reads [7, 8, 9]. */
  lemma NestedBytesIntended()
    ensures var bytes := (p, d) => PrimitiveList.Reader<bv8>.GetFromPointerOfEncoding(p, Byte, d);
      && NestedBytes().Index(0, bytes).Ok?
      && NestedBytes().Index(0, bytes).value.Size() == 0
      && NestedBytes().Index(1, bytes).Ok?
      && NestedBytes().Index(1, bytes).value.Size() == 3
      && NestedBytes().Index(1, bytes).value.Index(0) == 7
      && NestedBytes().Index(1, bytes).value.Index(1) == 8
      && NestedBytes().Index(1, bytes).value.Index(2) == 9
  {
  }
}
