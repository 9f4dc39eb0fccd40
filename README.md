# Typed list views of a Cap'n Proto message, in Dafny

This project models `capnp/list.rs` of capnproto-rust (2013). That file is the typed layer that lets schema code treat a list inside a message buffer as a container of typed elements, without copying. It defines:

- two bridges that turn a pointer slot into a typed view: readable-from-pointer (`get_from_pointer`) and buildable-from-pointer (`init_pointer`, `get_from_pointer`);
- four list kinds, each with a `Reader` and a `Builder`:
  - `PrimitiveList`: fixed-width scalars;
  - `EnumList`: 16-bit codes decoded to an `Option` of an enumerator;
  - `StructList`: inline-composite struct elements;
  - `ListList`: pointer elements, each resolved through the element type's own bridge.

Each operation delegates to the layout engine, which is not part of this model. Module `Layout` (`layout.dfy`) stands in for it with an abstract store:

- A list is an element-encoding tag (`ElementSize`), a per-element struct size and a run of cells.
- On the reading side (`ListReader<C>`) the cells are a `seq`.
- On the building side (`ListBuilder<C>`) the cells are an `array`. A null array is the storage-less empty list that a null slot opens as, like the source's default list builder.
- A read-only pointer slot is `Null` or `ListPtr(list)`. A writable slot is the `index`-th cell of an `owner` array of `Slot`s (`PointerBuilder`). So the pointer elements of a list of lists are slots in that list's own storage.
- Resolving a slot accepts a stored list only if it has the requested encoding. A struct list being re-opened for building must be inline-composite and have room for the requested struct size. A null slot resolves to the default, unchanged, or else to an empty list of the requested encoding.
- A `fail!()` or `assert!` of the source is a `Fail(fault)` result.

Module `Bridge` (`bridge.dfy`) holds:

- the two bridges, as function types over the slot;
- the enumeration capability `EnumCodec`. It pairs `from_u16`, a partial map, with `to_u16`, the source's `ToU16` trait, a total map;
- `StructKind`, the struct type's capabilities: `struct_size`, a zeroed struct, `from_struct_reader` and `from_struct_builder`.

Modules `PrimitiveList`, `EnumList`, `StructList` and `ListList` follow the source's modules:

- Each `Reader`/`Builder` is a datatype wrapping the raw list, as the Rust structs wrap `ListReader`/`ListBuilder`.
- `new` is the datatype constructor, and `size()` is `Size()`, the wrapped list's size.
- `get_from_pointer` and `init_pointer` are static members.
- Indexing is `Index`, which takes the element type's capability (codec, struct kind or element bridge) as an argument instead of trait dispatch.

A builder is a handle, and copies share storage. `Set` mutates the shared array (`modifies builder.cells`) and leaves the handle itself unchanged, as the source's `set(&self, …)` does. Allocation (`InitPointer`) creates a fresh array and stores it in the slot.

Module `Scenarios` is client code. Using only the contracts, it shows:

- a list of integers that is written and read back;
- a colour list with an unknown code forced into it;
- a list of colour lists with one null element and one written element;
- a list of byte lists read through the source's bridge and through the corrected one.

## Model

| member | source | states |
|---|---|---|
| `Layout.AfterSetsLastWriteWins` | capnp/list.rs:60-62 | After any sequence of in-range element writes, each element holds the last value written to it, or its original value if none was; proved by induction over the writes |
| `PrimitiveList.Reader.Size` | capnp/list.rs:34 | The size is the number of cells of the wrapped list |
| `PrimitiveList.Reader.GetFromPointer` | capnp/list.rs:37-41 | The reader bridge asks for `Pointer` encoding. A null slot gives the default unchanged, or an empty `Pointer` list of size 0. A stored list resolves exactly when it is tagged `Pointer`, as itself (same size), and otherwise fails as incompatible |
| `PrimitiveList.GetFromPointerRefusesScalarLists` | capnp/list.rs:38-40 | Consequence of the `Pointer` request: every stored list of any other encoding is refused |
| `PrimitiveList.Reader.GetFromPointerOfEncoding` | capnp/list.rs:38-40 | Corrected bridge: asks for the element type's own encoding, so a stored list of that encoding reads as itself; null slots behave as in the source |
| `PrimitiveList.ReadsStoredElements` | capnp/list.rs:43-47 | Through the corrected bridge, a stored list of the element type's encoding reads with the same size, and reader `index(i)` is the i-th stored value |
| `PrimitiveList.Builder.Size` | capnp/list.rs:58 | The size is the length of the shared storage, 0 for the storage-less empty list; it depends only on the handle, so no `set` changes it |
| `PrimitiveList.Builder.Set` | capnp/list.rs:60-62 | Writes the value at element i of the shared storage: contents become the old contents with i replaced, index i reads the value back, every other element and the size are unchanged |
| `PrimitiveList.Builder.SetAll` | capnp/list.rs:60-62 | A sequence of in-range `set` calls, applied one after another, leaves the contents equal to `AfterSets` of the old contents: each element reads as the last value written to it, or its old value if none was |
| `PrimitiveList.IndexAfterSets` | capnp/list.rs:76-79 | For a builder whose contents are `AfterSets(original, writes)`, as `SetAll` leaves them, `index(i)` is the last value set at i, or the element's original value |
| `PrimitiveList.Builder.InitPointer` | capnp/list.rs:66-69 | First-time allocation through the bridge always fails (unimplemented) and writes nothing |
| `PrimitiveList.Builder.GetFromPointer` | capnp/list.rs:70-72 | Re-opening through the bridge always fails (unimplemented), whatever the slot |
| `EnumList.Reader.Size` | capnp/list.rs:102 | The size is the number of stored codes |
| `EnumList.Reader.GetFromPointer` | capnp/list.rs:106-110 | The reader bridge asks for `TwoBytes` encoding. A null slot gives the default unchanged, or an empty `TwoBytes` list. A stored list resolves exactly when it is `TwoBytes`, as itself |
| `EnumList.ReaderIndexDecodes` | capnp/list.rs:112-116 | Reader `index(i)` never faults on an unknown code. It is `Some(e)` exactly when e's code is stored at i, and `None` exactly when no enumerator has the stored code |
| `EnumList.Builder.Size` | capnp/list.rs:128 | The size is the length of the shared storage, 0 for the storage-less empty list; it depends only on the handle, so no `set` changes it |
| `EnumList.Builder.Set` | capnp/list.rs:130-132 | Stores exactly `to_u16(v)` at element i; every other element and the size are unchanged; reading i back gives `from_u16(to_u16(v))` |
| `EnumList.BuilderIndexDecodes` | capnp/list.rs:145-149 | Builder `index(i)` decodes like the reader: `Some(e)` exactly for the enumerator whose code is stored, `None` for a code with no enumerator |
| `EnumList.Builder.InitPointer` | capnp/list.rs:136-138 | Allocates a fresh `TwoBytes` list of n zero codes and stores it in the slot, leaving other slots unchanged; re-opening the slot yields the same builder |
| `EnumList.Builder.GetFromPointer` | capnp/list.rs:139-141 | Re-opening asks for `TwoBytes` encoding. A null slot gives the default unchanged, or an empty `TwoBytes` list. A stored list opens exactly when it is `TwoBytes`, as itself (same storage) |
| `StructList.Reader.Size` | capnp/list.rs:167 | The size is the number of cells of the wrapped list |
| `StructList.Reader.GetFromPointer` | capnp/list.rs:170-174 | The reader bridge asks for `InlineComposite` encoding. A null slot gives the default or an empty list. A stored list resolves exactly when it is inline-composite, as itself |
| `StructList.Reader.Index` | capnp/list.rs:176-181 | Element i is the element type's wrapping of a struct view that holds the i-th cell, has the list's struct size, and starts i struct sizes into the list |
| `StructList.ElementOffsetsStep` | capnp/list.rs:176-181 | Any two elements of one list are (j - i) struct sizes apart and have the same struct size |
| `StructList.Builder.Size` | capnp/list.rs:193 | The size is the length of the shared storage, 0 for the storage-less empty list |
| `StructList.Builder.Index` | capnp/list.rs:212-218 | Element i is the element type's wrapping of a struct builder designating the i-th cell of the list's own storage (no copy), at offset i struct sizes, with the list's struct size |
| `StructList.Builder.InitPointer` | capnp/list.rs:199-204 | Allocates a fresh inline-composite list of n zeroed structs whose struct size is the element type's `struct_size`, stores it in the slot, and re-opening with the same element type yields the same builder |
| `StructList.Builder.GetFromPointer` | capnp/list.rs:205-209 | Re-opening asks for an inline-composite list with room for the element type's `struct_size` (the one allocation uses). A null slot gives the default, or an empty list of that struct size |
| `ListList.Reader.Size` | capnp/list.rs:237 | The size is the number of pointers in the wrapped list |
| `ListList.Reader.GetFromPointer` | capnp/list.rs:240-244 | The reader bridge asks for `Pointer` encoding. A null slot gives the default or an empty `Pointer` list. A stored list resolves exactly when it is `Pointer`, as itself |
| `ListList.Reader.Index` | capnp/list.rs:246-252 | Checks the index itself: at or past the size it faults with an index error; below it, the result is the element type's reader bridge applied to the i-th pointer with a null default |
| `ListList.EnumElementResolves` | capnp/list.rs:249-250 | In a list of enum lists, a null element reads as an empty `TwoBytes` list, and a pointer to a `TwoBytes` list reads as that list |
| `ListList.NestedNullElementIsEmpty` | capnp/list.rs:240-251 | One level deeper, with the list-of-lists bridge as element type, a null element reads as an empty `Pointer` list |
| `ListList.Builder.Size` | capnp/list.rs:263 | The size is the length of the shared storage, 0 for the storage-less empty list |
| `ListList.EnumElementOpens` | capnp/list.rs:280-288 | In a list of enum lists being built, `index(i)` on a null element opens an empty `TwoBytes` list without storage, and on a pointer to a `TwoBytes` list opens that very list (same storage) |
| `ListList.Builder.InitPointer` | capnp/list.rs:267-272 | Allocates a fresh `Pointer` list of n null pointers, stores it in the slot, and re-opening the slot yields the same builder |
| `ListList.Builder.GetFromPointer` | capnp/list.rs:273-277 | Re-opening asks for `Pointer` encoding. A null slot gives the default or an empty `Pointer` list. A stored list opens exactly when it is `Pointer`, as itself |
| `Scenarios.IntListRoundTrip` | capnp/list.rs:53-80 | A 4-element 32-bit list written with 10, 20, 30, 40 has size 4 and reads back 10, 20, 30, 40 in order |
| `Scenarios.ColorListRoundTrip` | capnp/list.rs:123-150 | For Red=0, Green=1, Blue=2, a 2-element list written [Green, Blue] reads [Some(Green), Some(Blue)]. After raw code 5 is written into element 0 through a 16-bit view of the same storage, it reads [None, Some(Blue)] |
| `Scenarios.NestedColorListRoundTrip` | capnp/list.rs:258-288 | In a 2-element list of colour lists, the unallocated element opens empty. The allocated one, written through its own builder, shows the written colour when re-opened through the outer list |
| `Scenarios.NestedBytesAsWritten` | capnp/list.rs:37-41 | In a list of byte lists with a null element and a pointer to [7, 8, 9], the source's bridge reads the null element but refuses the populated one |
| `Scenarios.NestedBytesIntended` | capnp/list.rs:37-41 | With the corrected bridge, the same list reads element 0 as empty, and element 1 has size 3 and `index` reads 7, 8, 9 |

## Left out

- The layout engine's internals: word encoding, segments and far pointers, the inline-composite tag word, and bit packing of booleans. An element is an abstract cell, so a boolean list is a list of cells, not of packed bits.
- The layout's element-encoding compatibility rules. The abstract layout accepts a stored list only with the requested encoding. When a struct list is re-opened for building, the stored list must be inline-composite with a struct size at least the requested one; the real layout would copy a narrower list into a wider one, and the model refuses it instead.
- Raw `*Word` default values are an optional abstract default list.
- Lifetimes and the borrow discipline. Readers and builders are never invalidated in the model, and aliasing between builders is plain sharing of one array.
- Bounds checks below this layer. `index` on primitive, enum and struct lists and on a list-of-lists builder, and `set` on primitive and enum lists (`PrimitiveList.Builder.Set`, `EnumList.Builder.Set`), require `i < size`. The source leaves those checks to the layout, and the layout's behaviour past the end is not modelled. Only the list-of-lists reader checks explicitly, and that fault is modelled.
- `PrimitiveList.Builder.Set`: requires `i < size`; the source hands any index to the layout, whose out-of-range write is not modelled.
- `EnumList.Builder.Set`: requires `i < size` for the same reason.
- `PrimitiveList.Builder.SetAll` is not an operation of the source: it stands for a caller's sequence of `set` calls, so that their combined effect is proved rather than assumed.
- Trait dispatch through `Index`, `FromPrimitive`, `FromStructReader`, `FromStructBuilder` and `HasStructSize`. Each becomes an explicit argument: an `EnumCodec`, a `StructKind` or a bridge function. The enum views are not parameterised by the enumeration type.
- The element type's wrapping of a struct view is an abstract function. What a typed struct reader or builder then does is not part of this model.
- `uint` sizes and indices are unbounded naturals.
- The `BlobList` TODO: nothing is implemented there.

## Findings

| source | as written | input that shows it | evidently intended | confidence | as-written member | corrected member |
|---|---|---|---|---|---|---|
| capnp/list.rs:39 | The `PrimitiveList` reader bridge asks the slot for a list of `Pointer` encoding | element 1 of a list of byte lists, a pointer to the `Byte` list [7, 8, 9]: reading it fails as incompatible | ask for the element type's own encoding (`Byte` here), so the list reads as [7, 8, 9] | medium, not executed; rests on the layout refusing a stored list whose encoding lacks the requested pointer | `Scenarios.NestedBytesAsWritten` | `PrimitiveList.Reader.GetFromPointerOfEncoding` |
