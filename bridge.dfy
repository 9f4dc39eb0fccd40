/**
  The capabilities that turn a pointer slot into a typed view, and the ones
  the list kinds consume from their element types.
 */
module Bridge {
  import opened Layout

  /**
    Readable-from-pointer: a typed reader from a read-only slot and an
    optional default list that stands in for a null slot.
   */
  type ReaderBridge<!C, T> = (PointerReader<C>, Option<ListReader<C>>) -> Result<T>

  /**
    The re-open half of buildable-from-pointer: a typed builder from the
    current content of a writable slot and an optional default list. Its
    other half, first-time allocation, writes the slot and is a method of
    each list kind (`InitPointer`).
   */
  type BuilderBridge<!C, T> = (Slot<C>, Option<ListBuilder<C>>) -> Result<T>

  /**
    What an enumeration brings to an enum list: the partial map from a
    16-bit code to an enumerator (`None` when no enumerator has that code)
    and the total map back.
   */
  datatype EnumCodec<!E> = EnumCodec(fromU16: bv16 -> Option<E>, toU16: E -> bv16)

  /** The two maps agree: every enumerator's code decodes to it, and only its code does. */
  ghost predicate Lawful<E(!new)>(codec: EnumCodec<E>) {
    && (forall e :: codec.fromU16(codec.toU16(e)) == Some(e))
    && (forall c, e :: codec.fromU16(c) == Some(e) ==> codec.toU16(e) == c)
  }

  /**
    What a struct type brings to a struct list: its size (a property of the
    type, not of a value), the content of a zeroed struct, and how to wrap a
    struct element as a typed reader or builder.
   */
  datatype StructKind<!S, R, B> = StructKind(
    structSize: StructSize,
    zero: S,
    fromStructReader: StructReader<S> -> R,
    fromStructBuilder: StructBuilder<S> -> B)
}
