/**
 * The crate's test cases, restated for an arbitrary address at which the
 * compiler places the test's value. The compiler's unsizing coercions
 * (`&[T; n]` to `&[T]`, `&MyStruct<[T; n]>` to `&MyStruct<[T]>`) keep the
 * value's address and add the array length as metadata.
 *
 * The tests compare slices and strings by content; since contents are read
 * from memory through the pointer, equal pointers give equal contents, and
 * the statements below are about the pointers.
 */
module Scenarios {
  import opened Words
  import opened Host
  import opened DynSized
  import opened PtrExt

  /** `&[T; n] as &[T]` for an array at `addr`. */
  function UnsizeArray(addr: Address, n: Usize): Repr
  {
    SliceP(SliceRepr(addr, n))
  }

  /** `&MyStruct<[T; n]> as &MyStruct<[T]>` for a struct at `addr`. */
  function UnsizeComposite(addr: Address, n: Usize): Repr
  {
    StructP(UnsizeArray(addr, n))
  }

  /** `test_slice`: `&[1, 2, 3]` splits into 3 and its address and reassembles to itself. */
  lemma SliceTest(addr: Address)
    ensures var slice := RefAsConst(Ref(UnsizeArray(addr, 3)));
      var (len, data) := Disassemble(Slice, slice);
      && len == Len(3)
      && data.bits == addr
      && Assemble(Slice, len, data) == slice
  {
  }

  /** `test_str`: `"Yolo123"` (7 bytes) splits into 7 and its address and reassembles to itself. */
  lemma StrTest(addr: Address)
    ensures var s := ConstPtr(StrP(SliceRepr(addr, 7)));
      var (len, data) := Disassemble(Str, s);
      && len == Len(7)
      && data.bits == addr
      && Assemble(Str, len, data) == s
  {
  }

  /**
   * `test_PtrExt`: for `&mut [1, 2, 3]`, `meta()` is 3 and `data()` is the
   * slice cast to `*mut ()`.
   */
  lemma PtrExtTest(addr: Address)
    ensures var slice := RefMut(UnsizeArray(addr, 3));
      && RefMutMeta(Slice, slice) == Len(3)
      && RefMutData(Slice, slice) == ConstAsMut(ConstPtr(ThinCast(slice.bits)))
  {
  }

  /**
   * The `slice` test of the composite impl: for a `MyStruct` at `addr` whose
   * last field is a 4-element array, `meta()` is 4, `data()` is the address
   * of the whole struct, and `MyStruct::assemble(4, addr)` is the original
   * pointer.
   */
  lemma CompositeSliceTest(addr: Address)
    ensures var ptr := Ref(UnsizeComposite(addr, 4));
      && RefMeta(Composite(Slice), ptr) == Len(4)
      && RefData(Composite(Slice), ptr) == ConstPtr(addr)
      && Assemble(Composite(Slice), Len(4), ConstPtr(addr)) == RefAsConst(ptr)
  {
  }
}
