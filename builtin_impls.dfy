/**
 * The crate's own `DynSized` implementations for the sized wrapper
 * `WrapSized<T>`, for slices `[T]` and for `str`, each as the typed pair of
 * functions the impl defines. The element type of a slice never appears in
 * its pointer, so one pair serves every `[T]`.
 */
module BuiltinImpls {
  import opened Words
  import opened Host

  /**
   * `<WrapSized<T>>::assemble(meta, data)`: a pointer to a sized value is the
   * address itself; the metadata is `()` and carries nothing.
   */
  function WrapSizedAssemble(meta: (), data: ConstPtr<Address>): (p: ConstPtr<Repr>)
    ensures p.bits.Thin?
    ensures ThinCast(p.bits) == data.bits
  {
    ConstPtr(Thin(data.bits))
  }

  /** `<WrapSized<T>>::disassemble(ptr)`: `()` and the pointer cast to `*const ()`. */
  function WrapSizedDisassemble(p: ConstPtr<Repr>): (r: ((), ConstPtr<Address>))
    requires p.bits.Thin?
    ensures r.1.bits == ThinCast(p.bits)
  {
    ((), ConstPtr(p.bits.addr))
  }

  /** Both directions leave the address unchanged, whatever the metadata. */
  lemma WrapSizedRoundTrip(meta: (), data: ConstPtr<Address>, p: ConstPtr<Repr>)
    ensures WrapSizedDisassemble(WrapSizedAssemble(meta, data)) == ((), data)
    ensures p.bits.Thin? ==> WrapSizedAssemble(WrapSizedDisassemble(p).0, WrapSizedDisassemble(p).1) == p
  {
  }

  /**
   * `<[T]>::assemble(len, data)`: `slice::from_raw_parts(data as *const T, len)`.
   * The slice built has `len` elements and starts at `data`.
   */
  function SliceAssemble(len: Usize, data: ConstPtr<Address>): (p: ConstPtr<Repr>)
    ensures p.bits.SliceP?
    ensures SliceLen(p) == len
    ensures SliceAsPtr(p) == data
  {
    FromRawParts(data, len)
  }

  /**
   * `<[T]>::disassemble(slice)`: the element count and the first element's
   * address; `from_raw_parts` on them rebuilds the same slice pointer.
   */
  function SliceDisassemble(p: ConstPtr<Repr>): (r: (Usize, ConstPtr<Address>))
    requires p.bits.SliceP?
    ensures r.1.bits == ThinCast(p.bits)
    ensures FromRawParts(r.1, r.0) == p
  {
    (SliceLen(p), SliceAsPtr(p))
  }

  /** The slice round trip, both ways. */
  lemma SliceRoundTrip(len: Usize, data: ConstPtr<Address>, p: ConstPtr<Repr>)
    ensures SliceDisassemble(SliceAssemble(len, data)) == (len, data)
    ensures p.bits.SliceP? ==> SliceAssemble(SliceDisassemble(p).0, SliceDisassemble(p).1) == p
  {
  }

  /**
   * `<str>::assemble(len, data)`: the bytes `from_raw_parts(data as *const u8, len)`
   * reinterpreted as text; its bytes are `len` bytes at `data`.
   */
  function StrAssemble(len: Usize, data: ConstPtr<Address>): (p: ConstPtr<Repr>)
    ensures p.bits.StrP?
    ensures AsBytes(p) == SliceAssemble(len, data)
  {
    FromUtf8Unchecked(FromRawParts(data, len))
  }

  /**
   * `<str>::disassemble(s)`: the byte slice's disassembly, so the metadata is
   * the length in bytes and the address is that of the first byte.
   */
  function StrDisassemble(p: ConstPtr<Repr>): (r: (Usize, ConstPtr<Address>))
    requires p.bits.StrP?
    ensures r.0 == SliceLen(AsBytes(p))
    ensures r.1 == SliceAsPtr(AsBytes(p))
    ensures r.1.bits == ThinCast(p.bits)
  {
    SliceDisassemble(AsBytes(p))
  }

  /** The str round trip, both ways. */
  lemma StrRoundTrip(len: Usize, data: ConstPtr<Address>, p: ConstPtr<Repr>)
    ensures StrDisassemble(StrAssemble(len, data)) == (len, data)
    ensures p.bits.StrP? ==> StrAssemble(StrDisassemble(p).0, StrDisassemble(p).1) == p
  {
  }
}
