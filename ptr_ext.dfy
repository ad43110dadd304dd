/**
 * `PtrExt`: `meta()` and `data()` on the four pointer types `*const K`,
 * `&K`, `*mut K` and `&mut K`, forwarding to `disassemble` (and, for the
 * address of a `*mut K`, to `disassemble_mut`). `data()` gives a
 * `*const ()` for the shared pointers and a `*mut ()` for the mutable ones.
 */
module PtrExt {
  import opened Words
  import opened Host
  import opened DynSized

  /** `<*const K>::meta`: a value of `K::Meta`. */
  function ConstPtrMeta(k: Kind, p: ConstPtr<Repr>): (m: Meta)
    requires ReprOfKind(k, p.bits)
    ensures MetaOfKind(k, m)
  {
    Disassemble(k, p).0
  }

  /** `<*const K>::data`: the pointer with its metadata dropped. */
  function ConstPtrData(k: Kind, p: ConstPtr<Repr>): (d: ConstPtr<Address>)
    requires ReprOfKind(k, p.bits)
    ensures d.bits == ThinCast(p.bits)
  {
    Disassemble(k, p).1
  }

  /** `<&K>::meta`, through `*self as *const K`. */
  function RefMeta(k: Kind, r: Ref<Repr>): (m: Meta)
    requires ReprOfKind(k, r.bits)
    ensures MetaOfKind(k, m)
  {
    ConstPtrMeta(k, RefAsConst(r))
  }

  /** `<&K>::data`, through `*self as *const K`. */
  function RefData(k: Kind, r: Ref<Repr>): (d: ConstPtr<Address>)
    requires ReprOfKind(k, r.bits)
    ensures d.bits == ThinCast(r.bits)
  {
    ConstPtrData(k, RefAsConst(r))
  }

  /** `<*mut K>::meta`, through `*self as *const K`. */
  function MutPtrMeta(k: Kind, p: MutPtr<Repr>): (m: Meta)
    requires ReprOfKind(k, p.bits)
    ensures MetaOfKind(k, m)
  {
    ConstPtrMeta(k, MutAsConst(p))
  }

  /** `<*mut K>::data`: the address `disassemble_mut` gives. */
  function MutPtrData(k: Kind, p: MutPtr<Repr>): (d: MutPtr<Address>)
    requires ReprOfKind(k, p.bits)
    ensures d.bits == ThinCast(p.bits)
  {
    DisassembleMut(k, p).1
  }

  /** `<&mut K>::meta`, through `*self as *const K`. */
  function RefMutMeta(k: Kind, r: RefMut<Repr>): (m: Meta)
    requires ReprOfKind(k, r.bits)
    ensures MetaOfKind(k, m)
  {
    ConstPtrMeta(k, RefMutAsConst(r))
  }

  /** `<&mut K>::data`, through `*self as *const K as *mut K`. */
  function RefMutData(k: Kind, r: RefMut<Repr>): (d: MutPtr<Address>)
    requires ReprOfKind(k, r.bits)
    ensures d.bits == ThinCast(r.bits)
  {
    MutPtrData(k, ConstAsMut(RefMutAsConst(r)))
  }

  /**
   * Whatever the pointer type, `meta()` is the first component of
   * `disassemble` and `data()` has the bits of the second; and the pair
   * assembles back into a pointer with the same bits.
   */
  lemma MetaDataAreDisassembly(k: Kind, bits: Repr)
    requires ReprOfKind(k, bits)
    ensures var (meta, data) := Disassemble(k, ConstPtr(bits));
      && ConstPtrMeta(k, ConstPtr(bits)) == meta
      && RefMeta(k, Ref(bits)) == meta
      && MutPtrMeta(k, MutPtr(bits)) == meta
      && RefMutMeta(k, RefMut(bits)) == meta
      && ConstPtrData(k, ConstPtr(bits)) == data
      && RefData(k, Ref(bits)) == data
      && MutPtrData(k, MutPtr(bits)).bits == data.bits
      && RefMutData(k, RefMut(bits)).bits == data.bits
      && Assemble(k, meta, data).bits == bits
  {
    AssembleDisassemble(k, ConstPtr(bits));
  }
}
