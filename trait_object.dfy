/**
 * The crate's two-word trait-object record and the `DynSized` body that
 * `derive_DynSized!` emits for a trait, once, for every trait it is applied
 * to (the threading of generic and lifetime parameters is source generation
 * and adds nothing to the emitted body).
 */
module TraitObjects {
  import opened Words
  import opened Host

  /** The vtable word of a trait-object pointer, wrapping a `*mut ()`. */
  datatype Vtable = Vtable(ptr: MutPtr<Address>)

  /** The crate's `TraitObject`, a newtype around `core::raw::TraitObject`. */
  datatype TraitObject = TraitObject(raw: RawTraitObject)

  /** `TraitObject::construct(vtable, data)` */
  function Construct(vtable: Vtable, data: MutPtr<Address>): (t: TraitObject)
    ensures DataOf(t) == data
    ensures VtableOf(t) == vtable
  {
    TraitObject(RawTraitObject(data, vtable.ptr))
  }

  /** `trait_object.data()`: the first word of the pointer the record reinterprets as. */
  function DataOf(t: TraitObject): (d: MutPtr<Address>)
    ensures d.bits == MachineWords(TransmuteFromRawTraitObject(t.raw).bits)[0]
  {
    t.raw.data
  }

  /** `trait_object.vtable()`: the second word of the pointer the record reinterprets as. */
  function VtableOf(t: TraitObject): (v: Vtable)
    ensures v.ptr.bits == MachineWords(TransmuteFromRawTraitObject(t.raw).bits)[1]
  {
    Vtable(t.raw.vtable)
  }

  /** A record holds nothing besides its data and vtable: it is rebuilt from them. */
  lemma ConstructFromParts(t: TraitObject)
    ensures Construct(VtableOf(t), DataOf(t)) == t
  {
  }

  /**
   * `mem::transmute` from the crate's `TraitObject` to `*const dyn Trait`.
   * A one-field struct has its field's layout, so this is the raw record's
   * reinterpretation.
   */
  function TransmuteToPtr(t: TraitObject): (p: ConstPtr<Repr>)
    ensures p.bits.DynP?
    ensures MachineWords(p.bits) == [DataOf(t).bits, VtableOf(t).ptr.bits]
  {
    TransmuteFromRawTraitObject(t.raw)
  }

  /** `mem::transmute` from `*const dyn Trait` to the crate's `TraitObject`. */
  function TransmuteFromPtr(p: ConstPtr<Repr>): (t: TraitObject)
    requires p.bits.DynP?
    ensures [DataOf(t).bits, VtableOf(t).ptr.bits] == MachineWords(p.bits)
  {
    TraitObject(TransmuteToRawTraitObject(p))
  }

  /** The two reinterpretations are inverse to each other, in both orders. */
  lemma TransmuteRoundTrip(t: TraitObject, p: ConstPtr<Repr>)
    ensures TransmuteFromPtr(TransmuteToPtr(t)) == t
    ensures p.bits.DynP? ==> TransmuteToPtr(TransmuteFromPtr(p)) == p
  {
  }

  /**
   * The derived `assemble(vtable, data)`: construct the record from the
   * vtable and `data as *mut ()`, and reinterpret it as a trait-object pointer.
   * The data address becomes the pointer's data word and the vtable its
   * second word.
   */
  function DerivedAssemble(vtable: Vtable, data: ConstPtr<Address>): (p: ConstPtr<Repr>)
    ensures p.bits.DynP?
    ensures ThinCast(p.bits) == data.bits
    ensures MachineWords(p.bits)[1] == vtable.ptr.bits
  {
    TransmuteToPtr(Construct(vtable, ConstAsMut(data)))
  }

  /**
   * The derived `disassemble(ptr)`: reinterpret the pointer as the record and
   * return its vtable and its data address (coerced back to `*const ()`).
   */
  function DerivedDisassemble(p: ConstPtr<Repr>): (r: (Vtable, ConstPtr<Address>))
    requires p.bits.DynP?
    ensures r.0.ptr.bits == MachineWords(p.bits)[1]
    ensures r.1.bits == ThinCast(p.bits)
  {
    var t := TransmuteFromPtr(p);
    (VtableOf(t), MutAsConst(DataOf(t)))
  }

  /** Disassembling an assembled trait-object pointer gives back the vtable and the address. */
  lemma DerivedDisassembleAssemble(vtable: Vtable, data: ConstPtr<Address>)
    ensures DerivedDisassemble(DerivedAssemble(vtable, data)) == (vtable, data)
  {
  }

  /** Reassembling the parts of a trait-object pointer gives the same pointer. */
  lemma DerivedAssembleDisassemble(p: ConstPtr<Repr>)
    requires p.bits.DynP?
    ensures DerivedAssemble(DerivedDisassemble(p).0, DerivedDisassemble(p).1) == p
  {
  }
}
