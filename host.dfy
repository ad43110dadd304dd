/**
 * The host compiler's pointers, as far as the protocol relies on them.
 *
 * Everything the compiler decides about pointer representation is kept in
 * this one module: the pointer types, the casts between them, the standard
 * library's slice and `str` constructors and projections, and the two
 * reinterpretations (`mem::transmute`) whose correctness is a layout
 * assumption rather than something the crate can check.
 *
 * No function here has a `reads` clause, so none of them can look at
 * memory: building or taking apart a pointer never dereferences it.
 */
module Host {
  import opened Words

  /**
   * `*const P`, `*mut P`, `&P` and `&mut P`. Each carries the pointer's
   * representation, whose machine words are its bits (see `MachineWords`).
   */
  datatype ConstPtr<P> = ConstPtr(bits: P)
  datatype MutPtr<P> = MutPtr(bits: P)
  datatype Ref<P> = Ref(bits: P)
  datatype RefMut<P> = RefMut(bits: P)

  /** The two fields of a slice pointer `*const [T]`: first element and element count. */
  datatype SliceRepr = SliceRepr(data: Address, len: Usize)

  /**
   * A pointer to a referent of each shape the crate handles. The constructor
   * records the static shape of the referent; `MachineWords` gives the bits.
   *  - `Thin`: a pointer to a sized value, such as `*const WrapSized<T>`.
   *  - `SliceP`: `*const [T]`.
   *  - `StrP`: `*const str`, which has the representation of its bytes `*const [u8]`.
   *  - `DynP`: `*const dyn Trait`, two words.
   *  - `StructP`: a pointer to a struct whose last field has the unsized type
   *    `T`. It has the layout of a `*const T`: the struct's own address, then
   *    `T`'s metadata. `asTail` is that same pointer read as a `*const T` at
   *    the struct's own address; it is not a pointer to the field.
   */
  datatype Repr =
    | Thin(addr: Address)
    | SliceP(slice: SliceRepr)
    | StrP(bytes: SliceRepr)
    | DynP(data: Address, vtable: Address)
    | StructP(asTail: Repr)

  /**
   * The machine words of a pointer, in memory order.
   * LAYOUT ASSUMPTION: a trait-object pointer is the data word followed by the
   * vtable word, as in `core::raw::TraitObject`; a pointer to a struct whose
   * last field has type `T` has the layout of a `*const T`: the struct's own
   * address, then `T`'s metadata.
   */
  function MachineWords(r: Repr): (ws: seq<Address>)
    ensures 1 <= |ws| <= 2
  {
    match r
    case Thin(a) => [a]
    case SliceP(s) => [s.data, s.len]
    case StrP(b) => [b.data, b.len]
    case DynP(d, v) => [d, v]
    case StructP(t) => MachineWords(t)
  }

  /**
   * `p as *const ()` (or `as *mut ()`): the cast that drops the metadata and
   * keeps the data address, which is the first machine word of the pointer.
   */
  function ThinCast(r: Repr): (a: Address)
    ensures a == MachineWords(r)[0]
  {
    match r
    case Thin(a) => a
    case SliceP(s) => s.data
    case StrP(b) => b.data
    case DynP(d, _) => d
    case StructP(t) => ThinCast(t)
  }

  // Pointer casts between the four pointer types keep the bits.

  function ConstAsMut<P>(p: ConstPtr<P>): MutPtr<P> { MutPtr(p.bits) }

  function MutAsConst<P>(p: MutPtr<P>): ConstPtr<P> { ConstPtr(p.bits) }

  function RefAsConst<P>(r: Ref<P>): ConstPtr<P> { ConstPtr(r.bits) }

  function RefMutAsConst<P>(r: RefMut<P>): ConstPtr<P> { ConstPtr(r.bits) }

  // The standard library's slice and str constructors and projections.

  /** `slice::from_raw_parts(data as *const T, len)`, as a raw pointer. */
  function FromRawParts(data: ConstPtr<Address>, len: Usize): ConstPtr<Repr>
  {
    ConstPtr(SliceP(SliceRepr(data.bits, len)))
  }

  /** `slice.len()` */
  function SliceLen(p: ConstPtr<Repr>): Usize
    requires p.bits.SliceP?
  {
    p.bits.slice.len
  }

  /** `slice.as_ptr() as *const ()` */
  function SliceAsPtr(p: ConstPtr<Repr>): ConstPtr<Address>
    requires p.bits.SliceP?
  {
    ConstPtr(p.bits.slice.data)
  }

  /** `str::from_utf8_unchecked` on a byte slice; UTF-8 validity is not modelled. */
  function FromUtf8Unchecked(p: ConstPtr<Repr>): ConstPtr<Repr>
    requires p.bits.SliceP?
  {
    ConstPtr(StrP(p.bits.slice))
  }

  /** `s.as_bytes()` */
  function AsBytes(p: ConstPtr<Repr>): ConstPtr<Repr>
    requires p.bits.StrP?
  {
    ConstPtr(SliceP(p.bits.bytes))
  }

  /** `core::raw::TraitObject`: `data` first, `vtable` second. */
  datatype RawTraitObject = RawTraitObject(data: MutPtr<Address>, vtable: MutPtr<Address>)

  /** `mem::transmute` from a `raw::TraitObject` to `*const dyn Trait`: the bits are kept. */
  function TransmuteFromRawTraitObject(t: RawTraitObject): (p: ConstPtr<Repr>)
    ensures p.bits.DynP?
    ensures MachineWords(p.bits) == [t.data.bits, t.vtable.bits]
  {
    ConstPtr(DynP(t.data.bits, t.vtable.bits))
  }

  /** `mem::transmute` from `*const dyn Trait` to a `raw::TraitObject`: the bits are kept. */
  function TransmuteToRawTraitObject(p: ConstPtr<Repr>): (t: RawTraitObject)
    requires p.bits.DynP?
    ensures [t.data.bits, t.vtable.bits] == MachineWords(p.bits)
  {
    RawTraitObject(MutPtr(p.bits.data), MutPtr(p.bits.vtable))
  }

  /**
   * `mem::transmute` from `*const T` to `*const S` where `S` ends in a field
   * of type `T`: the address is taken as the struct's own address.
   */
  function TransmuteToStruct(p: ConstPtr<Repr>): (s: ConstPtr<Repr>)
    ensures s.bits.StructP?
    ensures MachineWords(s.bits) == MachineWords(p.bits)
  {
    ConstPtr(StructP(p.bits))
  }

  /**
   * `mem::transmute` from `*const S` to `*mut T`, the inverse reinterpretation:
   * a `*mut T` at the struct's own address with the struct's metadata.
   */
  function TransmuteStructToTail(s: ConstPtr<Repr>): (p: MutPtr<Repr>)
    requires s.bits.StructP?
    ensures MachineWords(p.bits) == MachineWords(s.bits)
  {
    MutPtr(s.bits.asTail)
  }
}
