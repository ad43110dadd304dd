/**
 * The `DynSized` trait: `assemble` builds a pointer from metadata and a
 * data address, `disassemble` splits a pointer into the two, and
 * `assemble_mut` / `disassemble_mut` are the same on `*mut` pointers.
 *
 * Rust picks the implementation from the referent's static type. Here that
 * type is a `Kind`, and `Assemble` / `Disassemble` dispatch on it to the
 * implementation the crate provides for it. A struct whose last field is
 * unsized (`MyStruct<T>` in the crate's tests) implements the trait by
 * delegating to the implementation of that field's type `T`, which makes
 * the dispatch recursive.
 *
 * `AssembleSafe` promises that `assemble` never reads through its address.
 * Every function here is free of `reads` clauses and so cannot touch memory:
 * the promise holds for every kind by construction.
 */
module DynSized {
  import opened Words
  import opened Host
  import opened TraitObjects
  import opened BuiltinImpls

  /** The static type of a referent that implements `DynSized`. */
  datatype Kind =
    | Wrapped               // WrapSized<T>, for a sized T
    | Slice                 // [T]
    | Str                   // str
    | Dyn                   // a trait given an impl by derive_DynSized!
    | Composite(tail: Kind) // a struct whose last field has type `tail`

  /** The associated type `Meta` of each impl. */
  datatype MetaType = UnitType | UsizeType | VtableType

  /** A metadata value of any of the `Meta` types. */
  datatype Meta = Unit | Len(len: Usize) | VtableMeta(vtable: Vtable)

  predicate HasType(m: Meta, t: MetaType)
  {
    match t
    case UnitType => m.Unit?
    case UsizeType => m.Len?
    case VtableType => m.VtableMeta?
  }

  /**
   * `<K as DynSized>::Meta`; a composite's is its last field's (`type Meta = T::Meta`).
   * Followed through any nest of composites, it is `()` exactly for a
   * `WrapSized`, the vtable exactly for a trait object, and `usize` exactly
   * for a slice or a `str`, at the innermost field.
   */
  function MetaTypeOf(k: Kind): (m: MetaType)
    ensures (m == UnitType) == (Innermost(k) == Wrapped)
    ensures (m == VtableType) == (Innermost(k) == Dyn)
    ensures (m == UsizeType) == (Innermost(k) == Slice || Innermost(k) == Str)
  {
    match k
    case Wrapped => UnitType
    case Slice => UsizeType
    case Str => UsizeType
    case Dyn => VtableType
    case Composite(t) => MetaTypeOf(t)
  }

  /** `m` is a value of type `<K as DynSized>::Meta`. */
  predicate MetaOfKind(k: Kind, m: Meta)
  {
    HasType(m, MetaTypeOf(k))
  }

  /** `r` is the representation of a `*const K`. */
  predicate ReprOfKind(k: Kind, r: Repr)
  {
    match k
    case Wrapped => r.Thin?
    case Slice => r.SliceP?
    case Str => r.StrP?
    case Dyn => r.DynP?
    case Composite(t) => r.StructP? && ReprOfKind(t, r.asTail)
  }

  /**
   * `<K as DynSized>::assemble(meta, data)`: a pointer to a `K`, whose data
   * address is `data`.
   */
  function Assemble(k: Kind, meta: Meta, data: ConstPtr<Address>): (p: ConstPtr<Repr>)
    requires MetaOfKind(k, meta)
    ensures ReprOfKind(k, p.bits)
    ensures ThinCast(p.bits) == data.bits
    decreases k, 0
  {
    match k
    case Wrapped => WrapSizedAssemble((), data)
    case Slice => SliceAssemble(meta.len, data)
    case Str => StrAssemble(meta.len, data)
    case Dyn => DerivedAssemble(meta.vtable, data)
    case Composite(t) => CompositeAssemble(t, meta, data)
  }

  /**
   * `<K as DynSized>::disassemble(ptr)`: metadata of type `K::Meta` and the
   * pointer's data address.
   */
  function Disassemble(k: Kind, p: ConstPtr<Repr>): (r: (Meta, ConstPtr<Address>))
    requires ReprOfKind(k, p.bits)
    ensures MetaOfKind(k, r.0)
    ensures r.1.bits == ThinCast(p.bits)
    decreases k, 0
  {
    match k
    case Wrapped => (Unit, WrapSizedDisassemble(p).1)
    case Slice => var (len, data) := SliceDisassemble(p); (Len(len), data)
    case Str => var (len, data) := StrDisassemble(p); (Len(len), data)
    case Dyn => var (vtable, data) := DerivedDisassemble(p); (VtableMeta(vtable), data)
    case Composite(t) => CompositeDisassemble(t, p)
  }

  /**
   * `<MyStruct<T>>::assemble(meta, data)`: `T::assemble(meta, data)`
   * reinterpreted as a pointer to the struct. The result is a struct pointer
   * with the same machine words as that `*const T`: `data` as the struct's
   * own address, then `T`'s metadata.
   */
  function CompositeAssemble(t: Kind, meta: Meta, data: ConstPtr<Address>): (p: ConstPtr<Repr>)
    requires MetaOfKind(t, meta)
    ensures ReprOfKind(Composite(t), p.bits)
    ensures ThinCast(p.bits) == data.bits
    decreases t, 1
  {
    TransmuteToStruct(Assemble(t, meta, data))
  }

  /**
   * `<MyStruct<T>>::disassemble(ptr)`: the struct pointer reinterpreted as a
   * `*mut T`, coerced to `*const T` and disassembled by `T`.
   */
  function CompositeDisassemble(t: Kind, p: ConstPtr<Repr>): (r: (Meta, ConstPtr<Address>))
    requires ReprOfKind(Composite(t), p.bits)
    ensures MetaOfKind(t, r.0)
    ensures r.1.bits == ThinCast(p.bits)
    decreases t, 1
  {
    Disassemble(t, MutAsConst(TransmuteStructToTail(p)))
  }

  /** The default `assemble_mut`: `assemble` on the address, transmuted to `*mut K`. */
  function AssembleMut(k: Kind, meta: Meta, data: MutPtr<Address>): (p: MutPtr<Repr>)
    requires MetaOfKind(k, meta)
    ensures ReprOfKind(k, p.bits)
    ensures ThinCast(p.bits) == data.bits
  {
    ConstAsMut(Assemble(k, meta, MutAsConst(data)))
  }

  /** The default `disassemble_mut`: `disassemble`, with the address transmuted to `*mut ()`. */
  function DisassembleMut(k: Kind, p: MutPtr<Repr>): (r: (Meta, MutPtr<Address>))
    requires ReprOfKind(k, p.bits)
    ensures MetaOfKind(k, r.0)
    ensures r.1.bits == ThinCast(p.bits)
  {
    var (meta, data) := Disassemble(k, MutAsConst(p));
    (meta, ConstAsMut(data))
  }

  /** The round-trip law: disassembling an assembled pointer gives back its parts. */
  lemma {:induction false} DisassembleAssemble(k: Kind, meta: Meta, data: ConstPtr<Address>)
    requires MetaOfKind(k, meta)
    ensures Disassemble(k, Assemble(k, meta, data)) == (meta, data)
  {
    match k
    case Composite(t) => DisassembleAssemble(t, meta, data);
    case _ =>
  }

  /** The converse: reassembling the parts of a pointer gives the same pointer. */
  lemma {:induction false} AssembleDisassemble(k: Kind, p: ConstPtr<Repr>)
    requires ReprOfKind(k, p.bits)
    ensures Assemble(k, Disassemble(k, p).0, Disassemble(k, p).1) == p
  {
    match k
    case Composite(t) => AssembleDisassemble(t, ConstPtr(p.bits.asTail));
    case _ =>
  }

  /** Pointers of one kind that disassemble alike are equal. */
  lemma {:induction false} DisassembleInjective(k: Kind, p: ConstPtr<Repr>, q: ConstPtr<Repr>)
    requires ReprOfKind(k, p.bits) && ReprOfKind(k, q.bits)
    requires Disassemble(k, p) == Disassemble(k, q)
    ensures p == q
  {
    AssembleDisassemble(k, p);
    AssembleDisassemble(k, q);
  }

  /** Distinct (metadata, address) pairs assemble to distinct pointers. */
  lemma AssembleInjective(k: Kind, m1: Meta, d1: ConstPtr<Address>, m2: Meta, d2: ConstPtr<Address>)
    requires MetaOfKind(k, m1) && MetaOfKind(k, m2)
    requires Assemble(k, m1, d1) == Assemble(k, m2, d2)
    ensures m1 == m2 && d1 == d2
  {
    DisassembleAssemble(k, m1, d1);
    DisassembleAssemble(k, m2, d2);
  }

  /** The round-trip law for `*mut` pointers. */
  lemma DisassembleMutAssembleMut(k: Kind, meta: Meta, data: MutPtr<Address>)
    requires MetaOfKind(k, meta)
    ensures DisassembleMut(k, AssembleMut(k, meta, data)) == (meta, data)
  {
    DisassembleAssemble(k, meta, MutAsConst(data));
  }

  /** The converse for `*mut` pointers. */
  lemma AssembleMutDisassembleMut(k: Kind, p: MutPtr<Repr>)
    requires ReprOfKind(k, p.bits)
    ensures AssembleMut(k, DisassembleMut(k, p).0, DisassembleMut(k, p).1) == p
  {
    AssembleDisassemble(k, MutAsConst(p));
  }

  /**
   * `assemble_mut` and `disassemble_mut` give the same bits and metadata as
   * `assemble` and `disassemble`; only the pointers' mutability differs.
   */
  lemma MutMatchesConst(k: Kind, meta: Meta, data: MutPtr<Address>, p: MutPtr<Repr>)
    requires MetaOfKind(k, meta) && ReprOfKind(k, p.bits)
    ensures AssembleMut(k, meta, data).bits == Assemble(k, meta, MutAsConst(data)).bits
    ensures DisassembleMut(k, p).0 == Disassemble(k, MutAsConst(p)).0
    ensures DisassembleMut(k, p).1.bits == Disassemble(k, MutAsConst(p)).1.bits
  {
  }

  /** `WrapSized<T>`'s metadata is `()`: it carries no information. */
  lemma WrappedMetaIsUnit(m: Meta)
    requires MetaOfKind(Wrapped, m)
    ensures m == Unit
  {
  }

  /**
   * A composite has its last field's metadata type, is assembled into the
   * same machine words as the `*const T` that `T::assemble` builds from the
   * same metadata and address, and splits into what `T` splits the struct
   * pointer read as a `*const T` into.
   */
  lemma CompositeDelegates(t: Kind, meta: Meta, data: ConstPtr<Address>, p: ConstPtr<Repr>)
    requires MetaOfKind(t, meta)
    requires ReprOfKind(Composite(t), p.bits)
    ensures MetaTypeOf(Composite(t)) == MetaTypeOf(t)
    ensures MachineWords(Assemble(Composite(t), meta, data).bits) == MachineWords(Assemble(t, meta, data).bits)
    ensures Disassemble(Composite(t), p) == Disassemble(t, ConstPtr(p.bits.asTail))
  {
  }

  /**
   * The innermost field of a nest of composites. Not a notion of the crate:
   * it states where repeated delegation to the last field ends.
   */
  function Innermost(k: Kind): (leaf: Kind)
    ensures !leaf.Composite?
  {
    match k
    case Composite(t) => Innermost(t)
    case _ => k
  }

  /**
   * Within one kind, pointers with the same machine words are the same
   * pointer: the round-trip laws above, stated on `Repr`, are laws about the
   * bit patterns the crate reinterprets.
   */
  lemma {:induction false} MachineWordsDetermineRepr(k: Kind, r1: Repr, r2: Repr)
    requires ReprOfKind(k, r1) && ReprOfKind(k, r2)
    requires MachineWords(r1) == MachineWords(r2)
    ensures r1 == r2
  {
    match k
    case Composite(t) => MachineWordsDetermineRepr(t, r1.asTail, r2.asTail);
    case _ =>
  }
}
