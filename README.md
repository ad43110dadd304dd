# dyn_sized, modelled in Dafny

The `dyn_sized` crate defines a `DynSized` trait that splits a pointer to a
possibly unsized value into its metadata and its data address
(`disassemble`), and builds the pointer back from the pair (`assemble`).
The crate implements the trait for:

- the sized wrapper `WrapSized<T>`, whose metadata is `()`;
- slices `[T]`, whose metadata is the element count;
- `str`, whose metadata is the byte length;
- trait objects, through the `derive_DynSized!` macro, whose metadata is the
  vtable word.

The crate's tests add a fifth implementation, for a struct whose last field
is unsized. It delegates both directions to that field's type. `PtrExt`
adds `meta()` and `data()` to `*const T`, `&T`, `*mut T` and `&mut T`.

The model has these modules:

- `Words` (`words.dfy`): `usize` and the thin-pointer word.
- `Host` (`host.dfy`): the compiler's side of the protocol. It holds the four
  pointer types and the casts between them. It holds the standard library's
  `from_raw_parts`, `len`, `as_ptr`, `from_utf8_unchecked` and `as_bytes`.
  It also holds the two `mem::transmute` reinterpretations, and
  `MachineWords`, which states the layout assumptions they rest on:
  - a trait-object pointer is the data word followed by the vtable word;
  - a pointer to a struct whose last field has type `T` has the layout of a
    `*const T`: the struct's own address, then `T`'s metadata.
- `TraitObjects` (`trait_object.dfy`): the crate's `TraitObject` and `Vtable`,
  and the `DynSized` body that the derive macro emits.
- `BuiltinImpls` (`builtin_impls.dfy`): the typed `WrapSized<T>`, `[T]` and
  `str` impls.
- `DynSized` (`dyn_sized.dfy`): the trait. Rust chooses the impl from the
  referent's static type. Here that type is a `Kind`, and `Assemble` /
  `Disassemble` dispatch on it. `Composite(t)` is the test's
  `MyStruct<T>`, and its impl delegates to `t`'s. The module also holds the
  default `assemble_mut` / `disassemble_mut`, the round-trip laws for every
  kind (proved by induction over nested composites), and injectivity.
- `PtrExt` (`ptr_ext.dfy`): the four `PtrExt` impls.
- `Scenarios` (`scenarios.dfy`): the crate's tests, for an arbitrary address.

No function has a `reads` clause, so none can read memory. "Assemble never
dereferences its address", which is what `AssembleSafe` asks for, therefore
holds for every kind by construction.

Three facts about the code shape the model:

- `WrapSized<T>` has no `AssembleSafe` impl. Only `[T]`, `str` and derived
  trait objects have one (src/lib.rs:74, 89, 115, 182, 190).
- `PtrExt` has only `meta()` and `data()`. For `*mut T` and `&mut T`,
  `data()` returns a `*mut ()` (src/lib.rs:239-264).
- The composite impl in tests/unsized_struct_test.rs is written for an older
  signature of the trait (a safe `assemble`, an `unsafe` trait). The model
  keeps its delegation and not its signature.

## Model

| member | source | states |
|---|---|---|
| `Host.MachineWords` | src/lib.rs:137-140 | every pointer the protocol handles is one or two machine words; a trait-object pointer is `[data, vtable]` |
| `Host.ThinCast` | src/lib.rs:275 | casting a pointer to `*const ()` or `*mut ()` keeps its first machine word, at any depth of composite nesting |
| `Host.TransmuteFromRawTraitObject` | src/lib.rs:160-162 | reinterpreting a `raw::TraitObject` yields a trait-object pointer whose words are the record's data then vtable |
| `Host.TransmuteToRawTraitObject` | src/lib.rs:166-168 | reinterpreting a trait-object pointer yields a record whose data and vtable are the pointer's two words, in order |
| `Host.TransmuteToStruct` | tests/unsized_struct_test.rs:19-23 | reinterpreting `*const T` as `*const MyStruct<T>` yields a struct pointer with the same machine words: the address becomes the struct's own address |
| `Host.TransmuteStructToTail` | tests/unsized_struct_test.rs:27-30 | reinterpreting `*const MyStruct<T>` as `*mut T` keeps the machine words |
| `TraitObjects.Construct` | src/lib.rs:136-141 | `construct(vt, d)` followed by `data()` gives `d`, followed by `vtable()` gives `vt` |
| `TraitObjects.DataOf` | src/lib.rs:143-145 | `data()` is the first word of the trait-object pointer the record reinterprets as |
| `TraitObjects.VtableOf` | src/lib.rs:147-149 | `vtable()` is the second word of the trait-object pointer the record reinterprets as |
| `TraitObjects.ConstructFromParts` | src/lib.rs:135-150 | a `TraitObject` stores nothing but its data and vtable: it is rebuilt from them |
| `TraitObjects.TransmuteToPtr` | src/lib.rs:160-162 | the crate's `TraitObject` reinterprets as a trait-object pointer with words `[data(), vtable()]` |
| `TraitObjects.TransmuteFromPtr` | src/lib.rs:166-168 | a trait-object pointer reinterprets as a `TraitObject` whose `data()` and `vtable()` are its two words |
| `TraitObjects.TransmuteRoundTrip` | src/lib.rs:159-171 | the two reinterpretations are inverse in both orders |
| `TraitObjects.DerivedAssemble` | src/lib.rs:159-163 | the derived `assemble(vt, d)` is a trait-object pointer whose data address is `d` and whose second word is `vt` |
| `TraitObjects.DerivedDisassemble` | src/lib.rs:165-171 | the derived `disassemble` returns the pointer's second word as vtable and its data address |
| `TraitObjects.DerivedDisassembleAssemble` | src/lib.rs:155-173 | derived `disassemble(assemble(vt, d)) == (vt, d)` |
| `TraitObjects.DerivedAssembleDisassemble` | src/lib.rs:155-173 | reassembling the derived disassembly of a trait-object pointer gives the same pointer |
| `BuiltinImpls.WrapSizedAssemble` | src/lib.rs:65-67 | `WrapSized` assemble gives a thin pointer at the given address |
| `BuiltinImpls.WrapSizedDisassemble` | src/lib.rs:69-71 | `WrapSized` disassemble gives `()` and the pointer's address |
| `BuiltinImpls.WrapSizedRoundTrip` | src/lib.rs:62-72 | for `WrapSized`, both directions return the address unchanged, in both orders |
| `BuiltinImpls.SliceAssemble` | src/lib.rs:79-81 | the slice assembled from `(len, d)` has `len()` equal to `len` and `as_ptr()` equal to `d` |
| `BuiltinImpls.SliceDisassemble` | src/lib.rs:83-86 | slice disassemble returns the data address, and `from_raw_parts` on its result rebuilds the same slice pointer |
| `BuiltinImpls.SliceRoundTrip` | src/lib.rs:76-99 | for slices, `disassemble(assemble(len, p)) == (len, p)`, and reassembling a disassembled slice gives the same slice |
| `BuiltinImpls.StrAssemble` | src/lib.rs:104-106 | the `str` assembled from `(len, d)` has as its bytes the `len`-byte slice at `d` |
| `BuiltinImpls.StrDisassemble` | src/lib.rs:108-112 | `str` disassemble gives the byte length and the address of the byte slice |
| `BuiltinImpls.StrRoundTrip` | src/lib.rs:101-125 | the `str` round trip holds in both orders |
| `DynSized.Assemble` | src/lib.rs:13-17 | `assemble` of any kind gives a pointer of that kind whose data address is the given one |
| `DynSized.Disassemble` | src/lib.rs:23 | `disassemble` of any kind gives metadata of that kind's `Meta` type and the pointer's data address |
| `DynSized.CompositeAssemble` | tests/unsized_struct_test.rs:17-24 | composite `assemble` gives a struct pointer of the composite's kind at the given data address |
| `DynSized.CompositeDisassemble` | tests/unsized_struct_test.rs:26-32 | composite `disassemble` gives metadata of the trailing field's `Meta` type and the struct's data address |
| `DynSized.AssembleMut` | src/lib.rs:19-21 | `assemble_mut` gives a `*mut` pointer of the kind, at the given address |
| `DynSized.DisassembleMut` | src/lib.rs:25-30 | `disassemble_mut` gives metadata of the kind's `Meta` type and the pointer's address as `*mut ()` |
| `DynSized.DisassembleAssemble` | src/lib.rs:13-31 | the round-trip law `disassemble(assemble(m, d)) == (m, d)` for every kind, composites at any depth included |
| `DynSized.AssembleDisassemble` | src/lib.rs:13-31 | reassembling the disassembly of any pointer gives the same pointer |
| `DynSized.DisassembleInjective` | src/lib.rs:23 | two pointers of one kind with equal disassembly are equal |
| `DynSized.AssembleInjective` | src/lib.rs:17 | distinct (metadata, address) pairs assemble to distinct pointers |
| `DynSized.DisassembleMutAssembleMut` | src/lib.rs:19-30 | the round-trip law for `assemble_mut` / `disassemble_mut` |
| `DynSized.AssembleMutDisassembleMut` | src/lib.rs:19-30 | reassembling with `assemble_mut` the result of `disassemble_mut` gives the same `*mut` pointer |
| `DynSized.MutMatchesConst` | src/lib.rs:19-30 | `assemble_mut` / `disassemble_mut` give the same bits and metadata as `assemble` / `disassemble` |
| `DynSized.WrappedMetaIsUnit` | src/lib.rs:62-63 | every `WrapSized` metadata value is `()` |
| `DynSized.CompositeDelegates` | tests/unsized_struct_test.rs:14-32 | a composite's `Meta` type is its last field's type `T`'s; it assembles to the same machine words as `T::assemble` on the same metadata and address (the struct's own address, then `T`'s metadata); it disassembles as `T` disassembles the struct pointer read as a `*const T` |
| `DynSized.MetaTypeOf` | tests/unsized_struct_test.rs:15 | the associated `Meta` type of each impl (declared at src/lib.rs:63, 77, 102 and 157, and at the cited line for the composite): `()` exactly for `WrapSized`, the vtable exactly for trait objects, `usize` exactly for slices and `str`; a composite nested at any depth has its innermost field's |
| `DynSized.MachineWordsDetermineRepr` | src/lib.rs:159-171 | within one kind, pointers with the same machine words are the same pointer, so the round-trip laws hold of the bit patterns |
| `PtrExt.ConstPtrMeta` | src/lib.rs:215-218 | `meta()` on `*const K` is a value of `K::Meta` |
| `PtrExt.ConstPtrData` | src/lib.rs:220-223 | `data()` on `*const K` is the pointer cast to `*const ()` |
| `PtrExt.RefMeta` | src/lib.rs:230-232 | `meta()` on `&K` is a value of `K::Meta` |
| `PtrExt.RefData` | src/lib.rs:234-236 | `data()` on `&K` is the reference cast to `*const ()` |
| `PtrExt.MutPtrMeta` | src/lib.rs:243-245 | `meta()` on `*mut K` is a value of `K::Meta` |
| `PtrExt.MutPtrData` | src/lib.rs:247-250 | `data()` on `*mut K` is the pointer cast to `*mut ()` |
| `PtrExt.RefMutMeta` | src/lib.rs:257-259 | `meta()` on `&mut K` is a value of `K::Meta` |
| `PtrExt.RefMutData` | src/lib.rs:261-263 | `data()` on `&mut K` is the reference cast to `*mut ()` |
| `PtrExt.MetaDataAreDisassembly` | src/lib.rs:202-264 | for all four pointer types, `meta()` is the first component of `disassemble` and `data()` the second, and they reassemble to the pointer |
| `Scenarios.SliceTest` | src/lib.rs:91-99 | `&[1,2,3]` disassembles to 3 and its address and reassembles to itself |
| `Scenarios.StrTest` | src/lib.rs:117-125 | a 7-byte string disassembles to 7 and its address and reassembles to itself |
| `Scenarios.PtrExtTest` | src/lib.rs:266-276 | for `&mut [1,2,3]`, `meta() == 3` and `data()` is the slice cast to `*mut ()` |
| `Scenarios.CompositeSliceTest` | tests/unsized_struct_test.rs:35-51 | for `MyStruct<[i32]>` over 4 elements, `meta() == 4`, `data()` is the struct's address, and `assemble(4, addr)` is the original pointer |

## Left out

- `size_of_val` and `align_of_val` (src/lib.rs:43-57): their answers come from the compiler's `mem::size_of_val` / `mem::align_of_val` on the referent, and there is no model of type sizes.
- `AssembleSafe`, `assemble_safe` and `assemble_mut_safe` (src/lib.rs:33-41): they forward unchanged to `assemble` / `assemble_mut`. The marker impls (src/lib.rs:89, 115, 182, 190) are type-level facts. The no-dereference promise they stand for holds by construction (see above).
- The commented-out blanket impl (src/lib.rs:74) is not code.
- Memory contents, dereferencing, UTF-8 validity and the `isize::MAX` limit on slice sizes: there is no memory model. A pointer whose metadata does not match its referent is undefined behaviour in the crate, not an error it reports. The tests' content comparisons are stated as pointer equality, which implies them.
- The bit layout behind `mem::transmute` and `core::raw::TraitObject` is the compiler's. It is stated once, as `Host.MachineWords` and the four `Host.Transmute*` functions, and not proved. A slice pointer is also taken to be `[data, len]`, which only the contract of `Host.ThinCast` relies on.
- Macro expansion: the threading of generic and lifetime parameters in `derive_DynSized!` (src/lib.rs:175-192) and the invocations in tests/macro_test.rs. They generate source code, and the emitted body is modelled once.
- Dynamic dispatch through a vtable (the `trait_object` test, tests/unsized_struct_test.rs:53-71): it depends on vtables the compiler builds.
- Pointer width: the model fixes a 64-bit word, so `Usize` is bounded by 2^64. On 32-bit targets the bound is 2^32; nothing in the crate depends on the width.
- The element type of a slice never appears in its pointer, so `*const [u8]` and `*const [i32]` share one representation in the model.
