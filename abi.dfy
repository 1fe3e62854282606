/**
 * The virtual tables of PartiallyVirtualClass and Derived, laid out by the
 * Itanium C++ ABI (section 2.5.2, "Virtual Table Components and Order"): an
 * offset-to-top word and a typeinfo word, then the address point, then one
 * entry per virtual function in declaration order, with a virtual destructor
 * taking two entries (complete-object, then deleting). A class's entry for a
 * function is its final overrider: its own definition if it has one, the
 * inherited one otherwise; a pure virtual function's entry is the pure virtual
 * sentinel.
 */
module Abi {
  import opened Words
  import opened Library
  import opened Wrappers

  /** The virtual functions of PartiallyVirtualClass, in declaration order. */
  datatype VirtualFunction = Destructor | DoDataFn | UseDataFn | MaybeDataFn

  const DeclarationOrder: seq<VirtualFunction> := [Destructor, DoDataFn, UseDataFn, MaybeDataFn]

  /** What a class body itself says about a virtual function (other than the destructor). */
  datatype Definition = Defines(symbol: Symbol) | DeclaresPure | Inherits

  function Parent(cls: Class): Option<Class> {
    match cls
    case Base => None
    case Derived => Some(Base)
  }

  /**
   * The class bodies of inherited_class.cpp: PartiallyVirtualClass defines
   * doData and useData and declares maybeData pure; Derived overrides doData
   * and maybeData only.
   */
  function OwnDefinition(cls: Class, f: VirtualFunction): Definition
    requires f != Destructor
  {
    match (cls, f)
    case (Base, DoDataFn) => Defines(DoData(Base))
    case (Base, UseDataFn) => Defines(BaseUseData)
    case (Base, MaybeDataFn) => DeclaresPure
    case (Derived, DoDataFn) => Defines(DoData(Derived))
    case (Derived, UseDataFn) => Inherits
    case (Derived, MaybeDataFn) => Defines(DerivedMaybeData)
  }

  /** The symbol a vtable of `cls` holds for `f`. */
  function Overrider(cls: Class, f: VirtualFunction): Symbol
    requires f != Destructor
    decreases if cls == Derived then 1 else 0
  {
    match OwnDefinition(cls, f)
    case Defines(s) => s
    case DeclaresPure => PureVirtual
    case Inherits => if Parent(cls).Some? then Overrider(Parent(cls).value, f) else PureVirtual
  }

  /** The entries one virtual function contributes to the table of `cls`. */
  function Entries(cls: Class, f: VirtualFunction): seq<Symbol> {
    if f == Destructor then [CompleteDestructor(cls), DeletingDestructor(cls)]
    else [Overrider(cls, f)]
  }

  function EntriesOf(cls: Class, fs: seq<VirtualFunction>): seq<Symbol> {
    if fs == [] then [] else Entries(cls, fs[0]) + EntriesOf(cls, fs[1..])
  }

  /** The table entries after the address point. */
  function Slots(cls: Class): seq<Symbol> {
    EntriesOf(cls, DeclarationOrder)
  }

  /** Slot numbers, counted from the address point. */
  const CompleteDestructorSlot: nat := 0
  const DeletingDestructorSlot: nat := 1
  const DoDataSlot: nat := 2
  const UseDataSlot: nat := 3
  const MaybeDataSlot: nat := 4

  /** Words before the address point: offset-to-top and typeinfo. */
  const HeaderWords: nat := 2
  /** The byte offset of the address point from the start of the table (the `+ 16n` of the script). */
  const AddressPointBytes: nat := 16

  /** How many words the script reads of each table (`items`). */
  const Items: nat := 7

  /**
   * The words of the table of `cls` as the linker lays it out. The ensures
   * unfold the definition word by word; SlotOrder and the lemmas after it
   * say what the table holds.
   */
  function VtableImage(cls: Class, link: Linkage): (words: seq<Word>)
    ensures |words| == HeaderWords + |Slots(cls)|
    ensures words[0] == 0 && words[1] == link.symbol(Typeinfo(cls))
    ensures forall k :: 0 <= k < |Slots(cls)| ==> words[HeaderWords + k] == link.symbol(Slots(cls)[k])
  {
    var slots := Slots(cls);
    [0, link.symbol(Typeinfo(cls))] + seq(|slots|, k requires 0 <= k < |slots| => link.symbol(slots[k]))
  }

  /** The value a constructor or destructor of `cls` stores into the vtable pointer. */
  function AddressPoint(link: Linkage, cls: Class): Word {
    Offset(link.symbol(Vtable(cls)), AddressPointBytes)
  }

  /**
   * Declaration order fixes the slot order D1, D0, doData, useData, maybeData,
   * so a table is 2 + 5 = 7 words, the number the script reads.
   */
  lemma SlotOrder(cls: Class)
    ensures Slots(cls) == [CompleteDestructor(cls), DeletingDestructor(cls),
                           Overrider(cls, DoDataFn), Overrider(cls, UseDataFn), Overrider(cls, MaybeDataFn)]
    ensures HeaderWords + |Slots(cls)| == Items
  {
    assert DeclarationOrder[1..] == [DoDataFn, UseDataFn, MaybeDataFn];
    assert DeclarationOrder[1..][1..] == [UseDataFn, MaybeDataFn];
    assert DeclarationOrder[1..][1..][1..] == [MaybeDataFn];
  }

  /** Derived replaces exactly the entries for doData and maybeData (besides its own destructor). */
  lemma DerivedOverridesOnly(f: VirtualFunction)
    requires f != Destructor
    ensures Overrider(Derived, f) != Overrider(Base, f) <==> f == DoDataFn || f == MaybeDataFn
  {
  }

  /** Derived's useData slot holds the same address as the base's. */
  lemma UseDataShared(link: Linkage)
    ensures VtableImage(Derived, link)[HeaderWords + UseDataSlot]
         == VtableImage(Base, link)[HeaderWords + UseDataSlot]
         == link.symbol(BaseUseData)
  {
    SlotOrder(Base);
    SlotOrder(Derived);
  }

  /** The base table has no implementation of maybeData, only the sentinel; Derived supplies one. */
  lemma MaybeDataPure(link: Linkage)
    ensures VtableImage(Base, link)[HeaderWords + MaybeDataSlot] == link.symbol(PureVirtual)
    ensures VtableImage(Derived, link)[HeaderWords + MaybeDataSlot] == link.symbol(DerivedMaybeData)
  {
    SlotOrder(Base);
    SlotOrder(Derived);
  }
}
