/**
 * The part of inheritedClass.ts after the library is opened: build an object
 * in a 48-byte host buffer, call doData through the base's table, through
 * Derived's table and through a hand-built table of trampolines, then store a
 * closure in the object's std::function member and call it.
 */
module Harness {
  import opened Words
  import opened Wrappers
  import opened Library
  import opened Abi
  import opened ForeignMemory
  import opened Injection
  import opened ExampleLib
  import SymbolIndex

  /** The data the script constructs the object with. */
  const ConstructorData: Int32 := 13
  /** The two raw pointer values createLambda is given as userdata. */
  const Userdata: Word := 12345
  const Userdata2: Word := 34654754

  /** What the script's calls print, in order. */
  function ExpectedLog(objectAddress: Word): seq<Event> {
    [ BaseDoDataPrinted(Instance.DoDataArgument),
      DerivedDoDataPrinted(Instance.DoDataArgument),
      HostLogged(DoDataHook, [objectAddress as int, Instance.DoDataArgument as int]),
      HostLogged(LambdaCallback, [Userdata as int, Userdata2 as int]) ]
  }

  /** What lines 206-209 print for word `k` of a class's table: 0, then the key of the symbol stored there. */
  function SnapshotLabel(cls: Class, k: nat): string
    requires k < Items
  {
    if k == 0 then "0" else SymbolIndex.PointerKey(SnapshotSymbol(cls, k))
  }

  /** The symbols in words 1-6 of each table: the typeinfo, the two destructors, doData, useData, maybeData. */
  function SnapshotSymbol(cls: Class, k: nat): Symbol
    requires 1 <= k < Items
  {
    if k == 1 then Typeinfo(cls)
    else if k == 2 then CompleteDestructor(cls)
    else if k == 3 then DeletingDestructor(cls)
    else if k == 4 then DoData(cls)
    else if k == 5 then BaseUseData
    else if cls == Base then PureVirtual
    else DerivedMaybeData
  }

  /**
   * Lines 182-209: each of the seven words read from a class's table, passed
   * through getPointerName, names what the linker put there: offset-to-top 0
   * as "0", then the typeinfo, the two destructors, doData, useData and
   * maybeData (the pure virtual sentinel for the base).
   */
  lemma SnapshotLabels(mem: Memory, code: map<Word, Code>, link: Linkage, cls: Class, k: nat)
    requires Loaded(mem, code, link) && Separated(link) && k < Items
    ensures Readable(mem, link.symbol(Vtable(cls)), Items)
    ensures SymbolIndex.PointerName(SymbolIndex.NameTable(SymbolIndex.Bound(link)),
                                    Snapshot(mem, link.symbol(Vtable(cls)), Items)[k], true)
            == SymbolIndex.Label(SnapshotLabel(cls, k))
  {
    var t := link.symbol(Vtable(cls));
    assert Readable(mem, t, Items) && Snapshot(mem, t, Items) == VtableImage(cls, link);
    SlotOrder(cls);
    var w := VtableImage(cls, link)[k];
    if k == 0 {
      assert w == 0;
      SymbolIndex.LabelOfZero(link);
    } else {
      SnapshotSymbols(cls, k);
      assert w == link.symbol(SnapshotSymbol(cls, k));
      SymbolIndex.SymbolLabel(link, SnapshotSymbol(cls, k));
    }
  }

  /** The symbols of SnapshotSymbol are those the table layout puts in words 1-6. */
  lemma SnapshotSymbols(cls: Class, k: nat)
    requires 1 <= k < Items
    ensures |Slots(cls)| == Items - HeaderWords
    ensures SnapshotSymbol(cls, k) == if k == 1 then Typeinfo(cls) else Slots(cls)[k - HeaderWords]
  {
    SlotOrder(cls);
  }

  /**
   * Lines 213-218: the object is constructed with 13 in a zeroed buffer, and
   * callDoDataMethod runs first through the base's table, then, once the
   * vtable pointer is moved to Derived's address point, through Derived's.
   */
  method CallsThroughLibraryTables(mem: Memory, code: map<Word, Code>, link: Linkage, objectAddress: Word,
                                   console: Console)
    returns (first: array<Word>, instance: Instance)
    requires Loaded(mem, code, link)
    modifies console
    ensures fresh(first) && fresh(instance) && fresh(instance.callback)
    ensures instance.address == objectAddress && instance.words == first && instance.Valid()
    ensures instance.callback.target == None
    ensures first[..] == [AddressPoint(link, Derived), StoreInt32(0, ConstructorData), 0, 0, 0, 0]
    ensures console.events == old(console.events) + ExpectedLog(objectAddress)[..2]
  {
    DoDataResolves(mem, code, link, objectAddress, ConstructorData, Instance.DoDataArgument);
    first, instance := CallsThroughResolvedTables(mem, code, link, objectAddress, console);
  }

  /**
   * The proof step of CallsThroughLibraryTables once DoDataResolves has fixed
   * what doData resolves to through each table; kept apart so each proof stays small.
   */
  method CallsThroughResolvedTables(mem: Memory, code: map<Word, Code>, link: Linkage, objectAddress: Word,
                                    console: Console)
    returns (first: array<Word>, instance: Instance)
    requires Dispatch(mem, code, link, objectAddress, AddressPoint(link, Base), ConstructorData,
                      DoDataSlot, Instance.DoDataArgument) == Emit(BaseDoDataPrinted(Instance.DoDataArgument))
    requires Dispatch(mem, code, link, objectAddress, AddressPoint(link, Derived), ConstructorData,
                      DoDataSlot, Instance.DoDataArgument) == Emit(DerivedDoDataPrinted(Instance.DoDataArgument))
    modifies console
    ensures fresh(first) && fresh(instance) && fresh(instance.callback)
    ensures instance.address == objectAddress && instance.words == first && instance.Valid()
    ensures instance.callback.target == None
    ensures first[..] == [AddressPoint(link, Derived), StoreInt32(0, ConstructorData), 0, 0, 0, 0]
    ensures console.events == old(console.events) + ExpectedLog(objectAddress)[..2]
  {
    first := new Word[6](_ => 0);
    instance := new Instance(objectAddress, first, ConstructorData, link);
    StoreNonNegativeInZero(ConstructorData);
    Instance.CallDoDataMethod(instance, mem, code, link, console);
    Install(first, link.symbol(Vtable(Derived)));
    Instance.CallDoDataMethod(instance, mem, code, link, console);
  }

  /**
   * Lines 220-258: CUSTOM_VTABLE is filled with the four trampolines, the
   * vtable pointer is moved to its address point, and callDoDataMethod
   * reaches DO_DATA.
   */
  method CallThroughCustomTable(mem: Memory, code: map<Word, Code>, link: Linkage, instance: Instance,
                                tableAddress: Word, console: Console)
    returns (table: array<Word>)
    requires instance.Valid()
    requires forall c :: AddressOf(link, c) in code && code[AddressOf(link, c)] == c
    modifies instance.words, console
    ensures fresh(table)
    ensures table[..] == [0, 0, link.trampoline(CustomDestructor1), link.trampoline(CustomDestructor0),
                          link.trampoline(DoDataHook), link.trampoline(UseDataHook)]
    ensures instance.words[..] == old(instance.words[..])[0 := Offset(tableAddress, AddressPointBytes)]
    ensures console.events == old(console.events)
                              + [HostLogged(DoDataHook, [instance.address as int, Instance.DoDataArgument as int])]
  {
    table := BuildCustomVtable(link.trampoline(CustomDestructor1), link.trampoline(CustomDestructor0),
                               link.trampoline(DoDataHook), link.trampoline(UseDataHook));
    Install(instance.words, tableAddress);
    var exposed := Expose(mem, tableAddress, table[..]);
    DoDataThroughCustomTable(mem, code, link, tableAddress, table[..], instance.address, instance.Data());
    Instance.CallDoDataMethod(instance, exposed, code, link, console);
  }

  /**
   * Lines 260-295: createLambda stores a closure around LAMBDA_CALLBACK and
   * the two raw values, the closure buffer is built and left unused, and
   * callLambda calls the returned member.
   */
  method LambdaRoundTrip(code: map<Word, Code>, link: Linkage, instance: Instance, console: Console)
    returns (customLambda: array<Word>)
    requires forall c :: AddressOf(link, c) in code && code[AddressOf(link, c)] == c
    modifies instance.callback, console
    ensures fresh(customLambda)
    ensures customLambda[..] == [link.trampoline(LambdaCallback), ClosurePayload, 0, 0]
    ensures instance.callback.target == Some(Closure(link.trampoline(LambdaCallback), Userdata, Userdata2))
    ensures console.events == old(console.events) + [HostLogged(LambdaCallback, [Userdata as int, Userdata2 as int])]
  {
    var lambda := instance.CreateLambda(link.trampoline(LambdaCallback), Userdata, Userdata2);
    customLambda := BuildClosureBuffer(link.trampoline(LambdaCallback));
    InvocationPassesArguments(code, link, Userdata, Userdata2);
    Instance.CallLambda(lambda, code, console);
  }

  /**
   * The script, given the library's memory and linkage and the addresses Deno
   * gives the two host buffers (`first` and CUSTOM_VTABLE). It returns the
   * object, the hand-built table and the closure buffer as left at the end;
   * of the object it states the vtable pointer and data_, since the bytes
   * createLambda writes into callback_ (words 2 to 5) are not modelled.
   */
  method Script(mem: Memory, code: map<Word, Code>, link: Linkage, objectAddress: Word, tableAddress: Word,
                console: Console)
    returns (first: array<Word>, instance: Instance, table: array<Word>, customLambda: array<Word>)
    requires Loaded(mem, code, link)
    modifies console
    ensures console.events == old(console.events) + ExpectedLog(objectAddress)
    ensures first.Length == 6
    ensures first[..2] == [Offset(tableAddress, AddressPointBytes), StoreInt32(0, ConstructorData)]
    ensures instance.words == first && instance.Data() == ConstructorData
    ensures instance.callback.target == Some(Closure(link.trampoline(LambdaCallback), Userdata, Userdata2))
    ensures table[..] == [0, 0, link.trampoline(CustomDestructor1), link.trampoline(CustomDestructor0),
                          link.trampoline(DoDataHook), link.trampoline(UseDataHook)]
    ensures customLambda[..] == [link.trampoline(LambdaCallback), ClosurePayload, 0, 0]
  {
    first, instance := CallsThroughLibraryTables(mem, code, link, objectAddress, console);
    table := CallThroughCustomTable(mem, code, link, instance, tableAddress, console);
    customLambda := LambdaRoundTrip(code, link, instance, console);
    assert ExpectedLog(objectAddress) == ExpectedLog(objectAddress)[..2] + ExpectedLog(objectAddress)[2..3]
                                         + ExpectedLog(objectAddress)[3..];
  }

  /**
   * After the third install, callDoDataMethod's doData(313) reaches DO_DATA,
   * which logs the object's address and 313.
   */
  lemma DoDataThroughCustomTable(mem: Memory, code: map<Word, Code>, link: Linkage, t: Word, table: seq<Word>,
                                 self: Word, data: Int32)
    requires forall c :: AddressOf(link, c) in code && code[AddressOf(link, c)] == c
    requires table == [0, 0, link.trampoline(CustomDestructor1), link.trampoline(CustomDestructor0),
                       link.trampoline(DoDataHook), link.trampoline(UseDataHook)]
    ensures Dispatch(Expose(mem, t, table), code, link, self, Offset(t, AddressPointBytes), data,
                     DoDataSlot, Instance.DoDataArgument)
         == Emit(HostLogged(DoDataHook, [self as int, Instance.DoDataArgument as int]))
  {
    InstalledSlot(mem, t, table, DoDataSlot);
    assert AddressOf(link, Host(DoDataHook)) == link.trampoline(DoDataHook);
  }
}
