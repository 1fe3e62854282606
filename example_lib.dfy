/**
 * The observable behaviour of example_lib (inherited_class.cpp) when the host
 * drives it through a 48-byte buffer: the object is six words, word 0 its
 * vtable pointer and the low half of word 1 its `data_`; `callback_` is kept
 * as a separate std::function object. Each `printf` call of the library and
 * each `console.log` call of a trampoline becomes an Event appended to a
 * Console, in the order the calls are made.
 *
 * Run says what executing one piece of code with a given `this` does;
 * Dispatch says what a virtual call through the vtable pointer does, given
 * the memory native code reads tables from and what lives at each code
 * address. The methods of Instance do the same step by step and are proved
 * against them.
 */
module ExampleLib {
  import opened Words
  import opened Wrappers
  import opened Library
  import opened Abi
  import opened ForeignMemory

  datatype Event =
    | UseDataPrinted(value: Int32)          // "Base class: %i"
    | BaseDoDataPrinted(value: Int32)       // "Base class doData: %i"
    | DerivedDoDataPrinted(value: Int32)    // "Derived class doData: %i"
    | MaybeDataPrinted                      // "Derived class maybeData"
    | PureVirtualCalled                     // the pure virtual sentinel reports and aborts
    | Freed(address: Word)                  // the deleting destructor releases the object
    | BadFunctionCall                       // an empty std::function was invoked
    | HostLogged(hook: Trampoline, args: seq<int>)  // a trampoline's console.log with its arguments
    | Fault(address: Word)                  // a read or a jump to an address nothing is known about
    | Unmodelled(code: Code)                // a call to code that is not a virtual member or a hook

  /** What a piece of code did: the events in order, and the last vtable pointer it stored, if any. */
  datatype Effect = Effect(events: seq<Event>, vptr: Option<Word>)

  function Emit(e: Event): Effect {
    Effect([e], None)
  }

  /** One effect after another; a later vtable store replaces an earlier one. */
  function Then(first: Effect, second: Effect): Effect {
    Effect(first.events + second.events, if second.vptr.Some? then second.vptr else first.vptr)
  }

  /** The vtable pointer after an effect, starting from `vptr`. */
  function VptrAfter(vptr: Word, e: Effect): Word {
    if e.vptr.Some? then e.vptr.value else vptr
  }

  /** The destructor of Derived calls useData with this constant. */
  const DerivedDestructorValue: Int32 := 666

  /** How deep the calls made by a piece of code nest. */
  function Rank(code: Code): nat {
    match code
    case Native(CompleteDestructor(Base)) => 1
    case Native(CompleteDestructor(Derived)) => 2
    case Native(DeletingDestructor(Base)) => 2
    case Native(DeletingDestructor(Derived)) => 3
    case Host(CustomDestructor1) => 2
    case Host(CustomDestructor0) => 3
    case _ => 0
  }

  /**
   * Executing `code` with `this == self`, the object holding `data`, and `arg`
   * as the int argument:
   * - doData, useData and maybeData print;
   * - a complete-object destructor stores its own class's address point into
   *   the vtable pointer and then runs its body: the base calls useData(data_),
   *   Derived calls useData(666) and then the base destructor; the only
   *   useData either class has is the base's;
   * - a deleting destructor is the complete-object one, then the release;
   * - CUSTOM_DESTRUCTOR_1 and CUSTOM_DESTRUCTOR_0 log the object and then call
   *   the base's complete-object and deleting destructor on the same object;
   * - the other trampolines log their two arguments.
   */
  function Run(code: Code, link: Linkage, self: Word, data: Int32, arg: Int32): Effect
    decreases Rank(code)
  {
    match code
    case Native(DoData(Base)) => Emit(BaseDoDataPrinted(arg))
    case Native(DoData(Derived)) => Emit(DerivedDoDataPrinted(arg))
    case Native(BaseUseData) => Emit(UseDataPrinted(arg))
    case Native(DerivedMaybeData) => Emit(MaybeDataPrinted)
    case Native(PureVirtual) => Emit(PureVirtualCalled)
    case Native(CompleteDestructor(Base)) =>
      Then(Effect([], Some(AddressPoint(link, Base))), Run(Native(BaseUseData), link, self, data, data))
    case Native(CompleteDestructor(Derived)) =>
      Then(Then(Effect([], Some(AddressPoint(link, Derived))),
                Run(Native(BaseUseData), link, self, data, DerivedDestructorValue)),
           Run(Native(CompleteDestructor(Base)), link, self, data, arg))
    case Native(DeletingDestructor(cls)) =>
      Then(Run(Native(CompleteDestructor(cls)), link, self, data, arg), Emit(Freed(self)))
    case Host(CustomDestructor1) =>
      Then(Emit(HostLogged(CustomDestructor1, [self as int])),
           Run(Native(CompleteDestructor(Base)), link, self, data, arg))
    case Host(CustomDestructor0) =>
      Then(Emit(HostLogged(CustomDestructor0, [self as int])),
           Run(Native(DeletingDestructor(Base)), link, self, data, arg))
    // DO_DATA and USE_DATA print the same "doData:" line; the event also names the hook
    case Host(hook) => Emit(HostLogged(hook, [self as int, arg as int]))
    case Native(_) => Emit(Unmodelled(code))
  }

  /**
   * A virtual call `instance->f(arg)` where f has slot `slot`: the slot's word
   * is read at `vptr + 8 * slot`, and the code at the address it holds runs.
   */
  function Dispatch(mem: Memory, code: map<Word, Code>, link: Linkage, self: Word, vptr: Word,
                    data: Int32, slot: nat, arg: Int32): Effect
    requires slot <= MaybeDataSlot
  {
    var a := WordAddress(vptr, slot);
    if a !in mem then Emit(Fault(a))
    else if mem[a] !in code then Emit(Fault(mem[a]))
    else Run(code[mem[a]], link, self, data, arg)
  }

  /**
   * The library is loaded: both classes' tables read, from their first word,
   * as the layout the ABI gives them, and each symbol and trampoline address
   * holds its own code.
   */
  ghost predicate Loaded(mem: Memory, code: map<Word, Code>, link: Linkage) {
    && (forall cls :: Readable(mem, link.symbol(Vtable(cls)), Items)
                      && Snapshot(mem, link.symbol(Vtable(cls)), Items) == VtableImage(cls, link))
    && (forall c :: AddressOf(link, c) in code && code[AddressOf(link, c)] == c)
  }

  // ---------------------------------------------------------------- lemmas about Run and Dispatch

  /** With the vtable pointer at a class's address point, slot k runs that class's k-th table entry. */
  lemma DispatchThroughClassTable(mem: Memory, code: map<Word, Code>, link: Linkage, cls: Class,
                                  self: Word, data: Int32, slot: nat, arg: Int32)
    requires Loaded(mem, code, link) && slot <= MaybeDataSlot
    ensures slot < |Slots(cls)|
    ensures Dispatch(mem, code, link, self, AddressPoint(link, cls), data, slot, arg)
         == Run(Native(Slots(cls)[slot]), link, self, data, arg)
  {
    SlotOrder(cls);
    var t := link.symbol(Vtable(cls));
    assert Readable(mem, t, Items) && Snapshot(mem, t, Items) == VtableImage(cls, link);
    WordAddressShift(t, HeaderWords, slot);
    var entry := Slots(cls)[slot];
    assert AddressOf(link, Native(entry)) in code && code[AddressOf(link, Native(entry))] == Native(entry);
  }

  /**
   * callDoDataMethod's call doData(313): the base prints through its own
   * doData, an object whose vtable pointer was moved to Derived's table prints
   * through Derived's; the stored data plays no part.
   */
  lemma DoDataResolves(mem: Memory, code: map<Word, Code>, link: Linkage, self: Word, data: Int32, arg: Int32)
    requires Loaded(mem, code, link)
    ensures Dispatch(mem, code, link, self, AddressPoint(link, Base), data, DoDataSlot, arg)
         == Emit(BaseDoDataPrinted(arg))
    ensures Dispatch(mem, code, link, self, AddressPoint(link, Derived), data, DoDataSlot, arg)
         == Emit(DerivedDoDataPrinted(arg))
  {
    DispatchThroughClassTable(mem, code, link, Base, self, data, DoDataSlot, arg);
    DispatchThroughClassTable(mem, code, link, Derived, self, data, DoDataSlot, arg);
  }

  /** A call of maybeData on an object with the base's table reaches the pure virtual sentinel. */
  lemma MaybeDataOnBaseIsPure(mem: Memory, code: map<Word, Code>, link: Linkage, self: Word, data: Int32, arg: Int32)
    requires Loaded(mem, code, link)
    ensures Dispatch(mem, code, link, self, AddressPoint(link, Base), data, MaybeDataSlot, arg)
         == Emit(PureVirtualCalled)
    ensures Dispatch(mem, code, link, self, AddressPoint(link, Derived), data, MaybeDataSlot, arg)
         == Emit(MaybeDataPrinted)
  {
    DispatchThroughClassTable(mem, code, link, Base, self, data, MaybeDataSlot, arg);
    DispatchThroughClassTable(mem, code, link, Derived, self, data, MaybeDataSlot, arg);
  }

  /**
   * The base destructor calls useData(data_) once and leaves the vtable
   * pointer at the base's address point; it releases nothing.
   */
  lemma BaseDestructorUsesData(link: Linkage, self: Word, data: Int32, arg: Int32)
    ensures Run(Native(CompleteDestructor(Base)), link, self, data, arg)
         == Effect([UseDataPrinted(data)], Some(AddressPoint(link, Base)))
  {
  }

  /** Destroying a Derived prints useData(666) before the base's useData(data_). */
  lemma DerivedDestructionOrder(link: Linkage, self: Word, data: Int32, arg: Int32)
    ensures Run(Native(CompleteDestructor(Derived)), link, self, data, arg)
         == Effect([UseDataPrinted(DerivedDestructorValue), UseDataPrinted(data)], Some(AddressPoint(link, Base)))
  {
    assert [] + [UseDataPrinted(DerivedDestructorValue)] + [UseDataPrinted(data)]
        == [UseDataPrinted(DerivedDestructorValue), UseDataPrinted(data)];
  }

  /** A deleting destructor does what the complete-object one does, then releases the object, once. */
  lemma DeletingIsCompleteThenFree(link: Linkage, cls: Class, self: Word, data: Int32, arg: Int32)
    ensures var complete := Run(Native(CompleteDestructor(cls)), link, self, data, arg);
      && Run(Native(DeletingDestructor(cls)), link, self, data, arg).events == complete.events + [Freed(self)]
      && Run(Native(DeletingDestructor(cls)), link, self, data, arg).vptr == complete.vptr
      && Freed(self) !in complete.events
  {
    if cls == Derived {
      DerivedDestructionOrder(link, self, data, arg);
    }
  }

  /**
   * callDelete's `instance->~PartiallyVirtualClass()` goes through slot 0, the
   * complete-object destructor: for either class it prints and releases
   * nothing.
   */
  lemma CallDeleteDoesNotFree(mem: Memory, code: map<Word, Code>, link: Linkage, cls: Class,
                              self: Word, data: Int32)
    requires Loaded(mem, code, link)
    ensures var e := Dispatch(mem, code, link, self, AddressPoint(link, cls), data, CompleteDestructorSlot, 0);
      && e.events == (if cls == Base then [UseDataPrinted(data)]
                      else [UseDataPrinted(DerivedDestructorValue), UseDataPrinted(data)])
      && e.vptr == Some(AddressPoint(link, Base))
      && forall a :: Freed(a) !in e.events
  {
    DispatchThroughClassTable(mem, code, link, cls, self, data, CompleteDestructorSlot, 0);
    SlotOrder(cls);
    if cls == Derived {
      DerivedDestructionOrder(link, self, data, 0);
    }
  }

  /**
   * Through the hand-built table, the complete-object destructor slot runs
   * CUSTOM_DESTRUCTOR_1: it logs the object, then the base destructor prints
   * useData(data_).
   */
  lemma CustomDestructorChain(link: Linkage, self: Word, data: Int32, arg: Int32)
    ensures Run(Host(CustomDestructor1), link, self, data, arg)
         == Effect([HostLogged(CustomDestructor1, [self as int]), UseDataPrinted(data)], Some(AddressPoint(link, Base)))
    ensures Run(Host(CustomDestructor0), link, self, data, arg)
         == Effect([HostLogged(CustomDestructor0, [self as int]), UseDataPrinted(data), Freed(self)],
                   Some(AddressPoint(link, Base)))
  {
    assert [HostLogged(CustomDestructor0, [self as int])] + ([UseDataPrinted(data)] + [Freed(self)])
        == [HostLogged(CustomDestructor0, [self as int]), UseDataPrinted(data), Freed(self)];
  }

  // ---------------------------------------------------------------- std::function

  /** The closure createLambda stores: the callback and the two pointers it captured. */
  datatype Closure = Closure(callback: Word, userdata: Word, userdata2: Word)

  /**
   * Invoking a closure calls `callback(userdata, userdata2)` once, with both
   * pointers as captured; only LAMBDA_CALLBACK is a callee of that type.
   */
  function Invocation(code: map<Word, Code>, c: Closure): Event {
    if c.callback in code && code[c.callback] == Host(LambdaCallback) then
      HostLogged(LambdaCallback, [c.userdata as int, c.userdata2 as int])
    else if c.callback in code then Unmodelled(code[c.callback])
    else Fault(c.callback)
  }

  /** The print calls (library printf, trampoline console.log) in the order they are made. */
  class Console {
    var events: seq<Event>

    constructor ()
      ensures events == []
    {
      events := [];
    }

    method Log(e: Event)
      modifies this
      ensures events == old(events) + [e]
    {
      events := events + [e];
    }
  }

  /** A std::function<void()>: empty, or holding a closure. */
  class StdFunction {
    var target: Option<Closure>

    constructor ()
      ensures target == None
    {
      target := None;
    }
  }

  /** A PartiallyVirtualClass (or Derived) object living in a host buffer of six words at `address`. */
  class Instance {
    const address: Word
    const words: array<Word>
    /** callback_; its own layout inside words 2 to 5 is not modelled. */
    const callback: StdFunction

    predicate Valid() {
      words.Length == 6
    }

    function Vptr(): Word
      requires Valid()
      reads words
    {
      words[0]
    }

    /** data_, the int in the low half of word 1. */
    function Data(): Int32
      requires Valid()
      reads words
    {
      LoadInt32(words[1])
    }

    /**
     * PartiallyVirtualClass(int data), run on the buffer at `address`: the
     * vtable pointer is set to the base's address point, data_ to `data`, and
     * callback_ is empty.
     */
    constructor (address: Word, buffer: array<Word>, data: Int32, link: Linkage)
      requires buffer.Length == 6
      modifies buffer
      ensures this.address == address && words == buffer && Valid()
      ensures words[..] == old(buffer[..])[0 := AddressPoint(link, Base)][1 := StoreInt32(old(buffer[1]), data)]
      ensures Data() == data
      ensures fresh(callback) && callback.target == None
    {
      this.address := address;
      words := buffer;
      callback := new StdFunction();
      new;
      buffer[0] := AddressPoint(link, Base);
      buffer[1] := StoreInt32(buffer[1], data);
    }

    /** Runs `code` with this object as `this`, as Run describes. */
    method Invoke(code: Code, arg: Int32, link: Linkage, console: Console)
      requires Valid()
      modifies words, console
      ensures console.events == old(console.events) + Run(code, link, address, old(Data()), arg).events
      ensures words[..] == old(words[..])[0 := VptrAfter(old(Vptr()), Run(code, link, address, old(Data()), arg))]
      decreases Rank(code)
    {
      match code
      case Native(DoData(Base)) => console.Log(BaseDoDataPrinted(arg));
      case Native(DoData(Derived)) => console.Log(DerivedDoDataPrinted(arg));
      case Native(BaseUseData) => console.Log(UseDataPrinted(arg));
      case Native(DerivedMaybeData) => console.Log(MaybeDataPrinted);
      case Native(PureVirtual) => console.Log(PureVirtualCalled);
      case Native(CompleteDestructor(Base)) =>
        words[0] := AddressPoint(link, Base);
        console.Log(UseDataPrinted(Data()));
      case Native(CompleteDestructor(Derived)) =>
        words[0] := AddressPoint(link, Derived);
        console.Log(UseDataPrinted(DerivedDestructorValue));
        Invoke(Native(CompleteDestructor(Base)), arg, link, console);
      case Native(DeletingDestructor(cls)) =>
        Invoke(Native(CompleteDestructor(cls)), arg, link, console);
        console.Log(Freed(address));
      case Host(CustomDestructor1) =>
        console.Log(HostLogged(CustomDestructor1, [address as int]));
        Invoke(Native(CompleteDestructor(Base)), arg, link, console);
      case Host(CustomDestructor0) =>
        console.Log(HostLogged(CustomDestructor0, [address as int]));
        Invoke(Native(DeletingDestructor(Base)), arg, link, console);
      case Host(hook) => console.Log(HostLogged(hook, [address as int, arg as int]));
      case Native(_) => console.Log(Unmodelled(code));
    }

    /** A virtual call through slot `slot` of whatever table the vtable pointer designates. */
    method VirtualCall(slot: nat, arg: Int32, mem: Memory, code: map<Word, Code>, link: Linkage, console: Console)
      requires Valid() && slot <= MaybeDataSlot
      modifies words, console
      ensures var e := Dispatch(mem, code, link, address, old(Vptr()), old(Data()), slot, arg);
        && console.events == old(console.events) + e.events
        && words[..] == old(words[..])[0 := VptrAfter(old(Vptr()), e)]
    {
      var a := WordAddress(words[0], slot);
      if a !in mem {
        console.Log(Fault(a));
      } else if mem[a] !in code {
        console.Log(Fault(mem[a]));
      } else {
        Invoke(code[mem[a]], arg, link, console);
      }
    }

    /** The argument callDoDataMethod passes to doData. */
    static const DoDataArgument: Int32 := 313

    /** callDoDataMethod(instance): `instance->doData(313)`. */
    static method CallDoDataMethod(instance: Instance, mem: Memory, code: map<Word, Code>, link: Linkage,
                                   console: Console)
      requires instance.Valid()
      modifies instance.words, console
      ensures var e := Dispatch(mem, code, link, instance.address, old(instance.Vptr()), old(instance.Data()),
                                DoDataSlot, DoDataArgument);
        && console.events == old(console.events) + e.events
        && instance.words[..] == old(instance.words[..])[0 := VptrAfter(old(instance.Vptr()), e)]
    {
      instance.VirtualCall(DoDataSlot, DoDataArgument, mem, code, link, console);
    }

    /**
     * callDelete(instance): `instance->~PartiallyVirtualClass()`, a virtual call
     * of the complete-object destructor, which does not release the object.
     */
    static method CallDelete(instance: Instance, mem: Memory, code: map<Word, Code>, link: Linkage,
                             console: Console)
      requires instance.Valid()
      modifies instance.words, console
      ensures var e := Dispatch(mem, code, link, instance.address, old(instance.Vptr()), old(instance.Data()),
                                CompleteDestructorSlot, 0);
        && console.events == old(console.events) + e.events
        && instance.words[..] == old(instance.words[..])[0 := VptrAfter(old(instance.Vptr()), e)]
    {
      instance.VirtualCall(CompleteDestructorSlot, 0, mem, code, link, console);
    }

    /**
     * createLambda(callback, userdata, userdata2): callback_ is set to a
     * closure capturing the three values, and a reference to callback_ itself
     * is returned.
     */
    method CreateLambda(fn: Word, userdata: Word, userdata2: Word) returns (lambda: StdFunction)
      modifies callback
      ensures lambda == callback
      ensures callback.target == Some(Closure(fn, userdata, userdata2))
    {
      callback.target := Some(Closure(fn, userdata, userdata2));
      lambda := callback;
    }

    /**
     * callLambda(lambda): invokes `lambda` once; an empty std::function
     * throws bad_function_call instead. The function itself is left as it was.
     */
    static method CallLambda(lambda: StdFunction, code: map<Word, Code>, console: Console)
      modifies console
      ensures lambda.target.None? ==> console.events == old(console.events) + [BadFunctionCall]
      ensures lambda.target.Some? ==> console.events == old(console.events) + [Invocation(code, lambda.target.value)]
    {
      match lambda.target
      case None => console.Log(BadFunctionCall);
      case Some(c) => console.Log(Invocation(code, c));
    }
  }

  /** A closure made by createLambda around LAMBDA_CALLBACK passes both captured pointers on as they are. */
  lemma InvocationPassesArguments(code: map<Word, Code>, link: Linkage, userdata: Word, userdata2: Word)
    requires forall c :: AddressOf(link, c) in code && code[AddressOf(link, c)] == c
    ensures Invocation(code, Closure(link.trampoline(LambdaCallback), userdata, userdata2))
         == HostLogged(LambdaCallback, [userdata as int, userdata2 as int])
  {
    assert AddressOf(link, Host(LambdaCallback)) == link.trampoline(LambdaCallback);
  }
}
