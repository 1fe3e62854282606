/**
 * What the shared library built from inherited_class.cpp exports, what the
 * host side exposes as trampolines, and where each of them lives. Addresses
 * are chosen by the dynamic linker and by Deno at run time, so they are a
 * parameter of the model (a Linkage), never constants.
 */
module Library {
  import opened Words

  /** example_lib::PartiallyVirtualClass and example_lib::Derived. */
  datatype Class = Base | Derived

  /** The symbols the harness binds (each stands for one mangled name). */
  datatype Symbol =
    | Constructor                        // PartiallyVirtualClass(int), complete-object variant (C1)
    | CompleteDestructor(cls: Class)     // ~X(), complete-object variant (D1)
    | DeletingDestructor(cls: Class)     // ~X(), deleting variant (D0)
    | DoData(cls: Class)                 // X::doData(int)
    | BaseUseData                        // PartiallyVirtualClass::useData(int)
    | DerivedMaybeData                   // Derived::maybeData()
    | CallDoDataMethod                   // static PartiallyVirtualClass::callDoDataMethod
    | CallDelete                         // static PartiallyVirtualClass::callDelete
    | CreateLambda                       // PartiallyVirtualClass::createLambda
    | CallLambda                         // static PartiallyVirtualClass::callLambda
    | PureVirtual                        // __cxa_pure_virtual, the pure virtual sentinel
    | Vtable(cls: Class)                 // the virtual table of X
    | Typeinfo(cls: Class)               // the type_info object of X
    | TypeinfoName(cls: Class)           // the type name string of X

  /** The host functions the script turns into foreign-callable trampolines. */
  datatype Trampoline =
    | CustomDestructor1    // logs, then calls the base complete-object destructor
    | CustomDestructor0    // logs, then calls the base deleting destructor
    | DoDataHook           // DO_DATA: logs its two arguments
    | UseDataHook          // USE_DATA: logs its two arguments under the same "doData:" label
                           // as DO_DATA; its event names the hook, which the log line does
                           // not, and no call in the script reaches this slot
    | LambdaCallback       // LAMBDA_CALLBACK: void(void*, void*), logs its two arguments

  /** Whatever an address can hold: something of the library's, or a trampoline. */
  datatype Code = Native(symbol: Symbol) | Host(trampoline: Trampoline)

  /** Where the linker put each symbol and where Deno put each trampoline. */
  datatype Linkage = Linkage(symbol: Symbol -> Word, trampoline: Trampoline -> Word)

  function AddressOf(link: Linkage, c: Code): Word {
    match c
    case Native(s) => link.symbol(s)
    case Host(t) => link.trampoline(t)
  }

  /** Distinct symbols and trampolines never share an address, and none is at address 0. */
  ghost predicate Separated(link: Linkage) {
    && (forall c, d :: c != d ==> AddressOf(link, c) != AddressOf(link, d))
    && (forall c :: AddressOf(link, c) != 0)
  }
}
