/**
 * The symbol declarations of the harness script (inheritedClass.ts), the
 * reverse index POINTER_NAME_TABLE built from them, and getPointerName, the
 * diagnostic lookup that renders an address as a binding name or as base-16
 * text.
 */
module SymbolIndex {
  import opened Text
  import opened Words
  import opened Library

  /**
   * One entry of the object passed to Deno.dlopen: its key, the symbol its
   * mangled name resolves to, and whether it binds a callable (a function
   * binding) or a raw address (a `type: "pointer"` binding).
   */
  datatype Declaration = Declaration(key: string, symbol: Symbol, callable: bool)

  /**
   * The declarations, in the order Object.entries(lib.symbols) lists them.
   * Long keys are written as concatenations so that proofs can see their prefixes.
   */
  const Declarations: seq<Declaration> := [
    Declaration("example_lib__" + "PartiallyVirtualClass__Constructor", Constructor, true),
    Declaration("example_lib__" + "PartiallyVirtualClass__Destructor", CompleteDestructor(Base), true),
    Declaration("example_lib__" + "PartiallyVirtualClass__Destructor0", DeletingDestructor(Base), true),
    Declaration("example_lib__Derived__Destructor0", DeletingDestructor(Derived), true),
    Declaration("example_lib__Derived__Destructor1", CompleteDestructor(Derived), true),
    Declaration("example_lib__PartiallyVirtualClass__useData", BaseUseData, true),
    Declaration("example_lib__" + "PartiallyVirtualClass__callDoDataMethod", CallDoDataMethod, true),
    Declaration("example_lib__" + "PartiallyVirtualClass__callDelete", CallDelete, true),
    Declaration("example_lib__" + "PartiallyVirtualClass__createLambda", CreateLambda, true),
    Declaration("example_lib__" + "PartiallyVirtualClass__callLambda", CallLambda, true),
    Declaration("ptr_PartiallyVirtualClass__VTABLE", Vtable(Base), false),
    Declaration("ptr_useData", BaseUseData, false),
    Declaration("ptr_doData", DoData(Base), false),
    Declaration("ptr_callDoDataMethod", CallDoDataMethod, false),
    Declaration("ptr_callDelete", CallDelete, false),
    Declaration("ptr_createLambda", CreateLambda, false),
    Declaration("ptr_callLambda", CallLambda, false),
    Declaration("ptr_Constructor", Constructor, false),
    Declaration("ptr_Destructor", CompleteDestructor(Base), false),
    Declaration("ptr_Destructor0", DeletingDestructor(Base), false),
    Declaration("ptr_Derived_doData", DoData(Derived), false),
    Declaration("ptr_Derived_Destructor0", DeletingDestructor(Derived), false),
    Declaration("ptr_Derived_Destructor1", CompleteDestructor(Derived), false),
    Declaration("ptr_Derived_maybeData", DerivedMaybeData, false),
    Declaration("ptr_Derived_typeinfo", Typeinfo(Derived), false),
    Declaration("ptr_Derived_typeinfo_name", TypeinfoName(Derived), false),
    Declaration("ptr_typeinfo", Typeinfo(Base), false),
    Declaration("ptr_typeinfo_name", TypeinfoName(Base), false),
    Declaration("ptr_Derived_VTABLE", Vtable(Derived), false),
    Declaration("ptr_" + "ZN11example_lib21PartiallyVirtualClass10callLambdaERKSt8functionIFvvEE", CallLambda, false),
    Declaration("ptr_pure_virtual", PureVirtual, false),
    Declaration("cxa_pure_virtual", PureVirtual, true)
  ]

  /**
   * What lib.symbols holds for a declaration: a pointer value for a
   * `type: "pointer"` binding, a JavaScript function for a function binding.
   */
  datatype Value = Pointer(address: Word) | Callable

  /** One entry of lib.symbols: its key and the value bound to it. */
  datatype Binding = Binding(key: string, value: Value)

  /**
   * lib.symbols once the library is loaded with the given linkage: a pointer
   * declaration holds its symbol's address, a function declaration a callable.
   */
  function Bound(link: Linkage): (bs: seq<Binding>)
    ensures |bs| == |Declarations|
    ensures forall i :: 0 <= i < |bs| ==> bs[i].key == Declarations[i].key
    ensures forall i :: 0 <= i < |bs| ==> (bs[i].value.Pointer? <==> !Declarations[i].callable)
    ensures forall i :: 0 <= i < |bs| && bs[i].value.Pointer? ==>
      bs[i].value.address == link.symbol(Declarations[i].symbol)
  {
    seq(|Declarations|, i requires 0 <= i < |Declarations| =>
      Binding(Declarations[i].key,
        if Declarations[i].callable then Callable else Pointer(link.symbol(Declarations[i].symbol))))
  }

  /** A JavaScript number as `Number(value)` produces it from an entry of lib.symbols. */
  datatype Number = Finite(w: Word) | NaN

  /** `Number(value)`: the address of a pointer value, NaN for a function. */
  function NumberOf(v: Value): Number {
    match v
    case Pointer(a) => Finite(a)
    case Callable => NaN
  }

  /**
   * JavaScript's `left || right` for a string `left` and a boolean `right`:
   * `left` when it is truthy (non-empty), otherwise `right`, which startsWith
   * then converts to the text "true" or "false".
   */
  function JsOr(left: string, right: bool): string {
    if left != "" then left else if right then "true" else "false"
  }

  /** The filter of line 167: `key.startsWith("ptr_" || key.endsWith("VTABLE"))`. */
  predicate Selected(key: string) {
    StartsWith(key, JsOr("ptr_", EndsWith(key, "VTABLE")))
  }

  /** The `||` sits inside the argument, so the VTABLE-suffix test never takes part. */
  lemma SelectedIffPointerPrefix(key: string)
    ensures Selected(key) <==> StartsWith(key, "ptr_")
  {
  }

  /**
   * POINTER_NAME_TABLE: `new Map(entries.filter(...).map(x => [Number(x[1]), x[0]]))`.
   * The Map constructor sets the pairs in order, so a later pair replaces an
   * earlier one with the same number.
   */
  function NameTable(bs: seq<Binding>): map<Number, string>
    decreases |bs|
  {
    if bs == [] then map[]
    else
      var rest := NameTable(bs[..|bs| - 1]);
      var b := bs[|bs| - 1];
      if Selected(b.key) then rest[NumberOf(b.value) := b.key] else rest
  }

  /** A number is in the table exactly when some selected binding converts to it. */
  lemma {:induction false} NameTableKeys(bs: seq<Binding>, n: Number)
    ensures n in NameTable(bs) <==>
      exists i :: 0 <= i < |bs| && Selected(bs[i].key) && NumberOf(bs[i].value) == n
    decreases |bs|
  {
    if bs != [] {
      var init := bs[..|bs| - 1];
      NameTableKeys(init, n);
      if n in NameTable(bs) && !(n in NameTable(init)) {
        assert Selected(bs[|bs| - 1].key) && NumberOf(bs[|bs| - 1].value) == n;
      }
      if exists i :: 0 <= i < |bs| && Selected(bs[i].key) && NumberOf(bs[i].value) == n {
        var i :| 0 <= i < |bs| && Selected(bs[i].key) && NumberOf(bs[i].value) == n;
        if i < |bs| - 1 {
          assert init[i] == bs[i];
        }
      }
      forall i | 0 <= i < |init| && Selected(init[i].key) && NumberOf(init[i].value) == n
        ensures n in NameTable(bs)
      {
        assert bs[i] == init[i];
      }
    }
  }

  /** Every name in the table is the key of a selected binding that converts to its number. */
  lemma {:induction false} NameTableValues(bs: seq<Binding>, n: Number)
    requires n in NameTable(bs)
    ensures exists i :: 0 <= i < |bs| && Selected(bs[i].key) && NumberOf(bs[i].value) == n
                        && NameTable(bs)[n] == bs[i].key
    ensures StartsWith(NameTable(bs)[n], "ptr_")
    decreases |bs|
  {
    var init := bs[..|bs| - 1];
    var last := bs[|bs| - 1];
    if Selected(last.key) && NumberOf(last.value) == n {
      assert NameTable(bs)[n] == last.key;
    } else {
      NameTableValues(init, n);
      var i :| 0 <= i < |init| && Selected(init[i].key) && NumberOf(init[i].value) == n
               && NameTable(init)[n] == init[i].key;
      assert bs[i] == init[i];
    }
  }

  /** The later binding wins: the name of a number is the key of the last selected binding with it. */
  lemma {:induction false} NameTableLast(bs: seq<Binding>, j: nat)
    requires j < |bs| && Selected(bs[j].key)
    requires forall i :: j < i < |bs| && Selected(bs[i].key) ==>
      NumberOf(bs[i].value) != NumberOf(bs[j].value)
    ensures NumberOf(bs[j].value) in NameTable(bs)
    ensures NameTable(bs)[NumberOf(bs[j].value)] == bs[j].key
    decreases |bs|
  {
    if j < |bs| - 1 {
      var init := bs[..|bs| - 1];
      forall i | j < i < |init| && Selected(init[i].key)
        ensures NumberOf(init[i].value) != NumberOf(init[j].value)
      {
        assert init[i] == bs[i];
      }
      NameTableLast(init, j);
    }
  }

  /** Declarations 0-9 bind functions, under keys with the `example_lib__` prefix. */
  lemma FunctionKeys(i: nat)
    requires i < 10
    ensures Declarations[i].callable && !StartsWith(Declarations[i].key, "ptr_")
  {
    var key := Declarations[i].key;
    if i == 0 { assert key[0] == 'e'; }
    else if i == 1 { assert key[0] == 'e'; }
    else if i == 2 { assert key[0] == 'e'; }
    else if i == 3 { assert key[0] == 'e'; }
    else if i == 4 { assert key[0] == 'e'; }
    else if i == 5 { assert key[0] == 'e'; }
    else if i == 6 { assert key[0] == 'e'; }
    else if i == 7 { assert key[0] == 'e'; }
    else if i == 8 { assert key[0] == 'e'; }
    else { assert key[0] == 'e'; }
  }

  /** Declarations 10-14 (the base vtable, useData, doData, callDoDataMethod, callDelete) bind pointers, under keys with the `ptr_` prefix. */
  lemma BasePointerKeys(i: nat)
    requires 10 <= i < 15
    ensures !Declarations[i].callable && StartsWith(Declarations[i].key, "ptr_")
  {
    var key := Declarations[i].key;
    if i == 10 { assert key[..4] == "ptr_"; }
    else if i == 11 { assert key[..4] == "ptr_"; }
    else if i == 12 { assert key[..4] == "ptr_"; }
    else if i == 13 { assert key[..4] == "ptr_"; }
    else { assert key[..4] == "ptr_"; }
  }

  /** Declarations 15-19 (createLambda, callLambda and the base constructor and destructors) bind pointers, under keys with the `ptr_` prefix. */
  lemma LifetimePointerKeys(i: nat)
    requires 15 <= i < 20
    ensures !Declarations[i].callable && StartsWith(Declarations[i].key, "ptr_")
  {
    var key := Declarations[i].key;
    if i == 15 { assert key[..4] == "ptr_"; }
    else if i == 16 { assert key[..4] == "ptr_"; }
    else if i == 17 { assert key[..4] == "ptr_"; }
    else if i == 18 { assert key[..4] == "ptr_"; }
    else { assert key[..4] == "ptr_"; }
  }

  /** Declarations 20-25 (Derived's overrides, destructors and typeinfo) bind pointers, under keys with the `ptr_` prefix. */
  lemma DerivedPointerKeys(i: nat)
    requires 20 <= i < 26
    ensures !Declarations[i].callable && StartsWith(Declarations[i].key, "ptr_")
  {
    var key := Declarations[i].key;
    if i == 20 { assert key[..4] == "ptr_"; }
    else if i == 21 { assert key[..4] == "ptr_"; }
    else if i == 22 { assert key[..4] == "ptr_"; }
    else if i == 23 { assert key[..4] == "ptr_"; }
    else if i == 24 { assert key[..4] == "ptr_"; }
    else { assert key[..4] == "ptr_"; }
  }

  /** Declarations 26-30 (the base typeinfo, Derived's vtable, the mangled callLambda key and the pure virtual sentinel) bind pointers, under keys with the `ptr_` prefix. */
  lemma TailPointerKeys(i: nat)
    requires 26 <= i < 31
    ensures !Declarations[i].callable && StartsWith(Declarations[i].key, "ptr_")
  {
    var key := Declarations[i].key;
    if i == 26 { assert key[..4] == "ptr_"; }
    else if i == 27 { assert key[..4] == "ptr_"; }
    else if i == 28 { assert key[..4] == "ptr_"; }
    else if i == 29 { StartsWithConcat("ptr_", "ZN11example_lib21PartiallyVirtualClass10callLambdaERKSt8functionIFvvEE"); }
    else { assert key[..4] == "ptr_"; }
  }

  /**
   * A binding is selected exactly when it holds a pointer: every pointer
   * declaration has a `ptr_` key and no function declaration does
   * (cxa_pure_virtual, the last one, has the prefix `cxa_`).
   */
  lemma SelectedIffPointer(link: Linkage, i: nat)
    requires i < |Declarations|
    ensures Selected(Bound(link)[i].key) <==> !Declarations[i].callable
    ensures Selected(Bound(link)[i].key) <==> Bound(link)[i].value.Pointer?
  {
    SelectedIffPointerPrefix(Declarations[i].key);
    if i < 10 {
      FunctionKeys(i);
    } else if i < 15 {
      BasePointerKeys(i);
    } else if i < 20 {
      LifetimePointerKeys(i);
    } else if i < 26 {
      DerivedPointerKeys(i);
    } else if i < 31 {
      TailPointerKeys(i);
    } else {
      assert Declarations[i].key[0] == 'c';
    }
  }

  /**
   * POINTER_NAME_TABLE of the loaded library: NaN is not a key, and the
   * address of every pointer declaration is.
   */
  lemma TableOfLoadedLibrary(link: Linkage)
    ensures NaN !in NameTable(Bound(link))
    ensures forall i :: 0 <= i < |Declarations| && !Declarations[i].callable ==>
      Finite(link.symbol(Declarations[i].symbol)) in NameTable(Bound(link))
  {
    var bs := Bound(link);
    NameTableKeys(bs, NaN);
    forall i | 0 <= i < |bs| && Selected(bs[i].key)
      ensures NumberOf(bs[i].value) != NaN
    {
      SelectedIffPointer(link, i);
    }
    forall i | 0 <= i < |Declarations| && !Declarations[i].callable
      ensures Finite(link.symbol(Declarations[i].symbol)) in NameTable(bs)
    {
      SelectedIffPointer(link, i);
      NameTableKeys(bs, Finite(link.symbol(Declarations[i].symbol)));
    }
  }

  /** What getPointerName returns: a name or base-16 text, or the number itself. */
  datatype Rendered = Label(text: string) | Numeric(value: Word)

  /**
   * getPointerName(x, convert): `POINTER_NAME_TABLE.get(x) || (convert ? x.toString(16) : x)`.
   * A missing entry and an empty name are both falsy.
   */
  function PointerName(table: map<Number, string>, x: Word, convert: bool): Rendered {
    if Finite(x) in table && table[Finite(x)] != "" then Label(table[Finite(x)])
    else if convert then Label(ToHex(x as nat))
    else Numeric(x)
  }

  /** A bound address renders as the key of the last selected binding that has it. */
  lemma LookupPresent(bs: seq<Binding>, j: nat, convert: bool)
    requires j < |bs| && Selected(bs[j].key) && bs[j].value.Pointer?
    requires forall i :: j < i < |bs| && Selected(bs[i].key) ==> bs[i].value != bs[j].value
    ensures PointerName(NameTable(bs), bs[j].value.address, convert) == Label(bs[j].key)
  {
    NameTableLast(bs, j);
    assert StartsWith(bs[j].key, "ptr_");
  }

  /**
   * An address no selected binding has renders as `x.toString(16)`, the
   * shortest base-16 text, which reads back as the address, or, with
   * `convert` false, as the number itself.
   */
  lemma LookupAbsent(bs: seq<Binding>, x: Word, convert: bool)
    requires forall i :: 0 <= i < |bs| && Selected(bs[i].key) ==> bs[i].value != Pointer(x)
    ensures var r := PointerName(NameTable(bs), x, convert);
      if convert then r == Label(ToHex(x as nat)) && IsHexNumeral(r.text) && FromHex(r.text) == x as nat
                      && (r.text[0] == '0' <==> x == 0)
      else r == Numeric(x)
  {
    NameTableKeys(bs, Finite(x));
    HexRoundTrip(x as nat);
  }

  /**
   * The name POINTER_NAME_TABLE gives a symbol's address, when distinct
   * symbols have distinct addresses: the key of the symbol's last pointer
   * declaration.
   */
  lemma LabelOfLastPointer(link: Linkage, j: nat)
    requires Separated(link)
    requires j < |Declarations| && !Declarations[j].callable
    requires forall i :: j < i < |Declarations| ==>
      Declarations[i].callable || Declarations[i].symbol != Declarations[j].symbol
    ensures PointerName(NameTable(Bound(link)), link.symbol(Declarations[j].symbol), true)
            == Label(Declarations[j].key)
  {
    var bs := Bound(link);
    SelectedIffPointer(link, j);
    forall i | j < i < |bs| && Selected(bs[i].key)
      ensures bs[i].value != bs[j].value
    {
      SelectedIffPointer(link, i);
      assert AddressOf(link, Native(Declarations[i].symbol)) != AddressOf(link, Native(Declarations[j].symbol));
    }
    LookupPresent(bs, j, true);
  }

  /** The index of the last pointer declaration of each symbol (every symbol has one). */
  function PointerIndex(s: Symbol): nat {
    match s
    case Constructor => 17
    case CompleteDestructor(cls) => if cls == Base then 18 else 22
    case DeletingDestructor(cls) => if cls == Base then 19 else 21
    case DoData(cls) => if cls == Base then 12 else 20
    case BaseUseData => 11
    case DerivedMaybeData => 23
    case CallDoDataMethod => 13
    case CallDelete => 14
    case CreateLambda => 15
    case CallLambda => 29
    case PureVirtual => 30
    case Vtable(cls) => if cls == Base then 10 else 28
    case Typeinfo(cls) => if cls == Base then 26 else 24
    case TypeinfoName(cls) => if cls == Base then 27 else 25
  }

  /** The key getPointerName prints for the address of each symbol. */
  function PointerKey(s: Symbol): string {
    match s
    case Constructor => "ptr_Constructor"
    case CompleteDestructor(cls) => if cls == Base then "ptr_Destructor" else "ptr_Derived_Destructor1"
    case DeletingDestructor(cls) => if cls == Base then "ptr_Destructor0" else "ptr_Derived_Destructor0"
    case DoData(cls) => if cls == Base then "ptr_doData" else "ptr_Derived_doData"
    case BaseUseData => "ptr_useData"
    case DerivedMaybeData => "ptr_Derived_maybeData"
    case CallDoDataMethod => "ptr_callDoDataMethod"
    case CallDelete => "ptr_callDelete"
    case CreateLambda => "ptr_createLambda"
    case CallLambda => "ptr_" + "ZN11example_lib21PartiallyVirtualClass10callLambdaERKSt8functionIFvvEE"
    case PureVirtual => "ptr_pure_virtual"
    case Vtable(cls) => if cls == Base then "ptr_PartiallyVirtualClass__VTABLE" else "ptr_Derived_VTABLE"
    case Typeinfo(cls) => if cls == Base then "ptr_typeinfo" else "ptr_Derived_typeinfo"
    case TypeinfoName(cls) => if cls == Base then "ptr_typeinfo_name" else "ptr_Derived_typeinfo_name"
  }

  /** Declaration PointerIndex(s) is a pointer to s under the key PointerKey(s), and no later one points to s. */
  predicate IsLastPointer(s: Symbol) {
    var j := PointerIndex(s);
    && j < |Declarations|
    && Declarations[j].symbol == s && !Declarations[j].callable && Declarations[j].key == PointerKey(s)
    && forall i :: j < i < |Declarations| ==> Declarations[i].callable || Declarations[i].symbol != s
  }

  /** Declaration PointerIndex(s) is a pointer declaration of s. */
  lemma PointerIndexSymbol(s: Symbol)
    ensures PointerIndex(s) < |Declarations|
    ensures Declarations[PointerIndex(s)].symbol == s && !Declarations[PointerIndex(s)].callable
  {
  }

  /** A symbol of one of the two classes: its destructors, doData, vtable, typeinfo and type name. */
  predicate PerClass(s: Symbol) {
    s.CompleteDestructor? || s.DeletingDestructor? || s.DoData? || s.Vtable? || s.Typeinfo? || s.TypeinfoName?
  }

  /** Declaration PointerIndex(s) has the key PointerKey(s), for the per-class symbols. */
  lemma PerClassKey(s: Symbol)
    requires PerClass(s)
    ensures PointerIndex(s) < |Declarations| && Declarations[PointerIndex(s)].key == PointerKey(s)
  {
  }

  /** Declaration PointerIndex(s) has the key PointerKey(s), for the other symbols. */
  lemma SharedKey(s: Symbol)
    requires !PerClass(s)
    ensures PointerIndex(s) < |Declarations| && Declarations[PointerIndex(s)].key == PointerKey(s)
  {
  }

  /** Declaration PointerIndex(s) has the key PointerKey(s). */
  lemma PointerIndexKey(s: Symbol)
    ensures PointerIndex(s) < |Declarations| && Declarations[PointerIndex(s)].key == PointerKey(s)
  {
    if PerClass(s) {
      PerClassKey(s);
    } else {
      SharedKey(s);
    }
  }

  /** No pointer declaration after PointerIndex(s) is one of s. */
  lemma PointerIndexLast(s: Symbol)
    ensures PointerIndex(s) < |Declarations|
    ensures forall i :: PointerIndex(s) < i < |Declarations| ==>
      Declarations[i].callable || Declarations[i].symbol != s
  {
  }

  /** Every symbol's last pointer declaration is the one PointerIndex names. */
  lemma PointerDeclaration(s: Symbol)
    ensures IsLastPointer(s)
  {
    PointerIndexSymbol(s);
    PointerIndexKey(s);
    PointerIndexLast(s);
  }

  /** getPointerName labels the address of every symbol with that symbol's `ptr_` key. */
  lemma SymbolLabel(link: Linkage, s: Symbol)
    requires Separated(link)
    ensures PointerName(NameTable(Bound(link)), link.symbol(s), true) == Label(PointerKey(s))
  {
    PointerDeclaration(s);
    LabelOfLastPointer(link, PointerIndex(s));
  }

  /** No binding is at address 0, so getPointerName(0) is "0". */
  lemma LabelOfZero(link: Linkage)
    requires Separated(link)
    ensures PointerName(NameTable(Bound(link)), 0, true) == Label("0")
  {
    var bs := Bound(link);
    forall i | 0 <= i < |bs| && Selected(bs[i].key)
      ensures bs[i].value != Pointer(0)
    {
      SelectedIffPointer(link, i);
      assert AddressOf(link, Native(Declarations[i].symbol)) != 0;
    }
    LookupAbsent(bs, 0, true);
    assert ToHex(0) == [HexDigit(0)];
  }

  /** ptr_callLambda and the later key spelt with the mangled name bind the same address. */
  lemma CallLambdaBoundTwice(link: Linkage)
    ensures Bound(link)[16].value == Bound(link)[29].value == Pointer(link.symbol(CallLambda))
  {
    assert Declarations[16].symbol == CallLambda && !Declarations[16].callable;
    assert Declarations[29].symbol == CallLambda && !Declarations[29].callable;
  }

  /** Of the two keys bound to callLambda's address, the table keeps the later, mangled one. */
  lemma CallLambdaLaterKeyWins(link: Linkage)
    requires Separated(link)
    ensures PointerName(NameTable(Bound(link)), link.symbol(CallLambda), true)
            == Label("ptr_" + "ZN11example_lib21PartiallyVirtualClass10callLambdaERKSt8functionIFvvEE")
  {
    SymbolLabel(link, CallLambda);
  }
}
