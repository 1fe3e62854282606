# Denonomicon: vtable injection harness and documentation-site navigation

This project models two parts of the Denonomicon repository and proves
properties of them.

**The foreign-function example** has two halves. `examples/cpp/inherited_class.cpp`
is a small C++ library: `PartiallyVirtualClass` has a virtual destructor,
`doData`, `useData` and a pure `maybeData`; `Derived` overrides `doData` and
`maybeData`. `examples/cpp/inheritedClass.ts` is a Deno script that drives the
library at the level of machine words. It:

- builds a reverse index from symbol addresses to binding names, to label
  vtable snapshots;
- reads seven words of each class's virtual table;
- constructs an object in a 48-byte host buffer;
- redirects the object's vtable pointer, first to `Derived`'s table and then
  to a hand-built table of host trampolines, calling `callDoDataMethod` after
  each change;
- finally stores a closure in the object's `std::function` member and calls it.

The model works like this:

- Memory is a map from 64-bit address to 64-bit word (`ForeignMemory`).
- Where the linker and Deno put each symbol and trampoline is a parameter, a
  `Linkage` (`Library`).
- The tables follow the Itanium C++ ABI, section 2.5.2 (`Abi`): an
  offset-to-top word, a typeinfo word, the address point, then D1, D0,
  `doData`, `useData` and `maybeData`.
- The object is a class over six words, with its `std::function` member
  kept alongside (`ExampleLib.Instance`).
- A `Console` records the print calls in the order they are made: each
  `printf` of the library and each `console.log` of a trampoline is one
  event. The diagnostic logs of the two snapshots (inheritedClass.ts:206-211)
  are not events; `Harness.SnapshotLabels` states what they show.
- `Run` and `Dispatch` specify what executing code, or a virtual call
  through the vtable pointer, does. The methods of `Instance` are proved
  against them.
- `Harness.Script` is the script from line 213 on. Its contract is the
  complete log, the final vtable pointer and `data_` of the object, and the
  final contents of the hand-built table and the closure buffer.

**The documentation site** is covered by two modules:

- `Navigation` models the path logic of `routes/index.tsx`: the default
  path, the flat page list, the previous/next links, the title map and
  document title, which table-of-contents items are highlighted, expanded or
  disabled, and the GET handler's redirect and 404 rules.
- `Urls` models the two URL builders of `util/utils.ts`.
- `UrlPath` models the `pathname` setter the redirect goes through, as the
  URL Standard (WHATWG) defines it for http(s) URLs: dot segments (`.`,
  `..`, and their `%2e` spellings) are removed when the value is parsed.

The page list and the title map are built with loops in the source. Each
becomes both a recursive function and a method with loops proved equal to
it.

Some details of the code that the model reproduces:

- `callDoDataMethod` passes the constant 313 to `doData`, whatever `data_`
  holds.
- `LAMBDA_CALLBACK` receives the raw values 12345 and 34654754 as its two
  pointer arguments.
- `disabled` is `!entry.children`, so an entry with an empty `children`
  object is not disabled.
- The filter `key.startsWith("ptr_" || key.endsWith("VTABLE"))` is the same
  as `key.startsWith("ptr_")`, because the `||` sits inside the argument.
  Both VTABLE keys start with `ptr_`.
- `callDelete` calls the destructor virtually through slot 0, the
  complete-object destructor, so it never frees the object.

## Model

| member | source | states |
|---|---|---|
| Words.Offset | examples/cpp/inheritedClass.ts:217 | `a + n` on addresses is taken modulo 2^64, as a BigUint64Array store reduces it |
| Words.StoreInt32 | examples/cpp/inherited_class.cpp:35-36 | storing `data_` into the low half of word 1 keeps the high half, and the int reads back unchanged |
| Words.HexRoundTrip | examples/cpp/inheritedClass.ts:170-171 | `x.toString(16)` is a non-empty lower-case base-16 numeral that reads back as `x`, with a leading zero only for 0 |
| SymbolIndex.Bound | examples/cpp/inheritedClass.ts:13-161 | `lib.symbols` has one binding per declaration, in declaration order under the declaration's key; a `type: "pointer"` declaration holds its symbol's address, a function declaration holds a callable |
| SymbolIndex.FunctionKeys | examples/cpp/inheritedClass.ts:13-64 | the first ten declarations are functions, and none of their keys starts with `ptr_` |
| SymbolIndex.BasePointerKeys | examples/cpp/inheritedClass.ts:65-84 | declarations 10-14 (the base vtable, useData, doData, callDoDataMethod, callDelete) are pointers with `ptr_` keys |
| SymbolIndex.LifetimePointerKeys | examples/cpp/inheritedClass.ts:85-106 | declarations 15-19 (createLambda, callLambda, the base constructor and destructors) are pointers with `ptr_` keys |
| SymbolIndex.DerivedPointerKeys | examples/cpp/inheritedClass.ts:111-134 | declarations 20-25 (Derived's doData, destructors, maybeData and typeinfo) are pointers with `ptr_` keys |
| SymbolIndex.TailPointerKeys | examples/cpp/inheritedClass.ts:135-156 | declarations 26-30 (the base typeinfo, Derived's vtable, the mangled callLambda key, ptr_pure_virtual) are pointers with `ptr_` keys |
| SymbolIndex.SelectedIffPointer | examples/cpp/inheritedClass.ts:13-168 | a binding passes the filter exactly when its declaration is a pointer, i.e. exactly when it holds an address rather than a callable |
| SymbolIndex.TableOfLoadedLibrary | examples/cpp/inheritedClass.ts:13-168 | in the table of the loaded library, NaN (`Number` of a callable) is never a key, and the address of every pointer declaration is one |
| SymbolIndex.SelectedIffPointerPrefix | examples/cpp/inheritedClass.ts:165-168 | the filter selects a key exactly when it starts with `ptr_`; the VTABLE-suffix test never takes part |
| SymbolIndex.NameTableKeys | examples/cpp/inheritedClass.ts:165-168 | a number is in POINTER_NAME_TABLE exactly when some selected binding converts to it under `Number` |
| SymbolIndex.NameTableValues | examples/cpp/inheritedClass.ts:165-168 | every name in the table is the key of a selected binding that converts to that number, so it starts with `ptr_` |
| SymbolIndex.NameTableLast | examples/cpp/inheritedClass.ts:165-168 | of several selected bindings converting to the same number, the last one's key is the name |
| SymbolIndex.LookupPresent | examples/cpp/inheritedClass.ts:170-171 | getPointerName of a bound address returns the key of the last selected binding with it |
| SymbolIndex.LookupAbsent | examples/cpp/inheritedClass.ts:170-171 | getPointerName of an unbound address returns exactly `x.toString(16)` (ToHex), a lower-case base-16 numeral that reads back as the address, with a leading zero only for 0; with `convert` false it returns the number itself |
| SymbolIndex.LabelOfLastPointer | examples/cpp/inheritedClass.ts:13-171 | for any separated linkage, the address of a pointer declaration that no later pointer declaration of the same symbol follows is labelled with that declaration's key |
| SymbolIndex.LabelOfZero | examples/cpp/inheritedClass.ts:165-171 | no bound address is 0, so 0 is labelled "0" |
| SymbolIndex.PointerIndexSymbol | examples/cpp/inheritedClass.ts:65-156 | the pointer declaration PointerIndex picks for a symbol is a pointer declaration of that symbol |
| SymbolIndex.PerClassKey | examples/cpp/inheritedClass.ts:65-156 | for the per-class symbols, the picked declaration's key is PointerKey of the symbol |
| SymbolIndex.SharedKey | examples/cpp/inheritedClass.ts:65-156 | for the other symbols, the picked declaration's key is PointerKey of the symbol |
| SymbolIndex.PointerIndexKey | examples/cpp/inheritedClass.ts:65-156 | for every symbol, the picked declaration's key is PointerKey of the symbol |
| SymbolIndex.PointerIndexLast | examples/cpp/inheritedClass.ts:65-161 | no pointer declaration after the picked one has the same symbol |
| SymbolIndex.PointerDeclaration | examples/cpp/inheritedClass.ts:65-161 | every symbol has a last pointer declaration, keyed PointerKey of the symbol |
| SymbolIndex.SymbolLabel | examples/cpp/inheritedClass.ts:13-171 | for any separated linkage, getPointerName of a symbol's address is PointerKey of that symbol |
| SymbolIndex.CallLambdaBoundTwice | examples/cpp/inheritedClass.ts:90-94 | `ptr_callLambda` and the later mangled key (lines 147-152) bind the same address, callLambda's |
| SymbolIndex.CallLambdaLaterKeyWins | examples/cpp/inheritedClass.ts:147-152 | of the two keys bound to callLambda's address, lookup yields the later, mangled one |
| SymbolIndex.NumberOf | examples/cpp/inheritedClass.ts:168 | definition: `Number` of a binding's value, the address of a pointer and NaN for a callable |
| SymbolIndex.JsOr | examples/cpp/inheritedClass.ts:167 | definition: JavaScript `||` of a non-empty string and a boolean, which is the string |
| SymbolIndex.Selected | examples/cpp/inheritedClass.ts:166-167 | definition: the filter's test, `startsWith` of the `||` expression; covered by SelectedIffPointerPrefix |
| SymbolIndex.NameTable | examples/cpp/inheritedClass.ts:165-169 | definition: the Map built from the selected bindings, later keys overwriting earlier ones; covered by NameTableKeys, NameTableValues and NameTableLast |
| SymbolIndex.PointerName | examples/cpp/inheritedClass.ts:170-171 | definition: getPointerName; covered by LookupPresent and LookupAbsent |
| SymbolIndex.PointerIndex | examples/cpp/inheritedClass.ts:65-156 | definition: for each symbol, the index of its last pointer declaration; covered by PointerIndexSymbol, PointerIndexKey and PointerIndexLast |
| SymbolIndex.PointerKey | examples/cpp/inheritedClass.ts:65-156 | definition: the `ptr_` key getPointerName shows for each symbol; covered by PointerIndexKey |
| Words.LoadInt32 | examples/cpp/inherited_class.cpp:38 | definition: the `int` read from the low half of word 1, as `data_` is read; covered by StoreInt32 |
| Words.ToHex | examples/cpp/inheritedClass.ts:171 | definition: `toString(16)` of a non-negative integer; covered by HexRoundTrip |
| Abi.VtableImage | examples/cpp/inherited_class.cpp:8-34 | a class's table is a zero offset-to-top word, its typeinfo address, then the addresses of its slot entries in order |
| Abi.SlotOrder | examples/cpp/inherited_class.cpp:11-21 | declaration order gives the slots D1, D0, doData, useData, maybeData, so a table is 2 + 5 = 7 words, the script's `items` |
| Abi.DerivedOverridesOnly | examples/cpp/inherited_class.cpp:28-34 | Derived's entry differs from the base's exactly for doData and maybeData |
| Abi.UseDataShared | examples/cpp/inherited_class.cpp:61-63 | Derived's useData slot holds the same address as the base's, the base's useData |
| Abi.MaybeDataPure | examples/cpp/inherited_class.cpp:21 | the base table's maybeData slot holds the pure virtual sentinel; Derived's holds Derived::maybeData |
| ForeignMemory.Snapshot | examples/cpp/inheritedClass.ts:182-204 | a snapshot is exactly `items` words, word i read at `base + 8 * i`; it is a function of memory, so memory is unchanged |
| ForeignMemory.Expose | examples/cpp/inheritedClass.ts:257 | definition: the memory native code reads once a host buffer is handed over; covered by ExposeReads and ExposeKeeps |
| ForeignMemory.ExposeReads | examples/cpp/inheritedClass.ts:257 | once a host buffer is handed to native code at `base`, word i of it is read at `base + 8 * i` |
| ForeignMemory.ExposeKeeps | examples/cpp/inheritedClass.ts:257 | handing over a host buffer leaves every address outside it as it was |
| ForeignMemory.SnapshotOfExposed | examples/cpp/inheritedClass.ts:182-204 | a snapshot of an exposed buffer reads back exactly its contents |
| Injection.BuildCustomVtable | examples/cpp/inheritedClass.ts:220-255 | the hand-built table is six words, words 0 and 1 zero and words 2 to 5 the D1, D0, DO_DATA and USE_DATA trampolines |
| Injection.Install | examples/cpp/inheritedClass.ts:217 | overwriting the vtable pointer sets word 0 to `table + 16` modulo 2^64 and changes no other word, including the word holding 13 |
| Injection.BuildClosureBuffer | examples/cpp/inheritedClass.ts:290-292 | the closure buffer is four words: the callback, the payload 26345745678, then two zeros |
| Injection.SlotThroughAddressPoint | examples/cpp/inheritedClass.ts:217-218 | with the vtable pointer at `T + 16`, slot k is table word 2 + k, the word a snapshot shows at index 2 + k |
| Injection.InstalledSlot | examples/cpp/inheritedClass.ts:252-258 | through the hand-built table, slots 0 to 3 resolve to table words 2 to 5 |
| Injection.MaybeDataPastCustomTable | examples/cpp/inheritedClass.ts:220-221 | a six-word table has no maybeData word: slot 4 reads the word past its end, whatever memory held there |
| ExampleLib.Run | examples/cpp/inherited_class.cpp:38-74 | definition: what each member function and trampoline prints and does to the vtable pointer; covered by the lemmas below and by Instance.Invoke |
| ExampleLib.Dispatch | examples/cpp/inherited_class.cpp:40-46 | definition: a virtual call reads the slot's word through the vtable pointer and runs the code there, or faults; covered by DispatchThroughClassTable and Instance.VirtualCall |
| ExampleLib.Loaded | examples/cpp/inheritedClass.ts:10-163 | definition: the loaded library's tables have the ABI layout and each address holds its own code; assumed by the dispatch lemmas |
| ExampleLib.DispatchThroughClassTable | examples/cpp/inherited_class.cpp:40-46 | a virtual call through a class's address point runs that class's table entry for the slot |
| ExampleLib.DoDataResolves | examples/cpp/inherited_class.cpp:40-42 | doData prints through the base's doData with the base table and through Derived's with Derived's table, whatever the stored data |
| ExampleLib.MaybeDataOnBaseIsPure | examples/cpp/inherited_class.cpp:21 | maybeData through the base table reaches the pure virtual sentinel; through Derived's table it prints |
| ExampleLib.BaseDestructorUsesData | examples/cpp/inherited_class.cpp:38 | the base destructor prints useData(data_) once, resets the vtable pointer to the base's table, and frees nothing |
| ExampleLib.DerivedDestructionOrder | examples/cpp/inherited_class.cpp:69 | destroying a Derived prints useData(666), then the base destructor's useData(data_) |
| ExampleLib.DeletingIsCompleteThenFree | examples/cpp/inherited_class.cpp:11 | the deleting destructor does what the complete-object one does, then frees the object once |
| ExampleLib.CallDeleteDoesNotFree | examples/cpp/inherited_class.cpp:44-46 | callDelete runs the complete-object destructor through slot 0 and never frees the object |
| ExampleLib.CustomDestructorChain | examples/cpp/inheritedClass.ts:223-238 | CUSTOM_DESTRUCTOR_1 logs the object, then the base destructor prints useData(data_); CUSTOM_DESTRUCTOR_0 does the same, then frees |
| ExampleLib.Instance.constructor | examples/cpp/inherited_class.cpp:35-36 | the constructor sets the vtable pointer to the base's address point and `data_` to its argument, and leaves `callback_` empty |
| ExampleLib.Instance.Invoke | examples/cpp/inherited_class.cpp:38-74 | running code on the object appends exactly Run's events and leaves the vtable pointer where Run says; no other word changes |
| ExampleLib.Instance.VirtualCall | examples/cpp/inherited_class.cpp:40-46 | a virtual call appends exactly Dispatch's events for the current vtable pointer and data |
| ExampleLib.Instance.CallDoDataMethod | examples/cpp/inherited_class.cpp:40-42 | callDoDataMethod dispatches doData through slot 2 with the constant 313 |
| ExampleLib.Instance.CallDelete | examples/cpp/inherited_class.cpp:44-46 | callDelete dispatches the complete-object destructor through slot 0 |
| ExampleLib.Instance.CreateLambda | examples/cpp/inherited_class.cpp:48-55 | createLambda stores a closure of the callback and both pointers in `callback_` and returns that very member |
| ExampleLib.Instance.CallLambda | examples/cpp/inherited_class.cpp:57-59 | callLambda invokes its argument exactly once; an empty std::function throws bad_function_call instead |
| ExampleLib.InvocationPassesArguments | examples/cpp/inherited_class.cpp:51-53 | the stored closure calls LAMBDA_CALLBACK with both captured pointers unmodified |
| Harness.SnapshotLabel | examples/cpp/inheritedClass.ts:206-210 | definition: the label shown for word k of a class's table, "0" and then the key of SnapshotSymbol |
| Harness.SnapshotSymbol | examples/cpp/inherited_class.cpp:8-34 | definition: the symbols in words 1-6 of each table, written out per class; covered by SnapshotSymbols |
| Harness.SnapshotSymbols | examples/cpp/inherited_class.cpp:8-34 | the symbols written out in SnapshotSymbol are exactly those the ABI layout puts in words 1-6: the typeinfo, then the slots in order |
| Harness.SnapshotLabels | examples/cpp/inheritedClass.ts:182-210 | for a loaded, separated library, word k of each class's snapshot is labelled "0", then `ptr_typeinfo`, `ptr_Destructor`, `ptr_Destructor0`, `ptr_doData`, `ptr_useData`, `ptr_pure_virtual` for the base, and "0", `ptr_Derived_typeinfo`, `ptr_Derived_Destructor1`, `ptr_Derived_Destructor0`, `ptr_Derived_doData`, `ptr_useData`, `ptr_Derived_maybeData` for Derived |
| Harness.CallsThroughLibraryTables | examples/cpp/inheritedClass.ts:213-218 | the first two calls print the base's and then Derived's doData with 313; the object ends with Derived's address point and 13 |
| Harness.CallsThroughResolvedTables | examples/cpp/inheritedClass.ts:213-218 | the same two calls and final object, given only what doData resolves to through each library table |
| Harness.DoDataThroughCustomTable | examples/cpp/inheritedClass.ts:257-258 | after the third install, doData reaches DO_DATA with the object's address and 313 |
| Harness.CallThroughCustomTable | examples/cpp/inheritedClass.ts:220-258 | the third call logs only DO_DATA; only word 0 of the object changes |
| Harness.LambdaRoundTrip | examples/cpp/inheritedClass.ts:260-295 | callLambda makes LAMBDA_CALLBACK log 12345 and 34654754, once |
| Harness.Script | examples/cpp/inheritedClass.ts:213-295 | the whole log is base doData(313), Derived doData(313), DO_DATA(object, 313), LAMBDA_CALLBACK(12345, 34654754); at the end the object's vtable pointer is CUSTOM_VTABLE's address point and its `data_` is 13, and the table and the closure buffer hold the trampolines and payload the script wrote |
| Navigation.Normalize | routes/index.tsx:26-28 | an empty or `/` pathname becomes `/introduction`; any other pathname is unchanged |
| Navigation.NormalizeIdempotent | routes/index.tsx:245 | normalising twice is normalising once, and the result is never empty or `/` |
| Navigation.Pages | routes/index.tsx:30-44 | definition: the pages pushed by the first n rounds of the forEach; covered by PagesLength, PagesExtend and PageListAt |
| Navigation.PageList | routes/index.tsx:30-44 | definition: pageList, all rounds; covered by BuildPageList and PageListAt |
| Navigation.ChildPages | routes/index.tsx:36-40 | an entry's children become pages `/slug/child` with their names, in order |
| Navigation.PagesLength | routes/index.tsx:30-44 | after n entries, pageList holds one page per entry plus one per child |
| Navigation.PagesExtend | routes/index.tsx:30-44 | the list pushed for the first m entries is the beginning of the list pushed for the first n, since entries only append |
| Navigation.PageListAt | routes/index.tsx:30-44 | entry i's page `/slug` is followed at once by its children `/slug/child` in order |
| Navigation.EntryStartNext | routes/index.tsx:30-44 | entry i + 1's page comes right after entry i's page and its children |
| Navigation.BuildPageList | routes/index.tsx:30-44 | the loop that pushes pages builds exactly PageList |
| Navigation.PushEntryPages | routes/index.tsx:33-40 | one round of the forEach pushes the entry's own page, then one page per child in key order |
| Navigation.FindIndex | routes/index.tsx:45 | pageIndex is the first index whose path equals the path, or -1 exactly when there is none |
| Navigation.Neighbours | routes/index.tsx:134-151 | a previous link exists iff pageIndex >= 1 and is the page before; a next link exists iff pageIndex + 1 < length and is the page after |
| Navigation.UnknownPathLinksToFirst | routes/index.tsx:134-151 | a path that is no page has no previous link, and its next link is page 0 |
| Navigation.AssignKeys | routes/index.tsx:49-57 | after Map.set calls, a key is present exactly when it was already or some call set it |
| Navigation.AssignKeeps | routes/index.tsx:49-57 | a key no call sets keeps its value |
| Navigation.AssignLast | routes/index.tsx:49-57 | the last Map.set of a key decides its value |
| Navigation.Titles | routes/index.tsx:48-60 | definition: the map after the first n rounds of Map.set calls; covered by TitleMapKeys and TitleMapValue |
| Navigation.TitleMap | routes/index.tsx:48-60 | definition: tableOfContentsMap; covered by BuildTitleMap and PageTitleOfPath |
| Navigation.PageTitle | routes/index.tsx:61 | definition: the map's title for the path, or ""; covered by PageTitleOfPath |
| Navigation.SetOrderPaths | routes/index.tsx:50-57 | an entry sets titles for exactly the paths of the pages it contributes |
| Navigation.EntryTitle | routes/index.tsx:50-57 | with distinct paths, an entry's pages get their own names, although children are set before the entry |
| Navigation.TitleMapKeys | routes/index.tsx:48-60 | after n entries, tableOfContentsMap has a title for exactly the paths pageList holds after n entries |
| Navigation.TitleMapValue | routes/index.tsx:48-60 | with distinct paths, after n entries the title of every page pushed so far is its name |
| Navigation.PageTitleOfPath | routes/index.tsx:61 | with distinct paths, pageTitle is the name of the page at pageIndex, and "" for any path not in pageList |
| Navigation.BuildTitleMap | routes/index.tsx:48-60 | the loops that set titles build exactly TitleMap |
| Navigation.SetEntryTitles | routes/index.tsx:50-56 | one round of the forEach sets each child's title in key order, then the entry's own |
| Navigation.DocumentTitle | routes/index.tsx:70 | the title is `Denonomicon` for an empty page title, otherwise the page title, the separator and `Denonomicon` |
| Navigation.DocumentTitleInjective | routes/index.tsx:70 | distinct page titles give distinct document titles |
| Navigation.ActiveAndExpanded | routes/index.tsx:188-215 | a highlighted child unfolds its section; a highlighted section label is not unfolded |
| Navigation.DisabledHasOnlyItsPage | routes/index.tsx:189 | an entry without `children` is disabled and contributes only its own page |
| Navigation.ActiveIsCurrentPage | routes/index.tsx:195-215 | with distinct paths, a label is highlighted iff pageIndex is its entry's start, and a child iff pageIndex is start + 1 + its position |
| Navigation.StripMd | routes/index.tsx:237-238 | a pathname is stripped exactly when it ends in `.md`, and the stripped text plus `.md` is the pathname |
| Navigation.FileData | util/utils.ts:24-25 | definition: the contents of `cwd + "/static/contents" + path + ".md"`, or none |
| Navigation.Handle | routes/index.tsx:234-253 | GET redirects iff the pathname ends in `.md`, to what the `pathname` setter stores for the pathname minus the suffix; otherwise it renders the file for the normalised path, or the 404 text |
| Navigation.RedirectShortens | routes/index.tsx:237-239 | each redirect shortens the pathname, so a chain of redirects ends; when no dot segment is left after the slice, the redirect is exactly the pathname minus `.md` |
| Navigation.RedirectDropsDotSegments | routes/index.tsx:237-239 | `/a/..md` redirects to `/a/` and `/a/...md` to `/`, because the setter drops the dot segment the slice leaves |
| UrlPath.SetPathname | routes/index.tsx:238 | definition: `url.pathname = value` on an http(s) URL, the URL Standard's path start state and path state, then the path serializer |
| UrlPath.SetPathnameLength | routes/index.tsx:238 | the setter never lengthens a value that starts with `/`, and adds at most that `/` to one that does not |
| UrlPath.SetPathnamePlain | routes/index.tsx:238 | a value that starts with `/` and has no dot segment is stored unchanged |
| UrlPath.SetPathnameIsPlain | routes/index.tsx:238 | what the setter stores starts with `/` and has no single-dot or double-dot segment left |
| UrlPath.SetPathnameIdempotent | routes/index.tsx:238 | storing the stored pathname again changes nothing |
| UrlPath.TrailingDotSegments | routes/index.tsx:238 | `/a/.` is stored as `/a/` and `/a/..` as `/` |
| UrlPath.SerializeSplit | routes/index.tsx:238 | splitting a path at its slashes and serializing the segments gives the text back behind one `/` |
| UrlPath.SplitSerialize | routes/index.tsx:238 | serializing slash-free segments and splitting again gives the segments back |
| Navigation.StripInvertsBuilders | routes/index.tsx:237-238 | the strip rule applied to either URL builder's result gives the URL without `.md` |
| Navigation.PageView | routes/index.tsx:25-70 | definition: the page's title, links and URLs for the normalised path; covered by ViewOfListedPage |
| Navigation.ViewOfListedPage | routes/index.tsx:45-70 | for a listed page, the title carries its name, the links are its list neighbours, and the source and edit URLs are built from its path |
| Urls.FileURL | util/utils.ts:20-22 | getFileURL ends in `.md`, and removing that gives `baseUrl + "/contents" + path` |
| Urls.DocURL | util/utils.ts:27-29 | getDocURL starts with docpath and ends in `.md`, and removing that gives `docpath + path` |
| Urls.FileURLInjective | util/utils.ts:20-22 | for a fixed base, getFileURL is injective in the path |
| Urls.DocURLInjective | util/utils.ts:27-29 | getDocURL is injective in the path |

## Left out

- Compiling the library (`Deno.Command` and g++), `Deno.dlopen`, creating `Deno.UnsafeCallback`s, and `UnsafePointerView`/`UnsafePointer.of`: these are foreign calls. Every symbol and trampoline address is a `Linkage` parameter, and the addresses of the two host buffers are parameters of `Harness.Script`.
- The spelling of the mangled names: each declaration is an opaque key bound to a symbol.
- `Number(x)` on BigInt addresses: this is a floating-point conversion, and addresses are modelled as exact 64-bit words.
- The exploration of libstdc++'s `std::function` layout (inheritedClass.ts:272-288), and the unused VTABLE/useData callback at inheritedClass.ts:173-180: neither has an effect the script relies on.
- The diagnostic `console.log` of the two snapshots (inheritedClass.ts:206-211) is not an event. Harness.SnapshotLabels states the label of every word they show.
- Output buffering: libc buffers `printf` output when stdout is not a terminal, while Deno's `console.log` writes at once. The Console keeps the order of the calls, not the order of lines in redirected output.
- Trampoline release, library closing and reentrancy: the script never releases or closes anything.
- ExampleLib.Instance.constructor: the representation of `callback_` inside words 2 to 5 is not modelled. The member is a separate StdFunction object, and those words keep their previous contents.
- ExampleLib.Run: a destructor does not destroy the `callback_` member. Its effect on a stored closure is not modelled.
- ExampleLib.Run: the pure virtual sentinel and a fault are events. The process abort that follows them in reality is not modelled.
- ExampleLib.Instance.CallLambda: calling an empty std::function throws `bad_function_call`, which nothing catches across the foreign call, so the process aborts. The model records a BadFunctionCall event and the caller carries on. In the script `callback_` is never empty when callLambda runs.
- ExampleLib.Run: calling a function that is neither a virtual member nor a hook gives an Unmodelled event. Nothing in the script does this.
- ExampleLib.Instance.Invoke: the two destructor trampolines are modelled as calling the base destructors on the same object. A 16-byte view of the object is passed as the same address.
- Harness.Script: the bytes that createLambda (inherited_class.cpp:51-53) writes into `callback_`, words 2 to 5 of `first`, are not modelled, so the contract states only words 0 and 1 of the object. The closure itself is the separate `callback` member.
- Harness.Script: `customLambda` is built and left unused, as in the script, whose call with it is commented out.
- `examples/cpp/example.ts` and `examples/cpp/example.cpp`: they hold no virtual dispatch.
- JSX and twind rendering, `<Head>`, the scroll script and `components/Icons.tsx`: these are presentation.
- `getTableOfContents`, reading and parsing `toc.json`: this is I/O. The table of contents is an input sequence.
- Navigation.FileData: getFileData is a lookup in a map standing for the file system. Any read failure is "no such file".
- UrlPath.SetPathname: the setter's percent-encoding of characters such as space, `?` and `#`, and its reading of `\` as `/`, are not modelled. A pathname that GET reads from a parsed URL already has both applied.
- Navigation.Handle: the redirect is modelled by its pathname only. The rest of the URL (origin, query) is unchanged in the source and not modelled.
- Navigation: Object.entries lists integer-like keys first in ascending order. The model takes the table of contents in the order given.
- Navigation.TitleMapValue: the title lemma assumes pageList paths are distinct. With duplicate paths the later Map.set wins, and the model leaves that case unstated.
