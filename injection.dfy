/**
 * The word-level edits the harness script makes to host buffers that native
 * code then reads as C++ data: the hand-built virtual table, the vtable
 * pointer it overwrites in the object, and the hand-built closure buffer; and
 * how a vtable pointer resolves a slot number to a table word.
 */
module Injection {
  import opened Words
  import opened ForeignMemory
  import opened Abi

  /** Words in CUSTOM_VTABLE_BIG_INT (`new BigUint64Array(6)`). */
  const CustomTableWords: nat := 6

  /**
   * CUSTOM_VTABLE_BIG_INT: six zeroed words, then words 2 to 5 set to the
   * complete-object destructor, deleting destructor, doData and useData
   * trampolines. Words 0 and 1 (offset-to-top and typeinfo) stay 0, and there
   * is no word for maybeData.
   */
  method BuildCustomVtable(d1: Word, d0: Word, doData: Word, useData: Word) returns (t: array<Word>)
    ensures fresh(t)
    ensures t[..] == [0, 0, d1, d0, doData, useData]
  {
    t := new Word[CustomTableWords](_ => 0);
    t[2] := d1;
    t[3] := d0;
    t[4] := doData;
    t[5] := useData;
  }

  /**
   * `pointerview[0] = BigInt(table) + 16n`: the first word of the object, its
   * vtable pointer, becomes the address point of the table at `table` (the
   * store into a BigUint64Array reduces modulo 2^64); every other word of the
   * object keeps its value.
   */
  method Install(buffer: array<Word>, table: Word)
    requires buffer.Length >= 1
    modifies buffer
    ensures buffer[..] == old(buffer[..])[0 := Offset(table, AddressPointBytes)]
  {
    buffer[0] := Offset(table, AddressPointBytes);
  }

  /** The `payload` word the script writes into customLambda. */
  const ClosurePayload: Word := 26345745678

  /**
   * customLambda: four zeroed words, word 0 the callback's address and word 1
   * the payload.
   */
  method BuildClosureBuffer(callback: Word) returns (b: array<Word>)
    ensures fresh(b)
    ensures b[..] == [callback, ClosurePayload, 0, 0]
  {
    b := new Word[4](_ => 0);
    b[0] := callback;
    b[1] := ClosurePayload;
  }

  /**
   * With the vtable pointer at the address point of a table at `t`, virtual
   * slot k is read from word 2 + k of the table: the word a snapshot of the
   * table shows at index 2 + k.
   */
  lemma SlotThroughAddressPoint(mem: Memory, t: Word, n: nat, k: nat)
    requires Readable(mem, t, n) && HeaderWords + k < n
    ensures WordAddress(Offset(t, AddressPointBytes), k) == WordAddress(t, HeaderWords + k)
    ensures WordAddress(Offset(t, AddressPointBytes), k) in mem
    ensures mem[WordAddress(Offset(t, AddressPointBytes), k)] == Snapshot(mem, t, n)[HeaderWords + k]
  {
    WordAddressShift(t, HeaderWords, k);
  }

  /**
   * Once a hand-built table of six words is visible at `t`, slots 0 to 3 (D1,
   * D0, doData, useData) read table words 2 to 5.
   */
  lemma InstalledSlot(mem: Memory, t: Word, table: seq<Word>, k: nat)
    requires |table| == CustomTableWords && k < CustomTableWords - HeaderWords
    ensures WordAddress(Offset(t, AddressPointBytes), k) in Expose(mem, t, table)
    ensures Expose(mem, t, table)[WordAddress(Offset(t, AddressPointBytes), k)] == table[HeaderWords + k]
  {
    WordAddressShift(t, HeaderWords, k);
    ExposeReads(mem, t, table, HeaderWords + k);
  }

  /**
   * The maybeData slot of a six-word table lies one word past its end: what a
   * call through it finds is whatever memory held there before.
   */
  lemma MaybeDataPastCustomTable(mem: Memory, t: Word, table: seq<Word>)
    requires |table| == CustomTableWords
    ensures var a := WordAddress(Offset(t, AddressPointBytes), MaybeDataSlot);
      && a == WordAddress(t, CustomTableWords)
      && (a in Expose(mem, t, table) <==> a in mem)
      && (a in mem ==> Expose(mem, t, table)[a] == mem[a])
  {
    WordAddressShift(t, HeaderWords, MaybeDataSlot);
    var a := WordAddress(t, CustomTableWords);
    forall i | 0 <= i < |table|
      ensures a != WordAddress(t, i)
    {
      OffsetDistinct(t, WordBytes * CustomTableWords, WordBytes * i);
    }
    ExposeKeeps(mem, t, table, a);
  }
}
