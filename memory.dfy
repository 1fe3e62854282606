/**
 * Memory as native code sees it: a map from address to 64-bit word, an absent
 * address being unmapped. The VTable Reader's snapshot reads from it; a host
 * buffer handed to native code by pointer becomes part of it.
 */
module ForeignMemory {
  import opened Words

  type Memory = map<Word, Word>

  /** The `n` words starting at `base` are mapped (and the range does not wrap onto itself). */
  predicate Readable(mem: Memory, base: Word, n: nat) {
    WordBytes * n <= WordModulus &&
    forall i :: 0 <= i < n ==> WordAddress(base, i) in mem
  }

  /**
   * `Array.from(new BigUint64Array(Deno.UnsafePointerView.getArrayBuffer(base, items * 8), 0, items))`:
   * the `items` words starting at `base`, word i taken from `base + 8 * i`.
   * Reading changes nothing; a later snapshot of changed memory may differ.
   * The ensures unfold the definition; SnapshotOfExposed is the round trip.
   */
  function Snapshot(mem: Memory, base: Word, items: nat): (words: seq<Word>)
    requires Readable(mem, base, items)
    ensures |words| == items
    ensures forall i :: 0 <= i < items ==> words[i] == mem[WordAddress(base, i)]
  {
    seq(items, i requires 0 <= i < items => mem[WordAddress(base, i)])
  }

  /** The memory native code sees once a host buffer holding `words` at address `base` is handed to it. */
  function Expose(mem: Memory, base: Word, words: seq<Word>): Memory
    requires WordBytes * |words| <= WordModulus
    decreases |words|
  {
    if words == [] then mem
    else Expose(mem, Offset(base, WordBytes), words[1..])[base := words[0]]
  }

  /** Word i of an exposed buffer is read at `base + 8 * i`. */
  lemma {:induction false} ExposeReads(mem: Memory, base: Word, words: seq<Word>, i: nat)
    requires WordBytes * |words| <= WordModulus && i < |words|
    ensures WordAddress(base, i) in Expose(mem, base, words)
    ensures Expose(mem, base, words)[WordAddress(base, i)] == words[i]
    decreases |words|
  {
    if i > 0 {
      OffsetDistinct(base, WordBytes * i, 0);
      WordAddressShift(base, 1, i - 1);
      ExposeReads(mem, Offset(base, WordBytes), words[1..], i - 1);
    }
  }

  /** Exposing a buffer leaves every address outside it as it was. */
  lemma {:induction false} ExposeKeeps(mem: Memory, base: Word, words: seq<Word>, a: Word)
    requires WordBytes * |words| <= WordModulus
    requires forall i :: 0 <= i < |words| ==> a != WordAddress(base, i)
    ensures a in Expose(mem, base, words) <==> a in mem
    ensures a in mem ==> Expose(mem, base, words)[a] == mem[a]
    decreases |words|
  {
    if words != [] {
      assert a != WordAddress(base, 0);
      var next := Offset(base, WordBytes);
      forall i | 0 <= i < |words| - 1
        ensures a != WordAddress(next, i)
      {
        WordAddressShift(base, 1, i);
        assert a != WordAddress(base, 1 + i);
      }
      ExposeKeeps(mem, next, words[1..], a);
    }
  }

  /** A snapshot of an exposed buffer reads back exactly its contents. */
  lemma SnapshotOfExposed(mem: Memory, base: Word, words: seq<Word>)
    requires WordBytes * |words| <= WordModulus
    ensures Readable(Expose(mem, base, words), base, |words|)
    ensures Snapshot(Expose(mem, base, words), base, |words|) == words
  {
    forall i | 0 <= i < |words|
      ensures WordAddress(base, i) in Expose(mem, base, words)
      ensures Expose(mem, base, words)[WordAddress(base, i)] == words[i]
    {
      ExposeReads(mem, base, words, i);
    }
  }
}
