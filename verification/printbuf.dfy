/**
 * The growable text buffer (`struct printbuf`) behind fs/bcachefs/printbuf.rs. Its storage is kept
 * as the sequence of allocated bytes; `pos` (a `c_uint`) is the length of the text written so far.
 */
module Printbuf {
  import opened Types

  /**
   * The text a printbuf holding `text` holds after `s` is written to it. A write that would take
   * the length past what a `c_uint` can count fails, leaving the text as it was.
   */
  function Appended(text: Bytes, s: Bytes): Bytes {
    if |text| + |s| <= U32_MAX then text + s else text
  }

  class Printbuf {
    /** The allocated buffer: `buf[0..size]`. */
    var storage: Bytes
    var pos: nat
    var heapAllocated: bool
    var allocationFailure: bool
    var indent: nat
    var nrTabstops: nat
    var curTabstop: nat

    ghost predicate Valid()
      reads this
    {
      pos <= |storage| && pos <= U32_MAX
    }

    /** `Printbuf::new`: a default (empty, unallocated) printbuf marked heap-allocated. */
    constructor ()
      ensures Valid()
      ensures storage == [] && pos == 0 && Len() == 0 && AsSlice() == []
      ensures heapAllocated && !allocationFailure
      ensures indent == 0 && nrTabstops == 0 && curTabstop == 0
    {
      storage := [];
      pos := 0;
      heapAllocated := true;
      allocationFailure := false;
      indent, nrTabstops, curTabstop := 0, 0, 0;
    }

    /** `len`: the number of bytes written, i.e. `pos`. */
    function Len(): (n: u32)
      reads this
      requires Valid()
      ensures n == |AsSlice()|
    {
      pos
    }

    /** `as_slice`: the written text, the first `len()` bytes of the buffer. */
    function AsSlice(): (s: Bytes)
      reads this
      requires Valid()
      ensures |s| == pos && s <= storage
    {
      storage[..pos]
    }

    /** `reset`: forget the text and the formatting state, keep the allocated storage. */
    method Reset()
      requires Valid()
      modifies this
      ensures Valid()
      ensures pos == 0 && AsSlice() == [] && !allocationFailure
      ensures indent == 0 && nrTabstops == 0 && curTabstop == 0
      ensures storage == old(storage) && heapAllocated == old(heapAllocated)
    {
      pos := 0;
      allocationFailure := false;
      indent := 0;
      nrTabstops := 0;
      curTabstop := 0;
    }

    /**
     * Writing text at `pos`, as the C printing helpers do: the storage grows when needed, and
     * a failure to make room sets the sticky `allocation_failure` flag instead of returning an error.
     */
    method Write(s: Bytes)
      requires Valid()
      modifies this
      ensures Valid()
      ensures AsSlice() == Appended(old(AsSlice()), s)
      ensures allocationFailure == (old(allocationFailure) || old(pos) + |s| > U32_MAX)
      ensures heapAllocated == old(heapAllocated) && indent == old(indent)
      ensures nrTabstops == old(nrTabstops) && curTabstop == old(curTabstop)
    {
      if pos + |s| <= U32_MAX {
        var rest := if pos + |s| <= |storage| then storage[pos + |s|..] else [];
        storage := storage[..pos] + s + rest;
        pos := pos + |s|;
      } else {
        allocationFailure := true;
      }
    }

    /** `newline`: write one line terminator. */
    method Newline()
      requires Valid()
      modifies this
      ensures Valid()
      ensures AsSlice() == Appended(old(AsSlice()), [NEWLINE])
      ensures allocationFailure == (old(allocationFailure) || old(pos) + 1 > U32_MAX)
      ensures heapAllocated == old(heapAllocated) && indent == old(indent)
      ensures nrTabstops == old(nrTabstops) && curTabstop == old(curTabstop)
    {
      Write([NEWLINE]);
    }
  }
}
