/** The `_sbrk` hook the C library calls to grow its heap: a break pointer that moves inside the
    heap the linker script reserves, from `_heap_start` to `_heap_end`. Addresses are integers;
    the C result `(void *)-1` is the address -1, which no heap address can be. */
module Sbrk {

  /** The errno value for "out of memory" (errno.h is not part of this model: the value is newlib's). */
  const ENOMEM: int := 12

  /** The result `_sbrk` reports on rejection. */
  const FAILED: int := -1

  /** Whether `_sbrk(increment)` accepts the request at break `brk`: it neither passes the heap's
      end nor goes below its start. */
  predicate Accepts(heapStart: int, heapEnd: int, brk: int, increment: int) {
    !(increment > heapEnd - brk || increment < -(brk - heapStart))
  }

  /** The two rejection tests together say exactly that the new break stays inside the heap. */
  lemma AcceptsIffInside(heapStart: int, heapEnd: int, brk: int, increment: int)
    ensures Accepts(heapStart, heapEnd, brk, increment) <==> heapStart <= brk + increment <= heapEnd
  {
  }

  /** The static `pcBreak` next to `errno`, in the heap the linker reserved. */
  class Heap {
    const heapStart: int
    const heapEnd: int
    var brk: int
    var errno: int

    ghost predicate Valid()
      reads this
    {
      0 <= heapStart <= brk <= heapEnd
    }

    /** The static initialisation: the break starts at `_heap_start`. */
    constructor (heapStart: int, heapEnd: int, errno: int)
      requires 0 <= heapStart <= heapEnd
      ensures Valid() && this.heapStart == heapStart && this.heapEnd == heapEnd && brk == heapStart
      ensures this.errno == errno
    {
      this.heapStart := heapStart;
      this.heapEnd := heapEnd;
      brk := heapStart;
      this.errno := errno;
    }

    /** `_sbrk`: move the break by `increment` and return where it was, or, when that would leave
        the heap, set errno to ENOMEM, keep the break and return -1. */
    method Sbrk(increment: int) returns (r: int)
      requires Valid()
      modifies this`brk, this`errno
      ensures Valid()
      ensures Accepts(heapStart, heapEnd, old(brk), increment) ==>
                r == old(brk) && brk == old(brk) + increment && errno == old(errno)
      ensures !Accepts(heapStart, heapEnd, old(brk), increment) ==>
                r == FAILED && errno == ENOMEM && brk == old(brk)
      // -1 lies below every heap address, so it tells a rejection from every accepted result
      ensures r == FAILED <==> !Accepts(heapStart, heapEnd, old(brk), increment)
    {
      if increment > heapEnd - brk || increment < -(brk - heapStart) {
        errno := ENOMEM;
        return FAILED;
      }
      r := brk;
      brk := brk + increment;
    }
  }

  /** A caller, such as the C library's allocator, asking for `a` and then `b` bytes. When both
      requests are accepted the second region starts where the first ends and both lie inside the
      heap; when only the second is rejected the break stays at the end of the first region. */
  method TwoRequests(h: Heap, a: int, b: int) returns (r1: int, r2: int)
    requires h.Valid()
    modifies h`brk, h`errno
    ensures h.Valid()
    ensures r1 != FAILED && r2 != FAILED ==>
              h.heapStart <= r1 && r2 == r1 + a && r2 + b == h.brk <= h.heapEnd
    ensures r1 != FAILED && r2 == FAILED ==> h.brk == r1 + a
  {
    r1 := h.Sbrk(a);
    r2 := h.Sbrk(b);
  }
}
