/**
 The bump-pointer stack (`WasmStack`) that hands out ranges of the page in order:
 `top` is the next free offset, it never exceeds the page size, and it only moves
 forward.
 */
module Stack {
  import opened Allocation

  class WasmStack {
    /** The next free offset in the page. */
    var top: nat

    ghost predicate Valid()
      reads this
    {
      top <= PageSize
    }

    /** `WasmStack::default()`: an empty stack. */
    constructor ()
      ensures Valid() && top == 0
    {
      top := 0;
    }

    /** `next_allocation`: proposes the range of `length` bytes starting at `top`,
        without changing the stack. */
    function NextAllocation(length: u16): (r: Result<WasmAllocation>)
      reads this
      requires Valid()
      ensures r.Ok? <==> 1 <= length && top + length <= PageSize
      ensures r.Ok? ==> r.value.offset == top && r.value.length == length
      ensures r.Err? ==> r.error == (if length == 0 then ZeroLength else OutOfBounds)
    {
      NewAllocation(top, length)
    }

    /** `allocate`: commits an allocation that starts at `top`, moving `top` past
        it, and returns the offset where it starts (the old top). */
    method Allocate(a: WasmAllocation) returns (offset: nat)
      requires Valid()
      requires a.offset == top
      modifies this
      ensures Valid()
      ensures offset == old(top) == a.offset
      ensures top == old(top) + a.length > old(top)
    {
      offset := top;
      top := a.offset + a.length;
    }
  }
}
