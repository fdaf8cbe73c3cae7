/**
 `WasmPageManager`: one 64 KiB page of linear memory used as a stack. `Allocate`
 reserves the next range without writing it, `Write` reserves a range and copies a
 buffer into it, and `Read` copies the bytes of an allocation back out. The
 functions before the class say what each call returns; the lemmas after it say
 what any sequence of calls on one manager hands out.
 */
module Memory {
  import opened Allocation
  import opened Stack

  /** The truncating `as MemoryInt` cast of a buffer length to 16 bits. */
  function AsMemoryInt(n: nat): (m: u16)
    ensures n <= MaxLength ==> m == n
  {
    n % 0x1_0000
  }

  /** What `write(data)` returns when the stack top is `top`: too long a buffer
      fails with `OutOfBounds` before the empty check, an empty one with
      `ZeroLength`, and any other is given the range at the top if it fits. */
  function WriteResult(top: nat, data: seq<bv8>): (r: Result<WasmAllocation>)
    ensures |data| > MaxLength ==> r == Err(OutOfBounds)
    ensures |data| == 0 ==> r == Err(ZeroLength)
    ensures r.Ok? <==> 1 <= |data| <= MaxLength && top + |data| <= PageSize
    ensures r.Err? && |data| <= MaxLength && |data| != 0 ==> r.error == OutOfBounds
    ensures r.Ok? ==> r.value.offset == top && r.value.length == |data|
  {
    if |data| > MaxLength then Err(OutOfBounds)
    else if |data| == 0 then Err(ZeroLength)
    else NewAllocation(top, |data|)
  }

  /** The page after `data` is copied to it at `offset`: the bytes of the range
      are `data` and every other byte is as it was. */
  function Splice(page: seq<bv8>, offset: nat, data: seq<bv8>): (r: seq<bv8>)
    requires offset + |data| <= |page|
    ensures |r| == |page|
    ensures forall i :: 0 <= i < |data| ==> r[offset + i] == data[i]
    ensures forall i :: 0 <= i < |page| && !(offset <= i < offset + |data|) ==> r[i] == page[i]
  {
    page[..offset] + data + page[offset + |data|..]
  }

  /** Reading back the range just written gives the written bytes. */
  lemma SpliceReadBack(page: seq<bv8>, offset: nat, data: seq<bv8>)
    requires offset + |data| <= |page|
    ensures Splice(page, offset, data)[offset..offset + |data|] == data
  {
  }

  class WasmPageManager {
    /** The stack of allocations in the page. */
    const stack: WasmStack
    /** The page of linear memory (`wasm_memory`). */
    const memory: array<bv8>

    ghost predicate Valid()
      reads stack
    {
      stack.Valid() && memory.Length == PageSize
    }

    /** A manager over a fully backed page, with an empty stack. */
    constructor (memory: array<bv8>)
      requires memory.Length == PageSize
      ensures Valid() && fresh(stack)
      ensures this.memory == memory && stack.top == 0
    {
      stack := new WasmStack();
      this.memory := memory;
    }

    /** `allocate(length)`: reserves `length` bytes at the top of the stack without
        writing to the page. On success the allocation starts at the old top and the
        top moves to its end; on failure nothing changes. */
    method Allocate(length: u16) returns (r: Result<WasmAllocation>)
      requires Valid()
      modifies stack
      ensures Valid()
      ensures r == Outcome(old(stack.top), AllocateCall(length))
      ensures r.Ok? ==> r.value.offset == old(stack.top) && r.value.length == length
      ensures stack.top == TopAfter(old(stack.top), r)
      ensures unchanged(memory)
    {
      var next := stack.NextAllocation(length);
      if next.Err? {
        return next;
      }
      var top := stack.Allocate(next.value);
      r := NewAllocation(top, length);
    }

    /** `write(data)`: reserves `|data|` bytes at the top of the stack and copies
        `data` into them. On success the page holds `data` in the range returned
        and is unchanged elsewhere, and reading the range gives `data` back; on
        failure neither the stack nor the page changes. */
    method Write(data: seq<bv8>) returns (r: Result<WasmAllocation>)
      requires Valid()
      modifies stack, memory
      ensures Valid()
      ensures r == Outcome(old(stack.top), WriteCall(data))
      ensures stack.top == TopAfter(old(stack.top), r)
      ensures r.Ok? ==> memory[..] == Splice(old(memory[..]), r.value.offset, data)
      ensures r.Ok? ==> Read(r.value) == data
      ensures r.Err? ==> memory[..] == old(memory[..])
    {
      if |data| > MaxLength {
        return Err(OutOfBounds);
      }
      if |data| == 0 {
        return Err(ZeroLength);
      }
      r := Allocate(AsMemoryInt(|data|));
      if r.Err? {
        return;
      }
      var offset := r.value.offset;
      forall i | 0 <= i < |data| {
        memory[offset + i] := data[i];
      }
      assert memory[..] == Splice(old(memory[..]), offset, data);
      SpliceReadBack(old(memory[..]), offset, data);
    }

    /** `read(allocation)`: a copy of the allocation's bytes; it changes nothing. */
    function Read(a: WasmAllocation): (bytes: seq<bv8>)
      reads memory
      requires memory.Length == PageSize
      ensures |bytes| == a.length
      ensures forall i :: 0 <= i < a.length ==> bytes[i] == memory[a.offset + i]
    {
      memory[a.offset..a.offset + a.length]
    }
  }

  /** One call on the manager that may hand out an allocation. */
  datatype Call = AllocateCall(length: u16) | WriteCall(data: seq<bv8>)

  /** What a call returns when the stack top is `top`. */
  function Outcome(top: nat, call: Call): Result<WasmAllocation>
  {
    match call
    case AllocateCall(length) => NewAllocation(top, length)
    case WriteCall(data) => WriteResult(top, data)
  }

  /** The stack top after a call with result `r`: past the allocation, or unmoved. */
  function TopAfter(top: nat, r: Result<WasmAllocation>): nat
  {
    if r.Ok? then r.value.offset + r.value.length else top
  }

  /** The allocations a sequence of calls hands out, in order, from stack top `top`. */
  function Issued(top: nat, calls: seq<Call>): seq<WasmAllocation>
    decreases |calls|
  {
    if calls == [] then []
    else
      var r := Outcome(top, calls[0]);
      (if r.Ok? then [r.value] else []) + Issued(TopAfter(top, r), calls[1..])
  }

  /** Two successive successful calls are handed adjacent ranges: the second starts
      where the first ends, so they never overlap. */
  lemma SuccessiveCallsAdjacent(top: nat, first: Call, second: Call)
    requires top <= PageSize
    requires Outcome(top, first).Ok?
    requires Outcome(TopAfter(top, Outcome(top, first)), second).Ok?
    ensures var a, b := Outcome(top, first).value, Outcome(TopAfter(top, Outcome(top, first)), second).value;
      a.offset + a.length == b.offset
  {
  }

  /** Every allocation handed out by a sequence of calls lies at or above the
      starting top, and each one ends before the next one starts: no two overlap. */
  lemma {:induction false} IssuedDisjoint(top: nat, calls: seq<Call>)
    requires top <= PageSize
    ensures forall i :: 0 <= i < |Issued(top, calls)| ==> top <= Issued(top, calls)[i].offset
    ensures forall i, j :: 0 <= i < j < |Issued(top, calls)| ==>
      Issued(top, calls)[i].offset + Issued(top, calls)[i].length <= Issued(top, calls)[j].offset
    decreases |calls|
  {
    if calls != [] {
      var r := Outcome(top, calls[0]);
      var t := TopAfter(top, r);
      assert t <= PageSize && t >= top;
      IssuedDisjoint(t, calls[1..]);
      var rest := Issued(t, calls[1..]);
      assert Issued(top, calls) == (if r.Ok? then [r.value] else []) + rest;
    }
  }
}
