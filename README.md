# WasmPageManager: a single-page stack memory manager

This project models the memory manager that the Ribosome uses to exchange byte
buffers with a WebAssembly zome. The manager owns one 64 KiB page of linear memory
and a bump-pointer stack inside it. The host and the guest pass each other only one
handle per call. The handle carries an allocation's offset in its upper bits and its
length in its lower bits. The model reads these as two unsigned 16-bit fields of one
32-bit value. Zero-length allocations are refused, so a handle whose length is zero
is a return code held in the offset field. Return code 0 means success.

The project has three modules:

- `Allocation` (`allocation.dfy`): the 16-bit offset and length fields, the two
  error kinds `OutOfBounds` and `ZeroLength`, `WasmAllocation` as a non-empty range
  inside the page, `WasmAllocation::new` as `NewAllocation`, the handle codec
  `Encode`/`Decode`, and the return-code convention `Interpret`/`ReturnCodeHandle`.
- `Stack` (`stack.dfy`): the `WasmStack` class with its `top` field.
  `NextAllocation` proposes the range at the top. `Allocate` commits it and returns
  the old top.
- `Memory` (`memory.dfy`): the `WasmPageManager` class over a 65536-byte
  `array<bv8>`. It has the methods `Allocate` and `Write` and the function `Read`,
  each specified by value-level functions (`NewAllocation`, `WriteResult`,
  `Splice`). The module ends with lemmas about any sequence of calls on one
  manager: the allocations handed out never overlap.

`WasmStack` and `WasmAllocation` belong to `holochain_wasm_utils`, which is not part
of this model. They are modelled from how `memory.rs` uses them. The stack starts at
top 0. `next_allocation(len)` proposes `(top, len)` and fails with `ZeroLength`
when `len` is 0 and with `OutOfBounds` when `top + len` passes the page size.
`allocate` moves `top` to the end of the allocation and returns the offset the
allocation starts at. An allocation is an (offset, length) pair. `max()` is 65535.

`write` checks the length bound before it checks for an empty buffer
(`memory.rs:61-67`). An empty buffer is never too long, so an empty `write` always
fails with `ZeroLength`.

## Model

| member | source | states |
|---|---|---|
| `Allocation.NewAllocation` | core/src/nucleus/ribosome/memory.rs:54-56 | a pair is accepted exactly when its length is at least 1 and it ends inside the page; an accepted allocation has that offset and length; a refusal is `ZeroLength` for length 0 and `OutOfBounds` otherwise |
| `Allocation.Encode` | core/src/nucleus/ribosome/memory.rs:22-24 | the handle's upper 16 bits (quotient by 2^16) are the offset and its lower 16 bits (remainder) are the length |
| `Allocation.Decode` | core/src/nucleus/ribosome/memory.rs:22-24 | the decoded offset and length recombine into the handle they came from |
| `Allocation.DecodeEncode` | core/src/nucleus/ribosome/memory.rs:22-24 | decoding an encoded pair gives the same offset and length back |
| `Allocation.EncodeDecode` | core/src/nucleus/ribosome/memory.rs:22-24 | encoding a decoded handle gives the same handle back, so every 32-bit value is exactly one pair |
| `Allocation.Interpret` | core/src/nucleus/ribosome/memory.rs:27-31 | a handle is a return code exactly when its lower 16 bits are zero, and the code is then its upper 16 bits; any other handle is the data pair it encodes |
| `Allocation.ReturnCodeHandle` | core/src/nucleus/ribosome/memory.rs:28-30 | the handle built for a return code is interpreted as that return code |
| `Allocation.SuccessIsZero` | core/src/nucleus/ribosome/memory.rs:31 | return code 0 is the all-zero handle, and that handle is interpreted as success (`IsSuccess`: return code 0) |
| `Allocation.AllocationIsData` | core/src/nucleus/ribosome/memory.rs:27-30 | the handle of any allocation is interpreted as that allocation, never as a return code |
| `Allocation.ReturnCodeIsNotAllocation` | core/src/nucleus/ribosome/memory.rs:27-30 | no return-code handle equals the handle of an allocation |
| `Stack.WasmStack.constructor` | core/src/nucleus/ribosome/memory.rs:47 | a new stack has top 0 |
| `Stack.WasmStack.NextAllocation` | core/src/nucleus/ribosome/memory.rs:54 | the proposal at the top succeeds exactly when the length is at least 1 and top plus length fits in the page; it starts at top and has the requested length; the refusal reasons are as for `NewAllocation` |
| `Stack.WasmStack.Allocate` | core/src/nucleus/ribosome/memory.rs:55 | committing an allocation that starts at top returns the old top and moves top strictly forward to the allocation's end, which stays within the page |
| `Memory.AsMemoryInt` | core/src/nucleus/ribosome/memory.rs:70 | the 16-bit cast of a buffer length loses nothing once the length is at most `max()` |
| `Memory.WriteResult` | core/src/nucleus/ribosome/memory.rs:60-70 | a buffer longer than `max()` fails with `OutOfBounds` whatever the top; an empty buffer fails with `ZeroLength`; otherwise the write succeeds exactly when the buffer fits above the top, gets the range starting at the top with the buffer's length, and fails with `OutOfBounds` when it does not fit |
| `Memory.Splice` | core/src/nucleus/ribosome/memory.rs:84-86 | after copying a buffer into the page at an offset, the bytes of that range are the buffer and every other byte of the page is unchanged |
| `Memory.SpliceReadBack` | core/src/nucleus/ribosome/memory.rs:84-99 | the range just copied reads back as the buffer |
| `Memory.WasmPageManager.constructor` | core/src/nucleus/ribosome/memory.rs:46-49 | a manager over a fully backed page starts with an empty stack |
| `Memory.WasmPageManager.Allocate` | core/src/nucleus/ribosome/memory.rs:52-57 | the result is the `Outcome` of an allocate call at the old top, that is `NewAllocation` there, and the new top is `TopAfter` it; on success the allocation starts at the old top and the top moves to its end; on failure the top stays; the page is never written |
| `Memory.WasmPageManager.Write` | core/src/nucleus/ribosome/memory.rs:59-89 | the result is the `Outcome` of a write call at the old top, that is `WriteResult` there, and the new top is `TopAfter` it; on success the top moves to the end of the allocation, the page is the old page with the buffer spliced in at the allocation, and reading the allocation gives the buffer back; on failure neither the top nor the page changes |
| `Memory.WasmPageManager.Read` | core/src/nucleus/ribosome/memory.rs:91-99 | the result has the allocation's length and holds, byte by byte, the page bytes of the allocation's range; being a function, it changes nothing |
| `Memory.SuccessiveCallsAdjacent` | core/src/nucleus/ribosome/memory.rs:53-70 | when two successive `allocate`/`write` calls both succeed, the second allocation starts exactly where the first ends |
| `Memory.IssuedDisjoint` | core/src/nucleus/ribosome/memory.rs:53-70 | over any sequence of `allocate`/`write` calls from a stack top, every allocation handed out starts at or above that top, and each ends at or before the start of every later one, so none overlap |

`Allocation.IsSuccess`, `Memory.Outcome`, `Memory.TopAfter` and `Memory.Issued` have
no row of their own: they carry no contract. `IsSuccess` is the "return code 0 means
success" rule of `memory.rs:31`, used by `SuccessIsZero`. `Outcome`, `TopAfter` and
`Issued` are the vocabulary of the call-sequence lemmas: the result of one
`allocate`/`write` call, the stack top after it, and the allocations a sequence of
calls hands out. The postconditions of `WasmPageManager.Allocate` and
`WasmPageManager.Write` are stated with `Outcome` and `TopAfter`, so
`SuccessiveCallsAdjacent` and `IssuedDisjoint` are about those two methods.

## Left out

- `WasmPageManager::new` (`memory.rs:37-50`): the lookup of the module's `memory` export through wasmi and its `expect` panics are left out. The constructor takes the page array directly and requires that the whole page is backed.
- The commented-out page growth (`memory.rs:72-82`) is not implemented in the source, so it is not modelled.
- The wasmi `MemoryRef` internals and the panics of `set`/`get` (`memory.rs:84-86`, `93-98`) are left out. The copy into the page is a simultaneous assignment to the page array. A read requires the page to be fully backed; an allocation's range always lies inside the page.
- Multi-page memory and 64-bit handles (`memory.rs:32-33`) are future work in the source.
- The derived `Clone` and `Debug` implementations are left out.
- Stack.WasmStack.Allocate: the failure path of `holochain_wasm_utils`' `allocate` (for an allocation that does not start at the top) is not modelled. The method requires the allocation to start at the top instead. Its only caller passes the allocation that `next_allocation` has just proposed, so that path cannot be taken here.
- Allocation.NewAllocation: when a pair is both empty and out of the page, the model reports `ZeroLength`; the order of the two checks in `WasmAllocation::new` is not part of this model. No call here can show the difference, because the stack top never passes the page size.
- Memory.WriteResult: the guard `data.len() as MemoryBits > max()` compares the buffer's length unbounded. The width of `MemoryBits` is not part of this model. A buffer of 2^32 bytes or more could truncate under a 32-bit cast, and that case is not modelled.
- Allocation.Encode: the packing is stated arithmetically (quotient and remainder by 2^16), not as 32-bit shifts and masks. The two are the same for 16-bit fields.
- Resetting or rewinding the stack is not an operation of `memory.rs`, so it is not modelled.
- Stack.WasmStack: the top is an unbounded `nat` that may equal the page size, 65536. That is one more than a 16-bit `MemoryInt` can hold (`memory.rs:56`). For example, a write of 65535 bytes at top 0 followed by a write of 1 byte leaves the top at 65536. The model follows the page bound at the end of the page, not the 16-bit width. Whether `holochain_wasm_utils` refuses the page's last byte or lets the top overflow is not part of this model.
- Allocation.Encode: the doc comment is inconsistent about the handle's width. It speaks of passing "an i64" and "that u64" (`memory.rs:21-22`), of two signed "i16" halves (`memory.rs:23`), and of i64 as future work (`memory.rs:32`). The model takes the reading that fits a 64 KiB page: two unsigned 16-bit fields packed into one 32-bit value. Carrying that value in a 64-bit integer is not modelled.
