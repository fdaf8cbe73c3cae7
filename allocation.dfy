/**
 The allocation type shared by the host and the guest module: an (offset, length)
 range of the single 64 KiB memory page, its packing into one handle (offset in
 the upper 16 bits, length in the lower 16 bits, read here as two unsigned 16-bit
 fields of a 32-bit value), and the convention that a
 handle whose length is zero carries a return code in its offset field instead.
 */
module Allocation {

  /** Unsigned 16-bit integers: the offset and length fields of a handle. */
  type u16 = x: int | 0 <= x < 0x1_0000

  /** Unsigned 32-bit integers: the packed value of a handle, two 16-bit fields. */
  type u32 = x: int | 0 <= x < 0x1_0000_0000

  /** Size of one WebAssembly memory page, the whole memory the manager uses. */
  const PageSize: nat := 0x1_0000

  /** `WasmAllocation::max()`: the largest length the 16-bit length field can hold. */
  const MaxLength: nat := 0xFFFF

  /** The two ways an allocation request fails. */
  datatype AllocationError = OutOfBounds | ZeroLength

  /** `AllocationResult`, and any other result that can fail with an `AllocationError`. */
  datatype Result<+T> = Ok(value: T) | Err(error: AllocationError)

  /** The raw (offset, length) pair that a 32-bit handle carries. */
  datatype Span = Span(offset: u16, length: u16)

  /** A `WasmAllocation`: a span that is not empty and lies inside the page.
      Only `NewAllocation` builds one from an arbitrary pair. */
  type WasmAllocation = s: Span | 1 <= s.length && s.offset + s.length <= PageSize
    witness Span(0, 1)

  /** `WasmAllocation::new`: accepts the pair exactly when it is a non-empty range
      inside the page, and otherwise names the reason. */
  function NewAllocation(offset: nat, length: u16): (r: Result<WasmAllocation>)
    ensures r.Ok? <==> 1 <= length && offset + length <= PageSize
    ensures r.Ok? ==> r.value.offset == offset && r.value.length == length
    ensures r.Err? ==> r.error == (if length == 0 then ZeroLength else OutOfBounds)
  {
    if length == 0 then Err(ZeroLength)
    else if offset + length > PageSize then Err(OutOfBounds)
    else Ok(Span(offset, length))
  }

  /** Packs a span into one 32-bit handle: the offset fills the upper 16 bits (the
      quotient by 2^16) and the length the lower 16 bits (the remainder). */
  function Encode(s: Span): (bits: u32)
    ensures bits / 0x1_0000 == s.offset && bits % 0x1_0000 == s.length
  {
    s.offset * 0x1_0000 + s.length
  }

  /** Splits a 32-bit handle into its upper 16 bits (offset) and lower 16 bits (length).
      Every handle decodes; whether it is data or a return code is for `Interpret`. */
  function Decode(bits: u32): (s: Span)
    ensures s.offset * 0x1_0000 + s.length == bits
  {
    Span(bits / 0x1_0000, bits % 0x1_0000)
  }

  /** Decoding an encoded span gives the span back. */
  lemma DecodeEncode(s: Span)
    ensures Decode(Encode(s)) == s
  {
  }

  /** Encoding a decoded handle gives the handle back, so the codec is a bijection
      between spans and 32-bit handles. */
  lemma EncodeDecode(bits: u32)
    ensures Encode(Decode(bits)) == bits
  {
  }

  /** What a handle means to the side that receives it. */
  datatype Handle = ReturnCode(code: u16) | Data(span: Span)

  /** A handle with length zero is a return code, held in its offset field; any
      other handle refers to data. */
  function Interpret(bits: u32): (h: Handle)
    ensures h.ReturnCode? <==> bits % 0x1_0000 == 0
    ensures h.ReturnCode? ==> h.code == bits / 0x1_0000
    ensures h.Data? ==> Encode(h.span) == bits
  {
    var s := Decode(bits);
    if s.length == 0 then ReturnCode(s.offset) else Data(s)
  }

  /** The handle that carries a return code: the code in the offset field, length zero. */
  function ReturnCodeHandle(code: u16): (bits: u32)
    ensures Interpret(bits) == ReturnCode(code)
  {
    Encode(Span(code, 0))
  }

  /** Return code 0 means success; any other code names a failure. */
  predicate IsSuccess(h: Handle)
  {
    h == ReturnCode(0)
  }

  /** The success handle is the all-zero handle. */
  lemma SuccessIsZero()
    ensures ReturnCodeHandle(0) == 0 && IsSuccess(Interpret(0))
  {
  }

  /** A handle built from an allocation is always read back as that allocation. */
  lemma AllocationIsData(a: WasmAllocation)
    ensures Interpret(Encode(a)) == Data(a)
  {
  }

  /** Since allocations are never empty, no allocation handle can be mistaken for a
      return code. */
  lemma ReturnCodeIsNotAllocation(code: u16, a: WasmAllocation)
    ensures ReturnCodeHandle(code) != Encode(a)
  {
  }
}
