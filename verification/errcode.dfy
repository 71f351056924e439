/**
 * Error-pointer decoding (fs/bcachefs/errcode.rs): the engine returns either a valid pointer or a
 * small negative error number encoded in the pointer itself. Addresses are 64-bit `usize` values.
 */
module ErrCode {
  import opened Types

  /** Error numbers are below 4096, so the top 4095 addresses are error pointers. */
  const MAX_ERRNO: int := 4096

  /** `(-4096isize) as usize`: the highest address that is still a valid pointer. */
  const MAX_ERR: u64 := U64_LIMIT - MAX_ERRNO

  /** An error number that an error pointer can carry. */
  type ErrorCode = e: int | 1 <= e < MAX_ERRNO witness 1

  /** `x as i32` for a `usize`: keep the low 32 bits and read them as two's complement. */
  function AsI32(x: u64): (r: int)
    ensures -0x8000_0000 <= r < 0x8000_0000
    ensures (r - x) % U32_LIMIT == 0
  {
    var low := x % U32_LIMIT;
    if low >= 0x8000_0000 then low - U32_LIMIT else low
  }

  /** The address at which the engine encodes error `e`: `-e` as a `usize`. */
  function ErrAddr(e: ErrorCode): (addr: u64)
    ensures addr > MAX_ERR
  {
    U64_LIMIT - e
  }

  /** `errptr_to_result_c`: an address strictly above `MAX_ERR` is `Err(-(addr as i32))`, any other is `Ok`. */
  function ErrptrToResult(addr: u64): (r: Result<u64>)
    ensures r.Ok? <==> addr <= MAX_ERR
    ensures r.Ok? ==> r.value == addr
    ensures r.Err? ==> r.error == U64_LIMIT - addr && 1 <= r.error < MAX_ERRNO
  {
    if addr > MAX_ERR then
      ErrorAddressTruncation(addr);
      Err(-AsI32(addr))
    else
      Ok(addr)
  }

  /** Truncating an error address to `i32` yields exactly minus its distance to 2^64. */
  lemma ErrorAddressTruncation(addr: u64)
    requires addr > MAX_ERR
    ensures AsI32(addr) == addr - U64_LIMIT
  {
    var e := U64_LIMIT - addr;
    assert addr == (U32_LIMIT - 1) * U32_LIMIT + (U32_LIMIT - e);
    assert addr % U32_LIMIT == U32_LIMIT - e;
  }

  lemma NullIsOk()
    ensures ErrptrToResult(0) == Ok(0)
  {
  }

  /** The test is a strict `>`: the boundary address itself is a valid pointer. */
  lemma BoundaryIsOk()
    ensures ErrptrToResult(MAX_ERR) == Ok(MAX_ERR)
    ensures ErrptrToResult(MAX_ERR + 1) == Err(MAX_ERRNO - 1)
  {
  }

  /** Encoding an error number as a pointer and decoding it gives the error number back. */
  lemma ErrorRoundTrip(e: ErrorCode)
    ensures ErrptrToResult(ErrAddr(e)) == Err(e)
  {
  }
}
