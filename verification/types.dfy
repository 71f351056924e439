/** Machine integer ranges, bytes and the Option/Result wrappers shared by every module. */
module Types {

  const U32_LIMIT: int := 0x1_0000_0000
  const U64_LIMIT: int := 0x1_0000_0000_0000_0000
  const U32_MAX: int := U32_LIMIT - 1
  const U64_MAX: int := U64_LIMIT - 1

  type u8 = x: int | 0 <= x < 256
  type u32 = x: int | 0 <= x < U32_LIMIT
  type u64 = x: int | 0 <= x < U64_LIMIT

  type byte = u8
  type Bytes = seq<byte>

  /** Kernel error numbers used by the readers (`EFAULT`, `ENOMEM`, `ERANGE`). */
  const EFAULT: int := 14
  const ENOMEM: int := 12
  const ERANGE: int := 34

  /** The byte '\n'. */
  const NEWLINE: byte := 10

  datatype Option<+T> = None | Some(value: T)

  /** A Rust `Result<T, Error>` whose error is a kernel or bcachefs error number. */
  datatype Result<+T> = Ok(value: T) | Err(error: int)

  function Min(a: int, b: int): int {
    if a <= b then a else b
  }

  /** Rust's `Display` for an unsigned integer: its decimal digits in ASCII, with no leading zero. */
  function Decimal(n: nat): (r: Bytes)
    ensures r != []
    ensures forall i :: 0 <= i < |r| ==> 48 <= r[i] <= 57
    ensures |r| == 1 <==> n < 10
    ensures |r| > 1 ==> r[0] != 48
  {
    if n < 10 then [48 + n] else Decimal(n / 10) + [48 + n % 10]
  }

  /** The number a string of ASCII digits spells, most significant digit first. */
  function DigitsValue(s: Bytes): int {
    if s == [] then 0 else DigitsValue(s[..|s| - 1]) * 10 + (s[|s| - 1] as int - 48)
  }

  /** The digits `Decimal` writes spell `n` back. */
  lemma {:induction false} DecimalValue(n: nat)
    ensures DigitsValue(Decimal(n)) == n
  {
    if n >= 10 {
      DecimalValue(n / 10);
      var d := Decimal(n);
      assert d[..|d| - 1] == Decimal(n / 10);
    }
  }
}
