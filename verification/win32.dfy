/**
 * The Win32 and C machine types the renderer computes with: HRESULT status
 * codes, 32-bit `int`/`LONG`, 16-bit `WORD`, and 64-bit `size_t`, with the
 * wrap-around and truncating division of C written out.
 */
module Win32 {

  const Int32Min: int := -0x8000_0000
  const Int32Max: int := 0x7FFF_FFFF

  /** A C `int` or Win32 `LONG`. */
  type Int32 = x: int | Int32Min <= x <= Int32Max

  /** A Win32 `WORD` (unsigned 16 bits). */
  type Word = x: int | 0 <= x < 0x1_0000

  /** A Win32 `ULONG` (unsigned 32 bits). */
  type ULong = x: int | 0 <= x < 0x1_0000_0000

  /** An HRESULT: a signed 32-bit status whose sign bit marks failure. */
  type HResult = Int32

  /** Reads a 32-bit pattern, written in hexadecimal as in winerror.h, as an HRESULT. */
  function FromBits(bits: ULong): (hr: HResult)
    ensures hr < 0 <==> bits >= 0x8000_0000
    ensures (hr - bits) % 0x1_0000_0000 == 0
  {
    if bits < 0x8000_0000 then bits else bits - 0x1_0000_0000
  }

  const S_OK: HResult := 0
  const NOERROR: HResult := S_OK
  const E_POINTER: HResult := FromBits(0x8000_4003)
  const E_FAIL: HResult := FromBits(0x8000_4005)
  const E_INVALIDARG: HResult := FromBits(0x8007_0057)
  const E_OUTOFMEMORY: HResult := FromBits(0x8007_000E)

  /** The FAILED macro. */
  predicate Failed(hr: HResult) {
    hr < 0
  }

  /**
   * The two's-complement value of `x` truncated to 32 bits: what a C `int`
   * operation yields on the Windows targets when the exact result overflows.
   */
  function Wrap32(x: int): (r: Int32)
    ensures (x - r) % 0x1_0000_0000 == 0
    ensures Int32Min <= x <= Int32Max ==> r == x
  {
    (x - Int32Min) % 0x1_0000_0000 + Int32Min
  }

  /** C's `/` on `int`: the quotient rounded toward zero. */
  function CDiv(a: int, d: int): (q: int)
    requires d > 0
    ensures 0 <= a ==> 0 <= q && q * d <= a < q * d + d
    ensures a < 0 ==> q <= 0 && q * d - d < a <= q * d
  {
    if a >= 0 then a / d else -((-a) / d)
  }

  /** The conversion of an `int` to the 64-bit `size_t` that malloc and realloc take. */
  function ToSizeT(x: Int32): (n: nat)
    ensures n < 0x1_0000_0000_0000_0000
    ensures (n - x) % 0x1_0000_0000_0000_0000 == 0
    ensures 0 <= x ==> n == x
    ensures x < 0 ==> n >= 0x8000_0000_0000_0000
  {
    if x >= 0 then x else x + 0x1_0000_0000_0000_0000
  }

}
