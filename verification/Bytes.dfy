/** Bytes, fixed-width unsigned integers and their big- and little-endian codings.
    The source's masks and shifts are written as division and remainder. */
module Bytes {
  type Byte = x: int | 0 <= x < 0x100
  type U24 = x: int | 0 <= x < 0x100_0000
  type U32 = x: int | 0 <= x < 0x1_0000_0000
  type I32 = x: int | -0x8000_0000 <= x < 0x8000_0000
  type U64 = x: int | 0 <= x < 0x1_0000_0000_0000_0000

  const MAX_U32: U32 := 0xFFFF_FFFF

  /** The largest chunk size, and the largest message length: 24 bits. */
  const MAX_CHUNK_SIZE: U32 := 0xFF_FFFF

  datatype Option<+T> = None | Some(value: T)

  /** True of every number. A large predicate is stated as `forall n :: Inside(n) ==> ...` with this as its trigger, so
      that only the proofs that mention Inside see its parts, and the others stay small. */
  predicate Inside(n: nat) {
    true
  }

  function Min(a: int, b: int): int {
    if a <= b then a else b
  }

  /** uint32 addition. */
  function AddU32(a: U32, b: U32): U32 {
    (a + b) % 0x1_0000_0000
  }

  function PutU16(x: int): (b: seq<Byte>)
    requires 0 <= x < 0x1_0000
    ensures |b| == 2
  {
    [x / 0x100, x % 0x100]
  }

  function GetU16(b: seq<Byte>): (x: int)
    requires |b| == 2
    ensures 0 <= x < 0x1_0000
  {
    b[0] as int * 0x100 + b[1] as int
  }

  /** The low 24 bits, big endian: PutUint32 into four bytes, of which the first is dropped. */
  function PutU24(x: U32): (b: seq<Byte>)
    ensures |b| == 3
  {
    [x / 0x1_0000 % 0x100, x / 0x100 % 0x100, x % 0x100]
  }

  function GetU24(b: seq<Byte>): U24
    requires |b| == 3
  {
    b[0] as int * 0x1_0000 + b[1] as int * 0x100 + b[2] as int
  }

  function PutU32(x: U32): (b: seq<Byte>)
    ensures |b| == 4
  {
    [x / 0x100_0000, x / 0x1_0000 % 0x100, x / 0x100 % 0x100, x % 0x100]
  }

  function GetU32(b: seq<Byte>): U32
    requires |b| == 4
  {
    b[0] as int * 0x100_0000 + b[1] as int * 0x1_0000 + b[2] as int * 0x100 + b[3] as int
  }

  function PutU32LE(x: U32): (b: seq<Byte>)
    ensures |b| == 4
  {
    [x % 0x100, x / 0x100 % 0x100, x / 0x1_0000 % 0x100, x / 0x100_0000]
  }

  function GetU32LE(b: seq<Byte>): U32
    requires |b| == 4
  {
    b[3] as int * 0x100_0000 + b[2] as int * 0x1_0000 + b[1] as int * 0x100 + b[0] as int
  }

  /** The integers that the bytes from index k on code. */
  function U24At(b: seq<Byte>, k: nat): U24
    requires k + 3 <= |b|
  {
    GetU24([b[k], b[k + 1], b[k + 2]])
  }

  function U32At(b: seq<Byte>, k: nat): U32
    requires k + 4 <= |b|
  {
    GetU32([b[k], b[k + 1], b[k + 2], b[k + 3]])
  }

  function U32LEAt(b: seq<Byte>, k: nat): U32
    requires k + 4 <= |b|
  {
    GetU32LE([b[k], b[k + 1], b[k + 2], b[k + 3]])
  }

  /** int32 to uint32 and back, as Go converts them. */
  function AsU32(x: I32): U32 {
    if x < 0 then x + 0x1_0000_0000 else x
  }

  function AsI32(x: U32): I32 {
    if x < 0x8000_0000 then x else x - 0x1_0000_0000
  }

  /** The four bytes of x, and the quotients they leave. */
  lemma Digits(x: U32)
    ensures var q1, q2, q3 := x / 0x100, x / 0x1_0000, x / 0x100_0000;
            x == q1 * 0x100 + x % 0x100 && q1 == q2 * 0x100 + q1 % 0x100 && q2 == q3 * 0x100 + q2 % 0x100
  {
  }

  lemma {:induction false} U24RoundTrip(x: U32)
    ensures GetU24(PutU24(x)) == x % 0x100_0000
  {
    Digits(x);
    var q3 := x / 0x100_0000;
    assert x == q3 * 0x100_0000 + GetU24(PutU24(x));
  }

  lemma U32RoundTrip(x: U32)
    ensures GetU32(PutU32(x)) == x
    ensures GetU32LE(PutU32LE(x)) == x
  {
    Digits(x);
  }

  lemma Quotient(q: nat, r: Byte)
    ensures (q * 0x100 + r as int) / 0x100 == q && (q * 0x100 + r as int) % 0x100 == r
  {
  }

  lemma {:induction false} PutAfterGet(b: seq<Byte>)
    requires |b| == 4
    ensures PutU32(GetU32(b)) == b
  {
    var q2 := b[0] as int * 0x100 + b[1] as int;
    var q1 := q2 * 0x100 + b[2] as int;
    Quotient(q1, b[3]);
    Quotient(q2, b[2]);
    Quotient(b[0], b[1]);
    assert GetU32(b) == q1 * 0x100 + b[3] as int;
    Digits(GetU32(b));
  }

  //
  // Words of any width, most significant byte first
  //

  function Power(n: nat): nat {
    if n == 0 then 1 else 256 * Power(n - 1)
  }

  function Put(x: nat, n: nat): (b: seq<Byte>)
    ensures |b| == n
  {
    if n == 0 then [] else Put(x / 256, n - 1) + [x % 256]
  }

  function Get(b: seq<Byte>): nat {
    if b == [] then 0 else Get(b[..|b| - 1]) * 256 + b[|b| - 1]
  }

  lemma {:induction false} GetBound(b: seq<Byte>)
    ensures Get(b) < Power(|b|)
  {
    if b != [] { GetBound(b[..|b| - 1]); }
  }

  lemma {:induction false} GetAfterPut(x: nat, n: nat)
    requires x < Power(n)
    ensures Get(Put(x, n)) == x
  {
    if n > 0 {
      GetAfterPut(x / 256, n - 1);
      assert Put(x, n)[..n - 1] == Put(x / 256, n - 1);
    }
  }

  lemma {:induction false} PutAfterGetWord(b: seq<Byte>)
    ensures Put(Get(b), |b|) == b
  {
    if b != [] { PutAfterGetWord(b[..|b| - 1]); }
  }

  function PutU64(x: U64): (b: seq<Byte>)
    ensures |b| == 8
  {
    Put(x, 8)
  }

  function U64At(b: seq<Byte>, k: nat): U64
    requires k + 8 <= |b|
  {
    GetBound(b[k..k + 8]);
    assert Power(8) == 0x1_0000_0000_0000_0000;
    Get(b[k..k + 8])
  }
}
