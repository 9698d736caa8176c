/** Fixed-width words and little-endian byte strings. */
module Words {

  datatype Option<+T> = None | Some(value: T)
  {
    function GetOr(otherwise: T): T {
      if None? then otherwise else value
    }
  }

  const TWO8 := 0x100
  const TWO16 := 0x1_0000
  const TWO24 := 0x100_0000
  const TWO32 := 0x1_0000_0000
  const TWO64 := 0x1_0000_0000_0000_0000

  type Byte = x: int | 0 <= x < 0x100
  type Word16 = x: int | 0 <= x < 0x1_0000
  type Word32 = x: int | 0 <= x < 0x1_0000_0000
  type Word64 = x: int | 0 <= x < 0x1_0000_0000_0000_0000

  type Bytes = seq<Byte>

  /** A value stored in an unsigned 16-bit variable. */
  function ToUShort(x: int): Word16 {
    x % TWO16
  }

  /** A value stored in a signed 16-bit variable. */
  function ToShort(x: int): int {
    if x % TWO16 < 0x8000 then x % TWO16 else x % TWO16 - TWO16
  }

  function Zeros(n: nat): (z: Bytes)
    ensures |z| == n && forall i :: 0 <= i < n ==> z[i] == 0
  {
    seq(n, _ => 0)
  }

  function Word16At(b: Bytes, at: nat): Word16
    requires at + 2 <= |b|
  {
    b[at] + TWO8 * b[at + 1]
  }

  function Word32At(b: Bytes, at: nat): Word32
    requires at + 4 <= |b|
  {
    Word16At(b, at) + TWO16 * Word16At(b, at + 2)
  }

  function PutWord16(b: Bytes, at: nat, w: Word16): (r: Bytes)
    requires at + 2 <= |b|
    ensures |r| == |b| && Word16At(r, at) == w
    ensures forall i :: 0 <= i < |b| && i != at && i != at + 1 ==> r[i] == b[i]
  {
    b[at := w % TWO8][at + 1 := w / TWO8]
  }

  function PutWord32(b: Bytes, at: nat, w: Word32): (r: Bytes)
    requires at + 4 <= |b|
    ensures |r| == |b| && Word32At(r, at) == w
    ensures forall i :: 0 <= i < |b| && !(at <= i < at + 4) ==> r[i] == b[i]
  {
    PutWord16(PutWord16(b, at, w % TWO16), at + 2, w / TWO16)
  }

  /** The first `|src|` bytes of `dst` replaced by `src`: what a copy into a larger buffer leaves. */
  function Overwrite(dst: Bytes, src: Bytes): (r: Bytes)
    requires |src| <= |dst|
    ensures |r| == |dst| && r[..|src|] == src && r[|src|..] == dst[|src|..]
  {
    src + dst[|src|..]
  }

  /** The `n` low bytes of `x` in memory order. */
  function LittleEndian(n: nat, x: nat): (b: Bytes)
    ensures |b| == n
  {
    if n == 0 then [] else [x % TWO8] + LittleEndian(n - 1, x / TWO8)
  }

  function FromLittleEndian(b: Bytes): nat {
    if b == [] then 0 else b[0] + TWO8 * FromLittleEndian(b[1..])
  }

  function Range(n: nat): nat {
    if n == 0 then 1 else TWO8 * Range(n - 1)
  }

  lemma {:induction false} LittleEndianRoundTrip(n: nat, x: nat)
    requires x < Range(n)
    ensures FromLittleEndian(LittleEndian(n, x)) == x
  {
    if n > 0 {
      LittleEndianRoundTrip(n - 1, x / TWO8);
    }
  }
}
