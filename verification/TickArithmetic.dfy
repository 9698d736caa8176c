/** Ticks to milliseconds: the multiplies and shifts of the two tick-count readers,
    in 32- and 64-bit machine arithmetic, against floor(T * M / 2^24) on naturals. */
module TickArithmetic {
  import opened Words

  function High(t: Word64): Word32 {
    t / TWO32
  }

  function Low(t: Word64): Word32 {
    t % TWO32
  }

  /** The full 64-bit product of two 32-bit words. */
  function UInt32x32To64(a: Word32, b: Word32): Word64 {
    ProductFits(a, b);
    a * b
  }

  function Add64(a: Word64, b: Word64): Word64 {
    (a + b) % TWO64
  }

  function ShiftLeft8(a: Word64): Word64 {
    (a * TWO8) % TWO64
  }

  function ShiftRight24(a: Word64): Word64 {
    a / TWO24
  }

  /** NtGetTickCount64, from the two halves of the tick count. */
  function TickCount64(high: Word32, low: Word32, m: Word32): Word64 {
    Add64(ShiftRight24(UInt32x32To64(low, m)), ShiftLeft8(UInt32x32To64(high, m)))
  }

  /** NtGetTickCount on a 64-bit build: one wrapping 64-bit product. */
  function TickCountQuad(t: Word64, m: Word32): Word32 {
    ShiftRight24((t * m) % TWO64) % TWO32
  }

  /** NtGetTickCount on a 32-bit build: `high << 8` is truncated to 32 bits first. */
  function TickCountSplit(high: Word32, low: Word32, m: Word32): Word32 {
    Add64(ShiftRight24(UInt32x32To64(low, m)), UInt32x32To64((high * TWO8) % TWO32, m)) % TWO32
  }

  /** The value all three forms approximate. */
  function Milliseconds(t: nat, m: nat): nat {
    t * m / TWO24
  }

  const TWO88 := 0x100_0000 * 0x1_0000_0000_0000_0000

  lemma MulMonotone(a: nat, b: nat, c: nat)
    requires b <= c
    ensures 0 <= a * b <= a * c
  {
  }

  lemma ProductFits(a: Word32, b: Word32)
    ensures 0 <= a * b < TWO64
  {
    MulMonotone(a, b, TWO32 - 1);
  }

  lemma SplitProduct(t: Word64, m: Word32)
    ensures t * m == (High(t) * m) * TWO32 + Low(t) * m
    ensures Milliseconds(t, m) == (High(t) * m) * TWO8 + Low(t) * m / TWO24
    ensures 0 <= High(t) * m && 0 <= Low(t) * m
  {
  }

  /** Machine sum against exact quotient, over the two partial products alone. */
  lemma PartialProductsExact(x: nat, high: nat, low: nat)
    requires x == high * TWO32 + low
    ensures (low / TWO24 + (high * TWO8) % TWO64) % TWO64 == (x / TWO24) % TWO64
    ensures (x / TWO24) % TWO64 == x / TWO24 <==> x < TWO88
  {
  }

  /** The split conversion is exact modulo 2^64, and exact outright precisely when T * M < 2^88. */
  lemma SplitConversionIsExact(t: Word64, m: Word32)
    ensures TickCount64(High(t), Low(t), m) == Milliseconds(t, m) % TWO64
    ensures TickCount64(High(t), Low(t), m) == Milliseconds(t, m) <==> t * m < TWO88
  {
    PartialProductsExact(t * m, High(t) * m, Low(t) * m);
  }

  /** The direct 64-bit product is right only while T * M < 2^64, a 2^24 times shorter range. */
  lemma DirectProductLosesRange(t: Word64, m: Word32)
    ensures ShiftRight24((t * m) % TWO64) == Milliseconds(t, m) <==> t * m < TWO64
  {
  }

  lemma WrappingProductLow32(x: nat)
    ensures (x % TWO64) / TWO24 % TWO32 == x / TWO24 % TWO32
  {
    var quotient := x / TWO64;
    assert x == quotient * TWO64 + x % TWO64;
  }

  lemma TruncatedHighProduct(high: Word32, m: Word32)
    ensures exists k: nat :: ((high * TWO8) % TWO32) * m + k * TWO32 == (high * m) * TWO8
  {
    var q := high * TWO8 / TWO32;
    var r := high * TWO8 % TWO32;
    assert r * m + (q * m) * TWO32 == (q * TWO32 + r) * m;
    var k: nat := q * m;
  }

  /** The wrapping product, the truncated shift and the low word of the 64-bit result are one function. */
  lemma AllFormsAgree(t: Word64, m: Word32)
    ensures TickCountQuad(t, m) == Milliseconds(t, m) % TWO32
    ensures TickCountSplit(High(t), Low(t), m) == Milliseconds(t, m) % TWO32
    ensures TickCount64(High(t), Low(t), m) % TWO32 == Milliseconds(t, m) % TWO32
  {
    WrappingProductLow32(t * m) by { assert 0 <= t * m; }
    SplitFormLow32(t, m);
    SplitConversionIsExact(t, m);
    ReduceTwice(Milliseconds(t, m));
  }

  lemma SplitFormLow32(t: Word64, m: Word32)
    ensures TickCountSplit(High(t), Low(t), m) == Milliseconds(t, m) % TWO32
  {
    SplitProduct(t, m);
    TruncatedHighProduct(High(t), m);
    var k: nat :| ((High(t) * TWO8) % TWO32) * m + k * TWO32 == (High(t) * m) * TWO8;
    var shifted := UInt32x32To64((High(t) * TWO8) % TWO32, m);
    SplitLow32(Low(t) * m / TWO24, shifted, k);
  }

  lemma SplitLow32(a: nat, b: nat, k: nat)
    ensures (a + b) % TWO64 % TWO32 == (b + k * TWO32 + a) % TWO32
  {
  }

  lemma ReduceTwice(x: nat)
    ensures x % TWO64 % TWO32 == x % TWO32
  {
  }

  lemma MillisecondsMonotone(t1: nat, t2: nat, m: nat)
    requires t1 <= t2
    ensures t1 * m <= t2 * m && Milliseconds(t1, m) <= Milliseconds(t2, m)
  {
  }

  /** A later reading of the 64-bit count is never smaller, while the product stays in range. */
  lemma LaterReadingNotSmaller(t1: Word64, t2: Word64, m: Word32)
    requires t1 <= t2 && t2 * m < TWO88
    ensures TickCount64(High(t1), Low(t1), m) <= TickCount64(High(t2), Low(t2), m)
    ensures TickCount64(High(t1), Low(t1), m) == Milliseconds(t1, m)
    ensures TickCount64(High(t2), Low(t2), m) == Milliseconds(t2, m)
  {
    MillisecondsMonotone(t1, t2, m);
    SplitConversionIsExact(t1, m);
    SplitConversionIsExact(t2, m);
  }

  lemma DifferenceOfResidues(a: nat, b: nat)
    requires a <= b
    ensures (b % TWO32 - a % TWO32) % TWO32 == (b - a) % TWO32
    ensures (b - a) % TWO32 == b - a <==> b - a < TWO32
  {
  }

  /** Elapsed time from two 32-bit readings, in either build: the wrapping difference is the
      difference of the 64-bit readings exactly when that difference is below 2^32. */
  lemma WrappingDifference(t1: Word64, t2: Word64, m: Word32)
    requires t1 <= t2 && t2 * m < TWO88
    ensures var elapsed := TickCount64(High(t2), Low(t2), m) - TickCount64(High(t1), Low(t1), m);
      && ((TickCountSplit(High(t2), Low(t2), m) - TickCountSplit(High(t1), Low(t1), m)) % TWO32 == elapsed
          <==> elapsed < TWO32)
      && ((TickCountQuad(t2, m) - TickCountQuad(t1, m)) % TWO32 == elapsed <==> elapsed < TWO32)
  {
    LaterReadingNotSmaller(t1, t2, m);
    AllFormsAgree(t1, m);
    AllFormsAgree(t2, m);
    DifferenceOfResidues(Milliseconds(t1, m), Milliseconds(t2, m));
  }
}
