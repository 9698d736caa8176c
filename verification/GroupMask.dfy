/** Event-group masks: the top three bits of a group select one of eight 32-bit masks and the
    other 29 bits are OR-ed into it. */
module GroupMask {

  const PERF_MASK_INDEX: bv32 := 0xe000_0000
  const PERF_MASK_GROUP: bv32 := !PERF_MASK_INDEX
  const PERF_NUM_MASKS := 8

  function MaskIndex(group: bv32): (i: nat)
    ensures i < PERF_NUM_MASKS
  {
    var top := (group & PERF_MASK_INDEX) >> 29;
    assert top <= 7;
    top as nat
  }

  function MaskGroup(group: bv32): bv32 {
    group & PERF_MASK_GROUP
  }

  /** A group is its index, in the top three bits, and its 29 other bits. */
  lemma GroupSplits(group: bv32)
    ensures group == (MaskIndex(group) as bv32 << 29) | MaskGroup(group)
    ensures MaskGroup(group) <= 0x1fff_ffff
  {
  }

  predicate IsMask(masks: seq<bv32>) {
    |masks| == PERF_NUM_MASKS
  }

  function Or(x: bv32, y: bv32): bv32 {
    x | y
  }

  function OrInto(masks: seq<bv32>, group: bv32): (r: seq<bv32>)
    requires IsMask(masks)
    ensures IsMask(r)
  {
    masks[MaskIndex(group) := Or(masks[MaskIndex(group)], MaskGroup(group))]
  }

  function Accumulate(masks: seq<bv32>, groups: seq<bv32>): (r: seq<bv32>)
    requires IsMask(masks)
    ensures IsMask(r)
    decreases |groups|
  {
    if groups == [] then masks else Accumulate(OrInto(masks, groups[0]), groups[1..])
  }

  /** PERFINFO_OR_GROUP_WITH_GROUPMASK, in place. */
  method OrGroupWithGroupMask(group: bv32, masks: array<bv32>)
    requires masks.Length == PERF_NUM_MASKS
    modifies masks
    ensures masks[..] == OrInto(old(masks[..]), group)
  {
    var i, added := MaskIndex(group), MaskGroup(group);
    masks[i] := masks[i] | added;
    assert masks[..] == old(masks[..])[i := old(masks[i]) | added];
  }

  predicate HasBit(m: bv32, b: bv32) {
    (m >> (b & 31)) & 1 == 1
  }

  /** Group `g` contributes bit `b` of mask `i`. */
  predicate Selects(g: bv32, i: nat, b: bv32) {
    MaskIndex(g) == i && HasBit(MaskGroup(g), b)
  }

  /** Some group of the sequence selects bit `b` of mask `i`. */
  predicate AnySelects(groups: seq<bv32>, i: nat, b: bv32) {
    exists g :: g in groups && Selects(g, i, b)
  }

  lemma AnySelectsSplit(groups: seq<bv32>, i: nat, b: bv32)
    requires groups != []
    ensures AnySelects(groups, i, b) <==> Selects(groups[0], i, b) || AnySelects(groups[1..], i, b)
  {
  }

  /** Bit `b` of mask `i` ends up set exactly if it was set or some group selects it. */
  lemma {:induction false} AccumulatedBits(masks: seq<bv32>, groups: seq<bv32>, i: nat, b: bv32)
    requires IsMask(masks) && i < PERF_NUM_MASKS
    ensures HasBit(Accumulate(masks, groups)[i], b) <==> HasBit(masks[i], b) || AnySelects(groups, i, b)
    decreases |groups|
  {
    if groups != [] {
      AnySelectsSplit(groups, i, b);
      AccumulatedBits(OrInto(masks, groups[0]), groups[1..], i, b);
    }
  }

  predicate SameFrom(x: bv32, y: bv32, n: bv32) {
    x >> (n & 31) == y >> (n & 31)
  }

  lemma ExtendSameBits(x: bv32, y: bv32, n: bv32)
    requires 0 < n <= 31
    requires SameFrom(x, y, n) && (HasBit(x, n - 1) <==> HasBit(y, n - 1))
    ensures SameFrom(x, y, n - 1)
  {
  }

  lemma {:induction false} SameBitsBelow(x: bv32, y: bv32, n: bv32)
    requires n <= 31 && SameFrom(x, y, n)
    requires forall b: bv32 :: HasBit(x, b) <==> HasBit(y, b)
    ensures SameFrom(x, y, 0)
    decreases n
  {
    if n != 0 {
      var k := n - 1;
      ExtendSameBits(x, y, n);
      SameBitsBelow(x, y, k);
    }
  }

  lemma TopBit(x: bv32, y: bv32)
    requires HasBit(x, 31) <==> HasBit(y, 31)
    ensures SameFrom(x, y, 31)
  {
  }

  /** Two words with the same 32 bits are the same word. */
  lemma SameBits(x: bv32, y: bv32)
    requires forall b: bv32 :: HasBit(x, b) <==> HasBit(y, b)
    ensures x == y
  {
    TopBit(x, y);
    SameBitsBelow(x, y, 31);
  }

  /** Neither order nor repetition of the groups matters. */
  lemma OrderAndRepetitionIrrelevant(masks: seq<bv32>, gs: seq<bv32>, hs: seq<bv32>)
    requires IsMask(masks)
    requires forall g :: g in gs <==> g in hs
    ensures Accumulate(masks, gs) == Accumulate(masks, hs)
  {
    forall i | 0 <= i < PERF_NUM_MASKS
      ensures Accumulate(masks, gs)[i] == Accumulate(masks, hs)[i]
    {
      forall b: bv32
        ensures HasBit(Accumulate(masks, gs)[i], b) <==> HasBit(Accumulate(masks, hs)[i], b)
      {
        AccumulatedBits(masks, gs, i, b);
        AccumulatedBits(masks, hs, i, b);
      }
      SameBits(Accumulate(masks, gs)[i], Accumulate(masks, hs)[i]);
    }
  }
}
