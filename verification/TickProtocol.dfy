/** The three-word tick count, one writer, and readers that take no lock.

    A run is a sequence of single stores by the writer; a reader's loads happen at positions of the
    run. An update stores High2Time, then LowPart, then High1Time, and ticks never decrease. */
module TickProtocol {
  import opened Words
  import opened TickArithmetic

  /** How far the update in progress has come. */
  datatype Stage = Idle | High2Stored | LowStored

  datatype WriterStep = StoreHigh2(next: Word64) | StoreLow | StoreHigh1

  /** The three shared words; `begun`, `published` and `completed` are the counts whose
      High2Time, LowPart and High1Time were stored last. */
  datatype TickState = TickState(
    low: Word32, high1: Word32, high2: Word32,
    stage: Stage, begun: Word64, published: Word64, completed: Word64)
  {
    predicate Valid() {
      && high2 == High(begun) && low == Low(published) && high1 == High(completed)
      && completed <= published <= begun
      && (stage == Idle ==> completed == begun)
      && (stage == High2Stored ==> completed == published)
      && (stage == LowStored ==> published == begun)
    }

    /** An update that changes the high word has started and not finished. */
    predicate ChangingHigh() {
      High(completed) != High(begun)
    }
  }

  predicate Enabled(s: TickState, step: WriterStep) {
    match step
    case StoreHigh2(next) => s.stage == Idle && s.begun <= next
    case StoreLow => s.stage == High2Stored
    case StoreHigh1 => s.stage == LowStored
  }

  function Apply(s: TickState, step: WriterStep): TickState
    requires Enabled(s, step)
  {
    match step
    case StoreHigh2(next) => s.(high2 := High(next), begun := next, stage := High2Stored)
    case StoreLow => s.(low := Low(s.begun), published := s.begun, stage := LowStored)
    case StoreHigh1 => s.(high1 := High(s.begun), completed := s.begun, stage := Idle)
  }

  /** The writer performs the run in order from `s`. */
  ghost predicate IsRun(s: TickState, run: seq<WriterStep>)
    decreases |run|
  {
    run == [] || (Enabled(s, run[0]) && IsRun(Apply(s, run[0]), run[1..]))
  }

  /** The shared words after the first `n` stores. */
  function StateAt(s: TickState, run: seq<WriterStep>, n: nat): TickState
    requires IsRun(s, run) && n <= |run|
    decreases n
  {
    if n == 0 then s else StateAt(Apply(s, run[0]), run[1..], n - 1)
  }

  lemma {:induction false} StateAtStep(s: TickState, run: seq<WriterStep>, n: nat)
    requires IsRun(s, run) && n < |run|
    ensures Enabled(StateAt(s, run, n), run[n])
    ensures StateAt(s, run, n + 1) == Apply(StateAt(s, run, n), run[n])
    decreases n
  {
    if n > 0 {
      StateAtStep(Apply(s, run[0]), run[1..], n - 1);
    }
  }

  /** Every state of a run is consistent, and all three counts only grow. */
  lemma {:induction false} CountsOnlyGrow(s: TickState, run: seq<WriterStep>, i: nat, j: nat)
    requires s.Valid() && IsRun(s, run) && i <= j <= |run|
    ensures StateAt(s, run, i).Valid() && StateAt(s, run, j).Valid()
    ensures StateAt(s, run, i).begun <= StateAt(s, run, j).begun
    ensures StateAt(s, run, i).published <= StateAt(s, run, j).published
    ensures StateAt(s, run, i).completed <= StateAt(s, run, j).completed
    decreases j
  {
    if i < j {
      CountsOnlyGrow(s, run, i, j - 1);
      StateAtStep(s, run, j - 1);
    } else if j > 0 {
      CountsOnlyGrow(s, run, j - 1, j - 1);
      StateAtStep(s, run, j - 1);
    }
  }

  /** An accepted iteration, with loads at i, j and k, joins the halves of the one count that was
      published when LowPart was loaded. */
  lemma SnapshotIsExact(s: TickState, run: seq<WriterStep>, i: nat, j: nat, k: nat)
    requires s.Valid() && IsRun(s, run) && i <= j <= k <= |run|
    requires StateAt(s, run, i).high1 == StateAt(s, run, k).high2
    ensures StateAt(s, run, i).high1 == High(StateAt(s, run, j).published)
    ensures StateAt(s, run, j).low == Low(StateAt(s, run, j).published)
  {
    CountsOnlyGrow(s, run, i, j);
    CountsOnlyGrow(s, run, j, k);
    // the count published at j lies between two counts with the same high word
  }

  /** The writer is inside a change of the high word at some moment between two loads. */
  ghost predicate OverlapsHighChange(s: TickState, run: seq<WriterStep>, i: nat, k: nat)
    requires IsRun(s, run) && i <= k <= |run|
  {
    exists m :: i <= m <= k && StateAt(s, run, m).ChangingHigh()
  }

  /** An iteration is rejected exactly when it overlaps a change of the high word. */
  lemma RejectedIffOverlapping(s: TickState, run: seq<WriterStep>, i: nat, k: nat)
    requires s.Valid() && IsRun(s, run) && i <= k <= |run|
    ensures StateAt(s, run, i).high1 != StateAt(s, run, k).high2 <==> OverlapsHighChange(s, run, i, k)
  {
    CountsOnlyGrow(s, run, i, k);
    if StateAt(s, run, i).high1 != StateAt(s, run, k).high2 {
      FindOverlap(s, run, i, k);
    }
    if m :| i <= m <= k && StateAt(s, run, m).ChangingHigh() {
      CountsOnlyGrow(s, run, i, m);
      CountsOnlyGrow(s, run, m, k);
    }
  }

  lemma {:induction false} FindOverlap(s: TickState, run: seq<WriterStep>, i: nat, k: nat)
    requires s.Valid() && IsRun(s, run) && i <= k <= |run|
    requires StateAt(s, run, i).high1 != StateAt(s, run, k).high2
    ensures OverlapsHighChange(s, run, i, k)
    decreases k - i
  {
    CountsOnlyGrow(s, run, i, k);
    if !StateAt(s, run, i).ChangingHigh() {
      StateAtStep(s, run, i);
      FindOverlap(s, run, i + 1, k);
      var m :| i + 1 <= m <= k && StateAt(s, run, m).ChangingHigh();
    }
  }

  /** Joining LowPart and High1Time without the check is right exactly outside the window between
      the two stores of an update that changes the high word: what the loop is there to exclude. */
  lemma UncheckedJoinIsExactIff(s: TickState)
    requires s.Valid()
    ensures s.high1 * TWO32 + s.low == s.published <==> !(s.stage == LowStored && s.ChangingHigh())
  {
  }

  /** Between updates the writer can always store any later count, and its three stores complete it. */
  lemma UpdateCompletes(s: TickState, next: Word64)
    requires s.Valid() && s.stage == Idle && s.begun <= next
    ensures var run := [StoreHigh2(next), StoreLow, StoreHigh1];
      && IsRun(s, run)
      && StateAt(s, run, 3) == TickState(next % 0x1_0000_0000, next / 0x1_0000_0000, next / 0x1_0000_0000,
           Idle, next, next, next)
  {
    var s1 := Apply(s, StoreHigh2(next));
    var s2 := Apply(s1, StoreLow);
    assert IsRun(Apply(s2, StoreHigh1), []);
    assert IsRun(s2, [StoreHigh1]) && StateAt(s2, [StoreHigh1], 1) == Apply(s2, StoreHigh1);
    assert [StoreLow, StoreHigh1][1..] == [StoreHigh1];
    assert IsRun(s1, [StoreLow, StoreHigh1]) && StateAt(s1, [StoreLow, StoreHigh1], 2) == Apply(s2, StoreHigh1);
    assert [StoreHigh2(next), StoreLow, StoreHigh1][1..] == [StoreLow, StoreHigh1];
  }

  // What a reading is worth: the milliseconds of the count published at one position of the run, in 64 or
  // in 32 bits. All readers below promise it.

  ghost predicate IsReading64(s: TickState, run: seq<WriterStep>, j: nat, m: Word32, ms: Word64)
    requires IsRun(s, run) && j <= |run|
  {
    ms == Milliseconds(StateAt(s, run, j).published, m) % TWO64
  }

  ghost predicate IsReading32(s: TickState, run: seq<WriterStep>, j: nat, m: Word32, ms: Word32)
    requires IsRun(s, run) && j <= |run|
  {
    ms == Milliseconds(StateAt(s, run, j).published, m) % TWO32
  }

  /** The 64-bit builds load the count as one word and convert it in their own ways. */
  lemma QuadReadings(s: TickState, run: seq<WriterStep>, j: nat, m: Word32)
    requires IsRun(s, run) && j <= |run|
    ensures var t := StateAt(s, run, j).published;
      IsReading64(s, run, j, m, TickCount64(High(t), Low(t), m)) && IsReading32(s, run, j, m, TickCountQuad(t, m))
  {
    SplitConversionIsExact(StateAt(s, run, j).published, m);
    AllFormsAgree(StateAt(s, run, j).published, m);
  }

  /** The results of two NtGetTickCount64 calls by any readers of one run, in either build: the one that loads
      the count later is not smaller, and their difference is the elapsed time. */
  lemma SuccessiveReads(s: TickState, run: seq<WriterStep>, j1: nat, j2: nat, m: Word32, ms1: Word64, ms2: Word64)
    requires s.Valid() && IsRun(s, run) && j1 <= j2 <= |run|
    requires IsReading64(s, run, j1, m, ms1) && IsReading64(s, run, j2, m, ms2)
    requires StateAt(s, run, j2).published * m < TWO88
    ensures 0 <= ms2 - ms1 == Elapsed(s, run, j1, j2, m)
  {
    CountsOnlyGrow(s, run, j1, j2);
    LaterReadingNotSmaller(StateAt(s, run, j1).published, StateAt(s, run, j2).published, m);
    SplitConversionIsExact(StateAt(s, run, j1).published, m);
    SplitConversionIsExact(StateAt(s, run, j2).published, m);
  }

  /** The time that passed between two positions of the run. */
  ghost function Elapsed(s: TickState, run: seq<WriterStep>, j1: nat, j2: nat, m: Word32): int
    requires IsRun(s, run) && j1 <= |run| && j2 <= |run|
  {
    Milliseconds(StateAt(s, run, j2).published, m) - Milliseconds(StateAt(s, run, j1).published, m)
  }

  /** The results of two NtGetTickCount calls, in either build: their wrapping difference is the elapsed
      time if and only if that is below 2^32. */
  lemma ElapsedFromReads(s: TickState, run: seq<WriterStep>, j1: nat, j2: nat, m: Word32, ms1: Word32, ms2: Word32)
    requires s.Valid() && IsRun(s, run) && j1 <= j2 <= |run|
    requires IsReading32(s, run, j1, m, ms1) && IsReading32(s, run, j2, m, ms2)
    ensures (ms2 - ms1) % TWO32 == Elapsed(s, run, j1, j2, m) <==> Elapsed(s, run, j1, j2, m) < TWO32
  {
    var t1, t2 := StateAt(s, run, j1).published, StateAt(s, run, j2).published;
    CountsOnlyGrow(s, run, j1, j2);
    MillisecondsMonotone(t1, t2, m);
    DifferenceOfResidues(Milliseconds(t1, m), Milliseconds(t2, m));
  }

  /** Positions at which a reader's successive loads take place, none before position `from`. */
  ghost predicate LoadPositions(loads: seq<nat>, run: seq<WriterStep>, from: nat) {
    && (forall a, b :: 0 <= a <= b < |loads| ==> loads[a] <= loads[b])
    && (forall a :: 0 <= a < |loads| ==> from <= loads[a] <= |run|)
  }

  /** The page that the writer updates and readers map. */
  class SharedData {
    var lowPart: Word32
    var high1Time: Word32
    var high2Time: Word32
    const tickCountMultiplier: Word32
    ghost var stage: Stage
    var begun: Word64          // the count the writer is storing
    ghost var published: Word64
    ghost var completed: Word64

    constructor (ticks: Word64, multiplier: Word32)
      ensures View() == TickState(Low(ticks), High(ticks), High(ticks), Idle, ticks, ticks, ticks)
      ensures View().Valid() && tickCountMultiplier == multiplier
    {
      lowPart, high1Time, high2Time := Low(ticks), High(ticks), High(ticks);
      tickCountMultiplier := multiplier;
      stage, begun, published, completed := Idle, ticks, ticks, ticks;
    }

    ghost function View(): TickState
      reads this
    {
      TickState(lowPart, high1Time, high2Time, stage, begun, published, completed)
    }

    method Store(step: WriterStep)
      requires Enabled(View(), step)
      modifies this
      ensures View() == Apply(old(View()), step)
    {
      match step {
        case StoreHigh2(next) =>
          high2Time, begun := High(next), next;
          stage := High2Stored;
        case StoreLow =>
          lowPart := Low(begun);
          published, stage := begun, LowStored;
        case StoreHigh1 =>
          high1Time := High(begun);
          completed, stage := begun, Idle;
      }
    }

    /** The writer proceeds from position `from` of the run to position `to`. */
    method Interfere(ghost start: TickState, run: seq<WriterStep>, from: nat, to: nat)
      requires start.Valid() && IsRun(start, run) && from <= to <= |run|
      requires View() == StateAt(start, run, from)
      modifies this
      ensures View() == StateAt(start, run, to)
    {
      for n := from to to
        invariant View() == StateAt(start, run, n)
      {
        StateAtStep(start, run, n);
        Store(run[n]);
      }
    }
  }

  /** What one reader sees: the halves it accepted and the load that fixed them, or nothing yet. */
  datatype Reading = Reading(high: Word32, low: Word32, iteration: nat)

  /** The retry loop of the 32-bit builds, under interference: the call begins when the writer is at
      position `from` of its run and returns when it is at position `to`. Loads `3n`, `3n+1` and `3n+2` belong
      to iteration `n`. Without a result the reader is still spinning when the run is cut off. */
  method ReadTickCount(shared: SharedData, ghost start: TickState, run: seq<WriterStep>, from: nat, loads: seq<nat>)
    returns (r: Option<Reading>, ghost to: nat)
    requires start.Valid() && IsRun(start, run) && from <= |run| && LoadPositions(loads, run, from)
    requires shared.View() == StateAt(start, run, from)
    modifies shared
    ensures from <= to <= |run| && shared.View() == StateAt(start, run, to)
    ensures r.Some? ==> 3 * r.value.iteration + 2 < |loads| && to == loads[3 * r.value.iteration + 2]
    ensures r.Some? ==> var t := StateAt(start, run, loads[3 * r.value.iteration + 1]).published;
      r.value.high == High(t) && r.value.low == Low(t)
    ensures var rejected := if r.Some? then r.value.iteration else |loads| / 3;
      && (forall n: nat :: n < rejected ==> OverlapsHighChange(start, run, loads[3 * n], loads[3 * n + 2]))
      && (r.Some? ==> !OverlapsHighChange(start, run, loads[3 * rejected], loads[3 * rejected + 2]))
  {
    var at, iteration: nat := from, 0;
    while 3 * iteration + 2 < |loads|
      invariant 3 * iteration <= |loads| && from <= at <= |run|
      invariant shared.View() == StateAt(start, run, at)
      invariant forall k :: 3 * iteration <= k < |loads| ==> at <= loads[k]
      invariant forall n: nat :: n < iteration ==> OverlapsHighChange(start, run, loads[3 * n], loads[3 * n + 2])
    {
      var i, j, k := loads[3 * iteration], loads[3 * iteration + 1], loads[3 * iteration + 2];
      shared.Interfere(start, run, at, i);
      var high := shared.high1Time;
      shared.Interfere(start, run, i, j);
      var low := shared.lowPart;
      shared.Interfere(start, run, j, k);
      RejectedIffOverlapping(start, run, i, k);
      if high == shared.high2Time {
        SnapshotIsExact(start, run, i, j, k);
        return Some(Reading(high, low, iteration)), k;
      }
      at, iteration := k, iteration + 1;
    }
    r, to := None, at;
  }

  /** NtGetTickCount64 on a 32-bit build: milliseconds of the count published when LowPart was loaded. */
  method NtGetTickCount64(shared: SharedData, ghost start: TickState, run: seq<WriterStep>, from: nat, loads: seq<nat>)
    returns (ms: Option<Word64>, ghost n: nat, ghost to: nat)
    requires start.Valid() && IsRun(start, run) && from <= |run| && LoadPositions(loads, run, from)
    requires shared.View() == StateAt(start, run, from)
    modifies shared
    ensures from <= to <= |run| && shared.View() == StateAt(start, run, to)
    ensures ms.Some? ==> 3 * n + 2 < |loads| && from <= loads[3 * n + 1] <= to
    // it is still spinning if and only if every iteration overlapped a change of the high word, and else the
    // first iteration that did not is the one that counts
    ensures ms == None <==>
      forall k: nat :: k < |loads| / 3 ==> OverlapsHighChange(start, run, loads[3 * k], loads[3 * k + 2])
    ensures ms.Some? ==>
      && !OverlapsHighChange(start, run, loads[3 * n], loads[3 * n + 2])
      && forall k: nat :: k < n ==> OverlapsHighChange(start, run, loads[3 * k], loads[3 * k + 2])
    ensures ms.Some? ==> IsReading64(start, run, loads[3 * n + 1], shared.tickCountMultiplier, ms.value)
    ensures ms.Some? ==> var t, m := StateAt(start, run, loads[3 * n + 1]).published, shared.tickCountMultiplier;
      t * m < TWO88 ==> ms.value == Milliseconds(t, m)
  {
    var r;
    r, to := ReadTickCount(shared, start, run, from, loads);
    if r == None {
      return None, 0, to;
    }
    n := r.value.iteration;
    SplitConversionIsExact(StateAt(start, run, loads[3 * n + 1]).published, shared.tickCountMultiplier);
    ms := Some(TickCount64(r.value.high, r.value.low, shared.tickCountMultiplier));
  }

  /** NtGetTickCount on a 32-bit build. */
  method NtGetTickCount(shared: SharedData, ghost start: TickState, run: seq<WriterStep>, from: nat, loads: seq<nat>)
    returns (ms: Option<Word32>, ghost n: nat, ghost to: nat)
    requires start.Valid() && IsRun(start, run) && from <= |run| && LoadPositions(loads, run, from)
    requires shared.View() == StateAt(start, run, from)
    modifies shared
    ensures from <= to <= |run| && shared.View() == StateAt(start, run, to)
    ensures ms.Some? ==> 3 * n + 2 < |loads| && from <= loads[3 * n + 1] <= to
    // it is still spinning if and only if every iteration overlapped a change of the high word, and else the
    // first iteration that did not is the one that counts
    ensures ms == None <==>
      forall k: nat :: k < |loads| / 3 ==> OverlapsHighChange(start, run, loads[3 * k], loads[3 * k + 2])
    ensures ms.Some? ==>
      && !OverlapsHighChange(start, run, loads[3 * n], loads[3 * n + 2])
      && forall k: nat :: k < n ==> OverlapsHighChange(start, run, loads[3 * k], loads[3 * k + 2])
    ensures ms.Some? ==> IsReading32(start, run, loads[3 * n + 1], shared.tickCountMultiplier, ms.value)
  {
    var r;
    r, to := ReadTickCount(shared, start, run, from, loads);
    if r == None {
      return None, 0, to;
    }
    n := r.value.iteration;
    AllFormsAgree(StateAt(start, run, loads[3 * n + 1]).published, shared.tickCountMultiplier);
    ms := Some(TickCountSplit(r.value.high, r.value.low, shared.tickCountMultiplier));
  }
}
