/**
 * Start-up discovery of PMU battery slots (battery_init): probe the status
 * paths of indices 0, 1, 2, ... and stop at the first one that cannot be
 * formatted into the path buffer or is not readable. The filesystem is the
 * parameter `accessible`: `accessible(i)` answers the readability test of
 * slot i's path.
 */
module Discovery {
  import opened Format

  const PmuPathPrefix: string := "/proc/pmu/battery_"

  /** The status path of slot `index` (the template `/proc/pmu/battery_%i`). */
  function PmuPath(index: nat): (p: string)
    ensures |p| > |PmuPathPrefix| && p[..|PmuPathPrefix|] == PmuPathPrefix
    ensures AllDigits(p[|PmuPathPrefix|..]) && DigitsValue(p[|PmuPathPrefix|..]) == index
  {
    var p := PmuPathPrefix + DecimalString(index);
    assert p[|PmuPathPrefix|..] == DecimalString(index);
    DecimalRoundTrip(index);
    p
  }

  /** Distinct slots probe and open distinct files. */
  lemma PmuPathInjective(a: nat, b: nat)
    ensures PmuPath(a) == PmuPath(b) <==> a == b
  {
  }

  /** The path of slot `index` fits the path buffer. */
  predicate PathFits(index: nat)
  {
    Fits(PmuPath(index))
  }

  /** One step of discovery succeeds: the path fits and is readable. */
  predicate Probe(accessible: nat -> bool, index: nat): (r: bool)
    ensures index <= IntMax ==> (r <==> accessible(index))
    ensures index >= Pow10(BufSize - |PmuPathPrefix| - 1) ==> !r
  {
    assert index <= IntMax ==> PathFits(index) by {
      if index <= IntMax { IntIndexPathFits(index); }
    }
    assert index >= Pow10(BufSize - |PmuPathPrefix| - 1) ==> !PathFits(index) by {
      if index >= Pow10(BufSize - |PmuPathPrefix| - 1) { LongIndexUnfit(index); }
    }
    PathFits(index) && accessible(index)
  }

  /** `n` is the length of the accessible prefix of slot indices. */
  predicate IsSlotCount(accessible: nat -> bool, n: nat)
  {
    && (forall i :: 0 <= i < n ==> Probe(accessible, i))
    && !Probe(accessible, n)
  }

  /** Indices of at least 10^493 have paths too long for the buffer. */
  lemma {:induction false} LongIndexUnfit(index: nat)
    requires index >= Pow10(BufSize - |PmuPathPrefix| - 1)
    ensures !PathFits(index)
  {
    DecimalLengthLower(index, BufSize - |PmuPathPrefix| - 1);
  }

  /** Every index a C `int` can hold has a path that fits. */
  lemma IntIndexPathFits(index: nat)
    requires index <= IntMax
    ensures PathFits(index)
  {
    IntIndexDigits(index);
  }

  /**
   * The discovery loop. It needs no assumption about the filesystem to
   * stop: the buffer check alone ends it at the latest at 10^493.
   */
  method Discover(accessible: nat -> bool) returns (n: nat)
    ensures forall i :: 0 <= i < n ==> Probe(accessible, i)
    ensures !Probe(accessible, n)
  {
    ghost var bound := Pow10(BufSize - |PmuPathPrefix| - 1);
    LongIndexUnfit(bound);
    n := 0;
    while Probe(accessible, n)
      invariant forall i :: 0 <= i < n ==> Probe(accessible, i)
      invariant n <= bound
      decreases bound - n
    {
      n := n + 1;
    }
  }

  /** The first gap is unique: discovery has exactly one possible answer. */
  lemma SlotCountUnique(accessible: nat -> bool, n: nat, m: nat)
    requires IsSlotCount(accessible, n) && IsSlotCount(accessible, m)
    ensures n == m
  {
  }

  /**
   * Discovery stops at the first gap: readable slots after it are never
   * seen, so two filesystems that agree up to the gap give the same count.
   */
  lemma LaterSlotsIgnored(a: nat -> bool, b: nat -> bool, n: nat)
    requires IsSlotCount(a, n)
    requires forall i :: 0 <= i <= n ==> a(i) == b(i)
    ensures IsSlotCount(b, n)
  {
    forall i | 0 <= i < n
      ensures Probe(b, i)
    {
      assert Probe(a, i);
    }
  }

  /** With s readable slots and then an unreadable one, the count is s. */
  lemma CountOfReadablePrefix(accessible: nat -> bool, s: nat)
    requires s <= IntMax
    requires forall i :: 0 <= i < s ==> accessible(i)
    requires !accessible(s)
    ensures IsSlotCount(accessible, s)
  {
    forall i | 0 <= i < s
      ensures PathFits(i)
    {
      IntIndexPathFits(i);
    }
  }
}
