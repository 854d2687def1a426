/**
 * One poll cycle (battery_read): every discovered slot, in index order, is
 * read from zeros, parsed and submitted. The status text of each slot for
 * this cycle is the parameter: `None` when the status file could not be
 * opened, otherwise its lines, already tokenised.
 */
module Poll {
  import opened Wrappers
  import opened Format
  import opened Discovery
  import opened Status
  import opened Emission

  /** What opening and reading one slot's status file gave this cycle. */
  type SlotStatus = Option<seq<Line>>

  /** The samples of slot `index` for one cycle. */
  function SlotSamples(index: nat, status: SlotStatus): (r: seq<Sample>)
    ensures forall k :: 0 <= k < |r| ==> r[k].instance == Label(index)
    ensures status.None? ==> r == []
    ensures PathFits(index) && status.Some? ==> r == Submit(index, SlotReading(status.value))
  {
    if !PathFits(index) then []
    else
      match status
      case None => []
      case Some(lines) => GuardedSubmit(index, SlotReading(lines))
  }

  /** The samples of a whole cycle over slots 0 .. |statuses| - 1. */
  function PollCycle(statuses: seq<SlotStatus>): (r: seq<Sample>)
    ensures |r| <= 3 * |statuses|
    ensures forall k :: 0 <= k < |r| ==> exists i :: 0 <= i < |statuses| && r[k].instance == Label(i)
  {
    if |statuses| == 0 then []
    else
      var n := |statuses| - 1;
      PollCycle(statuses[..n]) + SlotSamples(n, statuses[n])
  }

  /** The samples of `samples` labelled `instance`, in order. */
  function WithInstance(samples: seq<Sample>, instance: string): (r: seq<Sample>)
    ensures |r| <= |samples|
    ensures forall k :: 0 <= k < |r| ==> r[k].instance == instance
  {
    if |samples| == 0 then []
    else
      var n := |samples| - 1;
      var rest := WithInstance(samples[..n], instance);
      if samples[n].instance == instance then rest + [samples[n]] else rest
  }

  lemma {:induction false} WithInstanceConcat(a: seq<Sample>, b: seq<Sample>, instance: string)
    ensures WithInstance(a + b, instance) == WithInstance(a, instance) + WithInstance(b, instance)
  {
    if |b| > 0 {
      var n := |b| - 1;
      assert (a + b)[..|a + b| - 1] == a + b[..n];
      WithInstanceConcat(a, b[..n], instance);
    } else {
      assert a + b == a;
    }
  }

  lemma {:induction false} WithInstanceAll(s: seq<Sample>, instance: string)
    requires forall k :: 0 <= k < |s| ==> s[k].instance == instance
    ensures WithInstance(s, instance) == s
  {
    if |s| > 0 {
      WithInstanceAll(s[..|s| - 1], instance);
    }
  }

  lemma {:induction false} WithInstanceNone(s: seq<Sample>, instance: string)
    requires forall k :: 0 <= k < |s| ==> s[k].instance != instance
    ensures WithInstance(s, instance) == []
  {
    if |s| > 0 {
      WithInstanceNone(s[..|s| - 1], instance);
    }
  }

  /**
   * What a cycle submits for slot i is exactly what slot i's own status
   * gives, read from zeros: no other slot, and no earlier slot's reading,
   * has any influence on it.
   */
  lemma {:induction false} CycleSlotView(statuses: seq<SlotStatus>, i: nat)
    requires i < |statuses|
    ensures WithInstance(PollCycle(statuses), Label(i)) == SlotSamples(i, statuses[i])
  {
    var n := |statuses| - 1;
    var init := statuses[..n];
    var last := SlotSamples(n, statuses[n]);
    WithInstanceConcat(PollCycle(init), last, Label(i));
    if i == n {
      CycleOmits(init, i);
      WithInstanceAll(last, Label(i));
    } else {
      DecimalInjective(i, n);
      WithInstanceNone(last, Label(i));
      CycleSlotView(init, i);
    }
  }

  /** A cycle over slots below `i` submits nothing labelled i. */
  lemma {:induction false} CycleOmits(statuses: seq<SlotStatus>, i: nat)
    requires |statuses| <= i
    ensures WithInstance(PollCycle(statuses), Label(i)) == []
  {
    if |statuses| > 0 {
      var n := |statuses| - 1;
      var last := SlotSamples(n, statuses[n]);
      WithInstanceConcat(PollCycle(statuses[..n]), last, Label(i));
      DecimalInjective(i, n);
      WithInstanceNone(last, Label(i));
      CycleOmits(statuses[..n], i);
    }
  }

  /**
   * Slots submit in index order: a sample of slot i never comes after a
   * sample of a later slot j.
   */
  lemma {:induction false} CycleInSlotOrder(statuses: seq<SlotStatus>, k: nat, l: nat, i: nat, j: nat)
    ensures k < l < |PollCycle(statuses)|
            && PollCycle(statuses)[k].instance == Label(i)
            && PollCycle(statuses)[l].instance == Label(j)
            ==> i <= j
  {
    if !(k < l < |PollCycle(statuses)|
         && PollCycle(statuses)[k].instance == Label(i)
         && PollCycle(statuses)[l].instance == Label(j)) {
      return;
    }
    var n := |statuses| - 1;
    var init := PollCycle(statuses[..n]);
    var last := SlotSamples(n, statuses[n]);
    assert PollCycle(statuses) == init + last;
    if l < |init| {
      assert init[k] == PollCycle(statuses)[k] && init[l] == PollCycle(statuses)[l];
      CycleInSlotOrder(statuses[..n], k, l, i, j);
    } else {
      assert last[l - |init|] == PollCycle(statuses)[l];
      DecimalInjective(j, n);
      if k < |init| {
        assert init[k] == PollCycle(statuses)[k];
        var i' :| 0 <= i' < n && init[k].instance == Label(i');
        DecimalInjective(i, i');
      } else {
        assert last[k - |init|] == PollCycle(statuses)[k];
        DecimalInjective(i, n);
      }
    }
  }

  /** A slot whose status file cannot be opened submits nothing. */
  lemma UnopenedSlotSilent(statuses: seq<SlotStatus>, i: nat)
    requires i < |statuses| && statuses[i].None?
    ensures WithInstance(PollCycle(statuses), Label(i)) == []
  {
    CycleSlotView(statuses, i);
  }

  /** Changing other slots' status leaves slot i's samples as they were. */
  lemma OtherSlotsIrrelevant(s1: seq<SlotStatus>, s2: seq<SlotStatus>, i: nat)
    requires i < |s1| && i < |s2| && s1[i] == s2[i]
    ensures WithInstance(PollCycle(s1), Label(i)) == WithInstance(PollCycle(s2), Label(i))
  {
    CycleSlotView(s1, i);
    CycleSlotView(s2, i);
  }
}
