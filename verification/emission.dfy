/**
 * Turning one slot's reading into metric samples (battery_submit and the
 * guard in front of it). A quantity is submitted exactly when its value is
 * strictly positive, in the fixed order current, voltage, charge, to the
 * series of that quantity and labelled with the slot index in decimal.
 */
module Emission {
  import opened Wrappers
  import opened Format
  import opened Status

  /** One submission: series name, instance (the slot label), value. */
  datatype Sample = Sample(series: string, instance: string, value: real)

  /** The series a quantity is submitted to. */
  function SeriesName(q: Quantity): string
  {
    match q
    case Current => "battery_current"
    case Voltage => "battery_voltage"
    case Charge => "battery_charge"
  }

  /** The quantity a series name belongs to, if any. */
  function SeriesQuantity(series: string): (r: Option<Quantity>)
    ensures forall q :: r == Some(q) <==> series == SeriesName(q)
  {
    if series == "battery_current" then Some(Current)
    else if series == "battery_voltage" then Some(Voltage)
    else if series == "battery_charge" then Some(Charge)
    else None
  }

  /** Position of a quantity in the submission order. */
  function Rank(q: Quantity): nat
  {
    match q
    case Current => 0
    case Voltage => 1
    case Charge => 2
  }

  /** The instance label of slot `index`, and whether it fits its buffer. */
  function Label(index: nat): string
  {
    DecimalString(index)
  }

  predicate LabelFits(index: nat)
  {
    Fits(Label(index))
  }

  /** Every index a C `int` can hold has a label that fits its buffer. */
  lemma IntIndexLabelFits(index: nat)
    requires index <= IntMax
    ensures LabelFits(index)
  {
    IntIndexDigits(index);
  }

  /** Some sample of `samples` is for quantity `q`. */
  predicate Emits(samples: seq<Sample>, q: Quantity)
  {
    exists k :: 0 <= k < |samples| && samples[k].series == SeriesName(q)
  }

  /** `s` is a sample of quantity `q` of `rd` for slot `index`. */
  predicate SampleOf(s: Sample, index: nat, rd: Reading, q: Quantity)
  {
    s == Sample(SeriesName(q), Label(index), rd.Get(q))
  }

  /** The emission gate for one quantity. */
  function Gate(index: nat, rd: Reading, q: Quantity): (r: seq<Sample>)
    ensures |r| <= 1
    ensures |r| == 1 <==> rd.Get(q) > 0.0
    ensures |r| == 1 ==> SampleOf(r[0], index, rd, q)
  {
    if rd.Get(q) > 0.0 then [Sample(SeriesName(q), Label(index), rd.Get(q))] else []
  }

  /**
   * battery_submit. Nothing is submitted when the label does not fit its
   * buffer; otherwise each sample belongs to one quantity of `rd`, is
   * positive, carries the slot's label, the series follow the fixed order,
   * and a quantity is present if and only if its value is above zero.
   */
  function Submit(index: nat, rd: Reading): (r: seq<Sample>)
    ensures !LabelFits(index) ==> r == []
    ensures |r| <= 3
    ensures forall k :: 0 <= k < |r| ==>
              && SeriesQuantity(r[k].series).Some?
              && SampleOf(r[k], index, rd, SeriesQuantity(r[k].series).value)
              && r[k].value > 0.0
    ensures forall k, l :: 0 <= k < l < |r| ==>
              Rank(SeriesQuantity(r[k].series).value) < Rank(SeriesQuantity(r[l].series).value)
    ensures LabelFits(index) ==> forall q :: Emits(r, q) <==> rd.Get(q) > 0.0
  {
    if !LabelFits(index) then []
    else
      var c := Gate(index, rd, Current);
      var v := Gate(index, rd, Voltage);
      var h := Gate(index, rd, Charge);
      var r := c + v + h;
      assert forall k :: 0 <= k < |r| ==>
        (k < |c| && r[k] == c[0]) ||
        (|c| <= k < |c| + |v| && r[k] == v[0]) ||
        (|c| + |v| <= k && r[k] == h[0]);
      assert Emits(r, Current) <==> |c| == 1 by {
        if |c| == 1 { assert r[0].series == SeriesName(Current); }
      }
      assert Emits(r, Voltage) <==> |v| == 1 by {
        if |v| == 1 { assert r[|c|].series == SeriesName(Voltage); }
      }
      assert Emits(r, Charge) <==> |h| == 1 by {
        if |h| == 1 { assert r[|c| + |v|].series == SeriesName(Charge); }
      }
      r
  }

  /**
   * The call site in battery_read: submit only when some field is non-zero.
   * The guard never changes what is submitted, because a reading whose
   * fields are all zero has nothing above zero to submit.
   */
  function GuardedSubmit(index: nat, rd: Reading): (r: seq<Sample>)
    ensures r == Submit(index, rd)
  {
    if rd.current != 0.0 || rd.voltage != 0.0 || rd.charge != 0.0 then Submit(index, rd)
    else []
  }
}
