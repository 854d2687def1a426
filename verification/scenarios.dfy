/** Concrete status texts and what one cycle submits for them. */
module Scenarios {
  import opened Wrappers
  import opened Format
  import opened Magnitude
  import opened Status
  import opened Emission
  import opened Poll

  /** A line `<name> xx <n>` sets that quantity to n / 1000. */
  lemma AssignLine(rd: Reading, q: Quantity, n: nat)
    ensures ApplyLine(rd, [FieldName(q), "xx", DecimalString(n)]) == rd.Set(q, n as real / 1000.0)
  {
    ParseRendered(n);
  }

  lemma Rendered()
    ensures DecimalString(0) == "0"
    ensures DecimalString(1500) == "1500"
    ensures DecimalString(2500) == "2500"
    ensures DecimalString(12600) == "12600"
  {
    assert DecimalString(12) == "12";
    assert DecimalString(126) == "126";
    assert DecimalString(1260) == "1260";
  }

  /** `current xx 1500` alone reads as 1.5 and submits only the current. */
  lemma CurrentOnly()
    ensures SlotReading([["current", "xx", "1500"]]) == Reading(1.5, 0.0, 0.0)
    ensures SlotSamples(0, Some([["current", "xx", "1500"]])) == [Sample("battery_current", "0", 1.5)]
  {
    Rendered();
    var l: Line := [FieldName(Current), "xx", DecimalString(1500)];
    assert [l][..0] == [];
    AssignLine(Zero, Current, 1500);
    var rd := Reading(1.5, 0.0, 0.0);
    assert Zero.Set(Current, 1500 as real / 1000.0) == rd;
    assert FoldLines(Zero, [l]) == ApplyLine(FoldLines(Zero, []), l);
    assert Label(0) == "0";
    assert Gate(0, rd, Current) == [Sample("battery_current", "0", 1.5)];
    assert Gate(0, rd, Voltage) == [];
    assert Gate(0, rd, Charge) == [];
  }

  /** Slot 2 reporting current 2500, voltage 12600 and charge 0 (milli-units). */
  lemma SlotTwoReading()
    ensures SlotReading([["current", "xx", "2500"], ["voltage", "xx", "12600"], ["charge", "xx", "0"]])
            == Reading(2.5, 12.6, 0.0)
  {
    Rendered();
    var l1: Line := [FieldName(Current), "xx", DecimalString(2500)];
    var l2: Line := [FieldName(Voltage), "xx", DecimalString(12600)];
    var l3: Line := [FieldName(Charge), "xx", DecimalString(0)];
    AssignLine(Zero, Current, 2500);
    AssignLine(Reading(2.5, 0.0, 0.0), Voltage, 12600);
    AssignLine(Reading(2.5, 12.6, 0.0), Charge, 0);
    assert [l1, l2, l3][..2] == [l1, l2];
    assert [l1, l2][..1] == [l1];
    assert [l1][..0] == [];
    assert FoldLines(Zero, [l1]) == Reading(2.5, 0.0, 0.0);
    assert FoldLines(Zero, [l1, l2]) == Reading(2.5, 12.6, 0.0);
  }

  /** ... submits current and voltage for slot 2, and no charge. */
  lemma SlotTwo()
    ensures SlotSamples(2, Some([["current", "xx", "2500"], ["voltage", "xx", "12600"], ["charge", "xx", "0"]]))
            == [Sample("battery_current", "2", 2.5), Sample("battery_voltage", "2", 12.6)]
  {
    SlotTwoReading();
    var rd := Reading(2.5, 12.6, 0.0);
    assert Label(2) == "2";
    assert Gate(2, rd, Current) == [Sample("battery_current", "2", 2.5)];
    assert Gate(2, rd, Voltage) == [Sample("battery_voltage", "2", 12.6)];
    assert Gate(2, rd, Charge) == [];
  }

  /** An unparsable value reads as 0 and is not submitted. */
  lemma UnparsableValue()
    ensures SlotReading([["voltage", "xx", "abc"]]) == Zero
    ensures SlotSamples(0, Some([["voltage", "xx", "abc"]])) == []
  {
  }

  /** Field names are compared exactly: `Current` is not `current`. */
  lemma CaseSensitive()
    ensures SlotReading([["Current", "xx", "1500"]]) == Zero
  {
  }

  /** Of two `current` lines the later one counts. */
  lemma LaterLineWins()
    ensures SlotReading([["current", "xx", "1000"], ["current", "xx", "2000"]]).current == 2.0
  {
    assert DecimalString(1000) == "1000" && DecimalString(2000) == "2000";
    var l1: Line := [FieldName(Current), "xx", DecimalString(1000)];
    var l2: Line := [FieldName(Current), "xx", DecimalString(2000)];
    AssignLine(Zero, Current, 1000);
    AssignLine(Reading(1.0, 0.0, 0.0), Current, 2000);
    assert [l1, l2][..1] == [l1];
    assert [l1][..0] == [];
  }
}
