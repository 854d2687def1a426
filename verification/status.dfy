/**
 * Parsing one slot's status text (the inner loop of battery_read). Lines
 * arrive already split into whitespace-separated tokens. A line of at least
 * three tokens whose first token is exactly `current`, `voltage` or
 * `charge` overwrites that one field of the reading with its third token,
 * read as milli-units and divided by 1000; every other line is ignored.
 */
module Status {
  import opened Wrappers
  import opened Magnitude

  /** The three quantities a PMU battery reports. */
  datatype Quantity = Current | Voltage | Charge

  /** One slot's values for one poll cycle. */
  datatype Reading = Reading(current: real, voltage: real, charge: real)
  {
    function Get(q: Quantity): real
    {
      match q
      case Current => current
      case Voltage => voltage
      case Charge => charge
    }

    /** Overwrite the field of `q`; the other two stay as they were. */
    function Set(q: Quantity, v: real): (r: Reading)
      ensures r.Get(q) == v
      ensures forall p :: p != q ==> r.Get(p) == Get(p)
    {
      match q
      case Current => this.(current := v)
      case Voltage => this.(voltage := v)
      case Charge => this.(charge := v)
    }
  }

  /** The reading every slot starts each cycle from. */
  const Zero := Reading(0.0, 0.0, 0.0)

  /** A status line: its tokens, in order. */
  type Line = seq<string>

  /** The key that names quantity `q` in the status text. */
  function FieldName(q: Quantity): string
  {
    match q
    case Current => "current"
    case Voltage => "voltage"
    case Charge => "charge"
  }

  /** The `strcmp` chain: which quantity a first token names, compared exactly. */
  function Classify(name: string): (r: Option<Quantity>)
    ensures forall q :: r == Some(q) <==> name == FieldName(q)
  {
    if name == "current" then Some(Current)
    else if name == "voltage" then Some(Voltage)
    else if name == "charge" then Some(Charge)
    else None
  }

  /** Line `line` assigns quantity `q`. */
  predicate Assigns(line: Line, q: Quantity)
  {
    |line| >= 3 && line[0] == FieldName(q)
  }

  /** The value an assigning line carries: its third token over 1000. */
  function LineValue(line: Line): real
    requires |line| >= 3
  {
    ParseMagnitude(line[2]) / 1000.0
  }

  /** One iteration of the line loop. */
  function ApplyLine(rd: Reading, line: Line): (r: Reading)
    ensures forall q :: r.Get(q) == if Assigns(line, q) then LineValue(line) else rd.Get(q)
    ensures |line| < 3 ==> r == rd
    ensures |line| >= 3 && Classify(line[0]) == None ==> r == rd
  {
    if |line| < 3 then rd
    else
      match Classify(line[0])
      case Some(q) => rd.Set(q, LineValue(line))
      case None => rd
  }

  /** The reading after the first |lines| lines, starting from `start`. */
  function FoldLines(start: Reading, lines: seq<Line>): Reading
  {
    if |lines| == 0 then start
    else ApplyLine(FoldLines(start, lines[..|lines| - 1]), lines[|lines| - 1])
  }

  /** Line j is the last of `lines` that assigns `q`. */
  predicate LastAssigning(lines: seq<Line>, q: Quantity, j: nat)
  {
    && j < |lines|
    && Assigns(lines[j], q)
    && forall k :: j < k < |lines| ==> !Assigns(lines[k], q)
  }

  /**
   * The reading of one slot for one cycle: the lines folded into zeros.
   * Each field holds the value of the last line that assigns it, or 0 when
   * no line does.
   */
  function SlotReading(lines: seq<Line>): (r: Reading)
    ensures forall q, j: nat :: LastAssigning(lines, q, j) ==> r.Get(q) == LineValue(lines[j])
    ensures forall q :: (forall k :: 0 <= k < |lines| ==> !Assigns(lines[k], q)) ==> r.Get(q) == 0.0
  {
    var r := FoldLines(Zero, lines);
    assert forall q, j: nat :: LastAssigning(lines, q, j) ==> r.Get(q) == LineValue(lines[j]) by {
      forall q, j: nat | LastAssigning(lines, q, j)
        ensures r.Get(q) == LineValue(lines[j])
      {
        LastAssignmentWins(Zero, lines, q, j);
      }
    }
    assert forall q :: (forall k :: 0 <= k < |lines| ==> !Assigns(lines[k], q)) ==> r.Get(q) == 0.0 by {
      forall q | forall k :: 0 <= k < |lines| ==> !Assigns(lines[k], q)
        ensures r.Get(q) == 0.0
      {
        UnassignedKeepsStart(Zero, lines, q);
      }
    }
    r
  }

  /**
   * The last line that assigns a quantity decides its value, whatever
   * earlier lines said.
   */
  lemma {:induction false} LastAssignmentWins(start: Reading, lines: seq<Line>, q: Quantity, j: nat)
    requires j < |lines| && Assigns(lines[j], q)
    requires forall k :: j < k < |lines| ==> !Assigns(lines[k], q)
    ensures FoldLines(start, lines).Get(q) == LineValue(lines[j])
  {
    var init := lines[..|lines| - 1];
    if j < |lines| - 1 {
      assert !Assigns(lines[|lines| - 1], q);
      assert forall k :: j < k < |init| ==> init[k] == lines[k];
      LastAssignmentWins(start, init, q, j);
    }
  }

  /** A quantity no line assigns keeps its starting value. */
  lemma {:induction false} UnassignedKeepsStart(start: Reading, lines: seq<Line>, q: Quantity)
    requires forall k :: 0 <= k < |lines| ==> !Assigns(lines[k], q)
    ensures FoldLines(start, lines).Get(q) == start.Get(q)
  {
    if |lines| > 0 {
      var init := lines[..|lines| - 1];
      assert forall k :: 0 <= k < |init| ==> init[k] == lines[k];
      UnassignedKeepsStart(start, init, q);
    }
  }

  /**
   * The line loop as the plugin runs it: start from zeros and fold the
   * lines in order. The result agrees with the reference fold.
   */
  method ParseStatus(lines: seq<Line>) returns (rd: Reading)
    ensures rd == SlotReading(lines)
  {
    rd := Zero;
    var i := 0;
    while i < |lines|
      invariant 0 <= i <= |lines|
      invariant rd == FoldLines(Zero, lines[..i])
    {
      assert lines[..i + 1][..i] == lines[..i];
      rd := ApplyLine(rd, lines[i]);
      i := i + 1;
    }
    assert lines[..|lines|] == lines;
  }
}
