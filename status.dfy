/** The verbose status report that a TinyG controller sends in reply to
    `$sr`: one labelled line per item, the value starting at column 21.
    The hub keeps the three machine coordinates and the machine state. */
module StatusReport {
  import opened Text

  /** The line breaks the reply is tokenized on. */
  const LineBreaks: set<char> := {'\r', '\n'}

  /** Column where every value starts, and how many characters are taken. */
  const ValueColumn: nat := 21
  const ValueWidth: nat := 10

  /** Labels of the lines for machine X, Y and Z, in `MPos` order. */
  const AxisLabels: seq<string> := ["X position", "Y position", "Z position"]
  const MachineStateLabel: string := "Machine state:"
  /** Lines whose value is cut out but then not used. */
  const UnusedLabels: seq<string> := ["Velocity:", "Units:", "Coordinate system:", "Distance mode:"]

  /** `line.substr(0, |prefix|) == prefix`. */
  predicate StartsWith(line: string, prefix: string) {
    |prefix| <= |line| && line[..|prefix|] == prefix
  }

  predicate IsAxisLine(line: string) {
    StartsWith(line, AxisLabels[0]) || StartsWith(line, AxisLabels[1]) || StartsWith(line, AxisLabels[2])
  }

  predicate HasValueLabel(line: string) {
    IsAxisLine(line) || StartsWith(line, MachineStateLabel)
    || StartsWith(line, UnusedLabels[0]) || StartsWith(line, UnusedLabels[1])
    || StartsWith(line, UnusedLabels[2]) || StartsWith(line, UnusedLabels[3])
  }

  /** What the parser needs of a line so that it is well defined:
      `substr(21, 10)` needs at least 21 characters on every labelled line,
      and on a coordinate line the value must be non-empty so that the
      split has a first piece. */
  predicate LineReadable(line: string) {
    (HasValueLabel(line) ==> |line| >= ValueColumn)
    && (IsAxisLine(line) ==> |line| > ValueColumn)
  }

  predicate Readable(lines: seq<string>) {
    forall i :: 0 <= i < |lines| ==> LineReadable(lines[i])
  }

  /** `line.substr(21, 10)`. */
  function Value(line: string): (v: string)
    requires |line| >= ValueColumn
    ensures |v| <= ValueWidth
    ensures |line| > ValueColumn ==> |v| > 0
  {
    line[ValueColumn..if |line| < ValueColumn + ValueWidth then |line| else ValueColumn + ValueWidth]
  }

  /** The number on a coordinate line: the first space-separated piece of
      its value, converted by `parse` (the host's string-to-double). */
  function Reading(line: string, parse: string -> real): real
    requires |line| > ValueColumn
  {
    parse(Pieces(Value(line), ' ')[0])
  }

  /** One iteration of the parsing loop on the coordinates: each of the
      three tests may overwrite its own coordinate. */
  function ApplyLine(pos: seq<real>, line: string, parse: string -> real): (r: seq<real>)
    requires |pos| == 3 && LineReadable(line)
    ensures |r| == 3
    ensures forall k :: 0 <= k < 3 ==> r[k] == (if StartsWith(line, AxisLabels[k]) then Reading(line, parse) else pos[k])
  {
    var afterX := if StartsWith(line, AxisLabels[0]) then pos[0 := Reading(line, parse)] else pos;
    var afterY := if StartsWith(line, AxisLabels[1]) then afterX[1 := Reading(line, parse)] else afterX;
    if StartsWith(line, AxisLabels[2]) then afterY[2 := Reading(line, parse)] else afterY
  }

  /** The coordinates after the loop has processed `lines` in order. */
  function PositionsAfter(pos: seq<real>, lines: seq<string>, parse: string -> real): (r: seq<real>)
    requires |pos| == 3 && Readable(lines)
    ensures |r| == 3
    decreases |lines|
  {
    if lines == [] then pos
    else ApplyLine(PositionsAfter(pos, lines[..|lines| - 1], parse), lines[|lines| - 1], parse)
  }

  /** The machine state published after the loop has processed `lines`. */
  function StateAfter(state: string, lines: seq<string>): string
    requires Readable(lines)
    decreases |lines|
  {
    if lines == [] then state
    else
      var last := lines[|lines| - 1];
      if StartsWith(last, MachineStateLabel) then Value(last)
      else StateAfter(state, lines[..|lines| - 1])
  }

  /** Index of the last line that starts with `prefix`, or -1 if none does. */
  function LastLabelled(lines: seq<string>, prefix: string): (i: int)
    ensures -1 <= i < |lines|
    ensures i >= 0 ==> StartsWith(lines[i], prefix)
    ensures forall j :: i < j < |lines| ==> !StartsWith(lines[j], prefix)
    decreases |lines|
  {
    if lines == [] then -1
    else if StartsWith(lines[|lines| - 1], prefix) then |lines| - 1
    else LastLabelled(lines[..|lines| - 1], prefix)
  }

  /** Each coordinate ends up as the reading of the last line that carries
      its label; when no line carries it, the coordinate keeps its old value.
      No other line has any effect on it. */
  lemma {:induction false} CoordinateIsLastReading(pos: seq<real>, lines: seq<string>, parse: string -> real, k: nat)
    requires |pos| == 3 && Readable(lines) && k < 3
    ensures var i := LastLabelled(lines, AxisLabels[k]);
      PositionsAfter(pos, lines, parse)[k] == if i < 0 then pos[k] else Reading(lines[i], parse)
    decreases |lines|
  {
    if lines != [] {
      var init := lines[..|lines| - 1];
      assert Readable(init) by {
        forall j | 0 <= j < |init| ensures LineReadable(init[j]) {
          assert init[j] == lines[j];
        }
      }
      CoordinateIsLastReading(pos, init, parse, k);
      if !StartsWith(lines[|lines| - 1], AxisLabels[k]) {
        assert LastLabelled(lines, AxisLabels[k]) == LastLabelled(init, AxisLabels[k]);
        var i := LastLabelled(init, AxisLabels[k]);
        if i >= 0 {
          assert lines[i] == init[i];
        }
      }
    }
  }

  /** The published machine state is the value of the last `Machine state:`
      line, or the previous state when the report has none. */
  lemma {:induction false} StateIsLastValue(state: string, lines: seq<string>)
    requires Readable(lines)
    ensures var i := LastLabelled(lines, MachineStateLabel);
      StateAfter(state, lines) == if i < 0 then state else Value(lines[i])
    decreases |lines|
  {
    if lines != [] {
      var init := lines[..|lines| - 1];
      assert Readable(init) by {
        forall j | 0 <= j < |init| ensures LineReadable(init[j]) {
          assert init[j] == lines[j];
        }
      }
      StateIsLastValue(state, init);
      if !StartsWith(lines[|lines| - 1], MachineStateLabel) {
        var i := LastLabelled(init, MachineStateLabel);
        if i >= 0 {
          assert lines[i] == init[i];
        }
      }
    }
  }
}
