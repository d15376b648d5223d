/**
 * The scan_line record and the per-radar store of scan lines, one per
 * SpokeBearing in [0, LINES_PER_ROTATION). A scan line holds its range, its
 * age and two byte arrays of RETURNS_PER_LINE + 1 entries: the return
 * strengths and their history registers. Both arrays are rewritten in place.
 */
module SpokeStore {
  import opened AngleMath
  import opened ScanHistory

  /** RETURNS_PER_LINE + 1: data[512] is an extra element read when drawing spokes. */
  const LineLength: int := ReturnsPerLine + 1

  function Zeros(n: nat): (z: seq<bv8>)
    ensures |z| == n && forall i :: 0 <= i < n ==> z[i] == 0
  {
    seq(n, i => 0)
  }

  /** The stored strengths for a spoke of RETURNS_PER_LINE returns: the extra element repeats the last. */
  function StoredData(spoke: seq<bv8>): (d: seq<bv8>)
    requires |spoke| == ReturnsPerLine
    ensures |d| == LineLength
    ensures d[..ReturnsPerLine] == spoke && d[ReturnsPerLine] == spoke[ReturnsPerLine - 1]
  {
    spoke + [spoke[ReturnsPerLine - 1]]
  }

  class ScanLine {
    /** Range of this scan line, in decimeters. */
    var range: int
    /** Time of the last write; old scans stay on screen for a while. */
    var age: int
    /** Return strengths. */
    const data: array<bv8>
    /** Per return, one bit per recent scan (ScanHistory). */
    const history: array<bv8>

    ghost predicate Valid()
    {
      data.Length == LineLength && history.Length == LineLength && data != history
    }

    constructor ()
      ensures Valid() && fresh(data) && fresh(history)
      ensures range == 0 && age == 0
      ensures data[..] == Zeros(LineLength) && history[..] == Zeros(LineLength)
    {
      range, age := 0, 0;
      data := new bv8[LineLength](i => 0);
      history := new bv8[LineLength](i => 0);
    }

    /**
     * Store one received spoke: its range, its time, its strengths, and one
     * scan's step of every history register.
     */
    method Update(newRange: int, spoke: seq<bv8>, threshold: bv8, now: int)
      requires Valid()
      requires |spoke| == ReturnsPerLine
      modifies this, data, history
      ensures Valid()
      ensures range == newRange && age == now
      ensures data[..] == StoredData(spoke)
      ensures history[..] == ShiftLine(old(history[..]), data[..], threshold)
    {
      var stored := StoredData(spoke);
      for i := 0 to LineLength
        invariant forall j :: 0 <= j < i ==> data[j] == stored[j]
        invariant forall j :: 0 <= j < i ==> history[j] == ShiftIn(old(history[j]), Above(stored[j], threshold))
        invariant forall j :: i <= j < LineLength ==> history[j] == old(history[j])
      {
        data[i] := stored[i];
        history[i] := ShiftIn(history[i], Above(data[i], threshold));
      }
      range, age := newRange, now;
    }
  }

  class SpokeBuffer {
    /** One scan line per SpokeBearing. */
    const lines: seq<ScanLine>

    /** Every line is well formed and no two lines share an object. */
    ghost predicate Valid()
    {
      |lines| == LinesPerRotation &&
      (forall i :: 0 <= i < |lines| ==> lines[i].Valid()) &&
      (forall i, j :: 0 <= i < |lines| && 0 <= j < |lines| ==> lines[i].data != lines[j].history) &&
      (forall i, j :: 0 <= i < |lines| && 0 <= j < |lines| && i != j ==>
         lines[i] != lines[j] && lines[i].data != lines[j].data && lines[i].history != lines[j].history)
    }

    constructor ()
      ensures Valid()
      ensures forall i :: 0 <= i < |lines| ==>
                lines[i].range == 0 && lines[i].age == 0 &&
                lines[i].data[..] == Zeros(LineLength) && lines[i].history[..] == Zeros(LineLength)
    {
      var built: seq<ScanLine> := [];
      while |built| < LinesPerRotation
        invariant |built| <= LinesPerRotation
        invariant forall i :: 0 <= i < |built| ==>
                    built[i].Valid() && fresh(built[i]) && fresh(built[i].data) && fresh(built[i].history)
        invariant forall i :: 0 <= i < |built| ==>
                    built[i].range == 0 && built[i].age == 0 &&
                    built[i].data[..] == Zeros(LineLength) && built[i].history[..] == Zeros(LineLength)
        invariant forall i, j :: 0 <= i < |built| && 0 <= j < |built| ==> built[i].data != built[j].history
        invariant forall i, j :: 0 <= i < |built| && 0 <= j < |built| && i != j ==>
                    built[i] != built[j] && built[i].data != built[j].data && built[i].history != built[j].history
      {
        var line := new ScanLine();
        built := built + [line];
      }
      lines := built;
    }

    /**
     * Write one spoke at a raw bearing: the bearing is wrapped with
     * MOD_ROTATION2048, that line is updated, and every other line keeps its
     * range, age, strengths and history.
     */
    method WriteSpoke(rawBearing: Int32, newRange: int, spoke: seq<bv8>, threshold: bv8, now: int)
      requires Valid()
      requires -2 * LinesPerRotation <= rawBearing && rawBearing + 2 * LinesPerRotation <= IntMax
      requires |spoke| == ReturnsPerLine
      modifies lines[ModRotation2048(rawBearing)], lines[ModRotation2048(rawBearing)].data,
               lines[ModRotation2048(rawBearing)].history
      ensures Valid()
      ensures var line := lines[ModRotation2048(rawBearing)];
              line.range == newRange && line.age == now &&
              line.data[..] == StoredData(spoke) &&
              line.history[..] == ShiftLine(old(line.history[..]), line.data[..], threshold)
      ensures forall j :: 0 <= j < |lines| && j != ModRotation2048(rawBearing) ==>
                lines[j].range == old(lines[j].range) && lines[j].age == old(lines[j].age) &&
                lines[j].data[..] == old(lines[j].data[..]) && lines[j].history[..] == old(lines[j].history[..])
    {
      var bearing := ModRotation2048(rawBearing);
      lines[bearing].Update(newRange, spoke, threshold, now);
    }
  }
}
