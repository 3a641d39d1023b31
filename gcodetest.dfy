/**
 * gcodetest.py: the older G-code emitter. Each command is returned as text ending in a line break;
 * the module-level `lastPoint` and `E` are the fields of an `Emitter`.
 */
module GCodeTest {
  import opened Results
  import opened Text
  import opened Grid
  import opened GCode

  /** `setupData["IgnitCoord"]`: where the arc is struck. */
  const IgnitX: real := -30.0
  const IgnitY: real := 25.0
  const IgnitZ: real := 8.0

  /** `setupData["NExtrude"]`: extrude/retract pairs in the extrusion test. */
  const NExtrude: nat := 100

  /** The retraction settings of `setupData` the extrusion test reads. */
  const RetractionLen: real := -1.0
  const RetractionPlay: real := 0.6
  const Retractionfactor: real := 1.007
  const RetractionTravel: real := 5.0
  const ExtrusionFactor: real := 1.0

  /** The retraction of the extrusion test, `ret`; `RetractionSettings` derives it. */
  const Ret: real := -0.4

  /** The extrusion of the extrusion test, `ex`; `RetractionSettings` derives it. */
  const Ex: real := 9.5972

  /** `ret` and `ex` are what the extrusion test computes from the retraction settings. */
  lemma RetractionSettings()
    ensures Ret == RetractionLen + RetractionPlay
    ensures Ex == Ret * Retractionfactor + 2.0 * RetractionTravel * ExtrusionFactor
  {
  }

  /** The errors the emitter raises. */
  datatype EmitError =
    | DivisionByZero   // a zero speed or grid resolution
    | NoneOperand      // arithmetic on an axis no move has named
    | NegativeCount    // `linspace` asked for a negative number of samples

  /** What `move` returns: the gcode.py move line and a line break. */
  function MoveCmd(x: Option<real>, y: Option<real>, z: Option<real>, e: Option<real>,
                   speed: Option<string>, comment: Option<string>, fmt: Formatter): Result<string, GCodeError>
  {
    var line := MoveLine(x, y, z, e, speed, comment, fmt);
    if line.Failure? then Failure(line.error) else Success(line.value + "\n")
  }

  /** The command of a move at travel speed, written out field by field. */
  function TravelCmd(x: Option<real>, y: Option<real>, z: Option<real>, e: Option<real>,
                     comment: Option<string>, fmt: Formatter): string
  {
    "G1 " + Field('X', x, fmt) + Field('Y', y, fmt) + Field('Z', z, fmt) + Field('E', e, fmt)
    + ("F" + fmt(5000.0) + " ") + CommentField(comment) + "\n"
  }

  /**
   * A move at "Travel" speed always succeeds and gives the travel command; it is one line, a
   * "G1 " command ending in a line break.
   */
  lemma TravelMove(x: Option<real>, y: Option<real>, z: Option<real>, e: Option<real>,
                   comment: Option<string>, fmt: Formatter)
    ensures MoveCmd(x, y, z, e, Some("Travel"), comment, fmt) == Success(TravelCmd(x, y, z, e, comment, fmt))
    ensures var c := TravelCmd(x, y, z, e, comment, fmt);
            |c| >= 4 && c[..3] == "G1 " && c[|c| - 1] == '\n'
    ensures LineSafe(fmt) && (comment.Some? ==> '\n' !in comment.value) ==>
              Count(TravelCmd(x, y, z, e, comment, fmt), '\n') == 1
  {
    SpeedFieldCases(Some("Travel"), fmt);
    MoveLinePrefix(x, y, z, e, Some("Travel"), comment, fmt);
    var line := MoveLine(x, y, z, e, Some("Travel"), comment, fmt).value;
    assert line + "\n" == TravelCmd(x, y, z, e, comment, fmt);
    assert (line + "\n")[..3] == line[..3];
    if LineSafe(fmt) && (comment.Some? ==> '\n' !in comment.value) {
      MoveLineSingle(x, y, z, e, Some("Travel"), comment, fmt);
      OneLine(line);
    }
  }

  /** A text with no line break, and a break after it, is one line. */
  lemma OneLine(s: string)
    requires '\n' !in s
    ensures Count(s + "\n", '\n') == 1
  {
    CountAbsent(s, '\n');
    CountConcat(s, "\n", '\n');
    assert "\n"[..0] == [];
  }

  /** `pause(ms)`: "G4 P", the number of milliseconds and a line break. */
  function PauseCmd(ms: real, fmt: Formatter): (s: string)
    ensures |s| >= 5 && s[..4] == "G4 P" && s[|s| - 1] == '\n'
    ensures s[4..|s| - 1] == fmt(ms)
  {
    PauseLineShape(ms, fmt);
    PauseLine(ms, fmt) + "\n"
  }

  /** A pause is one line when numbers print without line breaks. */
  lemma PauseOneLine(ms: real, fmt: Formatter)
    requires LineSafe(fmt)
    ensures Count(PauseCmd(ms, fmt), '\n') == 1
  {
    PauseLineShape(ms, fmt);
    OneLine(PauseLine(ms, fmt));
  }

  /** `calcTime(speed, dist)`: the time to cover `dist` at `speed`; a zero speed divides by zero. */
  function CalcTime(speed: real, dist: real): (r: Result<real, EmitError>)
    ensures r.Failure? <==> speed == 0.0
    ensures r.Failure? ==> r.error == DivisionByZero
    ensures r.Success? ==> r.value * speed == dist
  {
    if speed == 0.0 then Failure(DivisionByZero) else Success(dist / speed)
  }

  /** `startSequence()`: every command of the start sequence is commented out, so it emits nothing. */
  function StartSequence(): (s: string)
    ensures |s| == 0
  {
    ""
  }

  /** The margin field of `initiateArc`: present whenever a margin is given, zero included. */
  function MarginField(zMargin: Option<real>, fmt: Formatter): string {
    if zMargin.Some? then "D" + fmt(zMargin.value) + " " else ""
  }

  /** The command `initiateArc` returns: "M3 " and the ignition coordinates, the margin, a line break. */
  function ArcCmd(zMargin: Option<real>, fmt: Formatter): string {
    "M3 " + ("X" + fmt(IgnitX) + " ") + ("Y" + fmt(IgnitY) + " ") + ("Z" + fmt(IgnitZ) + " ")
    + MarginField(zMargin, fmt) + "\n"
  }

  /**
   * With a margin, the arc command is the one without a margin with "D", the margin and a space
   * put before its line break; a zero margin is no exception.
   */
  lemma ArcMargin(m: real, fmt: Formatter)
    ensures var plain := ArcCmd(None, fmt);
            ArcCmd(Some(m), fmt) == plain[..|plain| - 1] + "D" + fmt(m) + " " + "\n"
  {
    var head := "M3 " + ("X" + fmt(IgnitX) + " ") + ("Y" + fmt(IgnitY) + " ") + ("Z" + fmt(IgnitZ) + " ");
    var plain := ArcCmd(None, fmt);
    assert plain == head + "" + "\n";
    assert plain[..|plain| - 1] == head;
  }

  /**
   * The text of the extrusion test after `k` passes. Pass `i` extrudes to `EAfter(i) + ex`, waits
   * 20 ms, retracts to `EAfter(i + 1)` and waits 20 ms.
   */
  function ExtrudeText(k: nat, fmt: Formatter): string {
    if k == 0 then "; Extrusion Test Starts\n"
    else ExtrudeText(k - 1, fmt)
         + TravelCmd(None, None, None, Some(EAfter(k - 1) + Ex), Some("Weld"), fmt) + "G4 P20\n"
         + TravelCmd(None, None, None, Some(EAfter(k)), Some("Retract"), fmt) + "G4 P20\n"
  }

  /** `E` after `k` passes: each pass adds `ex`, then adds `-ret`. */
  function EAfter(k: nat): (r: real)
    ensures k > 0 ==> r == EAfter(k - 1) + Ex + -Ret
  {
    (k as real) * 9.9972
  }

  /** Each pass is four lines, so `k` passes and the heading are `4 * k + 1` lines. */
  lemma {:induction false} ExtrudeLines(k: nat, fmt: Formatter)
    requires LineSafe(fmt)
    ensures Count(ExtrudeText(k, fmt), '\n') == 4 * k + 1
  {
    if k == 0 {
      var h := "; Extrusion Test Starts";
      assert ExtrudeText(k, fmt) == h + "\n";
      OneLine(h);
    } else {
      ExtrudeLines(k - 1, fmt);
      ExtrudeStep(k, fmt);
    }
  }

  /** One more pass adds four lines. */
  lemma ExtrudeStep(k: nat, fmt: Formatter)
    requires LineSafe(fmt) && k >= 1
    ensures Count(ExtrudeText(k, fmt), '\n') == Count(ExtrudeText(k - 1, fmt), '\n') + 4
  {
    ELine(EAfter(k - 1) + Ex, "Weld", fmt);
    ELine(EAfter(k), "Retract", fmt);
    DwellOneLine();
    FourLines(ExtrudeText(k - 1, fmt),
              TravelCmd(None, None, None, Some(EAfter(k - 1) + Ex), Some("Weld"), fmt),
              "G4 P20\n",
              TravelCmd(None, None, None, Some(EAfter(k)), Some("Retract"), fmt));
  }

  /** An extruder-only travel line is one line. */
  lemma ELine(e: real, comment: string, fmt: Formatter)
    requires LineSafe(fmt) && '\n' !in comment
    ensures Count(TravelCmd(None, None, None, Some(e), Some(comment), fmt), '\n') == 1
  {
    TravelMove(None, None, None, Some(e), Some(comment), fmt);
  }

  /** The dwell after each extruder move is one line. */
  lemma DwellOneLine()
    ensures Count("G4 P20\n", '\n') == 1
  {
    assert "G4 P20\n" == "G4 P20" + "\n";
    OneLine("G4 P20");
  }

  /** Appending line, pause, line, pause adds four lines. */
  lemma FourLines(t: string, a: string, p: string, b: string)
    requires Count(a, '\n') == 1 && Count(p, '\n') == 1 && Count(b, '\n') == 1
    ensures Count(t + a + p + b + p, '\n') == Count(t, '\n') + 4
  {
    CountConcat(t, a, '\n');
    CountConcat(t + a, p, '\n');
    CountConcat(t + a + p, b, '\n');
    CountConcat(t + a + p + b, p, '\n');
  }

  /** One round trip of the move test: out to (200, 200, 50) and back to (0, 0, 40). */
  function ShuttleTrip(fmt: Formatter): string {
    TravelCmd(Some(200.0), Some(200.0), Some(50.0), None, None, fmt)
    + TravelCmd(Some(0.0), Some(0.0), Some(40.0), None, None, fmt)
  }

  /** The text of the move test after `k` round trips. */
  function ShuttleText(k: nat, fmt: Formatter): string {
    Repeat(ShuttleTrip(fmt), k)
  }

  /** Each round trip is two lines. */
  lemma ShuttleLines(k: nat, fmt: Formatter)
    requires LineSafe(fmt)
    ensures Count(ShuttleText(k, fmt), '\n') == 2 * k
  {
    TripLines(fmt);
    RepeatCount(ShuttleTrip(fmt), k, '\n');
  }

  /** A round trip is two lines. */
  lemma TripLines(fmt: Formatter)
    requires LineSafe(fmt)
    ensures Count(ShuttleTrip(fmt), '\n') == 2
  {
    var a := TravelCmd(Some(200.0), Some(200.0), Some(50.0), None, None, fmt);
    var b := TravelCmd(Some(0.0), Some(0.0), Some(40.0), None, None, fmt);
    TravelMove(Some(200.0), Some(200.0), Some(50.0), None, None, fmt);
    TravelMove(Some(0.0), Some(0.0), Some(40.0), None, None, fmt);
    CountConcat(a, b, '\n');
  }

  /**
   * `int(abs(hi - lo) / res) + 1`, the number of grid values along one axis. A zero resolution
   * fails; a negative one gives a count of at most 1, possibly negative, which only `linspace`
   * later refuses.
   */
  function GridCount(lo: real, hi: real, res: real): (r: Result<int, EmitError>)
    ensures r.Failure? <==> res == 0.0
    ensures r.Failure? ==> r.error == DivisionByZero
    ensures res > 0.0 ==> r.Success? && r.value >= 1
                          && r.value == ((if hi >= lo then hi - lo else lo - hi) / res).Floor + 1
    ensures res < 0.0 ==> r.Success? && r.value <= 1
  {
    if res == 0.0 then Failure(DivisionByZero)
    else Success(Trunc((if hi >= lo then hi - lo else lo - hi) / res) + 1)
  }

  /**
   * The points of `move_grid`: both counts first, x then y, each of which can fail on a zero
   * resolution; then the comprehension, which calls `linspace` for x once and refuses a negative
   * x count, and calls `linspace` for y once per x value, so a negative y count is refused only
   * when there is an x value.
   */
  function GridScan(topLeft: Point, bottomRight: Point, vres: real, hres: real): (r: Result<seq<Point>, EmitError>)
    ensures var nh := GridCount(topLeft.x, bottomRight.x, hres);
            var nv := GridCount(topLeft.y, bottomRight.y, vres);
            && (r == Failure(DivisionByZero) <==> hres == 0.0 || vres == 0.0)
            && (r == Failure(NegativeCount) <==>
                  nh.Success? && nv.Success? && (nh.value < 0 || (nh.value > 0 && nv.value < 0)))
            && (r.Success? && nh.value > 0 ==> r.value == GridPoints(topLeft, bottomRight, nh.value, nv.value))
            && (r.Success? && nh.value == 0 ==> r.value == [])
  {
    var nh := GridCount(topLeft.x, bottomRight.x, hres);
    if nh.Failure? then Failure(nh.error)
    else
      var nv := GridCount(topLeft.y, bottomRight.y, vres);
      if nv.Failure? then Failure(nv.error)
      else if nh.value < 0 then Failure(NegativeCount)
      else if nh.value == 0 then Success([])
      else if nv.value < 0 then Failure(NegativeCount)
      else Success(GridPoints(topLeft, bottomRight, nh.value, nv.value))
  }

  /**
   * A zero resolution on y is reported even when the x resolution is negative: the division at
   * the second count happens before `linspace` can refuse the first.
   */
  lemma ZeroResolutionFirst()
    ensures GridCount(0.0, 10.0, -3.0) == Success(-2)
    ensures GridScan(Point(0.0, 0.0), Point(10.0, 10.0), 0.0, -3.0) == Failure(DivisionByZero)
  {
    assert (10.0 / -3.0) < 0.0;
    assert Trunc(10.0 / -3.0) == -3;
  }

  /** With no x value the y count is never checked: a negative y count then gives an empty grid. */
  lemma EmptyRowsSkipY()
    ensures GridCount(0.0, 10.0, -10.0) == Success(0)
    ensures GridCount(0.0, 10.0, -5.0) == Success(-1)
    ensures GridScan(Point(0.0, 0.0), Point(10.0, 10.0), -5.0, -10.0) == Success([])
  {
    assert Trunc(10.0 / -10.0) == -1;
    assert Trunc(10.0 / -5.0) == -2;
  }

  /** The text of the grid scan over `pts`: a travel move to each point at height `z`, then a pause. */
  function GridText(pts: seq<Point>, z: real, delay: real, fmt: Formatter): string {
    if |pts| == 0 then ""
    else
      var p := pts[|pts| - 1];
      GridText(pts[..|pts| - 1], z, delay, fmt) + TravelCmd(Some(p.x), Some(p.y), Some(z), None, None, fmt)
      + PauseCmd(delay, fmt)
  }

  /** Each grid point is a move line and a pause line. */
  lemma {:induction false} GridLines(pts: seq<Point>, z: real, delay: real, fmt: Formatter)
    requires LineSafe(fmt)
    ensures Count(GridText(pts, z, delay, fmt), '\n') == 2 * |pts|
    decreases |pts|
  {
    if |pts| > 0 {
      var p := pts[|pts| - 1];
      GridLines(pts[..|pts| - 1], z, delay, fmt);
      TravelMove(Some(p.x), Some(p.y), Some(z), None, None, fmt);
      PauseOneLine(delay, fmt);
      var t0 := GridText(pts[..|pts| - 1], z, delay, fmt);
      var a := TravelCmd(Some(p.x), Some(p.y), Some(z), None, None, fmt);
      CountConcat(t0, a, '\n');
      CountConcat(t0 + a, PauseCmd(delay, fmt), '\n');
    }
  }

  /** The grid of `move_grid`: x outer, y inner, each axis from `linspace`. */
  function GridPoints(topLeft: Point, bottomRight: Point, nh: nat, nv: nat): (pts: seq<Point>)
    ensures |pts| == nh * nv
  {
    Lattice(Linspace(topLeft.x, bottomRight.x, nh), Linspace(topLeft.y, bottomRight.y, nv))
  }

  /**
   * The grid runs from the top-left corner to the bottom-right one: its first point is `topLeft`
   * and, with two or more values on each axis, its last point is `bottomRight`.
   */
  lemma GridCorners(topLeft: Point, bottomRight: Point, nh: nat, nv: nat)
    requires nh >= 1 && nv >= 1
    ensures GridPoints(topLeft, bottomRight, nh, nv)[0] == topLeft
    ensures nh >= 2 && nv >= 2 ==> GridPoints(topLeft, bottomRight, nh, nv)[nh * nv - 1] == bottomRight
  {
    var xs := Linspace(topLeft.x, bottomRight.x, nh);
    var ys := Linspace(topLeft.y, bottomRight.y, nv);
    LinspaceEnds(topLeft.x, bottomRight.x, nh);
    LinspaceEnds(topLeft.y, bottomRight.y, nv);
    LatticeAt(xs, ys, 0, 0);
    LatticeLast(xs, ys);
  }

  /** The module-level state of gcodetest.py. */
  class Emitter {
    /** `lastPoint`: the position after each move. */
    var lastPoint: LastPoint
    /** `E`: the extrusion length. */
    var e: real
    /** `str()` of a number. */
    const fmt: Formatter

    /** The initial globals: no axis positioned, nothing extruded. */
    constructor (fmt: Formatter)
      ensures lastPoint == LastPoint(None, None, None) && e == 0.0 && this.fmt == fmt
    {
      lastPoint := LastPoint(None, None, None);
      e := 0.0;
      this.fmt := fmt;
    }

    /**
     * `move`: build the line field by field, recording each named axis in `lastPoint`. A "Weld"
     * speed raises a KeyError after the axes are recorded.
     */
    method Move(x: Option<real>, y: Option<real>, z: Option<real>, e: Option<real>,
                speed: Option<string>, comment: Option<string>)
      returns (r: Result<string, GCodeError>)
      modifies this
      ensures r == MoveCmd(x, y, z, e, speed, comment, fmt)
      ensures lastPoint == Updated(old(lastPoint), x, y, z)
      ensures this.e == old(this.e)
    {
      var fields := AxisFields(x, y, z, e);
      var s := fields;
      var f := "";
      if speed == Some("Weld") || speed == Some("Travel") {
        // Only one of the two lookups runs: the speed is "Weld" or "Travel", not both.
        var v := Lookup(if speed == Some("Weld") then "WeldSpeed" else "TravelSpeed");
        if v.Failure? {
          return Failure(v.error);
        }
        f := "F" + fmt(v.value) + " ";
      }
      assert SpeedField(speed, fmt) == Success(f);
      s := s + f;
      if comment.Some? {
        s := s + ("; " + comment.value);
      }
      assert s == fields + f + CommentField(comment);
      assert MoveLine(x, y, z, e, speed, comment, fmt) == Success(s);
      s := s + "\n";
      r := Success(s);
    }

    /** The start of `move`: "G1 " and a field per named axis, each named axis recorded in `lastPoint`. */
    method AxisFields(x: Option<real>, y: Option<real>, z: Option<real>, e: Option<real>) returns (s: string)
      modifies this
      ensures s == "G1 " + Field('X', x, fmt) + Field('Y', y, fmt) + Field('Z', z, fmt) + Field('E', e, fmt)
      ensures lastPoint == Updated(old(lastPoint), x, y, z)
      ensures this.e == old(this.e)
    {
      s := "G1 ";
      if x.Some? {
        s := s + ("X" + fmt(x.value) + " ");
        lastPoint := lastPoint.(x := x);
      }
      assert s == "G1 " + Field('X', x, fmt);
      if y.Some? {
        s := s + ("Y" + fmt(y.value) + " ");
        lastPoint := lastPoint.(y := y);
      }
      assert s == "G1 " + Field('X', x, fmt) + Field('Y', y, fmt);
      if z.Some? {
        s := s + ("Z" + fmt(z.value) + " ");
        lastPoint := lastPoint.(z := z);
      }
      assert s == "G1 " + Field('X', x, fmt) + Field('Y', y, fmt) + Field('Z', z, fmt);
      if e.Some? {
        s := s + ("E" + fmt(e.value) + " ");
      }
    }

    /** A travel move: the travel command, and the named axes recorded. */
    method Travel(x: Option<real>, y: Option<real>, z: Option<real>, e: Option<real>, comment: Option<string>)
      returns (s: string)
      modifies this
      ensures s == TravelCmd(x, y, z, e, comment, fmt)
      ensures lastPoint == Updated(old(lastPoint), x, y, z)
      ensures this.e == old(this.e)
    {
      var r := Move(x, y, z, e, Some("Travel"), comment);
      TravelMove(x, y, z, e, comment, fmt);
      s := r.value;
    }

    /** `initiateArc(zMargin)`: strike the arc at the ignition point, which becomes `lastPoint`. */
    method InitiateArc(zMargin: Option<real>) returns (s: string)
      modifies this
      ensures s == ArcCmd(zMargin, fmt)
      ensures lastPoint == LastPoint(Some(IgnitX), Some(IgnitY), Some(IgnitZ))
      ensures e == old(e)
    {
      s := "M3 ";
      s := s + ("X" + fmt(IgnitX) + " ");
      s := s + ("Y" + fmt(IgnitY) + " ");
      s := s + ("Z" + fmt(IgnitZ) + " ");
      if zMargin.Some? {
        s := s + ("D" + fmt(zMargin.value) + " ");
      }
      s := s + "\n";
      lastPoint := LastPoint(Some(IgnitX), Some(IgnitY), Some(IgnitZ));
    }

    /**
     * `stopSequence()`: a heading, a travel move to x = 0, y = 0 and 50 above the last height,
     * and a homing line. With no height yet, the addition raises before anything moves.
     */
    method StopSequence() returns (r: Result<string, EmitError>)
      modifies this
      ensures old(lastPoint.z).None? ==> r == Failure(NoneOperand) && lastPoint == old(lastPoint)
      ensures old(lastPoint.z).Some? ==>
                var z := old(lastPoint.z).value + 50.0;
                && r == Success("; Welding Ends\n" + TravelCmd(Some(0.0), Some(0.0), Some(z), None, Some("Recenter"), fmt)
                                + "G28 X0  ; home X axis\n")
                && lastPoint == LastPoint(Some(0.0), Some(0.0), Some(z))
      ensures e == old(e)
    {
      var s := "; Welding Ends\n";
      if lastPoint.z.None? {
        return Failure(NoneOperand);
      }
      var line := Travel(Some(0.0), Some(0.0), Some(lastPoint.z.value + 50.0), None, Some("Recenter"));
      s := s + line;
      s := s + "G28 X0  ; home X axis\n";
      r := Success(s);
    }

    /**
     * `testExtrudeSequence()`: reset `E`, then `NExtrude` times extrude by `ex` and retract by `ret`,
     * each followed by a 20 ms pause. `E` ends at `NExtrude * (ex - ret)`.
     */
    method TestExtrudeSequence() returns (s: string)
      modifies this
      ensures s == ExtrudeText(NExtrude, fmt)
      ensures e == EAfter(NExtrude) && e == (NExtrude as real) * (Ex - Ret)
      ensures lastPoint == old(lastPoint)
    {
      e := 0.0;
      s := "; Extrusion Test Starts\n";
      var k := 0;
      while k < NExtrude
        invariant 0 <= k <= NExtrude
        invariant s == ExtrudeText(k, fmt)
        invariant e == EAfter(k)
        invariant lastPoint == old(lastPoint)
      {
        s := ExtrudePair(s, k);
        k := k + 1;
      }
    }

    /** One pass of the extrusion test's loop: extrude, pause, retract, pause. */
    method ExtrudePair(s0: string, k: nat) returns (s: string)
      requires e == EAfter(k)
      modifies this
      ensures s == s0 + TravelCmd(None, None, None, Some(EAfter(k) + Ex), Some("Weld"), fmt) + "G4 P20\n"
                   + TravelCmd(None, None, None, Some(EAfter(k + 1)), Some("Retract"), fmt) + "G4 P20\n"
      ensures e == EAfter(k + 1)
      ensures lastPoint == old(lastPoint)
    {
      e := e + Ex;
      var extrude := Travel(None, None, None, Some(e), Some("Weld"));
      s := s0 + extrude + "G4 P20\n";
      e := e + -Ret;
      var retract := Travel(None, None, None, Some(e), Some("Retract"));
      s := s + retract + "G4 P20\n";
    }

    /**
     * `testMoveSequence()`: 100 round trips between (200, 200, 50) and (0, 0, 40), ending at
     * (0, 0, 40).
     */
    method TestMoveSequence() returns (s: string)
      modifies this
      ensures s == ShuttleText(100, fmt)
      ensures lastPoint == LastPoint(Some(0.0), Some(0.0), Some(40.0))
      ensures e == old(e)
    {
      s := "";
      var k := 0;
      while k < 100
        invariant 0 <= k <= 100
        invariant s == ShuttleText(k, fmt)
        invariant k > 0 ==> lastPoint == LastPoint(Some(0.0), Some(0.0), Some(40.0))
        invariant e == old(e)
      {
        var there := Travel(Some(200.0), Some(200.0), Some(50.0), None, None);
        s := s + there;
        var back := Travel(Some(0.0), Some(0.0), Some(40.0), None, None);
        s := s + back;
        k := k + 1;
      }
    }

    /**
     * `move_grid(top_left, bottom_right, z, vres, hres, delay)`: count the values on each axis,
     * build the lattice of points, then travel to each at height `z` and pause there. `lastPoint`
     * ends at the last point.
     */
    method MoveGrid(topLeft: Point, bottomRight: Point, z: real, vres: real, hres: real, delay: real)
      returns (r: Result<string, EmitError>)
      modifies this
      ensures var g := GridScan(topLeft, bottomRight, vres, hres);
              if g.Failure? then r == Failure(g.error) && lastPoint == old(lastPoint)
              else
                var pts := g.value;
                && r == Success(GridText(pts, z, delay, fmt))
                && lastPoint == (if |pts| == 0 then old(lastPoint)
                                 else LastPoint(Some(pts[|pts| - 1].x), Some(pts[|pts| - 1].y), Some(z)))
      ensures e == old(e)
    {
      var nh := GridCount(topLeft.x, bottomRight.x, hres);
      if nh.Failure? {
        return Failure(nh.error);
      }
      var nv := GridCount(topLeft.y, bottomRight.y, vres);
      if nv.Failure? {
        return Failure(nv.error);
      }
      var pts: seq<Point>;
      if nh.value < 0 {
        return Failure(NegativeCount);
      } else if nh.value == 0 {
        pts := [];
      } else if nv.value < 0 {
        return Failure(NegativeCount);
      } else {
        pts := GridPoints(topLeft, bottomRight, nh.value, nv.value);
      }
      var cmds := TravelGrid(pts, z, delay);
      r := Success(cmds);
    }

    /** The loop of `move_grid`: travel to each point in turn at height `z`, pausing at each. */
    method TravelGrid(pts: seq<Point>, z: real, delay: real) returns (cmds: string)
      modifies this
      ensures cmds == GridText(pts, z, delay, fmt)
      ensures lastPoint == (if |pts| == 0 then old(lastPoint)
                            else LastPoint(Some(pts[|pts| - 1].x), Some(pts[|pts| - 1].y), Some(z)))
      ensures e == old(e)
    {
      cmds := "";
      var k := 0;
      while k < |pts|
        invariant 0 <= k <= |pts|
        invariant cmds == GridText(pts[..k], z, delay, fmt)
        invariant lastPoint == (if k == 0 then old(lastPoint)
                                else LastPoint(Some(pts[k - 1].x), Some(pts[k - 1].y), Some(z)))
        invariant e == old(e)
      {
        var line := Travel(Some(pts[k].x), Some(pts[k].y), Some(z), None, None);
        cmds := cmds + line;
        cmds := cmds + PauseCmd(delay, fmt);
        assert pts[..k + 1][..k] == pts[..k];
        k := k + 1;
      }
      assert pts[..k] == pts;
    }
  }

  /**
   * The grid scan emits two lines per lattice point, `2 * nh * nv` in all, and with a positive
   * resolution each axis has `floor(|extent| / res) + 1` values.
   */
  lemma MoveGridLines(topLeft: Point, bottomRight: Point, z: real, vres: real, hres: real, delay: real,
                      fmt: Formatter)
    requires LineSafe(fmt) && hres > 0.0 && vres > 0.0
    ensures var nh := GridCount(topLeft.x, bottomRight.x, hres).value;
            var nv := GridCount(topLeft.y, bottomRight.y, vres).value;
            Count(GridText(GridPoints(topLeft, bottomRight, nh, nv), z, delay, fmt), '\n') == 2 * (nh * nv)
  {
    var nh := GridCount(topLeft.x, bottomRight.x, hres).value;
    var nv := GridCount(topLeft.y, bottomRight.y, vres).value;
    GridLines(GridPoints(topLeft, bottomRight, nh, nv), z, delay, fmt);
  }
}
