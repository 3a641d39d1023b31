/**
 * gcode.py: `GCodeProgram`, a list of G-code lines built up in place, and the settings table its
 * speed field reads from.
 */
module GCode {
  import opened Results
  import opened Text

  /** The numeric entries of `setupData` (the mode string, the dry-run flag and `IgnitCoord` aside). */
  const SetupData: map<string, real> := map[
    "MaxZ" := 320.0, "PrintRadius" := 300.0, "Z0" := 0.0, "WeldHeight" := 2.2,
    "ApproachHeight" := 10.0, "TravelHeight" := 5.0, "layerWait" := 20.0,
    "ColdWeldSpeed" := 2000.0, "WeldSpeedHot" := 0.4, "HotLength" := 40.0, "WeldSpeedUp" := 0.3,
    "TravelSpeed" := 5000.0, "ExtrMxSpeed" := 5000.0, "Acceleration" := 100.0,
    "PuddleTime" := 0.0, "ExtrusionFactor" := 1.0, "RetractionLen" := -1.0,
    "Retractionfactor" := 1.007, "RetractionPlay" := 0.6, "RetractionTravel" := 5.0,
    "NExtrude" := 100.0]

  /** What a failing lookup raises. */
  datatype GCodeError = KeyError(key: string)

  /** `setupData[key]`. */
  function Lookup(key: string): (r: Result<real, GCodeError>)
    ensures r.Success? <==> key in SetupData
    ensures r.Success? ==> r.value == SetupData[key]
    ensures r.Failure? ==> r.error == KeyError(key)
  {
    if key in SetupData then Success(SetupData[key]) else Failure(KeyError(key))
  }

  /** The position after the moves so far; an axis no move has named is None. */
  datatype LastPoint = LastPoint(x: Option<real>, y: Option<real>, z: Option<real>)

  /** `last_point` after a move: only the axes the move names change. */
  function Updated(lp: LastPoint, x: Option<real>, y: Option<real>, z: Option<real>): LastPoint {
    LastPoint(if x.Some? then x else lp.x, if y.Some? then y else lp.y, if z.Some? then z else lp.z)
  }

  /** One coordinate field: the letter, the number and a space, or nothing for an absent argument. */
  function Field(letter: char, v: Option<real>, fmt: Formatter): string {
    if v.Some? then [letter] + fmt(v.value) + " " else ""
  }

  /** The feed-rate field: "Weld" and "Travel" look their speed up; any other value adds nothing. */
  function SpeedField(speed: Option<string>, fmt: Formatter): Result<string, GCodeError> {
    if speed == Some("Weld") then
      var v := Lookup("WeldSpeed");
      if v.Failure? then Failure(v.error) else Success("F" + fmt(v.value) + " ")
    else if speed == Some("Travel") then
      var v := Lookup("TravelSpeed");
      if v.Failure? then Failure(v.error) else Success("F" + fmt(v.value) + " ")
    else Success("")
  }

  /** The trailing comment, or nothing. */
  function CommentField(comment: Option<string>): string {
    if comment.Some? then "; " + comment.value else ""
  }

  /** The line `move` builds: "G1 ", then X, Y, Z, E and F fields in that order, then the comment. */
  function MoveLine(x: Option<real>, y: Option<real>, z: Option<real>, e: Option<real>,
                    speed: Option<string>, comment: Option<string>, fmt: Formatter): Result<string, GCodeError>
  {
    var f := SpeedField(speed, fmt);
    if f.Failure? then Failure(f.error)
    else Success("G1 " + Field('X', x, fmt) + Field('Y', y, fmt) + Field('Z', z, fmt) + Field('E', e, fmt)
                 + f.value + CommentField(comment))
  }

  /** The line `pause` appends. */
  function PauseLine(ms: real, fmt: Formatter): string {
    "G4 P" + fmt(ms)
  }

  /**
   * The speed lookup: "Travel" gives "F" and the travel speed, 5000; "Weld" raises a KeyError,
   * as `setupData` has no "WeldSpeed" entry; any other value, or none, adds nothing.
   */
  lemma SpeedFieldCases(speed: Option<string>, fmt: Formatter)
    ensures speed == Some("Travel") ==> SpeedField(speed, fmt) == Success("F" + fmt(5000.0) + " ")
    ensures speed == Some("Weld") ==> SpeedField(speed, fmt) == Failure(KeyError("WeldSpeed"))
    ensures speed != Some("Weld") && speed != Some("Travel") ==> SpeedField(speed, fmt) == Success("")
    ensures SpeedField(speed, fmt).Failure? <==> speed == Some("Weld")
  {
    assert "WeldSpeed" !in SetupData;
  }

  lemma FieldNoNewline(letter: char, v: Option<real>, fmt: Formatter)
    requires LineSafe(fmt) && letter != '\n'
    ensures '\n' !in Field(letter, v, fmt)
  {
    if v.Some? {
      LineSafeAt(fmt, v.value);
      assert Field(letter, v, fmt) == [letter] + fmt(v.value) + " ";
    }
  }

  /** A move line starts with "G1 "; it fails exactly for the "Weld" speed. */
  lemma MoveLinePrefix(x: Option<real>, y: Option<real>, z: Option<real>, e: Option<real>,
                       speed: Option<string>, comment: Option<string>, fmt: Formatter)
    ensures var r := MoveLine(x, y, z, e, speed, comment, fmt);
            && (r.Failure? <==> speed == Some("Weld"))
            && (r.Success? ==> |r.value| >= 3 && r.value[..3] == "G1 ")
  {
    SpeedFieldCases(speed, fmt);
    var f := SpeedField(speed, fmt);
    if f.Success? {
      var a := "G1 " + Field('X', x, fmt);
      var b := a + Field('Y', y, fmt);
      var c := b + Field('Z', z, fmt);
      var d := c + Field('E', e, fmt);
      var g := d + f.value;
      PrefixKept("G1 ", "G1 ", Field('X', x, fmt));
      PrefixKept("G1 ", a, Field('Y', y, fmt));
      PrefixKept("G1 ", b, Field('Z', z, fmt));
      PrefixKept("G1 ", c, Field('E', e, fmt));
      PrefixKept("G1 ", d, f.value);
      PrefixKept("G1 ", g, CommentField(comment));
    }
  }

  lemma PrefixKept(p: string, s: string, t: string)
    requires |p| <= |s| && s[..|p|] == p
    ensures |p| <= |s + t| && (s + t)[..|p|] == p
  {
    assert (s + t)[..|p|] == s[..|p|];
  }

  /**
   * When numbers print without line breaks and the comment has none, a move line holds no line
   * break: one move is one line of the program.
   */
  lemma MoveLineSingle(x: Option<real>, y: Option<real>, z: Option<real>, e: Option<real>,
                       speed: Option<string>, comment: Option<string>, fmt: Formatter)
    requires LineSafe(fmt) && (comment.Some? ==> '\n' !in comment.value)
    ensures var r := MoveLine(x, y, z, e, speed, comment, fmt);
            r.Success? ==> '\n' !in r.value
  {
    var f := SpeedField(speed, fmt);
    if f.Success? {
      FieldNoNewline('X', x, fmt);
      FieldNoNewline('Y', y, fmt);
      FieldNoNewline('Z', z, fmt);
      FieldNoNewline('E', e, fmt);
      if speed == Some("Travel") {
        LineSafeAt(fmt, 5000.0);
      }
      SpeedFieldCases(speed, fmt);
      assert '\n' !in f.value;
      assert '\n' !in CommentField(comment);
      var a := "G1 " + Field('X', x, fmt);
      var b := a + Field('Y', y, fmt);
      var c := b + Field('Z', z, fmt);
      var d := c + Field('E', e, fmt);
      var g := d + f.value;
      assert '\n' !in a && '\n' !in b && '\n' !in c && '\n' !in d && '\n' !in g;
      assert '\n' !in g + CommentField(comment);
    }
  }

  /** A pause line is "G4 P" and the number, and holds no line break when numbers print without one. */
  lemma PauseLineShape(ms: real, fmt: Formatter)
    ensures |PauseLine(ms, fmt)| >= 4 && PauseLine(ms, fmt)[..4] == "G4 P"
    ensures PauseLine(ms, fmt)[4..] == fmt(ms)
    ensures LineSafe(fmt) ==> '\n' !in PauseLine(ms, fmt)
  {
    if LineSafe(fmt) {
      LineSafeAt(fmt, ms);
    }
  }

  /** Lines with no line break in them. */
  predicate Lines(ls: seq<string>) {
    forall k :: 0 <= k < |ls| ==> '\n' !in ls[k]
  }

  class GCodeProgram {
    /** The program so far, one G-code command per entry, without line terminators. */
    var gcode: seq<string>
    /** `last_point`: the position after each move. */
    var lastPoint: LastPoint
    const verbose: bool
    /** `str()` of a number. */
    const fmt: Formatter

    /** `GCodeProgram(startup, verbose)`: no lines yet, and no axis positioned; `startup` is unused. */
    constructor (startup: bool, verbose: bool, fmt: Formatter)
      ensures gcode == [] && lastPoint == LastPoint(None, None, None)
      ensures this.verbose == verbose && this.fmt == fmt
    {
      gcode := [];
      lastPoint := LastPoint(None, None, None);
      this.verbose := verbose;
      this.fmt := fmt;
    }

    /**
     * `move`: record each named axis in `last_point` while building the line, then append the line.
     * The "Weld" lookup raises after the axes are recorded, so a failing move still moves
     * `last_point` but appends nothing.
     */
    method Move(x: Option<real>, y: Option<real>, z: Option<real>, e: Option<real>,
                speed: Option<string>, comment: Option<string>)
      returns (r: Result<string, GCodeError>)
      modifies this
      ensures r == MoveLine(x, y, z, e, speed, comment, fmt)
      ensures lastPoint == Updated(old(lastPoint), x, y, z)
      ensures r.Success? ==> gcode == old(gcode) + [r.value]
      ensures r.Failure? ==> gcode == old(gcode)
      ensures LineSafe(fmt) && Lines(old(gcode)) && (comment.Some? ==> '\n' !in comment.value) ==> Lines(gcode)
    {
      var s := AxisFields(x, y, z, e);
      var f := "";
      if speed == Some("Weld") || speed == Some("Travel") {
        // Only one of the two lookups runs: the speed is "Weld" or "Travel", not both.
        var v := Lookup(if speed == Some("Weld") then "WeldSpeed" else "TravelSpeed");
        if v.Failure? {
          return Failure(v.error);
        }
        f := "F" + fmt(v.value) + " ";
      }
      assert SpeedField(speed, fmt) == Success(f);
      s := s + f;
      if comment.Some? {
        s := s + ("; " + comment.value);
      }
      assert s == MoveLine(x, y, z, e, speed, comment, fmt).value;
      if LineSafe(fmt) && Lines(gcode) && (comment.Some? ==> '\n' !in comment.value) {
        MoveLineSingle(x, y, z, e, speed, comment, fmt);
        AppendKeepsLines(gcode, s);
      }
      gcode := gcode + [s];
      r := Success(s);
    }

    /** The start of `move`: "G1 " and a field per named axis, each named axis recorded in `last_point`. */
    method AxisFields(x: Option<real>, y: Option<real>, z: Option<real>, e: Option<real>) returns (s: string)
      modifies this
      ensures s == "G1 " + Field('X', x, fmt) + Field('Y', y, fmt) + Field('Z', z, fmt) + Field('E', e, fmt)
      ensures lastPoint == Updated(old(lastPoint), x, y, z)
      ensures gcode == old(gcode)
    {
      s := "G1 ";
      if x.Some? {
        s := s + ("X" + fmt(x.value) + " ");
        lastPoint := lastPoint.(x := x);
      }
      assert s == "G1 " + Field('X', x, fmt);
      if y.Some? {
        s := s + ("Y" + fmt(y.value) + " ");
        lastPoint := lastPoint.(y := y);
      }
      assert s == "G1 " + Field('X', x, fmt) + Field('Y', y, fmt);
      if z.Some? {
        s := s + ("Z" + fmt(z.value) + " ");
        lastPoint := lastPoint.(z := z);
      }
      assert s == "G1 " + Field('X', x, fmt) + Field('Y', y, fmt) + Field('Z', z, fmt);
      if e.Some? {
        s := s + ("E" + fmt(e.value) + " ");
      }
    }

    /** `pause(ms)`: append "G4 P" and the number of milliseconds. */
    method Pause(ms: real)
      modifies this
      ensures gcode == old(gcode) + [PauseLine(ms, fmt)]
      ensures lastPoint == old(lastPoint)
      ensures LineSafe(fmt) && Lines(old(gcode)) ==> Lines(gcode)
    {
      PauseLineShape(ms, fmt);
      gcode := gcode + ["G4 P" + fmt(ms)];
    }

    /** `__str__`: the lines joined by line breaks; an empty program is "", and no break trails. */
    function ToString(): (s: string)
      reads this
      ensures gcode == [] ==> s == ""
      ensures |gcode| == 1 ==> s == gcode[0]
    {
      Join(gcode, '\n')
    }

    /**
     * When no line holds a line break, the text has one fewer break than the program has lines,
     * and splitting it at the breaks gives the lines back.
     */
    lemma ToStringLines()
      requires |gcode| >= 1 && Lines(gcode)
      ensures Count(ToString(), '\n') == |gcode| - 1
      ensures Split(ToString(), '\n') == gcode
    {
      JoinCount(gcode, '\n');
      SplitJoin(gcode, '\n');
    }
  }

  /**
   * Every line a move or pause appends keeps the program a list of single lines, given numbers and
   * comments that print without line breaks.
   */
  lemma AppendKeepsLines(ls: seq<string>, line: string)
    requires Lines(ls) && '\n' !in line
    ensures Lines(ls + [line])
  {
  }
}
