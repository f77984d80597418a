/** The state of a `GcodeCursor` (src/CNCPy/__init__.py) as a value, and one
    function per cursor operation giving the state after the call and what
    the call returns or raises. The class `CNCPy.GcodeCursor` carries out
    these operations in place and is proved against these functions. */
module CursorModel {
  import opened Exceptions

  const GcodeSuffix: string := ".gcode"
  /** Raised by both arcs for a centre off the bed. */
  const ArcCenterError: string := "Arc center found off bed."
  /** The attribute both arcs read, which the cursor never assigns. */
  const UnassignedAttribute: string := "extrude_amount"

  /** One record of the output file. Whatever `append` writes from strings
      is kept as its text; the lines that carry numbers are kept as
      structured records of the command and its numbers, followed by the
      line's `end` string. */
  datatype Entry =
    | Text(text: string)
    | G0(x: real, y: real, z: real, f: real, end: string)
    | G1(x: real, y: real, z: real, e: real, f: real, end: string)
    | G4(p: real, end: string)
    | M104(s: int, end: string)
    | M109(s: int, end: string)
    | M140(s: int, end: string)
    | M190(s: int, end: string)

  /** Everything a cursor holds: the file name and the settings fixed at
      construction, the tracked head position, the cumulative extrusion
      total and the extrusion ratio, the file's records and whether the file
      has been closed. */
  datatype Cursor = Cursor(
    fileName: string, bedX: real, bedY: real, unsafe: bool,
    x: real, y: real, z: real,
    extrudeAmount: real, extrusionRatio: real,
    entries: seq<Entry>, closed: bool)

  /** The cursor after a call, and whether the call returned or raised. */
  datatype Step = Step(after: Cursor, outcome: Outcome)

  predicate OnBed(c: Cursor) {
    0.0 <= c.x <= c.bedX && 0.0 <= c.y <= c.bedY
  }

  predicate SamePosition(a: Cursor, b: Cursor) {
    a.x == b.x && a.y == b.y && a.z == b.z
  }

  /** `r` is the effect of writing `e` to `c`'s file and nothing else: an
      open file gains the record; a closed one raises and nothing changes. */
  predicate Wrote(c: Cursor, e: Entry, r: Step) {
    && r.after.(entries := c.entries) == c
    && (r.outcome == Ok <==> !c.closed)
    && (r.outcome == Ok ==> r.after.entries == c.entries + [e])
    && (r.outcome != Ok ==> r == Step(c, Raised(ClosedFileError)))
  }

  // ---------------------------------------------------------------------
  // File name

  /** The file-name rule of the constructor: ".gcode" is appended only when
      the name does not already end with it. */
  function WithGcodeSuffix(outFile: string): (name: string)
    ensures EndsWith(name, GcodeSuffix)
    ensures outFile <= name && |name| <= |outFile| + |GcodeSuffix|
    ensures EndsWith(outFile, GcodeSuffix) ==> name == outFile
    ensures !EndsWith(outFile, GcodeSuffix) ==> name == outFile + GcodeSuffix
  {
    if EndsWith(outFile, GcodeSuffix) then outFile
    else
      var name := outFile + GcodeSuffix;
      assert name[|name| - |GcodeSuffix|..] == GcodeSuffix;
      name
  }

  /** Applying the suffix rule twice is applying it once. */
  lemma WithGcodeSuffixIdempotent(outFile: string)
    ensures WithGcodeSuffix(WithGcodeSuffix(outFile)) == WithGcodeSuffix(outFile)
  {
  }

  /** The text `append` builds from its arguments: their concatenation. */
  function Concat(parts: seq<string>): string {
    if parts == [] then "" else parts[0] + Concat(parts[1..])
  }

  lemma {:induction false} ConcatSnoc(parts: seq<string>, last: string)
    ensures Concat(parts + [last]) == Concat(parts) + last
  {
    if parts == [] {
      assert parts + [last] == [last];
      assert Concat([last]) == last + Concat([]);
    } else {
      assert (parts + [last])[1..] == parts[1..] + [last];
      ConcatSnoc(parts[1..], last);
    }
  }

  lemma {:induction false} ConcatAppend(a: seq<string>, b: seq<string>)
    ensures Concat(a + b) == Concat(a) + Concat(b)
  {
    if a == [] {
      assert a + b == b;
    } else {
      assert (a + b)[1..] == a[1..] + b;
      ConcatAppend(a[1..], b);
    }
  }

  lemma ConcatOne(a: string)
    ensures Concat([a]) == a
  {
    assert [a][1..] == [];
    assert a + "" == a;
  }

  lemma ConcatTwo(a: string, b: string)
    ensures Concat([a, b]) == a + b
  {
    assert [a, b][1..] == [b];
    ConcatOne(b);
  }

  lemma ConcatThree(a: string, b: string, c: string)
    ensures Concat([a, b, c]) == a + b + c
  {
    assert [a, b, c][1..] == [b, c];
    ConcatTwo(b, c);
  }

  // ---------------------------------------------------------------------
  // The bounds check (`__debug`)

  /** The private `__debug` check: skipped on an unsafe cursor; otherwise
      the X checks come before the Y checks, and each tells a coordinate
      below zero from one beyond the bed. */
  function Debug(c: Cursor): (r: Outcome)
    ensures r == Ok <==> c.unsafe || OnBed(c)
    ensures r != Ok ==> r.Raised? && r.error.GcodeCoordinateError?
    ensures !c.unsafe && c.x < 0.0 ==> r == Raised(GcodeCoordinateError(SideMessage(X, Subceed)))
    ensures !c.unsafe && 0.0 <= c.x && c.bedX < c.x ==>
              r == Raised(GcodeCoordinateError(SideMessage(X, Superceed)))
    ensures !c.unsafe && 0.0 <= c.x <= c.bedX && c.y < 0.0 ==>
              r == Raised(GcodeCoordinateError(SideMessage(Y, Subceed)))
    ensures !c.unsafe && 0.0 <= c.x <= c.bedX && 0.0 <= c.y && c.bedY < c.y ==>
              r == Raised(GcodeCoordinateError(SideMessage(Y, Superceed)))
  {
    if c.unsafe then Ok
    else if c.x < 0.0 then Raised(GcodeCoordinateError(XSubceedSideError))
    else if c.x > c.bedX then Raised(GcodeCoordinateError(XSuperceedSideError))
    else if c.y < 0.0 then Raised(GcodeCoordinateError(YSubceedSideError))
    else if c.y > c.bedY then Raised(GcodeCoordinateError(YSuperceedSideError))
    else Ok
  }

  // ---------------------------------------------------------------------
  // Writing

  /** The file object's `write`. */
  function Write(c: Cursor, e: Entry): (r: Step)
    ensures Wrote(c, e, r)
  {
    if c.closed then Step(c, Raised(ClosedFileError))
    else Step(c.(entries := c.entries + [e]), Ok)
  }

  /** `append`: the concatenation of its arguments, written unedited. */
  function AppendStep(c: Cursor, parts: seq<string>): (r: Step)
    ensures Wrote(c, Text(Concat(parts)), r)
  {
    Write(c, Text(Concat(parts)))
  }

  /** `comment`: "; ", the text and the line end. */
  function CommentStep(c: Cursor, text: string, end: string): (r: Step)
    ensures Wrote(c, Text("; " + text + end), r)
  {
    ConcatThree("; ", text, end);
    AppendStep(c, ["; ", text, end])
  }

  /** `newln`: an empty line. */
  function NewlnStep(c: Cursor): (r: Step)
    ensures Wrote(c, Text("\n"), r)
  {
    ConcatOne("\n");
    AppendStep(c, ["\n"])
  }

  /** `home`: the homing command only; the tracked position is untouched. */
  function HomeStep(c: Cursor, end: string): (r: Step)
    ensures Wrote(c, Text("G28" + end), r)
    ensures SamePosition(r.after, c)
  {
    ConcatTwo("G28", end);
    AppendStep(c, ["G28", end])
  }

  /** `pause`: a dwell of `sec` seconds, given to the printer in milliseconds. */
  function PauseStep(c: Cursor, sec: real, end: string): (r: Step)
    ensures Wrote(c, G4(1000.0 * sec, end), r)
  {
    Write(c, G4(sec * 1000.0, end))
  }

  // ---------------------------------------------------------------------
  // Construction

  /** The fixed preamble of every file. */
  function Preamble(fileName: string, initialComment: string, metric: bool): seq<Entry> {
    [ Text("; FLAVOR:Marlin\n"),
      Text("; " + fileName + "\n"),
      Text("; " + initialComment + "\n"),
      Text("G90\n"),
      Text("G29\n"),
      Text("G0 Z1.0 F2000\n"),
      Text(if metric then "G21\n" else "G20\n"),
      Text("G28\n") ]
  }

  /** `__init__`: writes three comments, positioning, levelling, a Z lift,
      the unit system and a homing command through the cursor's own
      operations, then sets the head to (0, 0, 1) with no extrusion yet. */
  function Init(outFile: string, bedX: real, bedY: real, initialComment: string,
                metric: bool, extrusionRatio: real, unsafe: bool): (c: Cursor)
    ensures c.fileName == WithGcodeSuffix(outFile)
    ensures EndsWith(c.fileName, GcodeSuffix) && outFile <= c.fileName
    ensures c.entries == Preamble(c.fileName, initialComment, metric)
    ensures c.x == 0.0 && c.y == 0.0 && c.z == 1.0
    ensures c.extrudeAmount == 0.0 && c.extrusionRatio == extrusionRatio
    ensures c.bedX == bedX && c.bedY == bedY && c.unsafe == unsafe && !c.closed
  {
    var name := WithGcodeSuffix(outFile);
    var c0 := Cursor(name, bedX, bedY, unsafe, 0.0, 0.0, 1.0, 0.0, extrusionRatio, [], false);
    var c1 := CommentStep(c0, "FLAVOR:Marlin", "\n").after;
    var c2 := CommentStep(c1, name, "\n").after;
    var c3 := CommentStep(c2, initialComment, "\n").after;
    var c4 := AppendStep(c3, ["G90\n"]).after;
    var c5 := AppendStep(c4, ["G29\n"]).after;
    var c6 := AppendStep(c5, ["G0 Z1.0 F2000\n"]).after;
    var c7 := AppendStep(c6, [if metric then "G21\n" else "G20\n"]).after;
    var lines := Preamble(name, initialComment, metric);
    assert "; " + "FLAVOR:Marlin" + "\n" == "; FLAVOR:Marlin\n";
    assert c1 == c0.(entries := lines[..1]);
    assert c2 == c0.(entries := lines[..2]);
    assert c3 == c0.(entries := lines[..3]);
    ConcatOne("G90\n");
    assert c4 == c0.(entries := lines[..4]);
    ConcatOne("G29\n");
    assert c5 == c0.(entries := lines[..5]);
    ConcatOne("G0 Z1.0 F2000\n");
    assert c6 == c0.(entries := lines[..6]);
    ConcatOne(if metric then "G21\n" else "G20\n");
    assert c7 == c0.(entries := lines[..7]);
    assert "G28" + "\n" == "G28\n";
    assert lines[..7] + [lines[7]] == lines;
    HomeStep(c7, "\n").after
  }

  // ---------------------------------------------------------------------
  // Settings

  /** `set_extrusion_ratio`: a negative ratio is ignored without error. */
  function SetExtrusionRatioStep(c: Cursor, ratio: real): (r: Cursor)
    ensures 0.0 <= ratio ==> r.extrusionRatio == ratio
    ensures ratio < 0.0 ==> r == c
    ensures r.(extrusionRatio := c.extrusionRatio) == c
    ensures 0.0 <= c.extrusionRatio ==> 0.0 <= r.extrusionRatio
  {
    if !(ratio < 0.0) then c.(extrusionRatio := ratio) else c
  }

  /** `close`: later writes raise; nothing else changes. */
  function CloseStep(c: Cursor): (r: Cursor)
    ensures r.closed && r.(closed := c.closed) == c
  {
    c.(closed := true)
  }

  /** Once closed, every write raises and leaves the cursor as it was. */
  lemma WriteAfterClose(c: Cursor, e: Entry)
    ensures Write(CloseStep(c), e) == Step(CloseStep(c), Raised(ClosedFileError))
  {
  }

  // ---------------------------------------------------------------------
  // Heating

  /** `heat_extruder`: the check raises only for a target below 30 degrees
      on an UNSAFE cursor; otherwise M109 (blocking) or M104 is written. */
  function HeatExtruderStep(c: Cursor, temp: int, halt: bool, end: string): (r: Step)
    ensures r.after.(entries := c.entries) == c
    ensures r.outcome == Raised(GcodeValueError(HeatingMessage(Extruder))) <==> temp < 30 && c.unsafe
    ensures !(temp < 30 && c.unsafe) ==> Wrote(c, if halt then M109(temp, end) else M104(temp, end), r)
    ensures temp < 30 && c.unsafe ==> r.after == c
  {
    if temp < 30 && c.unsafe then Step(c, Raised(GcodeValueError(ExtruderHeatingError)))
    else if halt then Write(c, M109(temp, end))
    else Write(c, M104(temp, end))
  }

  /** `heat_bed`: as `heat_extruder`, with M190 (blocking) or M140 and the
      bed's own message. */
  function HeatBedStep(c: Cursor, temp: int, halt: bool, end: string): (r: Step)
    ensures r.after.(entries := c.entries) == c
    ensures r.outcome == Raised(GcodeValueError(HeatingMessage(Bed))) <==> temp < 30 && c.unsafe
    ensures !(temp < 30 && c.unsafe) ==> Wrote(c, if halt then M190(temp, end) else M140(temp, end), r)
    ensures temp < 30 && c.unsafe ==> r.after == c
  {
    if temp < 30 && c.unsafe then Step(c, Raised(GcodeValueError(BedHeatingError)))
    else if halt then Write(c, M190(temp, end))
    else Write(c, M140(temp, end))
  }

  // ---------------------------------------------------------------------
  // Motion

  /** `move`: a relative move. The deltas are added to the position FIRST,
      then the bounds are checked; an extruding move adds extrusion times
      the ratio to the total and writes G1 with the new total, any other
      writes G0. The feed rate is `speed` times 1000. */
  function MoveStep(c: Cursor, dx: real, dy: real, dz: real, extrusion: real,
                    speed: real, end: string): (r: Step)
    // the position holds the new value whatever happens next
    ensures r.after.x == c.x + dx && r.after.y == c.y + dy && r.after.z == c.z + dz
    ensures r.after.(x := c.x, y := c.y, z := c.z, extrudeAmount := c.extrudeAmount,
                     entries := c.entries) == c
    // a safe cursor only returns normally inside the bed
    ensures r.outcome == Ok <==> (c.unsafe || OnBed(r.after)) && !c.closed
    ensures r.outcome == Ok && !c.unsafe ==> OnBed(r.after)
    // a rejected move writes nothing and extrudes nothing
    ensures r.outcome.Raised? && r.outcome.error.GcodeCoordinateError? <==> !c.unsafe && !OnBed(r.after)
    ensures r.outcome.Raised? && r.outcome.error.GcodeCoordinateError? ==>
              r.outcome == Debug(r.after) && r.after.extrudeAmount == c.extrudeAmount
    ensures r.outcome != Ok ==> r.after.entries == c.entries
    // extrusion accounting
    ensures extrusion == 0.0 ==> r.after.extrudeAmount == c.extrudeAmount
    ensures extrusion != 0.0 && (c.unsafe || OnBed(r.after)) ==>
              r.after.extrudeAmount == c.extrudeAmount + extrusion * c.extrusionRatio
    ensures r.outcome == Ok ==> r.after.extrudeAmount == c.extrudeAmount + extrusion * c.extrusionRatio
    // what a successful move writes
    ensures r.outcome == Ok ==>
              r.after.entries == c.entries +
                [if extrusion == 0.0 then G0(c.x + dx, c.y + dy, c.z + dz, 1000.0 * speed, end)
                 else G1(c.x + dx, c.y + dy, c.z + dz, r.after.extrudeAmount, 1000.0 * speed, end)]
  {
    var moved := c.(x := c.x + dx, y := c.y + dy, z := c.z + dz);
    var check := Debug(moved);
    if check.Raised? then Step(moved, check)
    else if extrusion == 0.0 then
      Write(moved, G0(moved.x, moved.y, moved.z, speed * 1000.0, end))
    else
      var extruded := moved.(extrudeAmount := moved.extrudeAmount + extrusion * moved.extrusionRatio);
      Write(extruded, G1(extruded.x, extruded.y, extruded.z, extruded.extrudeAmount, speed * 1000.0, end))
  }

  /** `move_to`: its coordinates are never read. It checks the CURRENT
      position and writes it again, extruding as `move` does. */
  function MoveToStep(c: Cursor, x: real, y: real, z: real, extrusion: real,
                      speed: real, end: string): (r: Step)
    ensures SamePosition(r.after, c)
    ensures r.after.(extrudeAmount := c.extrudeAmount, entries := c.entries) == c
    ensures r.outcome == Ok <==> (c.unsafe || OnBed(c)) && !c.closed
    ensures r.outcome.Raised? && r.outcome.error.GcodeCoordinateError? <==> !c.unsafe && !OnBed(c)
    ensures r.outcome.Raised? && r.outcome.error.GcodeCoordinateError? ==>
              r == Step(c, Debug(c))
    ensures r.outcome != Ok ==> r.after.entries == c.entries
    ensures extrusion == 0.0 ==> r.after.extrudeAmount == c.extrudeAmount
    ensures extrusion != 0.0 && (c.unsafe || OnBed(c)) ==>
              r.after.extrudeAmount == c.extrudeAmount + extrusion * c.extrusionRatio
    ensures r.outcome == Ok ==>
              r.after.entries == c.entries +
                [if extrusion == 0.0 then G0(c.x, c.y, c.z, 1000.0 * speed, end)
                 else G1(c.x, c.y, c.z, r.after.extrudeAmount, 1000.0 * speed, end)]
  {
    var check := Debug(c);
    if check.Raised? then Step(c, check)
    else if extrusion == 0.0 then
      Write(c, G0(c.x, c.y, c.z, speed * 1000.0, end))
    else
      var extruded := c.(extrudeAmount := c.extrudeAmount + extrusion * c.extrusionRatio);
      Write(extruded, G1(extruded.x, extruded.y, extruded.z, extruded.extrudeAmount, speed * 1000.0, end))
  }

  /** The arguments of one `move` call. */
  datatype Motion = Motion(dx: real, dy: real, dz: real, extrusion: real, speed: real, end: string)

  /** A run of `move` calls, stopping at the first that raises, as a
      caller's straight-line code does. */
  function MoveAll(c: Cursor, motions: seq<Motion>): (r: Step)
    decreases |motions|
    ensures r.after.(x := c.x, y := c.y, z := c.z, extrudeAmount := c.extrudeAmount,
                     entries := c.entries) == c
    ensures c.entries <= r.after.entries
    ensures r.outcome == Ok ==> |r.after.entries| == |c.entries| + |motions|
  {
    if motions == [] then Step(c, Ok)
    else
      var m := motions[0];
      var s := MoveStep(c, m.dx, m.dy, m.dz, m.extrusion, m.speed, m.end);
      if s.outcome.Raised? then s else MoveAll(s.after, motions[1..])
  }

  /** Moves on an unsafe cursor with an open file never raise. */
  lemma {:induction false} MoveAllUnsafe(c: Cursor, motions: seq<Motion>)
    requires c.unsafe && !c.closed
    ensures MoveAll(c, motions).outcome == Ok
    decreases |motions|
  {
    if motions != [] {
      var m := motions[0];
      MoveAllUnsafe(MoveStep(c, m.dx, m.dy, m.dz, m.extrusion, m.speed, m.end).after, motions[1..]);
    }
  }

  /** `center`: a RELATIVE move by half the bed in X and Y, at speed 15. */
  function CenterStep(c: Cursor): (r: Step)
    ensures r.after.x == c.x + c.bedX / 2.0 && r.after.y == c.y + c.bedY / 2.0 && r.after.z == c.z
    ensures r.after.extrudeAmount == c.extrudeAmount
    ensures r.outcome == Ok <==> (c.unsafe || OnBed(r.after)) && !c.closed
    ensures r.outcome == Ok ==> r.after.entries == c.entries + [G0(r.after.x, r.after.y, c.z, 15000.0, "\n")]
  {
    MoveStep(c, c.bedX / 2.0, c.bedY / 2.0, 0.0, 0.0, 15.0, "\n")
  }

  /** From the origin, `center` reaches the middle of the bed; from there a
      second call reaches the far corner, since the move is relative. */
  lemma CenterFromOrigin(c: Cursor)
    requires c.x == 0.0 && c.y == 0.0 && 0.0 <= c.bedX && 0.0 <= c.bedY && !c.closed
    ensures CenterStep(c).outcome == Ok
    ensures CenterStep(c).after.x == c.bedX / 2.0 && CenterStep(c).after.y == c.bedY / 2.0
    ensures CenterStep(CenterStep(c).after).outcome == Ok
    ensures CenterStep(CenterStep(c).after).after.x == c.bedX
    ensures CenterStep(CenterStep(c).after).after.y == c.bedY
  {
  }

  predicate CenterOnBed(c: Cursor, arcX: real, arcY: real) {
    0.0 <= arcX <= c.bedX && 0.0 <= arcY <= c.bedY
  }

  /** `clockwise_arc`. A safe cursor first rejects a centre off the bed,
      changing nothing. Then (x, y) is added to the position, the bounds
      are checked, and the total grows by extrusion times the ratio; the
      line it would write reads the unassigned `extrude_amount` attribute,
      so the call always raises and never writes. */
  function ClockwiseArcStep(c: Cursor, x: real, y: real, arcX: real, arcY: real,
                            extrusion: real, speed: real, end: string): (r: Step)
    ensures r.outcome.Raised? && r.after.entries == c.entries
    ensures r.after.(x := c.x, y := c.y, extrudeAmount := c.extrudeAmount) == c
    ensures !c.unsafe && !CenterOnBed(c, arcX, arcY) ==>
              r == Step(c, Raised(GcodeCoordinateError(ArcCenterError)))
    ensures (c.unsafe || CenterOnBed(c, arcX, arcY)) ==>
              r.after.x == c.x + x && r.after.y == c.y + y
    ensures (c.unsafe || CenterOnBed(c, arcX, arcY)) && !(c.unsafe || OnBed(r.after)) ==>
              r.outcome == Debug(r.after) && r.after.extrudeAmount == c.extrudeAmount
    ensures (c.unsafe || CenterOnBed(c, arcX, arcY)) && (c.unsafe || OnBed(r.after)) ==>
              r.outcome == Raised(AttributeError(UnassignedAttribute)) &&
              r.after.extrudeAmount == c.extrudeAmount + extrusion * c.extrusionRatio
  {
    if !c.unsafe && !CenterOnBed(c, arcX, arcY) then
      Step(c, Raised(GcodeCoordinateError(ArcCenterError)))
    else
      var moved := c.(x := c.x + x, y := c.y + y);
      var check := Debug(moved);
      if check.Raised? then Step(moved, check)
      else
        var extruded := moved.(extrudeAmount := moved.extrudeAmount + extrusion * moved.extrusionRatio);
        Step(extruded, Raised(AttributeError(UnassignedAttribute)))
  }

  /** `counter_clockwise_arc`: as the clockwise arc, except that the
      unassigned attribute is read while adding to it, so the total is
      never changed. */
  function CounterClockwiseArcStep(c: Cursor, x: real, y: real, arcX: real, arcY: real,
                                   extrusion: real, speed: real, end: string): (r: Step)
    ensures r.outcome.Raised? && r.after.entries == c.entries
    ensures r.after.(x := c.x, y := c.y) == c
    ensures !c.unsafe && !CenterOnBed(c, arcX, arcY) ==>
              r == Step(c, Raised(GcodeCoordinateError(ArcCenterError)))
    ensures (c.unsafe || CenterOnBed(c, arcX, arcY)) ==>
              r.after.x == c.x + x && r.after.y == c.y + y
    ensures (c.unsafe || CenterOnBed(c, arcX, arcY)) && !(c.unsafe || OnBed(r.after)) ==>
              r.outcome == Debug(r.after)
    ensures (c.unsafe || CenterOnBed(c, arcX, arcY)) && (c.unsafe || OnBed(r.after)) ==>
              r.outcome == Raised(AttributeError(UnassignedAttribute))
  {
    if !c.unsafe && !CenterOnBed(c, arcX, arcY) then
      Step(c, Raised(GcodeCoordinateError(ArcCenterError)))
    else
      var moved := c.(x := c.x + x, y := c.y + y);
      var check := Debug(moved);
      if check.Raised? then Step(moved, check)
      else Step(moved, Raised(AttributeError(UnassignedAttribute)))
  }

  /** The two arcs run the same checks and fail the same way at the same
      position; they differ only in whether the total was increased before
      the failure. */
  lemma ArcsDifferOnlyInTotal(c: Cursor, x: real, y: real, arcX: real, arcY: real,
                              extrusion: real, speed: real, end: string)
    ensures var cw := ClockwiseArcStep(c, x, y, arcX, arcY, extrusion, speed, end);
      var ccw := CounterClockwiseArcStep(c, x, y, arcX, arcY, extrusion, speed, end);
      && cw.outcome == ccw.outcome
      && cw.after.(extrudeAmount := c.extrudeAmount) == ccw.after
      && ccw.after.extrudeAmount == c.extrudeAmount
  {
  }

  /** The total is not monotone: an accepted move with a negative extrusion
      and a positive ratio lowers it, and so does a positive extrusion under
      a negative ratio given to the constructor. */
  lemma ExtrusionCanDecrease(c: Cursor, dx: real, dy: real, dz: real, extrusion: real,
                             speed: real, end: string)
    requires MoveStep(c, dx, dy, dz, extrusion, speed, end).outcome == Ok
    requires (extrusion < 0.0 && 0.0 < c.extrusionRatio) || (0.0 < extrusion && c.extrusionRatio < 0.0)
    ensures MoveStep(c, dx, dy, dz, extrusion, speed, end).after.extrudeAmount < c.extrudeAmount
  {
    assert extrusion * c.extrusionRatio < 0.0;
  }

  // ---------------------------------------------------------------------
  // The library's documented uses, as the code behaves

  /** On a safe 235 x 235 bed at the constructor's start state, a move by
      40 in X extruding 10 reaches (40, 0, 1) and writes G1 with total 10.
      A further move by 250 in X is rejected as leaving the bed on the far
      X side, but the position has already become (290, 0, 1) and stays
      there, since `move` updates it before the check. */
  lemma MoveThenOverflow(c: Cursor)
    requires c.x == 0.0 && c.y == 0.0 && c.z == 1.0 && c.extrudeAmount == 0.0
    requires c.extrusionRatio == 1.0 && c.bedX == 235.0 && c.bedY == 235.0
    requires !c.unsafe && !c.closed
    ensures var s1 := MoveStep(c, 40.0, 0.0, 0.0, 10.0, 5.0, "\n");
      && s1.outcome == Ok
      && s1.after.x == 40.0 && s1.after.y == 0.0 && s1.after.z == 1.0
      && s1.after.extrudeAmount == 10.0
      && s1.after.entries == c.entries + [G1(40.0, 0.0, 1.0, 10.0, 5000.0, "\n")]
    ensures var s1 := MoveStep(c, 40.0, 0.0, 0.0, 10.0, 5.0, "\n");
      var s2 := MoveStep(s1.after, 250.0, 0.0, 0.0, 0.0, 5.0, "\n");
      && s2.outcome == Raised(GcodeCoordinateError(XSuperceedSideError))
      && s2.after.x == 290.0 && s2.after.entries == s1.after.entries
  {
    var s1 := MoveStep(c, 40.0, 0.0, 0.0, 10.0, 5.0, "\n");
    assert OnBed(s1.after);
    var s2 := MoveStep(s1.after, 250.0, 0.0, 0.0, 0.0, 5.0, "\n");
    assert !OnBed(s2.after) && s2.outcome == Debug(s2.after);
  }

  /** Heating the bed to 20 degrees succeeds on a safe cursor, writing M190,
      and raises on an unsafe one: the guard is the reverse of the safety
      setting's documented meaning. */
  lemma ColdBedHeating(c: Cursor)
    requires !c.closed
    ensures !c.unsafe ==> HeatBedStep(c, 20, true, "\n") == Step(c.(entries := c.entries + [M190(20, "\n")]), Ok)
    ensures c.unsafe ==> HeatBedStep(c, 20, true, "\n") == Step(c, Raised(GcodeValueError(BedHeatingError)))
  {
  }
}
