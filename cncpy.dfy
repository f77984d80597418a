/** `GcodeCursor` (src/CNCPy/__init__.py:22-306): a G-code writer for a
    Marlin printer that tracks the head position and the extrusion total as
    it writes. Each method changes the cursor's fields in place, as the
    source does, and is proved to leave the cursor in the state the
    corresponding function of `CursorModel` gives. */
module CNCPy {
  import opened Exceptions
  import opened CursorModel

  /** The loop of `append`: the text of the arguments, one after another. */
  method Join(parts: seq<string>) returns (data: string)
    ensures data == Concat(parts)
  {
    data := "";
    for i := 0 to |parts|
      invariant data == Concat(parts[..i])
    {
      ConcatSnoc(parts[..i], parts[i]);
      assert parts[..i + 1] == parts[..i] + [parts[i]];
      data := data + parts[i];
    }
    assert parts[..|parts|] == parts;
  }

  class GcodeCursor {
    const fileName: string
    const bedX: real
    const bedY: real
    const unsafe: bool

    var x: real
    var y: real
    var z: real
    var extrudeAmount: real
    var extrusionRatio: real

    /** The output file, record by record, and whether it was closed. */
    var entries: seq<Entry>
    var closed: bool

    /** The cursor's state as a value. */
    function Model(): Cursor
      reads this
    {
      Cursor(fileName, bedX, bedY, unsafe, x, y, z, extrudeAmount, extrusionRatio, entries, closed)
    }

    /** `__init__`: opens the file under its suffixed name, writes the
        preamble and starts at (0, 0, 1) with nothing extruded. */
    constructor (outFile: string, bedX: real := 235.0, bedY: real := 235.0,
                 nameonly initialComment: string := "Made with CNCPy",
                 nameonly metric: bool := true, nameonly extrusionRatio: real := 1.0,
                 nameonly unsafe: bool := false)
      ensures Model() == Init(outFile, bedX, bedY, initialComment, metric, extrusionRatio, unsafe)
    {
      var name := WithGcodeSuffix(outFile);
      fileName := name;
      this.bedX := bedX;
      this.bedY := bedY;
      this.unsafe := unsafe;
      entries := [];
      closed := false;
      x, y, z := 0.0, 0.0, 1.0;
      extrudeAmount := 0.0;
      this.extrusionRatio := extrusionRatio;
      new;
      var r: Outcome;
      r := Comment("FLAVOR:Marlin");
      r := Comment(name);
      r := Comment(initialComment);
      r := Append(["G90\n"]);
      r := Append(["G29\n"]);
      r := Append(["G0 Z1.0 F2000\n"]);
      if metric {
        r := Append(["G21\n"]);
      } else {
        r := Append(["G20\n"]);
      }
      r := Home();
    }

    function GetX(): real
      reads this
    {
      x
    }

    function GetY(): real
      reads this
    {
      y
    }

    function GetZ(): real
      reads this
    {
      z
    }

    /** The file object's `write`, which raises once the file is closed. */
    method WriteEntry(e: Entry) returns (r: Outcome)
      modifies this
      ensures Model() == Write(old(Model()), e).after && r == Write(old(Model()), e).outcome
    {
      if closed {
        r := Raised(ClosedFileError);
      } else {
        entries := entries + [e];
        r := Ok;
      }
    }

    method Append(parts: seq<string>) returns (r: Outcome)
      modifies this
      ensures Model() == AppendStep(old(Model()), parts).after
      ensures r == AppendStep(old(Model()), parts).outcome
    {
      var data := Join(parts);
      r := WriteEntry(Text(data));
    }

    method Comment(text: string, end: string := "\n") returns (r: Outcome)
      modifies this
      ensures Model() == CommentStep(old(Model()), text, end).after
      ensures r == CommentStep(old(Model()), text, end).outcome
    {
      r := Append(["; ", text, end]);
    }

    method Newln() returns (r: Outcome)
      modifies this
      ensures Model() == NewlnStep(old(Model())).after && r == NewlnStep(old(Model())).outcome
    {
      r := Append(["\n"]);
    }

    method Home(end: string := "\n") returns (r: Outcome)
      modifies this
      ensures Model() == HomeStep(old(Model()), end).after && r == HomeStep(old(Model()), end).outcome
    {
      r := Append(["G28", end]);
    }

    method Center() returns (r: Outcome)
      modifies this
      ensures Model() == CenterStep(old(Model())).after && r == CenterStep(old(Model())).outcome
    {
      r := Move(bedX / 2.0, bedY / 2.0, speed := 15.0);
    }

    method Pause(sec: real, end: string := "\n") returns (r: Outcome)
      modifies this
      ensures Model() == PauseStep(old(Model()), sec, end).after
      ensures r == PauseStep(old(Model()), sec, end).outcome
    {
      r := WriteEntry(G4(sec * 1000.0, end));
    }

    method HeatExtruder(temp: int, halt: bool := true, end: string := "\n") returns (r: Outcome)
      modifies this
      ensures Model() == HeatExtruderStep(old(Model()), temp, halt, end).after
      ensures r == HeatExtruderStep(old(Model()), temp, halt, end).outcome
    {
      if temp < 30 && unsafe {
        return Raised(GcodeValueError(ExtruderHeatingError));
      }
      if halt {
        r := WriteEntry(M109(temp, end));
      } else {
        r := WriteEntry(M104(temp, end));
      }
    }

    method HeatBed(temp: int, halt: bool := true, end: string := "\n") returns (r: Outcome)
      modifies this
      ensures Model() == HeatBedStep(old(Model()), temp, halt, end).after
      ensures r == HeatBedStep(old(Model()), temp, halt, end).outcome
    {
      if temp < 30 && unsafe {
        return Raised(GcodeValueError(BedHeatingError));
      }
      if halt {
        r := WriteEntry(M190(temp, end));
      } else {
        r := WriteEntry(M140(temp, end));
      }
    }

    method SetExtrusionRatio(ratio: real)
      modifies this
      ensures Model() == SetExtrusionRatioStep(old(Model()), ratio)
    {
      if !(ratio < 0.0) {
        extrusionRatio := ratio;
      }
    }

    method Move(dx: real := 0.0, dy: real := 0.0, dz: real := 0.0, nameonly extrusion: real := 0.0,
                nameonly speed: real := 5.0, nameonly end: string := "\n")
      returns (r: Outcome)
      modifies this
      ensures Model() == MoveStep(old(Model()), dx, dy, dz, extrusion, speed, end).after
      ensures r == MoveStep(old(Model()), dx, dy, dz, extrusion, speed, end).outcome
    {
      ghost var spec := MoveStep(Model(), dx, dy, dz, extrusion, speed, end);
      x := x + dx;
      y := y + dy;
      z := z + dz;
      r := Debug(Model());
      if r.Raised? {
        assert spec == Step(Model(), r);
        return;
      }
      if extrusion == 0.0 {
        assert spec == Write(Model(), G0(x, y, z, speed * 1000.0, end));
        r := WriteEntry(G0(x, y, z, speed * 1000.0, end));
      } else {
        extrudeAmount := extrudeAmount + extrusion * extrusionRatio;
        assert spec == Write(Model(), G1(x, y, z, extrudeAmount, speed * 1000.0, end));
        r := WriteEntry(G1(x, y, z, extrudeAmount, speed * 1000.0, end));
      }
    }

    /** `move_to`: the target coordinates are accepted and ignored. */
    method MoveTo(toX: real, toY: real, toZ: real, nameonly extrusion: real := 0.0,
                  nameonly speed: real := 5.0, nameonly end: string := "\n")
      returns (r: Outcome)
      modifies this
      ensures Model() == MoveToStep(old(Model()), toX, toY, toZ, extrusion, speed, end).after
      ensures r == MoveToStep(old(Model()), toX, toY, toZ, extrusion, speed, end).outcome
    {
      ghost var c := Model();
      ghost var spec := MoveToStep(c, toX, toY, toZ, extrusion, speed, end);
      r := Debug(Model());
      if r.Raised? {
        assert spec == Step(c, r);
        return;
      }
      if extrusion == 0.0 {
        assert spec == Write(c, G0(x, y, z, speed * 1000.0, end));
        r := WriteEntry(G0(x, y, z, speed * 1000.0, end));
      } else {
        extrudeAmount := extrudeAmount + extrusion * extrusionRatio;
        assert spec == Write(Model(), G1(x, y, z, extrudeAmount, speed * 1000.0, end));
        r := WriteEntry(G1(x, y, z, extrudeAmount, speed * 1000.0, end));
      }
    }

    method ClockwiseArc(nameonly dx: real, nameonly dy: real, nameonly arcX: real,
                        nameonly arcY: real, nameonly extrusion: real := 0.0,
                        nameonly speed: real := 5.0, nameonly end: string := "\n")
      returns (r: Outcome)
      modifies this
      ensures Model() == ClockwiseArcStep(old(Model()), dx, dy, arcX, arcY, extrusion, speed, end).after
      ensures r == ClockwiseArcStep(old(Model()), dx, dy, arcX, arcY, extrusion, speed, end).outcome
    {
      if !unsafe && !CenterOnBed(Model(), arcX, arcY) {
        return Raised(GcodeCoordinateError(ArcCenterError));
      }
      x := x + dx;
      y := y + dy;
      r := Debug(Model());
      if r.Raised? {
        return;
      }
      extrudeAmount := extrudeAmount + extrusion * extrusionRatio;
      // building the G2 line reads the never-assigned `extrude_amount`
      r := Raised(AttributeError(UnassignedAttribute));
    }

    method CounterClockwiseArc(nameonly dx: real, nameonly dy: real, nameonly arcX: real,
                               nameonly arcY: real, nameonly extrusion: real := 0.0,
                               nameonly speed: real := 5.0, nameonly end: string := "\n")
      returns (r: Outcome)
      modifies this
      ensures Model() == CounterClockwiseArcStep(old(Model()), dx, dy, arcX, arcY, extrusion, speed, end).after
      ensures r == CounterClockwiseArcStep(old(Model()), dx, dy, arcX, arcY, extrusion, speed, end).outcome
    {
      if !unsafe && !CenterOnBed(Model(), arcX, arcY) {
        return Raised(GcodeCoordinateError(ArcCenterError));
      }
      x := x + dx;
      y := y + dy;
      r := Debug(Model());
      if r.Raised? {
        return;
      }
      // adding to the never-assigned `extrude_amount` reads it first
      r := Raised(AttributeError(UnassignedAttribute));
    }

    method Close()
      modifies this
      ensures Model() == CloseStep(old(Model()))
    {
      closed := true;
    }
  }
}
