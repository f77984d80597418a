# CNCPy in Dafny

A verified model of the core of CNCPy, a Python library that writes `.gcode`
files for a Marlin-flavoured 3D printer. The centre of the library is
`GcodeCursor`. It opens an output file, writes a fixed preamble and then one
line per command (comments, moves, arcs, heating, pauses, homing). While it
writes, it tracks the head position, the cumulative extrusion total and the
extrusion ratio, and it checks coordinates against the bed size unless the
cursor was built `unsafe`. Around it the model covers the `lattice` premade
(a zig-zag loop over a cursor), the unit and temperature conversions, and the
library's exception kinds and messages.

The model follows the code as written, including where it departs from what
its docstrings and design describe:

- the heating checks raise only for a target below 30 degrees on an *unsafe*
  cursor, so a safe cursor heats to any temperature;
- `move` adds the deltas to the position before the bounds check, so a
  rejected move leaves the position changed, writes nothing and extrudes
  nothing;
- `move_to` never reads its coordinates: it re-checks and re-writes the
  current position;
- `center` is a relative move by half the bed, at speed 15;
- `home` writes `G28` and does not reset the tracked position;
- both arcs read the never-assigned attribute `extrude_amount`, so an arc
  that passes its centre and bounds checks raises `AttributeError` and
  writes nothing; the clockwise arc has already moved the position and
  increased the total by then, the counter-clockwise arc has only moved the
  position;
- the extrusion total can go down (a negative extrusion, or a negative ratio
  given to the constructor).

Layout:

- `exceptions.dfy` — module `Exceptions`: the error kinds, the six verbatim
  messages, and `Outcome` (return normally or raise an error).
- `converting.dfy` — module `Converting`: the six conversions over `real`.
- `cursor_model.dfy` — module `CursorModel`: the cursor's state as a value
  (`Cursor`), the output file as a sequence of records (`Entry`), and one
  function per cursor operation giving the state after the call and its
  outcome; the bounds check, the file-name rule and the preamble.
- `cncpy.dfy` — module `CNCPy`: the class `GcodeCursor`, whose fields the
  methods update in place, each proved to reach the state the matching
  `CursorModel` function gives; `Join` is the loop of `append`.
- `lattice.dfy` — module `Lattice`: the premade as a `while` loop on a
  cursor, proved against `LatticeStep`, and the per-pass and whole-loop
  properties.

Text that `append` writes from strings is kept as `Text` records; lines that
carry numbers (`G0`, `G1`, `G4`, `M104`, `M109`, `M140`, `M190`) are kept as
structured records of their numbers and their line end. Writing to a closed
file raises `ClosedFileError`; an arc that passes its checks raises
`AttributeError`.

The methods of `GcodeCursor` take the library's default arguments, and its
keyword-only parameters are `nameonly`: the constructor's bed is 235 x 235,
its comment "Made with CNCPy", metric units, ratio 1 and a safe cursor;
moves default to zero deltas, no extrusion, speed 5 and a newline end;
heating halts by default. The arcs name their relative target `dx` and `dy`
(the source's `x` and `y`), since `x` and `y` are the cursor's fields. The
`CursorModel` functions take every argument explicitly.

## Model

| member | source | states |
|---|---|---|
| Exceptions.HeatingMessage | src/CNCPy/Exceptions.py:21-22 | the message ends with the 30-degree threshold and opens with "Extruder" exactly for the extruder and with "Bed" exactly for the bed |
| Exceptions.SideMessage | src/CNCPy/Exceptions.py:23-26 | the message opens with the axis letter and " has ", ends with " bed size.", and goes on with "subceeded" exactly for a coordinate below zero and with "superceede" exactly for one beyond the bed |
| Exceptions.HeatingMessagesDistinct | src/CNCPy/Exceptions.py:21-22 | the two heating messages are equal exactly when the zones are equal |
| Exceptions.SideMessagesDistinct | src/CNCPy/Exceptions.py:23-26 | the four coordinate messages are pairwise distinct: equal messages iff same axis and same side |
| Exceptions.YOverflowMessageMisspelled | src/CNCPy/Exceptions.py:23-26 | the Y-overflow message is not the X one with its letter changed (it is one character shorter), while the underflow pair differs only in the letter |
| Converting.MmToIn | src/CNCPy/Converting.py:6-7 | maps 0 exactly to 0 and shrinks non-negative lengths |
| Converting.CmToIn | src/CNCPy/Converting.py:9-10 | is ten times `mm_to_in`; maps 0 exactly to 0 |
| Converting.InToMm | src/CNCPy/Converting.py:12-13 | maps 0 exactly to 0; as written it shrinks non-negative lengths (see Findings) |
| Converting.InToCm | src/CNCPy/Converting.py:15-16 | is ten times `in_to_mm`; maps 0 exactly to 0 |
| Converting.FarenheitToCelsius | src/CNCPy/Converting.py:18-19 | 32 F is 0 C and 212 F is 100 C |
| Converting.CelsiusToFarenheit | src/CNCPy/Converting.py:21-22 | 0 C is 32 F and 100 C is 212 F |
| Converting.TemperatureRoundTrip | src/CNCPy/Converting.py:18-22 | the two temperature conversions are inverse to each other, both ways round |
| Converting.ConversionsMonotone | src/CNCPy/Converting.py:6-22 | all six conversions preserve order |
| Converting.LengthRoundTripsInexact | src/CNCPy/Converting.py:6-16 | length round trips scale by 0.99822 (cm) or 0.0099822 (mm), so they lose every non-zero length |
| Converting.InToMmIntended | src/CNCPy/Converting.py:12-13 | with 25.4 mm per inch, `in_to_cm` is a tenth of it, `mm_to_in` undoes it up to the same 0.99822 as the cm pair, and lengths grow |
| Converting.InToMmOffByHundred | src/CNCPy/Converting.py:12-13 | `in_to_mm(1)` is 0.254, a hundredth of 25.4; it disagrees with `in_to_cm` and an inch round trip returns 0.0099822 in |
| CursorModel.WithGcodeSuffix | src/CNCPy/__init__.py:47-49 | the stored name ends with ".gcode"; it is the given name when that already ends with it, and the given name followed by ".gcode" otherwise |
| CursorModel.WithGcodeSuffixIdempotent | src/CNCPy/__init__.py:47-49 | applying the suffix rule twice is applying it once |
| CursorModel.ConcatSnoc | src/CNCPy/__init__.py:102-104 | the text of the arguments plus one more is the old text followed by it |
| CursorModel.ConcatAppend | src/CNCPy/__init__.py:102-104 | the text of two argument lists run together is the two texts run together |
| CNCPy.Join | src/CNCPy/__init__.py:102-104 | the loop of `append` builds the concatenation of its arguments |
| CursorModel.Debug | src/CNCPy/__init__.py:158-174 | returns normally iff the cursor is unsafe or the head is on the bed; otherwise a coordinate error, X checked before Y, below zero told from beyond the bed, with the matching message |
| CursorModel.Write | src/CNCPy/__init__.py:105 | an open file gains exactly the record; a closed one raises and nothing changes |
| CursorModel.AppendStep | src/CNCPy/__init__.py:98-105 | writes one text record, the concatenation of the arguments, and changes nothing else |
| CursorModel.CommentStep | src/CNCPy/__init__.py:92-96 | writes "; ", the text and the line end as one record and changes nothing else |
| CursorModel.NewlnStep | src/CNCPy/__init__.py:107-108 | writes one empty line and changes nothing else |
| CursorModel.HomeStep | src/CNCPy/__init__.py:110-114 | writes `G28` and the line end; position, total and ratio are unchanged |
| CursorModel.PauseStep | src/CNCPy/__init__.py:122-126 | writes a `G4` dwell of 1000 times the seconds and changes nothing else |
| CursorModel.Init | src/CNCPy/__init__.py:34-81 | the file is named by the suffix rule and holds the eight preamble lines in order (G21 or G20 by `metric`); head at (0, 0, 1), total 0, ratio and settings as given, file open |
| CursorModel.SetExtrusionRatioStep | src/CNCPy/__init__.py:176-181 | a non-negative ratio is set; a negative one changes nothing; nothing but the ratio ever changes, and a non-negative ratio stays non-negative |
| CursorModel.CloseStep | src/CNCPy/__init__.py:301-306 | the file is closed and nothing else changes |
| CursorModel.WriteAfterClose | src/CNCPy/__init__.py:301-306 | after `close`, every write raises and changes nothing |
| CursorModel.HeatExtruderStep | src/CNCPy/__init__.py:128-141 | raises the extruder heating error iff the target is below 30 and the cursor is unsafe, changing nothing; otherwise writes M109 (halt) or M104 with the target; position, total and ratio never change |
| CursorModel.HeatBedStep | src/CNCPy/__init__.py:143-156 | the same with M190 or M140 and the bed's message |
| CursorModel.MoveStep | src/CNCPy/__init__.py:183-213 | the position becomes old plus deltas whatever happens; returns normally iff (unsafe or on the bed) and the file is open; a rejected move raises the bounds check's error, writes nothing and keeps the total; the total grows by extrusion times ratio; G0 (no extrusion) or G1 with the new total is written at speed times 1000 |
| CursorModel.MoveToStep | src/CNCPy/__init__.py:215-240 | the position never changes whatever the arguments; the current position is checked and written again, as G0 or as G1 with the total grown by extrusion times ratio |
| CursorModel.MoveAll | src/CNCPy/__init__.py:183-213 | a run of moves stopping at the first that raises changes only position, total and output, and writes one line per move when all return |
| CursorModel.MoveAllUnsafe | src/CNCPy/__init__.py:158-164 | moves on an unsafe cursor with an open file never raise |
| CursorModel.ExtrusionCanDecrease | src/CNCPy/__init__.py:207-213 | an accepted move with extrusion and ratio of opposite signs lowers the total |
| CursorModel.MoveThenOverflow | src/CNCPy/__init__.py:183-213 | on a safe 235 x 235 bed, a move by 40 extruding 10 reaches (40, 0, 1) and writes G1 with total 10; a further move by 250 raises the X-overflow error with the position already at 290 |
| CursorModel.ColdBedHeating | src/CNCPy/__init__.py:143-156 | heating the bed to 20 succeeds and writes M190 on a safe cursor, and raises on an unsafe one |
| CursorModel.CenterStep | src/CNCPy/__init__.py:116-120 | moves by half the bed in X and Y relative to the current position, writes G0 at speed 15000, extrudes nothing |
| CursorModel.CenterFromOrigin | src/CNCPy/__init__.py:116-120 | from the origin `center` reaches the middle of the bed, and a second call reaches the far corner |
| CursorModel.ClockwiseArcStep | src/CNCPy/__init__.py:242-269 | always raises and never writes; a safe cursor rejects a centre off the bed with nothing changed; otherwise the position moves by (x, y), then a bounds failure raises with the total kept, else the total grows by extrusion times ratio before the attribute error |
| CursorModel.CounterClockwiseArcStep | src/CNCPy/__init__.py:271-299 | always raises and never writes; the same centre and bounds checks; the position moves but the total never changes |
| CursorModel.ArcsDifferOnlyInTotal | src/CNCPy/__init__.py:242-299 | both arcs give the same outcome and the same state except for the total, which only the clockwise arc changes |
| CNCPy.GcodeCursor.constructor | src/CNCPy/__init__.py:34-81 | the new cursor's state is `Init` of the arguments |
| CNCPy.GcodeCursor.WriteEntry | src/CNCPy/__init__.py:105 | updates the cursor in place as `Write` |
| CNCPy.GcodeCursor.Append | src/CNCPy/__init__.py:98-105 | updates the cursor in place as `AppendStep` |
| CNCPy.GcodeCursor.Comment | src/CNCPy/__init__.py:92-96 | updates the cursor in place as `CommentStep` |
| CNCPy.GcodeCursor.Newln | src/CNCPy/__init__.py:107-108 | updates the cursor in place as `NewlnStep` |
| CNCPy.GcodeCursor.Home | src/CNCPy/__init__.py:110-114 | updates the cursor in place as `HomeStep` |
| CNCPy.GcodeCursor.Center | src/CNCPy/__init__.py:116-120 | updates the cursor in place as `CenterStep` |
| CNCPy.GcodeCursor.Pause | src/CNCPy/__init__.py:122-126 | updates the cursor in place as `PauseStep` |
| CNCPy.GcodeCursor.HeatExtruder | src/CNCPy/__init__.py:128-141 | updates the cursor in place as `HeatExtruderStep` |
| CNCPy.GcodeCursor.HeatBed | src/CNCPy/__init__.py:143-156 | updates the cursor in place as `HeatBedStep` |
| CNCPy.GcodeCursor.SetExtrusionRatio | src/CNCPy/__init__.py:176-181 | updates the cursor in place as `SetExtrusionRatioStep` |
| CNCPy.GcodeCursor.Move | src/CNCPy/__init__.py:183-213 | updates the cursor in place as `MoveStep`: position first, then the check, then the total and the write |
| CNCPy.GcodeCursor.MoveTo | src/CNCPy/__init__.py:215-240 | updates the cursor in place as `MoveToStep` |
| CNCPy.GcodeCursor.ClockwiseArc | src/CNCPy/__init__.py:242-269 | updates the cursor in place as `ClockwiseArcStep` |
| CNCPy.GcodeCursor.CounterClockwiseArc | src/CNCPy/__init__.py:271-299 | updates the cursor in place as `CounterClockwiseArcStep` |
| CNCPy.GcodeCursor.Close | src/CNCPy/__init__.py:301-306 | updates the cursor in place as `CloseStep` |
| Lattice.Remaining | src/CNCPy/premades/lattice.py:22-26 | no passes once y >= y2; otherwise the least n >= 1 with y + 6n >= y2, the ceiling of (y2 - y) / 6 |
| Lattice.RemainingStep | src/CNCPy/premades/lattice.py:22-26 | a pass started below y2 leaves exactly one pass fewer: the loop's termination measure |
| Lattice.PassStep | src/CNCPy/premades/lattice.py:23-26 | a pass never moves Z and changes only position, total and output; one that returns brings X back, raises Y by 6, adds (2 * width + 6) times the ratio to the total and writes four lines |
| Lattice.PassWrites | src/CNCPy/premades/lattice.py:23-26 | the four lines of a pass that returns are the zig-zag's corners (x + width, y), (x + width, y + 3), (x, y + 3), (x, y + 6) at the cursor's Z and F5000, each a G1 with the running total (grown by width, 3, width, 3 times the ratio), except that a crossing of width 0 is a G0 |
| Lattice.LoopStep | src/CNCPy/premades/lattice.py:22-26 | the loop never moves Z, changes only position, total and output, and only appends to the file |
| Lattice.LatticeStep | src/CNCPy/premades/lattice.py:6-27 | the premade never moves Z and changes only position, total and output |
| Lattice.TimesIsProduct | src/CNCPy/premades/lattice.py:22-26 | n passes of the same amount add n times that amount |
| Lattice.LoopPasses | src/CNCPy/premades/lattice.py:22-26 | a loop that returns made exactly `Remaining` passes: X back where it started, Y up 6 per pass and at least y2, four lines per pass |
| Lattice.LoopExtrusion | src/CNCPy/premades/lattice.py:17-26 | a loop that returns added one pass's extrusion per pass to the total |
| Lattice.LoopWrites | src/CNCPy/premades/lattice.py:22-26 | a loop that returns wrote the lines of its passes one after another, each pass starting 6 higher than the last and carrying on the running total |
| Lattice.LoopSucceeds | src/CNCPy/premades/lattice.py:22-26 | the loop returns on an unsafe open cursor, and on a safe open one whose two X columns are on the bed, whose starting Y is not below zero, and whose highest Y, the start plus 6 per pass, is on the bed |
| Lattice.LatticeEffect | src/CNCPy/premades/lattice.py:6-27 | a lattice that returns writes an empty line, the CURRENT position again (not (x1, y1)), four lines per pass and G28 last; ends at the starting X, Z unchanged, Y up 6 per pass, total up by the passes' extrusion |
| Lattice.LatticeWrites | src/CNCPy/premades/lattice.py:6-27 | a lattice that returns leaves the file as it was plus an empty line, a G0 to the current position, the lines of its passes from that position, and G28 |
| Lattice.LatticeFromFreshCursor | src/CNCPy/premades/lattice.py:6-27 | from the constructor's start state on a safe 235 x 235 bed, a lattice over [100, 150] x [100, 150] returns after 25 passes at (0, 150, 1) with total 2650 |
| Lattice.Pass | src/CNCPy/premades/lattice.py:23-26 | the four moves of a pass, on the cursor in place, reach `PassStep` |
| Lattice.Lattice | src/CNCPy/premades/lattice.py:6-27 | the premade on the cursor in place, with its `while` loop, reaches `LatticeStep` |

## Left out

- File-system effects are not modelled: removing an existing file, opening
  the output file, the real `write` and `close`, and the error `open` can
  raise. The file is a sequence of records plus a `closed` flag.
- Python's text rendering of numbers (`float(...)`, `str(...)`) is not
  modelled: lines with numbers are structured records, not strings.
- `append` of values that are not strings is not modelled: its arguments
  are strings (`str()` of other values is the number rendering above).
- IEEE floating point is not modelled: all quantities are exact `real`s,
  and `int` arguments are `real` where the source mixes them with floats.
- An `extrude_amount` attribute assigned by a caller from outside would make
  the arcs write a `G2`/`G3` line; the model covers the class as it is,
  where nothing assigns it, so the arcs' line format is not modelled.
- `CNCPy.GcodeCursor.GetX`, `GetY`, `GetZ`: they return the fields; the
  conversion to `float` is the identity on `real`.
- The `__main__` block of `src/CNCPy/Converting.py` only prints.
- `src/CNCPy/premades/shapes.py` holds stubs with no behaviour.
- `Lattice.LatticeFromFreshCursor` is stated for any cursor in the state the
  constructor leaves it in (which `CursorModel.Init` gives for the same
  arguments), not for `Init` applied to the literal arguments.

## Findings

| source | as written | input that shows it | evidently intended | confidence | as-written member | corrected member |
|---|---|---|---|---|---|---|
| src/CNCPy/Converting.py:12-13 | `in_to_mm` multiplies by 0.254 | `in_to_mm(1)` gives 0.254, while one inch is 25.4 mm and `in_to_cm(1)` gives 2.54 | multiply by 25.4 | high; not executed | Converting.InToMmOffByHundred | Converting.InToMmIntended |
