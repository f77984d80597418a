/** The `lattice` premade (src/CNCPy/premades/lattice.py): an empty line, a
    `move_to` that re-emits the current position, then zig-zag passes of
    four extruding moves until the head's Y reaches `y2`, and a final
    homing command. */
module Lattice {
  import opened Exceptions
  import opened CursorModel
  import opened CNCPy

  /** How far in Y one pass climbs: two moves of 3. */
  const PassRise: real := 6.0

  /** The number of passes a loop starting at `y` makes before `y2` is
      reached: none once y >= y2, otherwise the ceiling of (y2 - y) / 6. */
  function Remaining(y: real, y2: real): (n: nat)
    ensures y2 <= y ==> n == 0
    ensures y < y2 ==> 1 <= n && y + PassRise * (n - 1) as real < y2 <= y + PassRise * n as real
  {
    if y2 <= y then 0 else -((y - y2) / PassRise).Floor
  }

  /** A pass that starts below `y2` leaves one pass fewer to go. */
  lemma RemainingStep(y: real, y2: real)
    requires y < y2
    ensures Remaining(y + PassRise, y2) == Remaining(y, y2) - 1
  {
    var n := Remaining(y, y2);
    var m := Remaining(y + PassRise, y2);
    if y2 <= y + PassRise {
      assert n == 1;
    } else {
      assert y + PassRise * m as real < y2 <= y + PassRise * (m + 1) as real;
      assert n - 1 < m + 1;
      assert m < n;
    }
  }

  /** What one pass extrudes: the two crossings extrude the width each and
      the two climbs 3 each, all scaled by the extrusion ratio. */
  function PerPass(xDifference: real, ratio: real): real {
    (2.0 * xDifference + 6.0) * ratio
  }

  /** The line a lattice move writes: a travel move (G0) when it extrudes
      nothing, an extruding move (G1) carrying the running total otherwise;
      both at the default speed, 5 mm/s written as F5000. */
  function PassLine(x: real, y: real, z: real, extrusion: real, total: real): Entry {
    if extrusion == 0.0 then G0(x, y, z, 5000.0, "\n") else G1(x, y, z, total, 5000.0, "\n")
  }

  /** The four lines of a pass from (x, y, z) with running total `e` and
      ratio `k`: to (x + width, y), up to y + 3, back to x, up to y + 6. The
      crossings extrude the width each, the climbs 3 each. */
  function PassLines(x: real, y: real, z: real, xDifference: real, e: real, k: real): seq<Entry> {
    var e1 := e + xDifference * k;
    var e2 := e1 + 3.0 * k;
    var e3 := e2 + xDifference * k;
    [PassLine(x + xDifference, y, z, xDifference, e1),
     PassLine(x + xDifference, y + 3.0, z, 3.0, e2),
     PassLine(x, y + 3.0, z, xDifference, e3),
     PassLine(x, y + PassRise, z, 3.0, e3 + 3.0 * k)]
  }

  /** The lines of `n` passes, each starting 6 higher than the last and
      carrying on the running total. */
  function LoopLines(n: nat, x: real, y: real, z: real, xDifference: real, e: real, k: real): seq<Entry> {
    if n == 0 then []
    else PassLines(x, y, z, xDifference, e, k)
         + LoopLines(n - 1, x, y + PassRise, z, xDifference, e + PerPass(xDifference, k), k)
  }

  /** One pass of the loop body: across by the lattice's width, up 3, back,
      up 3, each move extruding, stopping at the first move that raises. Z
      never moves; a pass that returns normally brings X back, raises Y by
      6, extrudes (2 * width + 6) times the ratio and writes four lines. */
  function PassStep(c: Cursor, xDifference: real): (r: Step)
    ensures r.after.z == c.z
    ensures r.after.(x := c.x, y := c.y, extrudeAmount := c.extrudeAmount, entries := c.entries) == c
    ensures c.entries <= r.after.entries
    ensures r.outcome == Ok ==>
              && r.after.x == c.x && r.after.y == c.y + PassRise
              && r.after.extrudeAmount == c.extrudeAmount + PerPass(xDifference, c.extrusionRatio)
              && |r.after.entries| == |c.entries| + 4
  {
    var s1 := MoveStep(c, xDifference, 0.0, 0.0, xDifference, 5.0, "\n");
    if s1.outcome.Raised? then s1
    else
      var s2 := MoveStep(s1.after, 0.0, 3.0, 0.0, 3.0, 5.0, "\n");
      if s2.outcome.Raised? then s2
      else
        var s3 := MoveStep(s2.after, -xDifference, 0.0, 0.0, xDifference, 5.0, "\n");
        if s3.outcome.Raised? then s3
        else MoveStep(s3.after, 0.0, 3.0, 0.0, 3.0, 5.0, "\n")
  }

  /** The four lines a pass that returns normally writes are those of
      `PassLines`: the corners of the zig-zag at the cursor's height, with
      the running extrusion totals. */
  lemma PassWrites(c: Cursor, xDifference: real)
    requires PassStep(c, xDifference).outcome == Ok
    ensures PassStep(c, xDifference).after.entries
            == c.entries + PassLines(c.x, c.y, c.z, xDifference, c.extrudeAmount, c.extrusionRatio)
  {
    var e, k := c.extrudeAmount, c.extrusionRatio;
    var s1 := MoveStep(c, xDifference, 0.0, 0.0, xDifference, 5.0, "\n");
    var s2 := MoveStep(s1.after, 0.0, 3.0, 0.0, 3.0, 5.0, "\n");
    var s3 := MoveStep(s2.after, -xDifference, 0.0, 0.0, xDifference, 5.0, "\n");
    var s4 := MoveStep(s3.after, 0.0, 3.0, 0.0, 3.0, 5.0, "\n");
    assert s1.outcome == Ok && s2.outcome == Ok && s3.outcome == Ok && s4 == PassStep(c, xDifference);
    var e1 := e + xDifference * k;
    var e2 := e1 + 3.0 * k;
    var e3 := e2 + xDifference * k;
    var l1 := PassLine(c.x + xDifference, c.y, c.z, xDifference, e1);
    var l2 := PassLine(c.x + xDifference, c.y + 3.0, c.z, 3.0, e2);
    var l3 := PassLine(c.x, c.y + 3.0, c.z, xDifference, e3);
    var l4 := PassLine(c.x, c.y + PassRise, c.z, 3.0, e3 + 3.0 * k);
    assert s1.after.extrudeAmount == e1;
    assert s1.after.entries == c.entries + [l1];
    assert s2.after.extrudeAmount == e2 && s2.after.extrusionRatio == k;
    assert s2.after.entries == c.entries + [l1, l2];
    assert s3.after.extrudeAmount == e3 && s3.after.x == c.x;
    assert s3.after.entries == c.entries + [l1, l2, l3];
    assert s4.after.entries == c.entries + [l1, l2, l3, l4];
    var lines := PassLines(c.x, c.y, c.z, xDifference, e, k);
    assert |lines| == 4 && lines[0] == l1 && lines[1] == l2 && lines[2] == l3 && lines[3] == l4;
  }

  /** The `while cursor.get_y() < y2` loop. */
  function LoopStep(c: Cursor, xDifference: real, y2: real): (r: Step)
    decreases Remaining(c.y, y2)
    ensures r.after.z == c.z
    ensures r.after.(x := c.x, y := c.y, extrudeAmount := c.extrudeAmount, entries := c.entries) == c
    ensures c.entries <= r.after.entries
  {
    if !(c.y < y2) then Step(c, Ok)
    else
      var pass := PassStep(c, xDifference);
      if pass.outcome.Raised? then pass
      else
        RemainingStep(c.y, y2);
        LoopStep(pass.after, xDifference, y2)
  }

  /** The whole premade. */
  function LatticeStep(c: Cursor, x1: real, x2: real, y1: real, y2: real): (r: Step)
    ensures r.after.z == c.z
    ensures r.after.(x := c.x, y := c.y, extrudeAmount := c.extrudeAmount, entries := c.entries) == c
  {
    var xDifference := x2 - x1;
    var s0 := NewlnStep(c);
    if s0.outcome.Raised? then s0
    else
      var s1 := MoveToStep(s0.after, x1, y1, s0.after.z, 0.0, 5.0, "\n");
      if s1.outcome.Raised? then s1
      else
        HomeAfter(LoopStep(s1.after, xDifference, y2))
  }

  /** The final `cursor.home()`, reached only when the loop did not raise. */
  function HomeAfter(loop: Step): (r: Step)
    ensures loop.outcome.Raised? ==> r == loop
    ensures loop.outcome == Ok ==> r == HomeStep(loop.after, "\n")
  {
    if loop.outcome.Raised? then loop else HomeStep(loop.after, "\n")
  }

  /** `n` shares of `k`, added one pass at a time. */
  function Times(n: nat, k: real): real {
    if n == 0 then 0.0 else Times(n - 1, k) + k
  }

  lemma {:induction false} TimesIsProduct(n: nat, k: real)
    ensures Times(n, k) == n as real * k
  {
    if n > 0 {
      TimesIsProduct(n - 1, k);
      assert (n - 1) as real * k + k == n as real * k;
    }
  }

  /** A loop that returns normally made exactly Remaining(y, y2) passes: X
      is back where it started, Y climbed 6 per pass and reached `y2`, and
      each pass wrote four lines. */
  lemma {:induction false} LoopPasses(c: Cursor, xDifference: real, y2: real)
    requires LoopStep(c, xDifference, y2).outcome == Ok
    ensures var r := LoopStep(c, xDifference, y2).after; var n := Remaining(c.y, y2);
      && r.x == c.x && r.y == c.y + PassRise * n as real && y2 <= r.y
      && |r.entries| == |c.entries| + 4 * n
    decreases Remaining(c.y, y2)
  {
    if c.y < y2 {
      var pass := PassStep(c, xDifference);
      assert pass.outcome == Ok && LoopStep(c, xDifference, y2) == LoopStep(pass.after, xDifference, y2);
      RemainingStep(c.y, y2);
      LoopPasses(pass.after, xDifference, y2);
    }
  }

  /** ... and each of those passes extruded the same amount. */
  lemma {:induction false} LoopExtrusion(c: Cursor, xDifference: real, y2: real)
    requires LoopStep(c, xDifference, y2).outcome == Ok
    ensures LoopStep(c, xDifference, y2).after.extrudeAmount
            == c.extrudeAmount + Times(Remaining(c.y, y2), PerPass(xDifference, c.extrusionRatio))
    decreases Remaining(c.y, y2)
  {
    if c.y < y2 {
      var pass := PassStep(c, xDifference);
      var perPass := PerPass(xDifference, c.extrusionRatio);
      var n := Remaining(c.y, y2);
      assert pass.outcome == Ok && LoopStep(c, xDifference, y2) == LoopStep(pass.after, xDifference, y2);
      assert pass.after.extrudeAmount == c.extrudeAmount + perPass;
      assert Remaining(pass.after.y, y2) == n - 1 by { RemainingStep(c.y, y2); }
      assert PerPass(xDifference, pass.after.extrusionRatio) == perPass;
      LoopExtrusion(pass.after, xDifference, y2);
    }
  }

  /** Writing `lines` and then `rest` appends their concatenation. */
  lemma AppendTwice(before: seq<Entry>, lines: seq<Entry>, rest: seq<Entry>,
                    mid: seq<Entry>, after: seq<Entry>)
    requires mid == before + lines && after == mid + rest
    ensures after == before + (lines + rest)
  {
  }

  /** ... and wrote the lines of those passes, one after another. */
  lemma {:induction false} LoopWrites(c: Cursor, xDifference: real, y2: real)
    requires LoopStep(c, xDifference, y2).outcome == Ok
    ensures LoopStep(c, xDifference, y2).after.entries
            == c.entries + LoopLines(Remaining(c.y, y2), c.x, c.y, c.z, xDifference,
                                     c.extrudeAmount, c.extrusionRatio)
    decreases Remaining(c.y, y2)
  {
    var n := Remaining(c.y, y2);
    if c.y < y2 {
      var pass := PassStep(c, xDifference);
      var k := c.extrusionRatio;
      assert pass.outcome == Ok && LoopStep(c, xDifference, y2) == LoopStep(pass.after, xDifference, y2);
      PassWrites(c, xDifference);
      var lines := PassLines(c.x, c.y, c.z, xDifference, c.extrudeAmount, k);
      assert pass.after.entries == c.entries + lines;
      assert pass.after.x == c.x && pass.after.y == c.y + PassRise && pass.after.z == c.z;
      assert pass.after.extrudeAmount == c.extrudeAmount + PerPass(xDifference, k);
      assert pass.after.extrusionRatio == k;
      assert Remaining(pass.after.y, y2) == n - 1 by { RemainingStep(c.y, y2); }
      LoopWrites(pass.after, xDifference, y2);
      var rest := LoopLines(n - 1, c.x, c.y + PassRise, c.z, xDifference,
                            c.extrudeAmount + PerPass(xDifference, k), k);
      assert LoopLines(n, c.x, c.y, c.z, xDifference, c.extrudeAmount, k) == lines + rest;
      AppendTwice(c.entries, lines, rest, pass.after.entries,
                  LoopStep(pass.after, xDifference, y2).after.entries);
    } else {
      assert LoopStep(c, xDifference, y2).after == c;
    }
  }

  /** A loop on an unsafe cursor whose file is open never raises; neither
      does one on a safe cursor whose zig-zag stays on the bed: both X
      columns on it, the starting Y too, and the highest Y the passes
      reach, 6 above the start per pass. */
  lemma {:induction false} LoopSucceeds(c: Cursor, xDifference: real, y2: real)
    requires !c.closed
    requires c.unsafe || (0.0 <= c.x <= c.bedX && 0.0 <= c.x + xDifference <= c.bedX
                          && 0.0 <= c.y && c.y + PassRise * Remaining(c.y, y2) as real <= c.bedY)
    ensures LoopStep(c, xDifference, y2).outcome == Ok
    decreases Remaining(c.y, y2)
  {
    if c.y < y2 {
      var pass := PassStep(c, xDifference);
      assert pass.outcome == Ok;
      RemainingStep(c.y, y2);
      LoopSucceeds(pass.after, xDifference, y2);
    }
  }

  /** What a lattice that returns normally did: an empty line, the current
      position written again (the lattice is drawn from where the head is,
      not from (x1, y1)), the passes, and G28 last; the tracked position is
      not reset by the homing command. */
  lemma LatticeEffect(c: Cursor, x1: real, x2: real, y1: real, y2: real)
    requires LatticeStep(c, x1, x2, y1, y2).outcome == Ok
    ensures var r := LatticeStep(c, x1, x2, y1, y2).after; var n := Remaining(c.y, y2);
      && r.x == c.x && r.y == c.y + PassRise * n as real && r.z == c.z && y2 <= r.y
      && r.extrudeAmount == c.extrudeAmount + Times(n, PerPass(x2 - x1, c.extrusionRatio))
      && |r.entries| == |c.entries| + 4 * n + 3
      && r.entries[..|c.entries| + 2] == c.entries + [Text("\n"), G0(c.x, c.y, c.z, 5000.0, "\n")]
      && r.entries[|r.entries| - 1] == Text("G28\n")
  {
    var s0 := NewlnStep(c);
    var s1 := MoveToStep(s0.after, x1, y1, s0.after.z, 0.0, 5.0, "\n");
    var s2 := LoopStep(s1.after, x2 - x1, y2);
    var n := Remaining(c.y, y2);
    assert s0.outcome == Ok && s1.outcome == Ok && s2.outcome == Ok;
    assert LatticeStep(c, x1, x2, y1, y2) == HomeStep(s2.after, "\n");
    assert SamePosition(s1.after, c) && s1.after.extrudeAmount == c.extrudeAmount;
    assert s1.after.extrusionRatio == c.extrusionRatio;
    LoopPasses(s1.after, x2 - x1, y2);
    LoopExtrusion(s1.after, x2 - x1, y2);
    assert "G28" + "\n" == "G28\n";
    var prefix := c.entries + [Text("\n"), G0(c.x, c.y, c.z, 5000.0, "\n")];
    assert s1.after.entries == prefix;
    assert prefix <= s2.after.entries;
    var r := HomeStep(s2.after, "\n").after;
    assert r.x == c.x && r.y == c.y + PassRise * n as real && r.z == c.z && y2 <= r.y;
    assert Remaining(s1.after.y, y2) == n;
    assert PerPass(x2 - x1, s1.after.extrusionRatio) == PerPass(x2 - x1, c.extrusionRatio);
    assert r.extrudeAmount == s2.after.extrudeAmount;
    assert s2.after.extrudeAmount == c.extrudeAmount + Times(n, PerPass(x2 - x1, c.extrusionRatio));
    assert |r.entries| == |c.entries| + 4 * n + 3;
    assert r.entries[..|c.entries| + 2] == prefix;
    assert r.entries[|r.entries| - 1] == Text("G28\n");
  }

  /** The whole file a lattice that returns normally leaves behind: an
      empty line, the current position as a travel move, the lines of the
      passes from that position, and G28. */
  lemma LatticeWrites(c: Cursor, x1: real, x2: real, y1: real, y2: real)
    requires LatticeStep(c, x1, x2, y1, y2).outcome == Ok
    ensures LatticeStep(c, x1, x2, y1, y2).after.entries
            == c.entries + [Text("\n"), G0(c.x, c.y, c.z, 5000.0, "\n")]
               + LoopLines(Remaining(c.y, y2), c.x, c.y, c.z, x2 - x1, c.extrudeAmount, c.extrusionRatio)
               + [Text("G28\n")]
  {
    var s0 := NewlnStep(c);
    var s1 := MoveToStep(s0.after, x1, y1, s0.after.z, 0.0, 5.0, "\n");
    var s2 := LoopStep(s1.after, x2 - x1, y2);
    assert s0.outcome == Ok && s1.outcome == Ok && s2.outcome == Ok;
    assert LatticeStep(c, x1, x2, y1, y2) == HomeStep(s2.after, "\n");
    var head := c.entries + [Text("\n"), G0(c.x, c.y, c.z, 5000.0, "\n")];
    assert s1.after.entries == head;
    assert SamePosition(s1.after, c) && s1.after.extrudeAmount == c.extrudeAmount;
    assert s1.after.extrusionRatio == c.extrusionRatio;
    LoopWrites(s1.after, x2 - x1, y2);
    var lines := LoopLines(Remaining(c.y, y2), c.x, c.y, c.z, x2 - x1, c.extrudeAmount, c.extrusionRatio);
    assert s2.after.entries == head + lines;
    assert "G28" + "\n" == "G28\n";
    assert HomeStep(s2.after, "\n").after.entries == head + lines + [Text("G28\n")];
  }

  /** The library's lattice test: a lattice over x in [100, 150], y in
      [100, 150] on a safe 235 x 235 bed with ratio 1, from the state the
      constructor leaves the cursor in, is drawn from the origin and not
      from (100, 100): 25 passes end at (0, 150, 1) having extruded 2650. */
  lemma LatticeFromFreshCursor(c: Cursor)
    requires c.x == 0.0 && c.y == 0.0 && c.z == 1.0 && c.extrudeAmount == 0.0
    requires c.extrusionRatio == 1.0 && c.bedX == 235.0 && c.bedY == 235.0
    requires !c.unsafe && !c.closed
    ensures var s := LatticeStep(c, 100.0, 150.0, 100.0, 150.0);
      && s.outcome == Ok
      && s.after.x == 0.0 && s.after.y == 150.0 && s.after.z == 1.0
      && s.after.extrudeAmount == 2650.0
  {
    var n := Remaining(c.y, 150.0);
    var k := PerPass(150.0 - 100.0, c.extrusionRatio);
    assert n == 25 && k == 106.0;
    var s0 := NewlnStep(c);
    var s1 := MoveToStep(s0.after, 100.0, 100.0, s0.after.z, 0.0, 5.0, "\n");
    assert s1.outcome == Ok && SamePosition(s1.after, c);
    LoopSucceeds(s1.after, 50.0, 150.0);
    LatticeEffect(c, 100.0, 150.0, 100.0, 150.0);
    TimesIsProduct(n, k);
  }

  /** One pass of the loop body, on the cursor in place. */
  method Pass(cursor: GcodeCursor, xDifference: real) returns (r: Outcome)
    modifies cursor
    ensures cursor.Model() == PassStep(old(cursor.Model()), xDifference).after
    ensures r == PassStep(old(cursor.Model()), xDifference).outcome
  {
    r := cursor.Move(xDifference, extrusion := xDifference);
    if r.Raised? {
      return;
    }
    r := cursor.Move(0.0, 3.0, extrusion := 3.0);
    if r.Raised? {
      return;
    }
    r := cursor.Move(-xDifference, extrusion := xDifference);
    if r.Raised? {
      return;
    }
    r := cursor.Move(0.0, 3.0, extrusion := 3.0);
  }

  /** `lattice(cursor, x1, x2, y1, y2)`, driving the cursor in place. */
  method Lattice(cursor: GcodeCursor, x1: real, x2: real, y1: real, y2: real) returns (r: Outcome)
    modifies cursor
    ensures cursor.Model() == LatticeStep(old(cursor.Model()), x1, x2, y1, y2).after
    ensures r == LatticeStep(old(cursor.Model()), x1, x2, y1, y2).outcome
  {
    var xDifference := x2 - x1;
    r := cursor.Newln();
    if r.Raised? {
      return;
    }
    r := cursor.MoveTo(x1, y1, cursor.GetZ());
    if r.Raised? {
      return;
    }
    while cursor.GetY() < y2
      invariant LatticeStep(old(cursor.Model()), x1, x2, y1, y2)
                == HomeAfter(LoopStep(cursor.Model(), xDifference, y2))
      decreases Remaining(cursor.y, y2)
    {
      ghost var before := cursor.Model();
      r := Pass(cursor, xDifference);
      if r.Raised? {
        return;
      }
      RemainingStep(before.y, y2);
    }
    r := cursor.Home();
  }
}
