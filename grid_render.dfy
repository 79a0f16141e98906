/// `draw_grid_xz`: a grid in the XZ plane submitted to the immediate renderer as lines.
module GridRender {
  import opened Int32
  import opened Geometry
  import opened Gl
  import opened DrawCalls
  import opened Frame
  import opened Immediate

  /** The number of values in Rust's inclusive range `0..=hi`; none when `hi < 0`. */
  function InclusiveCount(hi: int): (n: nat)
    ensures n == 0 <==> hi < 0
    ensures n > 0 ==> n - 1 == hi
  {
    if hi < 0 then 0 else hi + 1
  }

  /** A loop over `0..=hi` that has stopped has visited every value of the range. */
  lemma InclusiveRangeDone(i: int, hi: int)
    requires 0 <= i <= InclusiveCount(hi) && !(i <= hi)
    ensures i == InclusiveCount(hi)
  {
  }

  /** The number of lines a grid of `stepsX` by `stepsZ` cells submits. */
  function GridLineCount(stepsX: int, stepsZ: int): nat
  {
    InclusiveCount(stepsZ) + InclusiveCount(stepsX)
  }

  datatype Segment = Segment(from: Point3, to: Point3)

  /** Row `z`: from `origin` moved `stepSize * z` along Z, running `dimensions.x` along X. */
  function ZLine(origin: Point3, dimensions: Point3, stepSize: real, z: int): (s: Segment)
    ensures s.from.x == origin.x && s.from.y == origin.y && s.from.z - origin.z == stepSize * z as real
    ensures s.to.y == s.from.y && s.to.z == s.from.z && s.to.x - s.from.x == dimensions.x
  {
    var p0 := Point3(origin.x, origin.y, origin.z + stepSize * z as real);
    Segment(p0, Translate(p0, dimensions.x, 0.0, 0.0))
  }

  /** Column `x`: from `origin` moved `stepSize * x` along X, running `dimensions.z` along Z. */
  function XLine(origin: Point3, dimensions: Point3, stepSize: real, x: int): (s: Segment)
    ensures s.from.x - origin.x == stepSize * x as real && s.from.y == origin.y && s.from.z == origin.z
    ensures s.to.x == s.from.x && s.to.y == s.from.y && s.to.z - s.from.z == dimensions.z
  {
    var p0 := Point3(origin.x + stepSize * x as real, origin.y, origin.z);
    Segment(p0, Translate(p0, 0.0, 0.0, dimensions.z))
  }

  function ZLines(origin: Point3, dimensions: Point3, stepSize: real, n: nat): seq<Segment>
  {
    seq(n, z => ZLine(origin, dimensions, stepSize, z))
  }

  function XLines(origin: Point3, dimensions: Point3, stepSize: real, n: nat): seq<Segment>
  {
    seq(n, x => XLine(origin, dimensions, stepSize, x))
  }

  /** The grid's lines in submission order: every row, then every column. */
  function GridLines(origin: Point3, dimensions: Point3, stepSize: real, stepsX: int, stepsZ: int): seq<Segment>
  {
    ZLines(origin, dimensions, stepSize, InclusiveCount(stepsZ))
      + XLines(origin, dimensions, stepSize, InclusiveCount(stepsX))
  }

  /** The vertices `add_line` stores for `lines`, both endpoints in `colour`. */
  function LineVertices(lines: seq<Segment>, colour: Point4): (vs: seq<Vertex>)
    ensures |vs| == 2 * |lines|
  {
    if lines == [] then []
    else
      var s := lines[|lines| - 1];
      LineVertices(lines[..|lines| - 1], colour) + [Vertex(Homogeneous(s.from), colour), Vertex(Homogeneous(s.to), colour)]
  }

  /** The descriptors of `m` lines submitted back to back from vertex `n0`. */
  function LineRun(n0: nat, m: nat): seq<Drawcall>
  {
    seq(m, k requires 0 <= k => Drawcall(AsI32(n0 + 2 * k), 2))
  }

  lemma LineRunSnoc(n0: nat, m: nat)
    ensures LineRun(n0, m + 1) == LineRun(n0, m) + [Drawcall(AsI32(n0 + 2 * m), 2)]
  {
  }

  lemma LineRunAppend(ds: seq<Drawcall>, n0: nat, m: nat)
    ensures ds + LineRun(n0, m + 1) == (ds + LineRun(n0, m)) + [Drawcall(AsI32(n0 + 2 * m), 2)]
  {
    LineRunSnoc(n0, m);
  }

  lemma LineVerticesSnoc(vs: seq<Vertex>, lines: seq<Segment>, s: Segment, colour: Point4)
    ensures vs + LineVertices(lines + [s], colour)
         == (vs + LineVertices(lines, colour)) + [Vertex(Homogeneous(s.from), colour), Vertex(Homogeneous(s.to), colour)]
  {
    assert (lines + [s])[..|lines|] == lines;
  }

  /** `n` line submissions in a row. */
  function LinesOnly(n: nat): seq<Primitive>
  {
    seq(n, _ => Lines)
  }

  lemma LinesOnlySnoc(kinds: seq<Primitive>, n: nat)
    ensures kinds + LinesOnly(n + 1) == (kinds + LinesOnly(n)) + [Lines]
  {
    assert LinesOnly(n + 1) == LinesOnly(n) + [Lines];
  }

  lemma ZLinesSnoc(origin: Point3, dimensions: Point3, stepSize: real, z: nat)
    ensures ZLines(origin, dimensions, stepSize, z + 1)
         == ZLines(origin, dimensions, stepSize, z) + [ZLine(origin, dimensions, stepSize, z)]
  {
  }

  lemma XLinesSnoc(origin: Point3, dimensions: Point3, stepSize: real, x: nat)
    ensures XLines(origin, dimensions, stepSize, x + 1)
         == XLines(origin, dimensions, stepSize, x) + [XLine(origin, dimensions, stepSize, x)]
  {
  }

  lemma LinesOnlyAppend(kinds: seq<Primitive>, a: nat, b: nat)
    ensures (kinds + LinesOnly(a)) + LinesOnly(b) == kinds + LinesOnly(a + b)
  {
    assert LinesOnly(a) + LinesOnly(b) == LinesOnly(a + b);
  }

  lemma {:induction false} LineVerticesAppend(vs: seq<Vertex>, rows: seq<Segment>, columns: seq<Segment>, colour: Point4)
    ensures (vs + LineVertices(rows, colour)) + LineVertices(columns, colour) == vs + LineVertices(rows + columns, colour)
  {
    if columns == [] {
      assert rows + columns == rows;
    } else {
      var init, s := columns[..|columns| - 1], columns[|columns| - 1];
      LineVerticesAppend(vs, rows, init, colour);
      assert columns == init + [s];
      assert rows + columns == (rows + init) + [s];
      LineVerticesSnoc(vs, rows + init, s, colour);
      LineVerticesSnoc(vs + LineVertices(rows, colour), init, s, colour);
    }
  }

  lemma LineRunJoin(ds: seq<Drawcall>, n0: nat, a: nat, n1: nat, b: nat)
    requires n1 == n0 + 2 * a
    ensures (ds + LineRun(n0, a)) + LineRun(n1, b) == ds + LineRun(n0, a + b)
  {
    assert LineRun(n0, a) + LineRun(n1, b) == LineRun(n0, a + b);
  }

  /** One more row: one more line submission, the row's two vertices, and one more descriptor. */
  lemma RowStep(kinds0: seq<Primitive>, vertices0: seq<Vertex>, draws0: seq<Drawcall>,
                origin: Point3, dimensions: Point3, stepSize: real, colour: Point4, z: nat)
    ensures kinds0 + LinesOnly(z + 1) == (kinds0 + LinesOnly(z)) + [Lines]
    ensures var line := ZLine(origin, dimensions, stepSize, z);
      vertices0 + LineVertices(ZLines(origin, dimensions, stepSize, z + 1), colour)
      == (vertices0 + LineVertices(ZLines(origin, dimensions, stepSize, z), colour))
         + [Vertex(Homogeneous(line.from), colour), Vertex(Homogeneous(line.to), colour)]
    ensures draws0 + LineRun(|vertices0|, z + 1) == (draws0 + LineRun(|vertices0|, z)) + [Drawcall(AsI32(|vertices0| + 2 * z), 2)]
  {
    LineVerticesSnoc(vertices0, ZLines(origin, dimensions, stepSize, z), ZLine(origin, dimensions, stepSize, z), colour);
    ZLinesSnoc(origin, dimensions, stepSize, z);
    LinesOnlySnoc(kinds0, z);
    LineRunAppend(draws0, |vertices0|, z);
  }

  /** One more column: one more line submission, the column's two vertices, and one more descriptor. */
  lemma ColumnStep(kinds0: seq<Primitive>, vertices0: seq<Vertex>, draws0: seq<Drawcall>,
                   origin: Point3, dimensions: Point3, stepSize: real, colour: Point4, x: nat)
    ensures kinds0 + LinesOnly(x + 1) == (kinds0 + LinesOnly(x)) + [Lines]
    ensures var line := XLine(origin, dimensions, stepSize, x);
      vertices0 + LineVertices(XLines(origin, dimensions, stepSize, x + 1), colour)
      == (vertices0 + LineVertices(XLines(origin, dimensions, stepSize, x), colour))
         + [Vertex(Homogeneous(line.from), colour), Vertex(Homogeneous(line.to), colour)]
    ensures draws0 + LineRun(|vertices0|, x + 1) == (draws0 + LineRun(|vertices0|, x)) + [Drawcall(AsI32(|vertices0| + 2 * x), 2)]
  {
    LineVerticesSnoc(vertices0, XLines(origin, dimensions, stepSize, x), XLine(origin, dimensions, stepSize, x), colour);
    XLinesSnoc(origin, dimensions, stepSize, x);
    LinesOnlySnoc(kinds0, x);
    LineRunAppend(draws0, |vertices0|, x);
  }

  /** The first loop of `draw_grid_xz`: rows `0..=stepsZ`, each submitted with `add_line`. */
  method DrawRows(r: ImmediateRender, origin: Point3, dimensions: Point3, stepSize: real, colour: Point4, stepsZ: int)
    requires r.Valid()
    modifies r`currentVertices, r`currentLineDraws, r`submitted
    ensures r.Valid()
    ensures r.submitted == old(r.submitted) + LinesOnly(InclusiveCount(stepsZ))
    ensures r.currentVertices
         == old(r.currentVertices) + LineVertices(ZLines(origin, dimensions, stepSize, InclusiveCount(stepsZ)), colour)
    ensures |r.currentVertices| == |old(r.currentVertices)| + 2 * InclusiveCount(stepsZ)
    ensures r.currentLineDraws == old(r.currentLineDraws) + LineRun(|old(r.currentVertices)|, InclusiveCount(stepsZ))
    ensures r.currentTriangleDraws == old(r.currentTriangleDraws)
  {
    ghost var kinds0, vertices0, draws0 := r.submitted, r.currentVertices, r.currentLineDraws;
    var z := 0;
    while z <= stepsZ
      invariant r.Valid()
      invariant 0 <= z <= InclusiveCount(stepsZ)
      invariant r.submitted == kinds0 + LinesOnly(z)
      invariant r.currentVertices == vertices0 + LineVertices(ZLines(origin, dimensions, stepSize, z), colour)
      invariant r.currentLineDraws == draws0 + LineRun(|vertices0|, z)
      invariant r.currentTriangleDraws == old(r.currentTriangleDraws)
    {
      var line := ZLine(origin, dimensions, stepSize, z);
      r.AddLine(line.from, colour, line.to, colour);
      RowStep(kinds0, vertices0, draws0, origin, dimensions, stepSize, colour, z);
      z := z + 1;
    }
    InclusiveRangeDone(z, stepsZ);
  }

  /** The second loop of `draw_grid_xz`: columns `0..=stepsX`, each submitted with `add_line`. */
  method DrawColumns(r: ImmediateRender, origin: Point3, dimensions: Point3, stepSize: real, colour: Point4, stepsX: int)
    requires r.Valid()
    modifies r`currentVertices, r`currentLineDraws, r`submitted
    ensures r.Valid()
    ensures r.submitted == old(r.submitted) + LinesOnly(InclusiveCount(stepsX))
    ensures r.currentVertices
         == old(r.currentVertices) + LineVertices(XLines(origin, dimensions, stepSize, InclusiveCount(stepsX)), colour)
    ensures |r.currentVertices| == |old(r.currentVertices)| + 2 * InclusiveCount(stepsX)
    ensures r.currentLineDraws == old(r.currentLineDraws) + LineRun(|old(r.currentVertices)|, InclusiveCount(stepsX))
    ensures r.currentTriangleDraws == old(r.currentTriangleDraws)
  {
    ghost var kinds0, vertices0, draws0 := r.submitted, r.currentVertices, r.currentLineDraws;
    var x := 0;
    while x <= stepsX
      invariant r.Valid()
      invariant 0 <= x <= InclusiveCount(stepsX)
      invariant r.submitted == kinds0 + LinesOnly(x)
      invariant r.currentVertices == vertices0 + LineVertices(XLines(origin, dimensions, stepSize, x), colour)
      invariant r.currentLineDraws == draws0 + LineRun(|vertices0|, x)
      invariant r.currentTriangleDraws == old(r.currentTriangleDraws)
    {
      var line := XLine(origin, dimensions, stepSize, x);
      r.AddLine(line.from, colour, line.to, colour);
      ColumnStep(kinds0, vertices0, draws0, origin, dimensions, stepSize, colour, x);
      x := x + 1;
    }
    InclusiveRangeDone(x, stepsX);
  }

  /** `draw_grid_xz` with `steps_x` and `steps_z` given: rows `0..=stepsZ`, then columns
      `0..=stepsX`, each submitted with `add_line` in `colour`. */
  method DrawGridXZ(r: ImmediateRender, origin: Point3, dimensions: Point3, stepSize: real, colour: Point4,
                    stepsX: int, stepsZ: int)
    requires r.Valid() && InI32(stepsX) && InI32(stepsZ)
    modifies r`currentVertices, r`currentLineDraws, r`submitted
    ensures r.Valid()
    ensures r.submitted == old(r.submitted) + LinesOnly(GridLineCount(stepsX, stepsZ))
    ensures r.currentVertices
         == old(r.currentVertices) + LineVertices(GridLines(origin, dimensions, stepSize, stepsX, stepsZ), colour)
    ensures |r.currentVertices| == |old(r.currentVertices)| + 2 * GridLineCount(stepsX, stepsZ)
    ensures r.currentLineDraws
         == old(r.currentLineDraws) + LineRun(|old(r.currentVertices)|, GridLineCount(stepsX, stepsZ))
    ensures r.currentTriangleDraws == old(r.currentTriangleDraws)
  {
    ghost var kinds0, vertices0, draws0 := r.submitted, r.currentVertices, r.currentLineDraws;
    ghost var a, b := InclusiveCount(stepsZ), InclusiveCount(stepsX);
    DrawRows(r, origin, dimensions, stepSize, colour, stepsZ);
    LineRunJoin(draws0, |vertices0|, a, |r.currentVertices|, b);
    DrawColumns(r, origin, dimensions, stepSize, colour, stepsX);
    LinesOnlyAppend(kinds0, a, b);
    LineVerticesAppend(vertices0, ZLines(origin, dimensions, stepSize, a), XLines(origin, dimensions, stepSize, b), colour);
  }

  /** Vertices `2k` and `2k + 1` are the endpoints of line `k`, both in the line's colour. */
  lemma {:induction false} LineVerticesAt(lines: seq<Segment>, colour: Point4, k: nat)
    requires k < |lines|
    ensures LineVertices(lines, colour)[2 * k] == Vertex(Homogeneous(lines[k].from), colour)
    ensures LineVertices(lines, colour)[2 * k + 1] == Vertex(Homogeneous(lines[k].to), colour)
  {
    if k < |lines| - 1 {
      LineVerticesAt(lines[..|lines| - 1], colour, k);
    }
  }

  /** Every vertex the grid stores carries the caller's colour and w = 1. */
  lemma GridVerticesColoured(origin: Point3, dimensions: Point3, stepSize: real, colour: Point4, stepsX: int, stepsZ: int)
    ensures forall i :: 0 <= i < |LineVertices(GridLines(origin, dimensions, stepSize, stepsX, stepsZ), colour)| ==>
      LineVertices(GridLines(origin, dimensions, stepSize, stepsX, stepsZ), colour)[i].colour == colour &&
      LineVertices(GridLines(origin, dimensions, stepSize, stepsX, stepsZ), colour)[i].position.w == 1.0
  {
    var lines := GridLines(origin, dimensions, stepSize, stepsX, stepsZ);
    forall i | 0 <= i < |LineVertices(lines, colour)|
      ensures LineVertices(lines, colour)[i].colour == colour && LineVertices(lines, colour)[i].position.w == 1.0
    {
      LineVerticesAt(lines, colour, i / 2);
    }
  }

  /** The rows are stored before any column: line `k` is row `k` for `k <= stepsZ`, and column
      `k - (stepsZ + 1)` after that. */
  lemma GridRowsBeforeColumns(origin: Point3, dimensions: Point3, stepSize: real, colour: Point4,
                              stepsX: int, stepsZ: int, k: nat)
    requires k < GridLineCount(stepsX, stepsZ)
    ensures var vs := LineVertices(GridLines(origin, dimensions, stepSize, stepsX, stepsZ), colour);
      var s := if k < InclusiveCount(stepsZ) then ZLine(origin, dimensions, stepSize, k)
               else XLine(origin, dimensions, stepSize, k - InclusiveCount(stepsZ));
      vs[2 * k] == Vertex(Homogeneous(s.from), colour) && vs[2 * k + 1] == Vertex(Homogeneous(s.to), colour)
  {
    LineVerticesAt(GridLines(origin, dimensions, stepSize, stepsX, stepsZ), colour, k);
  }

  /** The last of `m` back-to-back lines, split off; below the i32 bound the cast is the identity. */
  lemma LineRunStep(ds: seq<Drawcall>, n0: nat, m: nat)
    requires 0 < m && n0 + 2 * m <= MAX_I32
    ensures ds + LineRun(n0, m) == (ds + LineRun(n0, m - 1)) + [Drawcall(n0 + 2 * (m - 1), 2)]
    ensures m == 1 ==> ds + LineRun(n0, m - 1) == ds
    ensures m > 1 ==> Last(ds + LineRun(n0, m - 1)) == Drawcall(n0 + 2 * (m - 2), 2)
  {
    LineRunSnoc(n0, m - 1);
    if m == 1 {
      assert ds + LineRun(n0, 0) == ds;
    }
  }

  /** The grid's descriptors are contiguous with each other, so appending them to a line list adds
      at most one run: none when they continue the list's last line, one otherwise. */
  lemma {:induction false} GridAddsAtMostOneRun(ds: seq<Drawcall>, n0: nat, m: nat)
    requires n0 + 2 * m <= MAX_I32
    ensures |Runs(ds + LineRun(n0, m))|
         == |Runs(ds)| + if m == 0 || (ds != [] && End(Last(ds)) == n0) then 0 else 1
  {
    if m == 0 {
      assert ds + LineRun(n0, 0) == ds;
    } else {
      var prior := ds + LineRun(n0, m - 1);
      var d := Drawcall(n0 + 2 * (m - 1), 2);
      LineRunStep(ds, n0, m);
      RunsSnoc(prior, d);
      if m > 1 {
        GridAddsAtMostOneRun(ds, n0, m - 1);
      }
    }
  }
}
