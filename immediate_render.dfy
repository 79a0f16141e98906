/// `ImmediateRender`: per-frame CPU-side batching of lines and triangles, and the compacted
/// draw calls it issues for them.
module Immediate {
  import opened Gl
  import opened Int32
  import opened Geometry
  import opened DrawCalls
  import opened Frame

  /** `ImmediateRenderVertex`: a homogeneous position and an RGBA colour. */
  datatype Vertex = Vertex(position: Point4, colour: Point4)

  /** The calls draw_compacted issues for `runs` with topology `primitive`, in the same order. */
  function Issue(primitive: Primitive, runs: seq<Drawcall>): seq<GlDraw>
  {
    seq(|runs|, i requires 0 <= i < |runs| => GlDraw(primitive, runs[i].startVertex, runs[i].vertexCount))
  }

  lemma IssueSnoc(primitive: Primitive, runs: seq<Drawcall>, run: Drawcall)
    ensures Issue(primitive, runs + [run]) == Issue(primitive, runs) + [GlDraw(primitive, run.startVertex, run.vertexCount)]
  {
    assert (runs + [run])[..|runs|] == runs;
  }

  lemma ScanPrefix(ds: seq<Drawcall>, i: nat)
    requires i < |ds|
    ensures Scan(ds[..i + 1]) == Step(Scan(ds[..i]), ds[i])
  {
    assert ds[..i + 1][..i] == ds[..i];
  }

  /** One pass of the loop body adds the flushed call, if any, after those already issued. */
  lemma IssueStep(primitive: Primitive, p: Pending, d: Drawcall)
    ensures Issue(primitive, Step(p, d).issued)
         == Issue(primitive, p.issued) +
            if d.startVertex != p.last + p.count && p.count > 0 then [GlDraw(primitive, p.last, p.count)] else []
  {
    if d.startVertex != p.last + p.count {
      IssueFlushed(primitive, p);
    }
  }

  /** Flushing the pending run `p` adds its call, if any, after those already issued. */
  lemma IssueFlushed(primitive: Primitive, p: Pending)
    ensures Issue(primitive, p.issued + Flushed(p))
         == Issue(primitive, p.issued) + if p.count > 0 then [GlDraw(primitive, p.last, p.count)] else []
  {
    if p.count > 0 {
      IssueSnoc(primitive, p.issued, Drawcall(p.last, p.count));
    } else {
      assert p.issued + Flushed(p) == p.issued;
    }
  }

  class ImmediateRender {
    var shaderProgram: Option<nat>
    var vertexArray: Option<nat>
    var vertexBuffer: Option<nat>
    var currentVertices: seq<Vertex>
    var currentTriangleDraws: seq<Drawcall>
    var currentLineDraws: seq<Drawcall>
    /** The primitives submitted since the last `clear`, in order. */
    ghost var submitted: seq<Primitive>

    /** The vertex list and both descriptor lists are exactly what the submissions produced, and
        every stored position has w = 1. */
    ghost predicate Valid()
      reads this
    {
      && |currentVertices| == Total(submitted)
      && currentTriangleDraws == DrawsOf(submitted, Triangles)
      && currentLineDraws == DrawsOf(submitted, Lines)
      && forall i :: 0 <= i < |currentVertices| ==> currentVertices[i].position.w == 1.0
    }

    /** `new`: each GL resource is present exactly when its creation succeeded; the lists start
        empty. The shader program must have loaded, since `new` unwraps it. */
    constructor (shaderLoad: Creation, bufferCreate: Creation, arrayCreate: Creation)
      requires shaderLoad.Created?
      ensures Valid() && submitted == []
      ensures currentVertices == [] && currentTriangleDraws == [] && currentLineDraws == []
      ensures shaderProgram == Some(shaderLoad.handle)
      ensures vertexBuffer == HandleOf(bufferCreate) && vertexArray == HandleOf(arrayCreate)
    {
      shaderProgram := HandleOf(shaderLoad);
      vertexBuffer := HandleOf(bufferCreate);
      vertexArray := HandleOf(arrayCreate);
      currentVertices := [];
      currentTriangleDraws := [];
      currentLineDraws := [];
      submitted := [];
    }

    /** `cleanup`: releases the three handles, all of which must be present since it unwraps them. */
    method Cleanup()
      requires shaderProgram.Some? && vertexArray.Some? && vertexBuffer.Some?
      modifies this`shaderProgram, this`vertexArray, this`vertexBuffer
      ensures shaderProgram == None && vertexArray == None && vertexBuffer == None
    {
      vertexBuffer := None;
      vertexArray := None;
      shaderProgram := None;
    }

    /** `add_triangle`: three vertices with w = 1 and the given colours, and one 3-vertex triangle
        descriptor starting at the old vertex count; the line descriptors are untouched. */
    method AddTriangle(v0: Point3, c0: Point4, v1: Point3, c1: Point4, v2: Point3, c2: Point4)
      requires Valid()
      modifies this`currentVertices, this`currentTriangleDraws, this`submitted
      ensures Valid() && submitted == old(submitted) + [Triangles]
      ensures currentVertices
           == old(currentVertices) + [Vertex(Homogeneous(v0), c0), Vertex(Homogeneous(v1), c1), Vertex(Homogeneous(v2), c2)]
      ensures currentTriangleDraws == old(currentTriangleDraws) + [Drawcall(AsI32(|old(currentVertices)|), 3)]
      ensures currentLineDraws == old(currentLineDraws)
    {
      var draw := Drawcall(AsI32(|currentVertices|), 3);
      TotalSnoc(submitted, Triangles);
      DrawsOfSnoc(submitted, Triangles, Triangles);
      DrawsOfSnoc(submitted, Triangles, Lines);
      currentVertices := currentVertices + [Vertex(Homogeneous(v0), c0)];
      currentVertices := currentVertices + [Vertex(Homogeneous(v1), c1)];
      currentVertices := currentVertices + [Vertex(Homogeneous(v2), c2)];
      currentTriangleDraws := currentTriangleDraws + [draw];
      submitted := submitted + [Triangles];
    }

    /** `add_line`: two vertices with w = 1 and the given colours, and one 2-vertex line
        descriptor starting at the old vertex count; the triangle descriptors are untouched. */
    method AddLine(v0: Point3, c0: Point4, v1: Point3, c1: Point4)
      requires Valid()
      modifies this`currentVertices, this`currentLineDraws, this`submitted
      ensures Valid() && submitted == old(submitted) + [Lines]
      ensures currentVertices == old(currentVertices) + [Vertex(Homogeneous(v0), c0), Vertex(Homogeneous(v1), c1)]
      ensures currentLineDraws == old(currentLineDraws) + [Drawcall(AsI32(|old(currentVertices)|), 2)]
      ensures currentTriangleDraws == old(currentTriangleDraws)
    {
      var draw := Drawcall(AsI32(|currentVertices|), 2);
      TotalSnoc(submitted, Lines);
      DrawsOfSnoc(submitted, Lines, Triangles);
      DrawsOfSnoc(submitted, Lines, Lines);
      currentVertices := currentVertices + [Vertex(Homogeneous(v0), c0)];
      currentVertices := currentVertices + [Vertex(Homogeneous(v1), c1)];
      currentLineDraws := currentLineDraws + [draw];
      submitted := submitted + [Lines];
    }

    /** `clear`: the vertex list and both descriptor lists become empty. */
    method Clear()
      modifies this`currentVertices, this`currentTriangleDraws, this`currentLineDraws, this`submitted
      ensures Valid() && submitted == []
      ensures currentVertices == [] && currentTriangleDraws == [] && currentLineDraws == []
    {
      currentVertices := [];
      currentTriangleDraws := [];
      currentLineDraws := [];
      submitted := [];
    }

    /** `draw_compacted`: visits `draws` in order, merging each descriptor that starts where the
        pending run ends, and issues one call per flushed non-empty run. */
    static method DrawCompacted(gl: Context, primitive: Primitive, draws: seq<Drawcall>)
      modifies gl
      ensures gl.issued == old(gl.issued) + Issue(primitive, Compacted(draws))
    {
      var lastVertexIndex := -1;
      var currentVertexCount := 0;
      ghost var before := gl.issued;
      for i := 0 to |draws|
        invariant Scan(draws[..i]) == Pending(Scan(draws[..i]).issued, lastVertexIndex, currentVertexCount)
        invariant gl.issued == before + Issue(primitive, Scan(draws[..i]).issued)
      {
        var draw := draws[i];
        ghost var p := Scan(draws[..i]);
        ScanPrefix(draws, i);
        IssueStep(primitive, p, draw);
        if draw.startVertex == lastVertexIndex + currentVertexCount {
          currentVertexCount := currentVertexCount + draw.vertexCount;
        } else {
          if currentVertexCount > 0 {
            gl.DrawArrays(primitive, lastVertexIndex, currentVertexCount);
          }
          lastVertexIndex := draw.startVertex;
          currentVertexCount := draw.vertexCount;
        }
        assert gl.issued == before + Issue(primitive, Step(p, draw).issued);
      }
      assert draws[..|draws|] == draws;
      ghost var p := Scan(draws);
      if lastVertexIndex != -1 && currentVertexCount > 0 {
        gl.DrawArrays(primitive, lastVertexIndex, currentVertexCount);
        IssueSnoc(primitive, p.issued, Drawcall(lastVertexIndex, currentVertexCount));
      } else {
        assert Compacted(draws) == p.issued;
      }
    }

    /** `draw`: the compacted triangle calls, then the compacted line calls; the renderer is not
        changed. The shader program must be present, since `draw` unwraps it. */
    method Draw(gl: Context)
      requires shaderProgram.Some?
      modifies gl
      ensures unchanged(this)
      ensures gl.issued == old(gl.issued)
        + Issue(Triangles, Compacted(currentTriangleDraws)) + Issue(Lines, Compacted(currentLineDraws))
      ensures forall i, j :: |old(gl.issued)| <= i < j < |gl.issued| && gl.issued[j].primitive == Triangles ==>
        gl.issued[i].primitive == Triangles
    {
      DrawCompacted(gl, Triangles, currentTriangleDraws);
      DrawCompacted(gl, Lines, currentLineDraws);
    }
  }

  /** What `add_triangle`, `add_line` and `clear` keep, for a vertex list that fits in i32: every
      range lies in the vertex list, each list's starts strictly increase, no triangle range
      overlaps a line range, and the two lists' counts add up to the vertex count. */
  lemma DescriptorsTile(r: ImmediateRender)
    requires r.Valid() && |r.currentVertices| <= MAX_I32
    ensures WellFormed(r.currentTriangleDraws) && Within(r.currentTriangleDraws, |r.currentVertices|)
    ensures WellFormed(r.currentLineDraws) && Within(r.currentLineDraws, |r.currentVertices|)
    ensures Ordered(r.currentTriangleDraws) && Ordered(r.currentLineDraws)
    ensures forall i, j :: 0 <= i < |r.currentTriangleDraws| && 0 <= j < |r.currentLineDraws| ==>
      End(r.currentTriangleDraws[i]) <= r.currentLineDraws[j].startVertex ||
      End(r.currentLineDraws[j]) <= r.currentTriangleDraws[i].startVertex
    ensures SumCounts(r.currentTriangleDraws) + SumCounts(r.currentLineDraws) == |r.currentVertices|
  {
    DescriptorsInOrder(r.submitted, Triangles);
    DescriptorsInOrder(r.submitted, Lines);
    DescriptorListsDisjoint(r.submitted);
    CountsAddUp(r.submitted);
  }

  /** A frame that fits in i32 is drawn with, per topology, its maximal contiguous runs, in
      increasing order; no vertex index is drawn by both topologies; and the vertex counts of all
      the calls together equal the renderer's vertex count. */
  lemma DrawCoversFrame(r: ImmediateRender)
    requires r.Valid() && |r.currentVertices| <= MAX_I32
    ensures Compacted(r.currentTriangleDraws) == Runs(r.currentTriangleDraws)
    ensures Compacted(r.currentLineDraws) == Runs(r.currentLineDraws)
    ensures Within(Compacted(r.currentTriangleDraws), |r.currentVertices|)
    ensures Within(Compacted(r.currentLineDraws), |r.currentVertices|)
    ensures SumCounts(Compacted(r.currentTriangleDraws)) + SumCounts(Compacted(r.currentLineDraws))
         == |r.currentVertices|
    ensures Ordered(Compacted(r.currentTriangleDraws)) && Ordered(Compacted(r.currentLineDraws))
    ensures forall v :: v in Spans(Compacted(r.currentTriangleDraws)) ==> v !in Spans(Compacted(r.currentLineDraws))
  {
    FrameCalls(r.submitted);
  }
}
