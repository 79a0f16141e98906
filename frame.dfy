/// The frame the renderer accumulates between `clear` and `draw`, described by the order in
/// which primitives were submitted. From that order alone follow the vertex count and both
/// descriptor lists, exactly as `add_triangle` and `add_line` record them.
module Frame {
  import opened Gl
  import opened Int32
  import opened DrawCalls

  /** Vertices one submission appends: three for a triangle, two for a line. */
  function Size(p: Primitive): nat
  {
    match p
    case Triangles => 3
    case Lines => 2
  }

  /** The vertex count after the submissions `kinds`. */
  function Total(kinds: seq<Primitive>): nat
  {
    if kinds == [] then 0 else Total(kinds[..|kinds| - 1]) + Size(kinds[|kinds| - 1])
  }

  /** The descriptors of topology `p` after the submissions `kinds`: one per submission of that
      topology, starting at the vertex count before it, cast to i32. */
  function DrawsOf(kinds: seq<Primitive>, p: Primitive): seq<Drawcall>
  {
    if kinds == [] then []
    else
      var prefix := kinds[..|kinds| - 1];
      DrawsOf(prefix, p) + if kinds[|kinds| - 1] == p then [Drawcall(AsI32(Total(prefix)), Size(p))] else []
  }

  lemma TotalSnoc(kinds: seq<Primitive>, q: Primitive)
    ensures Total(kinds + [q]) == Total(kinds) + Size(q)
  {
    assert (kinds + [q])[..|kinds|] == kinds;
  }

  lemma DrawsOfSnoc(kinds: seq<Primitive>, q: Primitive, p: Primitive)
    ensures DrawsOf(kinds + [q], p)
         == DrawsOf(kinds, p) + if q == p then [Drawcall(AsI32(Total(kinds)), Size(p))] else []
  {
    assert (kinds + [q])[..|kinds|] == kinds;
  }

  /** The triangle counts plus the line counts add up to the vertex count. */
  lemma {:induction false} CountsAddUp(kinds: seq<Primitive>)
    ensures SumCounts(DrawsOf(kinds, Triangles)) + SumCounts(DrawsOf(kinds, Lines)) == Total(kinds)
  {
    if kinds != [] {
      var prefix, q := kinds[..|kinds| - 1], kinds[|kinds| - 1];
      CountsAddUp(prefix);
      assert kinds == prefix + [q];
      DrawsOfSnoc(prefix, q, Triangles);
      DrawsOfSnoc(prefix, q, Lines);
      var d := Drawcall(AsI32(Total(prefix)), Size(q));
      if q == Triangles {
        assert DrawsOf(kinds, Lines) == DrawsOf(prefix, Lines);
        SumCountsSnoc(DrawsOf(prefix, Triangles), d);
      } else {
        assert DrawsOf(kinds, Triangles) == DrawsOf(prefix, Triangles);
        SumCountsSnoc(DrawsOf(prefix, Lines), d);
      }
    }
  }

  /** While the vertex count fits in an i32, each list holds well-formed descriptors of its
      primitive's size, inside the vertex list, in strictly increasing, non-overlapping order. */
  lemma {:induction false} DescriptorsInOrder(kinds: seq<Primitive>, p: Primitive)
    requires Total(kinds) <= MAX_I32
    ensures WellFormed(DrawsOf(kinds, p)) && Within(DrawsOf(kinds, p), Total(kinds))
    ensures Ordered(DrawsOf(kinds, p))
    ensures forall i :: 0 <= i < |DrawsOf(kinds, p)| ==> DrawsOf(kinds, p)[i].vertexCount == Size(p)
  {
    if kinds != [] {
      var prefix, q := kinds[..|kinds| - 1], kinds[|kinds| - 1];
      DescriptorsInOrder(prefix, p);
    }
  }

  /** While the vertex count fits in an i32, no triangle range overlaps any line range. */
  lemma {:induction false} DescriptorListsDisjoint(kinds: seq<Primitive>)
    requires Total(kinds) <= MAX_I32
    ensures forall i, j :: 0 <= i < |DrawsOf(kinds, Triangles)| && 0 <= j < |DrawsOf(kinds, Lines)| ==>
      End(DrawsOf(kinds, Triangles)[i]) <= DrawsOf(kinds, Lines)[j].startVertex ||
      End(DrawsOf(kinds, Lines)[j]) <= DrawsOf(kinds, Triangles)[i].startVertex
  {
    if kinds != [] {
      var prefix := kinds[..|kinds| - 1];
      DescriptorListsDisjoint(prefix);
      DescriptorsInOrder(prefix, Triangles);
      DescriptorsInOrder(prefix, Lines);
    }
  }

  /** Submissions of one topology only record one descriptor each, the first at vertex 0 and
      the last ending at the vertex count. */
  lemma {:induction false} SingleKindEnds(kinds: seq<Primitive>, p: Primitive)
    requires Total(kinds) <= MAX_I32
    requires forall k :: 0 <= k < |kinds| ==> kinds[k] == p
    ensures |DrawsOf(kinds, p)| == |kinds|
    ensures kinds != [] ==> DrawsOf(kinds, p)[0].startVertex == 0 && End(Last(DrawsOf(kinds, p))) == Total(kinds)
  {
    if kinds != [] {
      var prefix := kinds[..|kinds| - 1];
      SingleKindEnds(prefix, p);
      var ds := DrawsOf(prefix, p);
      var d := Drawcall(Total(prefix), Size(p));
      assert DrawsOf(kinds, p) == ds + [d];
      if prefix != [] {
        assert (ds + [d])[0] == ds[0];
      }
    }
  }

  /** Submissions of one topology only tile the vertex list from 0 without a gap. */
  lemma {:induction false} SingleKindTiles(kinds: seq<Primitive>, p: Primitive)
    requires Total(kinds) <= MAX_I32
    requires forall k :: 0 <= k < |kinds| ==> kinds[k] == p
    ensures |DrawsOf(kinds, p)| == |kinds| && Gaps(DrawsOf(kinds, p)) == 0
    ensures SumCounts(DrawsOf(kinds, p)) == Total(kinds)
    ensures kinds != [] ==> DrawsOf(kinds, p)[0].startVertex == 0 && End(Last(DrawsOf(kinds, p))) == Total(kinds)
  {
    SingleKindEnds(kinds, p);
    if kinds != [] {
      var prefix := kinds[..|kinds| - 1];
      SingleKindTiles(prefix, p);
      var ds := DrawsOf(prefix, p);
      var d := Drawcall(Total(prefix), Size(p));
      assert DrawsOf(kinds, p) == ds + [d];
      assert (ds + [d])[..|ds|] == ds;
      SumCountsSnoc(ds, d);
    }
  }

  /** While the vertex count fits in an i32, each topology's calls are ordered, so no vertex is
      drawn twice by one topology, and no vertex index is covered by both a triangle call and a
      line call. */
  lemma CallsDisjoint(kinds: seq<Primitive>)
    requires Total(kinds) <= MAX_I32
    ensures Ordered(Compacted(DrawsOf(kinds, Triangles))) && Ordered(Compacted(DrawsOf(kinds, Lines)))
    ensures forall v :: v in Spans(Compacted(DrawsOf(kinds, Triangles))) ==> v !in Spans(Compacted(DrawsOf(kinds, Lines)))
  {
    var tris, lines := DrawsOf(kinds, Triangles), DrawsOf(kinds, Lines);
    DescriptorsInOrder(kinds, Triangles);
    DescriptorsInOrder(kinds, Lines);
    DescriptorListsDisjoint(kinds);
    CompactedIsRuns(tris);
    CompactedIsRuns(lines);
    RunsOrdered(tris);
    RunsOrdered(lines);
    RunsSpans(tris);
    RunsSpans(lines);
    forall v | v in Spans(tris)
      ensures v !in Spans(lines)
    {
      SpansMember(tris, v);
      var i :| 0 <= i < |tris| && tris[i].startVertex <= v < End(tris[i]);
      SpansOutside(lines, v);
    }
  }

  /** A frame of one topology only is drawn with a single call covering every vertex. */
  lemma SingleKindOneCall(kinds: seq<Primitive>, p: Primitive)
    requires kinds != [] && Total(kinds) <= MAX_I32
    requires forall k :: 0 <= k < |kinds| ==> kinds[k] == p
    ensures Compacted(DrawsOf(kinds, p)) == [Drawcall(0, Total(kinds))]
  {
    SingleKindTiles(kinds, p);
    DescriptorsInOrder(kinds, p);
    CompactedIsRuns(DrawsOf(kinds, p));
    ContiguousIsOneRun(DrawsOf(kinds, p));
  }

  /** What `draw` issues for a frame that fits in i32: per topology the maximal contiguous runs of
      its descriptors, inside the vertex list and in increasing order; no index drawn by both
      topologies; and counts that add up to the vertex count. */
  lemma FrameCalls(kinds: seq<Primitive>)
    requires Total(kinds) <= MAX_I32
    ensures Compacted(DrawsOf(kinds, Triangles)) == Runs(DrawsOf(kinds, Triangles))
    ensures Compacted(DrawsOf(kinds, Lines)) == Runs(DrawsOf(kinds, Lines))
    ensures Within(Compacted(DrawsOf(kinds, Triangles)), Total(kinds))
    ensures Within(Compacted(DrawsOf(kinds, Lines)), Total(kinds))
    ensures SumCounts(Compacted(DrawsOf(kinds, Triangles))) + SumCounts(Compacted(DrawsOf(kinds, Lines)))
         == Total(kinds)
    ensures Ordered(Compacted(DrawsOf(kinds, Triangles))) && Ordered(Compacted(DrawsOf(kinds, Lines)))
    ensures forall v :: v in Spans(Compacted(DrawsOf(kinds, Triangles))) ==> v !in Spans(Compacted(DrawsOf(kinds, Lines)))
  {
    CallsDisjoint(kinds);
    var tris, lines := DrawsOf(kinds, Triangles), DrawsOf(kinds, Lines);
    DescriptorsInOrder(kinds, Triangles);
    DescriptorsInOrder(kinds, Lines);
    CompactedIsRuns(tris);
    CompactedIsRuns(lines);
    RunsWithin(tris, Total(kinds));
    RunsWithin(lines, Total(kinds));
    RunsSum(tris);
    RunsSum(lines);
    CountsAddUp(kinds);
  }
}
