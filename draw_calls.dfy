/// Draw descriptors and the compaction that `ImmediateRender::draw_compacted` performs on a
/// list of them: the loop written as a function (Scan, Compacted), an independent definition
/// of the maximal contiguous runs (Runs), and the facts connecting the two.
module DrawCalls {
  /** `ImmediateRenderDrawcall`: `vertexCount` vertices starting at index `startVertex`. */
  datatype Drawcall = Drawcall(startVertex: int, vertexCount: int)

  /** The index one past the descriptor's last vertex. */
  function End(d: Drawcall): int
  {
    d.startVertex + d.vertexCount
  }

  function Last(ds: seq<Drawcall>): Drawcall
    requires ds != []
  {
    ds[|ds| - 1]
  }

  function SumCounts(ds: seq<Drawcall>): int
  {
    if ds == [] then 0 else SumCounts(ds[..|ds| - 1]) + Last(ds).vertexCount
  }

  /** Descriptors as the renderer records them: a real vertex index and a non-empty range. */
  predicate WellFormed(ds: seq<Drawcall>)
  {
    forall i :: 0 <= i < |ds| ==> ds[i].startVertex >= 0 && ds[i].vertexCount > 0
  }

  /** Every range lies inside `[0, n)`. */
  predicate Within(ds: seq<Drawcall>, n: int)
  {
    forall i :: 0 <= i < |ds| ==> 0 <= ds[i].startVertex && End(ds[i]) <= n
  }

  /** Each range ends no later than any later one starts. */
  predicate Ordered(ds: seq<Drawcall>)
  {
    forall i, j :: 0 <= i < j < |ds| ==> End(ds[i]) <= ds[j].startVertex
  }

  /** The number of places where a descriptor does not begin where the one before it ends. */
  function Gaps(ds: seq<Drawcall>): nat
  {
    if |ds| <= 1 then 0
    else
      var prefix := ds[..|ds| - 1];
      Gaps(prefix) + if Last(ds).startVertex == End(Last(prefix)) then 0 else 1
  }

  /** The vertex indices a descriptor covers, in increasing order. */
  function Span(d: Drawcall): seq<int>
  {
    if d.vertexCount <= 0 then [] else seq(d.vertexCount, i => d.startVertex + i)
  }

  /** The vertex indices a list of descriptors covers, in list order. */
  function Spans(ds: seq<Drawcall>): seq<int>
  {
    if ds == [] then [] else Spans(ds[..|ds| - 1]) + Span(Last(ds))
  }

  // ---------------------------------------------------------------------------------------
  // The loop of draw_compacted, one descriptor at a time.

  /** The loop's state: the runs flushed so far, `last_vertex_index` and `current_vertex_count`. */
  datatype Pending = Pending(issued: seq<Drawcall>, last: int, count: int)

  const Initial: Pending := Pending([], -1, 0)

  /** What flushing the pending run issues: the run itself unless it is empty. */
  function Flushed(p: Pending): seq<Drawcall>
  {
    if p.count > 0 then [Drawcall(p.last, p.count)] else []
  }

  /** The body of the loop for one descriptor `d`. */
  function Step(p: Pending, d: Drawcall): Pending
  {
    if d.startVertex == p.last + p.count then
      p.(count := p.count + d.vertexCount)
    else
      Pending(p.issued + Flushed(p), d.startVertex, d.vertexCount)
  }

  /** The loop's state after it has visited every descriptor of `ds`. */
  function Scan(ds: seq<Drawcall>): (p: Pending)
    ensures |p.issued| + (if p.count > 0 then 1 else 0) <= |ds|
    ensures forall i :: 0 <= i < |p.issued| ==> p.issued[i].vertexCount > 0
  {
    if ds == [] then Initial else Step(Scan(ds[..|ds| - 1]), Last(ds))
  }

  /** The runs draw_compacted issues for `ds`, in order: those flushed in the loop, then the
      pending one unless it is still the initial sentinel or is empty. Never an empty run. */
  function Compacted(ds: seq<Drawcall>): (runs: seq<Drawcall>)
    ensures |runs| <= |ds|
    ensures forall i :: 0 <= i < |runs| ==> runs[i].vertexCount > 0
  {
    var p := Scan(ds);
    p.issued + if p.last != -1 && p.count > 0 then [Drawcall(p.last, p.count)] else []
  }

  // ---------------------------------------------------------------------------------------
  // The reference: maximal contiguous runs.

  /** Whether `d`, placed after `prefix`, starts where the descriptor before it ends. */
  predicate Joins(prefix: seq<Drawcall>, d: Drawcall)
  {
    prefix != [] && d.startVertex == End(Last(prefix))
  }

  /** The runs `rs` followed by `d`: the last run lengthened by `d` when `joins`, otherwise `d`
      as a run of its own. */
  function Extend(rs: seq<Drawcall>, d: Drawcall, joins: bool): (runs: seq<Drawcall>)
    ensures runs != []
  {
    if joins && rs != [] then
      rs[..|rs| - 1] + [Drawcall(Last(rs).startVertex, Last(rs).vertexCount + d.vertexCount)]
    else
      rs + [d]
  }

  /** The maximal contiguous runs of `ds`: a new run begins exactly where a descriptor does
      not start at the end of the descriptor before it; otherwise it lengthens the current run. */
  function Runs(ds: seq<Drawcall>): seq<Drawcall>
  {
    if ds == [] then []
    else
      var prefix := ds[..|ds| - 1];
      Extend(Runs(prefix), Last(ds), Joins(prefix, Last(ds)))
  }

  lemma RunsAppend(prefix: seq<Drawcall>, d: Drawcall)
    ensures Runs(prefix + [d]) == Extend(Runs(prefix), d, Joins(prefix, d))
  {
    assert (prefix + [d])[..|prefix|] == prefix;
  }

  /** A descriptor that starts where the one before it ends lengthens the last run, which ends
      where that descriptor starts. */
  lemma RunsJoin(ds: seq<Drawcall>)
    requires ds != [] && Joins(ds[..|ds| - 1], Last(ds))
    ensures Runs(ds[..|ds| - 1]) != []
    ensures End(Last(Runs(ds[..|ds| - 1]))) == Last(ds).startVertex
    ensures Runs(ds) == Extend(Runs(ds[..|ds| - 1]), Last(ds), true)
  {
    RunsEnds(ds[..|ds| - 1]);
  }

  /** Any other descriptor begins a run of its own. */
  lemma RunsBreak(ds: seq<Drawcall>)
    requires ds != [] && !Joins(ds[..|ds| - 1], Last(ds))
    ensures Runs(ds) == Runs(ds[..|ds| - 1]) + [Last(ds)]
  {
  }

  /** A non-empty list has runs; the first starts where the list starts and the last ends where
      the list ends. */
  lemma {:induction false} RunsEnds(ds: seq<Drawcall>)
    requires ds != []
    ensures Runs(ds) != []
    ensures Runs(ds)[0].startVertex == ds[0].startVertex
    ensures End(Last(Runs(ds))) == End(Last(ds))
  {
    var prefix := ds[..|ds| - 1];
    if prefix != [] {
      RunsEnds(prefix);
      assert prefix[0] == ds[0];
    }
  }

  /** One run, plus one more at every gap. */
  lemma {:induction false} RunsCount(ds: seq<Drawcall>)
    ensures |Runs(ds)| == if ds == [] then 0 else 1 + Gaps(ds)
  {
    if ds != [] {
      var prefix := ds[..|ds| - 1];
      RunsCount(prefix);
      if prefix != [] {
        RunsEnds(prefix);
      }
    }
  }

  /** Runs of descriptors with real starts and positive counts have real starts and positive counts. */
  lemma {:induction false} RunsWellFormed(ds: seq<Drawcall>)
    requires WellFormed(ds)
    ensures WellFormed(Runs(ds))
  {
    if ds != [] {
      RunsWellFormed(ds[..|ds| - 1]);
    }
  }

  /** Appending a descriptor adds a run unless it starts where the last descriptor ends. */
  lemma RunsSnoc(ds: seq<Drawcall>, d: Drawcall)
    ensures |Runs(ds + [d])| == |Runs(ds)| + if Joins(ds, d) then 0 else 1
  {
    RunsAppend(ds, d);
    if ds != [] {
      RunsEnds(ds);
    }
  }

  lemma SumCountsSnoc(ds: seq<Drawcall>, d: Drawcall)
    ensures SumCounts(ds + [d]) == SumCounts(ds) + d.vertexCount
  {
    assert (ds + [d])[..|ds|] == ds;
  }

  lemma SpansSnoc(ds: seq<Drawcall>, d: Drawcall)
    ensures Spans(ds + [d]) == Spans(ds) + Span(d)
  {
    assert (ds + [d])[..|ds|] == ds;
  }

  /** Lengthening a positive run by the positive range that starts at its end covers the two spans. */
  lemma SpanJoin(r: Drawcall, d: Drawcall)
    requires r.vertexCount > 0 && d.vertexCount > 0 && d.startVertex == End(r)
    ensures Span(Drawcall(r.startVertex, r.vertexCount + d.vertexCount)) == Span(r) + Span(d)
  {
  }


  /** A descriptor that lengthens the last run adds its count to the runs' total. */
  lemma RunsSumJoin(ds: seq<Drawcall>)
    requires ds != [] && Joins(ds[..|ds| - 1], Last(ds))
    requires SumCounts(Runs(ds[..|ds| - 1])) == SumCounts(ds[..|ds| - 1])
    ensures SumCounts(Runs(ds)) == SumCounts(ds)
  {
    RunsJoin(ds);
    var rs := Runs(ds[..|ds| - 1]);
    SumCountsSnoc(rs[..|rs| - 1], Drawcall(Last(rs).startVertex, Last(rs).vertexCount + Last(ds).vertexCount));
  }

  /** A descriptor that begins a run adds its count to the runs' total. */
  lemma RunsSumBreak(ds: seq<Drawcall>)
    requires ds != [] && !Joins(ds[..|ds| - 1], Last(ds))
    requires SumCounts(Runs(ds[..|ds| - 1])) == SumCounts(ds[..|ds| - 1])
    ensures SumCounts(Runs(ds)) == SumCounts(ds)
  {
    RunsBreak(ds);
    SumCountsSnoc(Runs(ds[..|ds| - 1]), Last(ds));
  }

  /** Runs keeps the total vertex count of the descriptors. */
  lemma {:induction false} RunsSum(ds: seq<Drawcall>)
    ensures SumCounts(Runs(ds)) == SumCounts(ds)
  {
    if ds != [] {
      RunsSum(ds[..|ds| - 1]);
      if Joins(ds[..|ds| - 1], Last(ds)) {
        RunsSumJoin(ds);
      } else {
        RunsSumBreak(ds);
      }
    }
  }

  /** Lengthening the last positive run by the positive range at its end appends that range's indices. */
  lemma SpansExtendLast(rs: seq<Drawcall>, d: Drawcall)
    requires rs != [] && Last(rs).vertexCount > 0 && d.vertexCount > 0 && d.startVertex == End(Last(rs))
    ensures Spans(Extend(rs, d, true)) == Spans(rs) + Span(d)
  {
    var init, r := rs[..|rs| - 1], Last(rs);
    var ext := Drawcall(r.startVertex, r.vertexCount + d.vertexCount);
    SpansSnoc(init, ext);
    SpanJoin(r, d);
    assert Spans(rs) == Spans(init) + Span(r);
    AppendAssoc(Spans(init), Span(r), Span(d));
  }

  lemma AppendAssoc(a: seq<int>, b: seq<int>, c: seq<int>)
    ensures a + (b + c) == (a + b) + c
  {
  }

  /** A descriptor that lengthens the last run appends its indices to the runs' indices. */
  lemma RunsSpansJoin(ds: seq<Drawcall>)
    requires ds != [] && Joins(ds[..|ds| - 1], Last(ds)) && WellFormed(ds)
    requires Spans(Runs(ds[..|ds| - 1])) == Spans(ds[..|ds| - 1])
    ensures Spans(Runs(ds)) == Spans(ds)
  {
    RunsJoin(ds);
    RunsWellFormed(ds[..|ds| - 1]);
    var rs := Runs(ds[..|ds| - 1]);
    assert Last(rs).vertexCount > 0;
    SpansExtendLast(rs, Last(ds));
  }

  /** A descriptor that begins a run appends its indices to the runs' indices. */
  lemma RunsSpansBreak(ds: seq<Drawcall>)
    requires ds != [] && !Joins(ds[..|ds| - 1], Last(ds))
    requires Spans(Runs(ds[..|ds| - 1])) == Spans(ds[..|ds| - 1])
    ensures Spans(Runs(ds)) == Spans(ds)
  {
    RunsBreak(ds);
    SpansSnoc(Runs(ds[..|ds| - 1]), Last(ds));
  }

  /** The runs cover exactly the vertex indices the descriptors cover, in the same order. */
  lemma {:induction false} RunsSpans(ds: seq<Drawcall>)
    requires WellFormed(ds)
    ensures Spans(Runs(ds)) == Spans(ds)
  {
    if ds != [] {
      RunsSpans(ds[..|ds| - 1]);
      if Joins(ds[..|ds| - 1], Last(ds)) {
        RunsSpansJoin(ds);
      } else {
        RunsSpansBreak(ds);
      }
    }
  }

  /** No run could be lengthened: each run after the first starts away from the previous one's end. */
  lemma {:induction false} RunsMaximal(ds: seq<Drawcall>)
    ensures forall k :: 0 < k < |Runs(ds)| ==> Runs(ds)[k].startVertex != End(Runs(ds)[k - 1])
  {
    if ds != [] {
      var prefix := ds[..|ds| - 1];
      RunsMaximal(prefix);
      if prefix != [] {
        RunsEnds(prefix);
      }
    }
  }

  /** Runs of descriptors that lie in `[0, n)` lie in `[0, n)` too. */
  lemma {:induction false} RunsWithin(ds: seq<Drawcall>, n: int)
    requires WellFormed(ds) && Within(ds, n)
    ensures Within(Runs(ds), n)
  {
    if ds != [] {
      var prefix := ds[..|ds| - 1];
      RunsWithin(prefix, n);
      RunsWellFormed(prefix);
      if prefix != [] {
        RunsEnds(prefix);
      }
    }
  }

  /** Runs of ordered descriptors with positive counts are ordered: no two runs overlap. */
  lemma {:induction false} RunsOrdered(ds: seq<Drawcall>)
    requires WellFormed(ds) && Ordered(ds)
    ensures Ordered(Runs(ds))
  {
    if ds != [] {
      var prefix := ds[..|ds| - 1];
      RunsOrdered(prefix);
      RunsWellFormed(prefix);
      if prefix != [] {
        RunsEnds(prefix);
      }
    }
  }

  /** An index the descriptors cover lies in the range of one of them. */
  lemma {:induction false} SpansMember(ds: seq<Drawcall>, v: int)
    requires v in Spans(ds)
    ensures exists i :: 0 <= i < |ds| && ds[i].startVertex <= v < End(ds[i])
  {
    var prefix, d := ds[..|ds| - 1], Last(ds);
    if v in Spans(prefix) {
      SpansMember(prefix, v);
      var i :| 0 <= i < |prefix| && prefix[i].startVertex <= v < End(prefix[i]);
      assert ds[i] == prefix[i];
    } else {
      assert v in Span(d);
      var k :| 0 <= k < |Span(d)| && Span(d)[k] == v;
      assert ds[|ds| - 1] == d;
    }
  }

  /** An index that no descriptor's range holds is not covered. */
  lemma {:induction false} SpansOutside(ds: seq<Drawcall>, v: int)
    requires forall i :: 0 <= i < |ds| ==> !(ds[i].startVertex <= v < End(ds[i]))
    ensures v !in Spans(ds)
  {
    if ds != [] {
      var prefix, d := ds[..|ds| - 1], Last(ds);
      SpansOutside(prefix, v);
      forall k | 0 <= k < |Span(d)|
        ensures Span(d)[k] != v
      {
      }
    }
  }

  /** A non-empty list without gaps compacts to one run: its first start and its total count. */
  lemma ContiguousIsOneRun(ds: seq<Drawcall>)
    requires ds != [] && Gaps(ds) == 0
    ensures Runs(ds) == [Drawcall(ds[0].startVertex, SumCounts(ds))]
  {
    RunsSum(ds);
    RunsCount(ds);
    RunsEnds(ds);
    var rs := Runs(ds);
    assert rs == [] + [rs[0]];
    SumCountsSnoc([], rs[0]);
  }

  /** For well-formed descriptors the loop's state, before its final flush, is every run but the
      last one already flushed and the last one pending. */
  lemma {:induction false} ScanIsRuns(ds: seq<Drawcall>)
    requires WellFormed(ds) && ds != []
    ensures Runs(ds) != []
    ensures Scan(ds) == Pending(Runs(ds)[..|Runs(ds)| - 1], Last(Runs(ds)).startVertex, Last(Runs(ds)).vertexCount)
  {
    var prefix, d := ds[..|ds| - 1], Last(ds);
    if prefix != [] {
      ScanIsRuns(prefix);
      RunsWellFormed(prefix);
      RunsEnds(prefix);
      var rs := Runs(prefix);
      assert rs == rs[..|rs| - 1] + [Last(rs)];
    }
  }

  /** At every point of the loop over in-bounds descriptors, the pending run lies in `[0, n)`:
      `last_vertex_index` is at least -1, `current_vertex_count` at least 0, and their sum, which
      the loop compares against each start, at most `n`. */
  lemma PendingWithin(ds: seq<Drawcall>, n: int, i: nat)
    requires WellFormed(ds) && Within(ds, n) && 0 <= n && i <= |ds|
    ensures -1 <= Scan(ds[..i]).last && 0 <= Scan(ds[..i]).count
    ensures Scan(ds[..i]).last + Scan(ds[..i]).count <= n
    ensures Scan(ds[..i]).last <= n && Scan(ds[..i]).count <= n
  {
    if i > 0 {
      var prefix := ds[..i];
      assert WellFormed(prefix) && Within(prefix, n);
      ScanIsRuns(prefix);
      RunsWellFormed(prefix);
      RunsWithin(prefix, n);
      var rs := Runs(prefix);
      assert Last(rs) == rs[|rs| - 1];
    }
  }

  /** For the descriptors the renderer records, draw_compacted issues exactly the maximal
      contiguous runs. */
  lemma CompactedIsRuns(ds: seq<Drawcall>)
    requires WellFormed(ds)
    ensures Compacted(ds) == Runs(ds)
  {
    if ds != [] {
      ScanIsRuns(ds);
      RunsWellFormed(ds);
      var rs := Runs(ds);
      assert rs == rs[..|rs| - 1] + [Last(rs)];
    }
  }

  /** The worked case: `(0,3), (3,3), (9,3)` compacts to `(0,6)` then `(9,3)`. */
  lemma CompactedExample()
    ensures Compacted([Drawcall(0, 3), Drawcall(3, 3), Drawcall(9, 3)]) == [Drawcall(0, 6), Drawcall(9, 3)]
  {
    var ds := [Drawcall(0, 3), Drawcall(3, 3), Drawcall(9, 3)];
    assert ds[..2] == [Drawcall(0, 3), Drawcall(3, 3)];
    assert ds[..2][..1] == [Drawcall(0, 3)];
    assert Scan([Drawcall(0, 3)]) == Pending([], 0, 3);
    assert Scan(ds[..2]) == Pending([], 0, 6);
    assert Scan(ds) == Pending([Drawcall(0, 6)], 9, 3);
  }

  /** An empty list issues nothing. */
  lemma CompactedEmpty()
    ensures Compacted([]) == []
  {
  }
}
