# Immediate-mode renderer and XZ grid of rust-sdl2-webgl, in Dafny

This project models the per-frame geometry batcher of rust-sdl2-webgl (`ImmediateRender`) and
its one sequential client, `draw_grid_xz`.

Between `clear` and `draw`, the renderer collects three lists:
- a list of vertices;
- a list of triangle draw descriptors;
- a list of line draw descriptors.

Each descriptor is `(start_vertex, vertex_count)`. `add_triangle` appends three vertices, with
w = 1, and one 3-vertex triangle descriptor. `add_line` appends two vertices and one 2-vertex line
descriptor. In both, the descriptor starts at the old vertex count, cast to i32. `draw` sends the
triangle descriptors and then the line descriptors through `draw_compacted`. That function merges
each descriptor that starts where the pending run ends, and issues one `draw_arrays` per flushed
run. `draw_grid_xz` submits `steps_z + 1` rows along X and then `steps_x + 1` columns along Z, as
lines in one colour.

Modules, one per file:
- `Int32` (`int32.dfy`): Rust's `usize as i32`, wrapping modulo 2^32.
- `Geometry` (`geometry.dfy`): `Point3` and `Point4` over exact reals.
- `Gl` (`gl.dfy`): the handles `new` creates, which may be absent; the two topologies; and a
  `Context` class. Each `draw_arrays` appends a `GlDraw` to the context's `issued` trace.
- `DrawCalls` (`draw_calls.dfy`): the descriptor type, and the loop of `draw_compacted` as a
  function. `Step` is one iteration, `Scan` is the loop, and `Compacted` adds the final flush.
  `Runs` is an independent definition of the maximal contiguous runs. Lemmas connect the two.
- `Frame` (`frame.dfy`): a frame described by the order in which primitives were submitted.
  The vertex count (`Total`) and each descriptor list (`DrawsOf`) follow from that order.
- `Immediate` (`immediate_render.dfy`): the class `ImmediateRender`, with its vertex and
  descriptor lists as `seq` fields that its methods reassign. It also has a ghost field
  `submitted` and an invariant `Valid()`: the lists are exactly what `submitted` produces, and
  every stored position has w = 1. `DrawCompacted` is the source's `for` loop, proved against
  `Compacted`.
- `GridRender` (`grid_render.dfy`): `draw_grid_xz`. Its two counted loops are the methods
  `DrawRows` and `DrawColumns`, each proved against a specification of the lines it submits.

## Model

| member | source | states |
|---|---|---|
| Int32.AsI32 | rust-sdl2-webgl/src/render/immediate_render.rs:129 | the cast always yields an i32 that is congruent to the count modulo 2^32, which makes it the wrapped value; a count that fits in i32 is unchanged |
| Int32.AsI32WrapsAtBound | rust-sdl2-webgl/src/render/immediate_render.rs:148 | the first vertex count that does not fit, 2^31, is cast to the most negative i32 |
| Gl.Context.DrawArrays | rust-sdl2-webgl/src/render/immediate_render.rs:177 | a stub of the foreign `gl.draw_arrays` call (also at :187): it appends `(primitive, first, count)` to the context's trace of issued calls and does nothing else; the contracts of `DrawCompacted` and `Draw` are stated over this trace |
| Geometry.Homogeneous | rust-sdl2-webgl/src/render/immediate_render.rs:116-127 | the stored position has w = 1, and dropping w gives back the submitted point unchanged (the same lifting is used for `add_line` at :139-146) |
| Gl.HandleOf | rust-sdl2-webgl/src/render/immediate_render.rs:62-68 | a creation result becomes a present handle exactly when creation succeeded, and then it is the created handle |
| Immediate.ImmediateRender.constructor | rust-sdl2-webgl/src/render/immediate_render.rs:105-112 | each handle is present exactly when its creation succeeded; all three lists start empty; the shader must have loaded, since `new` unwraps it |
| Immediate.ImmediateRender.Cleanup | rust-sdl2-webgl/src/render/immediate_render.rs:31-41 | needs all three handles present, since it unwraps them; afterwards all three are absent |
| Immediate.ImmediateRender.AddTriangle | rust-sdl2-webgl/src/render/immediate_render.rs:115-136 | appends exactly the three vertices, in order, with w = 1 and the given colours; appends one triangle descriptor at the old vertex count with count 3; leaves the line descriptors unchanged; keeps `Valid` |
| Immediate.ImmediateRender.AddLine | rust-sdl2-webgl/src/render/immediate_render.rs:138-154 | appends exactly the two vertices, in order, with w = 1 and the given colours; appends one line descriptor at the old vertex count with count 2; leaves the triangle descriptors unchanged; keeps `Valid` |
| Immediate.ImmediateRender.Clear | rust-sdl2-webgl/src/render/immediate_render.rs:156-160 | the vertex list and both descriptor lists become empty, and `Valid` holds |
| Immediate.ImmediateRender.DrawCompacted | rust-sdl2-webgl/src/render/immediate_render.rs:162-190 | the loop issues, after the calls already on the context, one `draw_arrays` per run of `Compacted(draws)`, in order |
| Immediate.ImmediateRender.Draw | rust-sdl2-webgl/src/render/immediate_render.rs:192-206 | leaves the renderer unchanged; issues the compacted triangle calls, then the compacted line calls, so no line call comes before a triangle call |
| Immediate.DescriptorsTile | rust-sdl2-webgl/src/render/immediate_render.rs:128-135 | for a vertex list that fits in i32, the invariant gives: every range lies in the vertex list with a positive count; starts strictly increase within each list; no triangle range overlaps a line range; the counts of both lists add up to the vertex count |
| Immediate.DrawCoversFrame | rust-sdl2-webgl/src/render/immediate_render.rs:204-205 | for a frame that fits in i32, each topology is drawn with exactly its maximal contiguous runs, inside the vertex list and in increasing, non-overlapping order; no vertex index is covered by both a triangle call and a line call; the counts of all calls add up to the vertex count |
| DrawCalls.Scan | rust-sdl2-webgl/src/render/immediate_render.rs:164-183 | the loop flushes at most one run per descriptor, and never a run with count 0 |
| DrawCalls.Compacted | rust-sdl2-webgl/src/render/immediate_render.rs:184-189 | draw_compacted issues at most one call per descriptor, and none with count 0 |
| DrawCalls.CompactedIsRuns | rust-sdl2-webgl/src/render/immediate_render.rs:162-190 | for descriptors with real starts and positive counts, what draw_compacted issues is exactly the maximal contiguous runs |
| DrawCalls.ScanIsRuns | rust-sdl2-webgl/src/render/immediate_render.rs:166-183 | after every descriptor, the loop has flushed every run but the last, and holds the last one pending in `last_vertex_index` and `current_vertex_count` |
| DrawCalls.PendingWithin | rust-sdl2-webgl/src/render/immediate_render.rs:164-183 | for in-bounds descriptors over a vertex list of `n`, at every point of the loop `last_vertex_index` and `current_vertex_count` both lie in `[-1, n]`, and `last_vertex_index + current_vertex_count <= n` |
| DrawCalls.RunsCount | rust-sdl2-webgl/src/render/immediate_render.rs:168-182 | the number of runs is 0 for no descriptors, otherwise 1 plus the number of gaps |
| DrawCalls.RunsSum | rust-sdl2-webgl/src/render/immediate_render.rs:170 | the runs' counts add up to the descriptors' counts |
| DrawCalls.RunsSpans | rust-sdl2-webgl/src/render/immediate_render.rs:168-181 | for descriptors with real starts and positive counts, the runs cover exactly the vertex indices the descriptors cover, in the same order |
| DrawCalls.RunsMaximal | rust-sdl2-webgl/src/render/immediate_render.rs:168 | no run could be merged with the one before it: each later run starts away from the previous run's end |
| DrawCalls.RunsOrdered | rust-sdl2-webgl/src/render/immediate_render.rs:168-182 | for descriptors with real starts and positive counts in increasing, non-overlapping order, the runs are in increasing, non-overlapping order too |
| DrawCalls.RunsEnds | rust-sdl2-webgl/src/render/immediate_render.rs:166-183 | for a non-empty list, the first run starts at the first descriptor, and the last run ends where the last descriptor ends |
| DrawCalls.RunsWellFormed | rust-sdl2-webgl/src/render/immediate_render.rs:170 | runs of descriptors with real starts and positive counts have real starts and positive counts |
| DrawCalls.RunsWithin | rust-sdl2-webgl/src/render/immediate_render.rs:168-181 | for descriptors with real starts and positive counts, runs of in-bounds descriptors are in bounds |
| DrawCalls.RunsSnoc | rust-sdl2-webgl/src/render/immediate_render.rs:168-182 | one more descriptor adds one run, unless it starts where the last descriptor ends |
| DrawCalls.ContiguousIsOneRun | rust-sdl2-webgl/src/render/immediate_render.rs:164-189 | a non-empty list without gaps is one run: the first start and the sum of all counts |
| DrawCalls.CompactedExample | rust-sdl2-webgl/src/render/immediate_render.rs:164-189 | `(0,3), (3,3), (9,3)` compacts to `(0,6)` and then `(9,3)` |
| DrawCalls.CompactedEmpty | rust-sdl2-webgl/src/render/immediate_render.rs:184-189 | an empty list issues no call |
| Frame.CountsAddUp | rust-sdl2-webgl/src/render/immediate_render.rs:128-135 | the triangle counts plus the line counts equal the vertex count |
| Frame.DescriptorsInOrder | rust-sdl2-webgl/src/render/immediate_render.rs:147-153 | while the vertex count fits in i32, each list holds in-bounds descriptors of its primitive's size, in strictly increasing, non-overlapping order |
| Frame.DescriptorListsDisjoint | rust-sdl2-webgl/src/render/immediate_render.rs:128-153 | while the vertex count fits in i32, no triangle range overlaps a line range |
| Frame.SingleKindEnds | rust-sdl2-webgl/src/render/immediate_render.rs:128-135 | submissions of one topology only record one descriptor each; the first starts at 0 and the last ends at the vertex count |
| Frame.SingleKindTiles | rust-sdl2-webgl/src/render/immediate_render.rs:128-135 | submissions of one topology only tile the vertex list without a gap, and their counts add up to the vertex count |
| Frame.SingleKindOneCall | rust-sdl2-webgl/src/render/immediate_render.rs:164-189 | a frame of one topology only is drawn with one call, from 0 over every vertex |
| Frame.CallsDisjoint | rust-sdl2-webgl/src/render/immediate_render.rs:204-205 | for a frame that fits in i32, each topology's calls are in increasing, non-overlapping order, so no call of one topology covers a vertex twice, and no vertex index is covered by both a triangle call and a line call |
| Frame.FrameCalls | rust-sdl2-webgl/src/render/immediate_render.rs:204-205 | for a frame that fits in i32, each topology's calls are its maximal contiguous runs, in bounds and in increasing, non-overlapping order; no vertex index is covered by both a triangle call and a line call; the counts of all calls add up to the vertex count |
| GridRender.InclusiveCount | rust-sdl2-webgl/src/render/grid_render.rs:10 | the number of values of Rust's `0..=hi`: none exactly when `hi < 0`, and otherwise the last value is `hi` (the same range is used at :16) |
| Geometry.Translate | rust-sdl2-webgl/src/render/grid_render.rs:13 | `p0 + Vector3::new(dx, dy, dz)` moves the point by exactly `dx`, `dy` and `dz` (also at :19) |
| GridRender.ZLine | rust-sdl2-webgl/src/render/grid_render.rs:12-13 | row `z` starts at the origin's x and y and `step_size * z` further along Z than the origin, and ends `dimensions.x` further along X at the same y and z |
| GridRender.XLine | rust-sdl2-webgl/src/render/grid_render.rs:18-19 | column `x` starts `step_size * x` further along X than the origin, at its y and z, and ends `dimensions.z` further along Z at the same x and y |
| GridRender.DrawRows | rust-sdl2-webgl/src/render/grid_render.rs:10-15 | the first loop submits exactly `steps_z + 1` rows, or none when `steps_z < 0`, as lines; appends their endpoints in the colour; appends back-to-back 2-vertex descriptors; leaves the triangle descriptors unchanged |
| GridRender.DrawColumns | rust-sdl2-webgl/src/render/grid_render.rs:16-21 | the second loop submits exactly `steps_x + 1` columns, or none when `steps_x < 0`, and otherwise the same as `DrawRows` |
| GridRender.DrawGridXZ | rust-sdl2-webgl/src/render/grid_render.rs:10-21 | the grid appends only lines: every row and then every column. The vertex count grows by twice the number of lines, and the line descriptors by one per line. The triangle descriptors are unchanged |
| GridRender.LineVerticesAt | rust-sdl2-webgl/src/render/grid_render.rs:14 | vertices `2k` and `2k + 1` of the stored grid are line `k`'s endpoints, in the caller's colour |
| GridRender.GridVerticesColoured | rust-sdl2-webgl/src/render/grid_render.rs:14 | every vertex the grid stores has the caller's colour and w = 1 |
| GridRender.GridRowsBeforeColumns | rust-sdl2-webgl/src/render/grid_render.rs:10-21 | line `k` is row `k` while `k < InclusiveCount(steps_z)`, and column `k - InclusiveCount(steps_z)` after that, that is `k - (steps_z + 1)` when `steps_z >= 0` |
| GridRender.GridAddsAtMostOneRun | rust-sdl2-webgl/src/render/grid_render.rs:10-21 | the grid's descriptors are contiguous, so appending them to a line list adds no run if they continue its last line and one run otherwise |

## Left out

- GPU resource setup in `new` is left out: shader source, buffer sizing from `max_vertex_count`, vertex attribute layout and binding. These are foreign `glow` calls. The constructor takes the three creation outcomes as parameters.
- The GL deletes in `cleanup` are left out. Only the handles becoming absent is modelled.
- In `draw`, the vertex upload, `use_program`, the view-projection uniform and the VAO binding are left out. The camera is not modelled, so `Draw` takes no camera.
- The attribute-location `unwrap`s in `new` are not modelled as panics. The model does require the shader program, which is unwrapped first.
- Console logging of failed creations is not modelled; only the error text is kept in `Creation.Failed`.
- `f32` coordinates and colours are modelled as exact reals, so rounding in the grid's endpoint arithmetic is not captured.
- GridRender.DrawGridXZ: takes `steps_x` and `steps_z` as i32 inputs; the `(dimensions / step_size).ceil() as i32` that computes them is floating point.
- Immediate.ImmediateRender.DrawCompacted: `last_vertex_index + current_vertex_count` and the `+=` accumulator are unbounded integers, so i32 overflow is not modelled. For descriptors that lie in a vertex list of at most MAX_I32 vertices, `DrawCalls.PendingWithin` shows that at every point of the loop `last_vertex_index` and `current_vertex_count` lie in `[-1, n]` and their sum is at most `n`. So the sum and the accumulator stay in i32 for every frame that `DescriptorsTile` covers.
- Vertex-list capacity (`max_vertex_count`) is not modelled. The source does not check it when adding vertices.
- `camera.rs`, `top_down_camera.rs`, the application, windowing and context setup, `gl_utils.rs` and logging are not part of this model.
