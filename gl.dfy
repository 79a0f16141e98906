/// The slice of the graphics context the renderer uses: resource handles that may be
/// absent, the two primitive topologies, and `draw_arrays` as an append to a trace.
module Gl {
  datatype Option<T> = None | Some(value: T)

  /** What a resource-creating GL call returned: a handle, or the error text it logged. */
  datatype Creation = Created(handle: nat) | Failed(message: string)

  /** The `match … { Ok(h) => Some(h), Err(_) => None }` every creation in `new` goes through. */
  function HandleOf(c: Creation): (h: Option<nat>)
    ensures h.Some? <==> c.Created?
    ensures c.Created? ==> h.value == c.handle
  {
    match c
    case Created(handle) => Some(handle)
    case Failed(_) => None
  }

  /** `glow::TRIANGLES` and `glow::LINES`. */
  datatype Primitive = Triangles | Lines

  /** One `gl.draw_arrays(primitive, first, count)` call. */
  datatype GlDraw = GlDraw(primitive: Primitive, first: int, count: int)

  /** The context, reduced to the sequence of draw calls issued on it. */
  class Context {
    var issued: seq<GlDraw>

    constructor ()
      ensures issued == []
    {
      issued := [];
    }

    method DrawArrays(primitive: Primitive, first: int, count: int)
      modifies this
      ensures issued == old(issued) + [GlDraw(primitive, first, count)]
    {
      issued := issued + [GlDraw(primitive, first, count)];
    }
  }
}
