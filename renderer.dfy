/** The frame context and its draw scope. A scope records draw commands under
    its paint state (depth and colour) without touching the GPU; its flush sorts
    them by depth, concatenates their floats, builds the batch list and, when
    there is anything to draw, appends the upload, draw and resolve calls to the
    frame context's call log. */
module Renderer {
  import opened Vertex
  import opened Commands
  import opened GlCalls

  newtype u32 = x: int | 0 <= x < 0x1_0000_0000

  /** Rust's `as i32` on a `u32`: the same 32 bits read as two's complement. */
  function AsI32(v: u32): (r: int)
    ensures -0x8000_0000 <= r < 0x8000_0000
    ensures r == v as int || r == v as int - 0x1_0000_0000
  {
    if v < 0x8000_0000 then v as int else v as int - 0x1_0000_0000
  }

  /** The frame context: its cached viewport size and the calls it has sent to
      the GPU since it was set up. */
  class Graphics {
    var viewportSize: (u32, u32)
    var log: seq<GlCall>

    /** A context whose GPU objects are already set up, on a viewport of the
        given size (what `glGetIntegerv(GL_VIEWPORT)` reported). */
    constructor (width: u32, height: u32)
      ensures viewportSize == (width, height) && log == []
    {
      viewportSize := (width, height);
      log := [];
    }

    /** `set_viewport`: resizes the GPU viewport, issues `glUniform2f` at the
        `uViewport` location with the new size, and caches it. No program is
        selected first, so the uniform goes to whichever program is current. */
    method SetViewport(width: u32, height: u32)
      modifies this
      ensures viewportSize == (width, height)
      ensures log == old(log) + [Viewport(0, 0, AsI32(width), AsI32(height)),
                                 Uniform2f(ViewportUniform, width as real, height as real)]
    {
      log := log + [Viewport(0, 0, AsI32(width), AsI32(height))];
      log := log + [Uniform2f(ViewportUniform, width as real, height as real)];
      viewportSize := (width, height);
    }

    /** `push`: opens a scope on this context, with depth 0, colour white and no
        commands. Nothing is sent to the GPU. */
    method Push() returns (scope: Scope)
      ensures fresh(scope) && scope.graphics == this
      ensures scope.depth == 0.0 && scope.color == WHITE && scope.commands == []
      ensures !scope.closed && scope.Valid()
    {
      scope := new Scope(this);
    }
  }

  /** A draw scope. `closed` records that its flush has run: in the source the
      flush is the scope's destructor, so nothing can be recorded after it and
      it runs once. */
  class Scope {
    const graphics: Graphics
    var depth: real
    var color: Color
    var commands: seq<Command>
    var closed: bool

    /** Every recorded command is one rectangle. */
    ghost predicate Valid()
      reads this
    {
      AllRects(commands)
    }

    constructor (graphics: Graphics)
      ensures this.graphics == graphics
      ensures depth == 0.0 && color == WHITE && commands == [] && !closed
      ensures Valid()
    {
      this.graphics := graphics;
      depth := 0.0;
      color := WHITE;
      commands := [];
      closed := false;
    }

    /** `set_depth`: changes the depth of later commands only. */
    method SetDepth(depth: real)
      requires Valid() && !closed
      modifies this`depth
      ensures Valid()
      ensures this.depth == depth
      ensures commands == old(commands) && color == old(color)
    {
      this.depth := depth;
    }

    /** `set_color`: changes the colour of later commands only. */
    method SetColor(color: Color)
      requires Valid() && !closed
      modifies this`color
      ensures Valid()
      ensures this.color == color
      ensures commands == old(commands) && depth == old(depth)
    {
      this.color := color;
    }

    /** `draw_rect`: appends one rectangle command under the current paint state
        and leaves the earlier commands and the paint state as they were. */
    method DrawRect(x: real, y: real, width: real, height: real)
      requires Valid() && !closed
      modifies this`commands
      ensures Valid()
      ensures commands == old(commands) + [RectCommand(x, y, width, height, color, depth)]
      ensures depth == old(depth) && color == old(color)
    {
      commands := commands + [RectCommand(x, y, width, height, color, depth)];
    }

    /** The flush (the scope's destructor): sorts the commands by depth, builds
        the vertex stream and the batch list, empties the command list and,
        unless the stream is empty, appends the upload, batch-draw and resolve
        calls to the log. */
    method Flush() returns (verts: seq<real>, batches: seq<Batch>)
      requires Valid() && !closed
      modifies this`commands, this`closed, graphics`log
      ensures closed && commands == []
      ensures verts == Concat(SortByDepth(old(commands)))
      ensures |verts| == RECT_FLOATS * |old(commands)|
      ensures batches == if old(commands) == [] then [] else [Batch(|verts|)]
      ensures verts == [] ==> graphics.log == old(graphics.log)
      ensures verts != [] ==> graphics.log == old(graphics.log) + FlushCalls(verts, batches)
    {
      SortKeepsRects(commands);
      if commands != [] {
        ConcatAt(SortByDepth(commands), 0);
      }
      commands := SortByDepth(commands);
      verts, batches := Collect(commands);
      commands := [];
      closed := true;
      if |verts| == 0 {
        return;
      }
      var draws := DrawBatches(batches);
      graphics.log := graphics.log + [BufferData(verts)];
      graphics.log := graphics.log + [BindFramebuffer(DrawFramebuffer, CompositeFbo), UseProgram(CompositeProgram)];
      graphics.log := graphics.log + draws;
      graphics.log := graphics.log + RESOLVE_CALLS;
    }
  }

  /** The loop of the flush over the sorted commands: extends the stream with
      each command's floats and counts them into the one batch, which it creates
      at the first command. */
  method Collect(commands: seq<Command>) returns (verts: seq<real>, batches: seq<Batch>)
    ensures verts == Concat(commands)
    ensures batches == if commands == [] then [] else [Batch(|verts|)]
  {
    verts := [];
    batches := [];
    for i := 0 to |commands|
      invariant verts == Concat(commands[..i])
      invariant batches == if i == 0 then [] else [Batch(|verts|)]
    {
      assert commands[..i + 1][..i] == commands[..i];
      verts := verts + commands[i].verts;
      if |batches| == 0 {
        batches := batches + [Batch(0)];
      }
      batches := batches[0 := Batch(batches[0].vertCount + |commands[i].verts|)];
    }
    assert commands[..|commands|] == commands;
  }

  /** The draw loop of the flush: one triangle draw per batch, from the running
      index, with `index + vert_count` as the count. */
  method DrawBatches(batches: seq<Batch>) returns (calls: seq<GlCall>)
    ensures calls == BatchDraws(batches)
  {
    calls := [];
    var index: nat := 0;
    for i := 0 to |batches|
      invariant index == Offset(batches[..i])
      invariant calls == BatchDraws(batches[..i])
    {
      assert batches[..i + 1][..i] == batches[..i];
      calls := calls + [DrawArrays(Triangles, index, index + batches[i].vertCount)];
      index := index + batches[i].vertCount;
    }
    assert batches[..|batches|] == batches;
  }

  /** Of two commands, the one recorded second reaches the stream first exactly
      when its depth is smaller. */
  lemma TwoCommandsInPaintOrder(first: Command, second: Command)
    ensures Concat(SortByDepth([first, second]))
            == if second.depth < first.depth then second.verts + first.verts else first.verts + second.verts
  {
    var s := [first, second];
    assert s[..|s| - 1] == [first];
    assert [first][..0] == [];
    assert SortByDepth([first]) == [first];
    assert SortByDepth(s) == Insert([first], second);
    if second.depth < first.depth {
      assert Insert([first], second) == [second, first];
      ConcatSnoc([], second);
      ConcatSnoc([second], first);
    } else {
      assert Insert([first], second) == [first, second];
      ConcatSnoc([], first);
      ConcatSnoc([first], second);
    }
  }

  /** A painter's-order client: a half-transparent green rectangle drawn first
      at depth 1 and a blue one drawn second at depth 0 reach the GPU blue
      first, so green is drawn after blue; changing the paint state never
      rewrites the green command. */
  method PaintersOrder()
  {
    var blue := Color(0.0, 0.0, 1.0, 1.0);
    var green := Color(0.0, 1.0, 0.0, 0.5);
    var g := new Graphics(800, 600);
    var scope := g.Push();
    scope.SetDepth(1.0);
    scope.SetColor(green);
    scope.DrawRect(0.0, 0.0, 10.0, 10.0);
    scope.SetDepth(0.0);
    scope.SetColor(blue);
    scope.DrawRect(0.0, 0.0, 10.0, 10.0);
    var greenRect := RectCommand(0.0, 0.0, 10.0, 10.0, green, 1.0);
    var blueRect := RectCommand(0.0, 0.0, 10.0, 10.0, blue, 0.0);
    assert scope.commands == [greenRect, blueRect];
    TwoCommandsInPaintOrder(greenRect, blueRect);
    var verts, batches := scope.Flush();
    assert verts == blueRect.verts + greenRect.verts;
    assert |verts| == 2 * RECT_FLOATS && batches == [Batch(|verts|)];
    SingleBatchFlush(verts);
    assert g.log[3] == DrawArrays(Triangles, 0, 2 * RECT_FLOATS);
  }
}
