/** An abstract log of the OpenGL calls the renderer issues. GPU objects are named
    by their role, not by the numbers the driver hands out; nothing about what
    the driver does with a call is modelled. */
module GlCalls {

  /** The `target` argument of `glBindFramebuffer`. */
  datatype FramebufferTarget = Framebuffer | ReadFramebuffer | DrawFramebuffer

  /** Framebuffers: the window's (name 0) and the two off-screen targets. */
  datatype FramebufferObject = DefaultFramebuffer | CompositeFbo | IntermediaryFbo

  datatype ProgramObject = CompositeProgram | SwapchainProgram

  datatype TextureObject = CompositeTexture | IntermediaryTexture

  /** The first argument the flush passes to `glBindTexture`. */
  datatype TextureSlot = Texture0 | Texture1

  /** Uniform locations as returned by `glGetUniformLocation`. */
  datatype UniformLocation = ViewportUniform | SamplerUniform

  datatype PrimitiveMode = Triangles | TriangleStrip

  datatype GlCall =
    | Viewport(x: int, y: int, width: int, height: int)
    | Uniform2f(location: UniformLocation, v0: real, v1: real)
    | Uniform1i(location: UniformLocation, value: int)
    | BufferData(data: seq<real>)
    | BindFramebuffer(target: FramebufferTarget, fbo: FramebufferObject)
    | UseProgram(program: ProgramObject)
    | GetUniformLocation(program: ProgramObject, name: string)
    | BindTexture(slot: TextureSlot, texture: TextureObject)
    | DrawArrays(mode: PrimitiveMode, first: int, count: int)
    | CreateShader(kind: nat)
    | ShaderSource(shader: nat, source: string)
    | CompileShader(shader: nat)
    | CreateProgram
    | AttachShader(programName: nat, shader: nat)
    | LinkProgram(programName: nat)

  /** A run of the vertex stream drawn by one call. `vertCount` counts floats,
      as the flush computes it, not vertex records. */
  datatype Batch = Batch(vertCount: nat)

  /** The floats covered by `bs`: where the batch after them starts. */
  function Offset(bs: seq<Batch>): nat
  {
    if bs == [] then 0 else Offset(bs[..|bs| - 1]) + bs[|bs| - 1].vertCount
  }

  /** The draw calls of the batch loop: each batch is drawn from the running
      index, with `index + vert_count` passed as the count. */
  function BatchDraws(bs: seq<Batch>): (calls: seq<GlCall>)
    ensures |calls| == |bs|
    ensures forall i :: 0 <= i < |calls| ==> calls[i].DrawArrays? && calls[i].mode == Triangles
  {
    if bs == [] then []
    else
      var pre := bs[..|bs| - 1];
      BatchDraws(pre) + [DrawArrays(Triangles, Offset(pre), Offset(pre) + bs[|bs| - 1].vertCount)]
  }

  /** Batch `i` is drawn starting where the batches before it end. */
  lemma {:induction false} BatchDrawAt(bs: seq<Batch>, i: nat)
    requires i < |bs|
    ensures BatchDraws(bs)[i] == DrawArrays(Triangles, Offset(bs[..i]), Offset(bs[..i]) + bs[i].vertCount)
  {
    var pre := bs[..|bs| - 1];
    if i < |bs| - 1 {
      BatchDrawAt(pre, i);
      assert pre[..i] == bs[..i];
      assert BatchDraws(bs)[..|pre|] == BatchDraws(pre);
    } else {
      assert bs[..i] == pre;
    }
  }

  /** The resolve calls the flush issues after the batch draws, in order: the
      framebuffer bindings, the swapchain program and its sampler uniform, the
      two `glBindTexture` calls with the texture units as their first argument,
      and two four-vertex strip draws, the second after rebinding the draw
      framebuffer to 0 and setting the sampler uniform to 1. */
  const RESOLVE_CALLS: seq<GlCall> := [
    BindFramebuffer(Framebuffer, DefaultFramebuffer),
    BindFramebuffer(ReadFramebuffer, CompositeFbo),
    BindFramebuffer(DrawFramebuffer, IntermediaryFbo),
    UseProgram(SwapchainProgram),
    GetUniformLocation(SwapchainProgram, "uSampler"),
    BindTexture(Texture0, CompositeTexture),
    BindTexture(Texture1, IntermediaryTexture),
    Uniform1i(SamplerUniform, 0),
    DrawArrays(TriangleStrip, 0, 4),
    BindFramebuffer(DrawFramebuffer, DefaultFramebuffer),
    Uniform1i(SamplerUniform, 1),
    DrawArrays(TriangleStrip, 0, 4)
  ]

  /** Everything a non-empty flush sends to the GPU: upload the stream, draw the
      batches into the composite target, then resolve. */
  function FlushCalls(verts: seq<real>, batches: seq<Batch>): seq<GlCall>
  {
    [BufferData(verts), BindFramebuffer(DrawFramebuffer, CompositeFbo), UseProgram(CompositeProgram)]
    + BatchDraws(batches) + RESOLVE_CALLS
  }

  /** A non-empty flush leaves the swapchain program current: its last
      `glUseProgram` selects it, so a later `glUniform*` call that comes with no
      `glUseProgram` of its own goes to the swapchain program. */
  lemma FlushLeavesSwapchainCurrent(verts: seq<real>, batches: seq<Batch>)
    ensures |FlushCalls(verts, batches)| == |batches| + 15
    ensures FlushCalls(verts, batches)[|batches| + 6] == UseProgram(SwapchainProgram)
    ensures forall j :: |batches| + 6 < j < |FlushCalls(verts, batches)| ==> !FlushCalls(verts, batches)[j].UseProgram?
  {
    var calls := FlushCalls(verts, batches);
    var n := |batches| + 3;
    forall j | n <= j < |calls|
      ensures calls[j] == RESOLVE_CALLS[j - n]
    {
    }
  }

  /** With the one batch a flush builds, the log uploads the stream once and has
      exactly one triangle draw, from 0 over `|verts|`, the number of FLOATS
      uploaded; every other draw is one of the two four-vertex strips. */
  lemma SingleBatchFlush(verts: seq<real>)
    requires |verts| > 0
    ensures FlushCalls(verts, [Batch(|verts|)])[0] == BufferData(verts)
    ensures FlushCalls(verts, [Batch(|verts|)])[3] == DrawArrays(Triangles, 0, |verts|)
    ensures forall i :: 0 <= i < |FlushCalls(verts, [Batch(|verts|)])| ==>
              var call := FlushCalls(verts, [Batch(|verts|)])[i];
              (call.BufferData? ==> i == 0) &&
              (call.DrawArrays? ==> (i == 3) || call == DrawArrays(TriangleStrip, 0, 4))
  {
    var bs := [Batch(|verts|)];
    BatchDrawAt(bs, 0);
    assert bs[..0] == [];
  }
}
