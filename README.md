# ramune draw scope, modelled in Dafny

This project models the immediate-mode 2D renderer in `src/graphics.rs`. A
frame context (`Graphics`) opens a draw scope (`GraphicsScope`). The scope
records rectangle commands under its current paint state, which is a depth and
a colour. When the scope ends, it flushes:

1. It stable-sorts the commands by ascending depth.
2. It concatenates their vertex floats into one stream.
3. It builds a batch list that is empty or holds one batch.
4. It empties the command list.
5. If the stream is non-empty, it uploads the stream, issues the batch draw
   with the composite framebuffer bound, and then issues the resolve calls:
   framebuffer bindings, the swapchain program, two texture bindings and two
   four-vertex strip draws.

The model has five modules, one per file:

- `Vertex` (vertex.dfy): the colour type, the attribute layout bound in
  `Graphics::new`, and the 36 floats `draw_rect` writes.
- `Commands` (commands.dfy): the `Command` record. It also defines the
  depth sort as a function `SortByDepth`, the per-depth subsequence `Filter`,
  and the vertex stream `Concat`. The lemmas show that `SortByDepth` is a
  stable sort, and that every stable sort by depth gives the same result.
- `GlCalls` (gl_calls.dfy): an abstract log of the OpenGL calls. GPU objects
  are named by their role. The module also holds the `Batch` record and the
  calls a flush issues.
- `Shaders` (shaders.dfy): the kind check and error message of
  `create_shader`, and the error handling of `create_program`, with the
  driver's compile and link results as parameters. It also
  holds the corner formula of the full-screen strip in the swapchain shaders.
- `Renderer` (renderer.dfy): the classes `Graphics` and `Scope`. `Scope` has
  `depth`, `color` and `commands` fields. It also has a `closed` flag that
  stands for the end of the scope's lifetime. The flush is the explicit method
  `Scope.Flush`. It is built from two loop methods, `Collect` and
  `DrawBatches`, each mirroring a loop of the source. `PaintersOrder` is a
  client of the classes: a green rectangle recorded at depth 1 and then a blue
  one at depth 0 reach the GPU blue first.

The batch's `vert_count` counts floats, and the source passes
`index + vert_count` as the count argument of `glDrawArrays`. The model
reproduces this. So the single triangle draw of a flush of n rectangles has
count 36·n (`GlCalls.SingleBatchFlush`, `Renderer.Scope.Flush`). The uploaded
buffer holds only 6·n vertex records of 6 floats each
(`Commands.FlushedRecord`).

## Model

| member | source | states |
|---|---|---|
| `Vertex.Corners` | src/graphics.rs:370-407 | The six positions of a rectangle are corners of the box [x, x+w]×[y, y+h], and all four corners occur. Vertices 1 and 4, and vertices 2 and 3, are the shared diagonal. The two triangles have the same winding, and each has signed double area −w·h, so together they cover the box. |
| `Vertex.RectVerts` | src/graphics.rs:370-407 | One rectangle is exactly 36 floats. |
| `Vertex.RecordsAt` | src/graphics.rs:370-407 | Vertex k of a run of records occupies floats 6k to 6k+6 and is that vertex's (x, y, r, g, b, a) record. |
| `Vertex.RectLayout` | src/graphics.rs:93-97 | Reading a rectangle through the bound layout (stride 24 bytes, position of 2 floats at offset 0, colour of 4 floats at offset 8) gives corner k as the position of vertex k and the paint colour as its colour. The two attributes together cover the whole 6-float record. |
| `Commands.RectCommand` | src/graphics.rs:369-409 | The command `draw_rect` pushes carries 36 floats. |
| `Commands.SortByDepth` | src/graphics.rs:294-295 | The sorted command list has as many commands as the input. |
| `Commands.SortByDepthIsStableSort` | src/graphics.rs:294-295 | The sort output is ordered by ascending depth and is a permutation of the input. For every depth, the commands of that depth keep their recording order. The stream carries as many floats as before the sort. |
| `Commands.StableSortUnique` | src/graphics.rs:294-295 | Two depth-sorted sequences with the same subsequence at every depth are equal. |
| `Commands.StableSortIsSortByDepth` | src/graphics.rs:294-295 | Any stable sort by ascending depth, including the library's `sort_by`, returns exactly `SortByDepth`. |
| `Commands.SortByDepthKeepsSorted` | src/graphics.rs:294-295 | Commands already in depth order are not reordered, so sorting twice is sorting once. |
| `Commands.FilterMembers` | src/graphics.rs:294-295 | A command is in a depth's subsequence exactly when it was recorded and has that depth. |
| `Commands.InsertFilter` | src/graphics.rs:294-295 | Inserting one command into a run changes no other depth's subsequence. |
| `Commands.SortKeepsRects` | src/graphics.rs:294-297 | After the sort every command still has 36 floats. |
| `Commands.ConcatAt` | src/graphics.rs:296-297 | A stream of n rectangles has 36·n floats, and command i occupies floats 36i to 36i+36. |
| `Commands.FlushedRecord` | src/graphics.rs:294-316 | In the uploaded stream, vertex 6i+k read through either attribute is vertex k of the i-th command in depth order. |
| `GlCalls.BatchDraws` | src/graphics.rs:320-328 | The batch loop issues one triangle draw per batch. |
| `GlCalls.BatchDrawAt` | src/graphics.rs:320-328 | Batch i is drawn with first equal to the floats of the batches before it, and count equal to that index plus its own `vert_count`. |
| `GlCalls.SingleBatchFlush` | src/graphics.rs:311-354 | For the one batch of a non-empty flush, the stream is uploaded once, first in the log. There is exactly one triangle draw, from 0 with count equal to the stream's float count. Every other draw is a 4-vertex strip. |
| `GlCalls.FlushLeavesSwapchainCurrent` | src/graphics.rs:311-354 | The last `glUseProgram` of a non-empty flush selects the swapchain program, and no later call of the flush changes the program. |
| `Shaders.CompileError` | src/graphics.rs:186-194 | A compile error starts with "Vertex" for the vertex kind and "Fragment" for any other kind, and ends with the driver's info log. |
| `Shaders.CreateShader` | src/graphics.rs:158-198 | An invalid kind gives `Err("Invalid shader kind!")` with no GL call, whatever the source. A valid kind requires a source with no NUL character, which `CString::new(source).unwrap()` (line 164) otherwise panics on. It logs exactly three calls: it creates a shader of that kind, sets `source` on the name the driver returned, and compiles that shader. The result is `Ok` with the driver's shader name exactly when the kind is valid and compilation succeeded. Otherwise the result is the compile error. |
| `Shaders.LinkError` | src/graphics.rs:268 | A link error is "Shader program failed to link! " followed by the driver's info log. |
| `Shaders.CreateProgram` | src/graphics.rs:240-272 | The vertex source must hold no NUL, and so must the fragment source when the vertex shader compiles. A failing vertex shader is the whole outcome. A failing fragment shader gives its own error after both shaders' calls. Otherwise both shaders are attached to the driver's program and it is linked. The result is `Ok` with the program name exactly when both shaders compiled and the link succeeded; a link failure gives the link error. |
| `Shaders.ProgramErrorNamesStep` | src/graphics.rs:245-268 | The error of `create_program` starts with "Vertex", "Fragment" or the link prefix, according to the step that failed first. |
| `Shaders.InvalidKindIffRejected` | src/graphics.rs:159-161 | The answer is "Invalid shader kind!" exactly when the kind is neither vertex nor fragment, and exactly then no shader is created. |
| `Shaders.StripCorner` | src/graphics.rs:64 | Each strip corner has coordinates ±1. x is 1 exactly for ids above 1, and y is 1 exactly for odd ids. |
| `Shaders.SampleCoord` | src/graphics.rs:79 | The sampled coordinate `(xy + 1) * 0.5` maps [−1, 1] into [0, 1] and is inverted by 2·uv − 1. |
| `Shaders.FullScreenStrip` | src/graphics.rs:64-79 | Vertex ids 0, 1, 2, 3 hand the fragment shader the `xy` values (−1,−1), (−1,1), (1,−1), (1,1), and they sample (0,0), (0,1), (1,0), (1,1). |
| `Renderer.AsI32` | src/graphics.rs:131 | The `u32 as i32` cast passed to `glViewport` is in i32 range and equals the value or the value minus 2^32. |
| `Renderer.Graphics.constructor` | src/graphics.rs:99-102 | The cached viewport size is the size the viewport query reported. |
| `Renderer.Graphics.SetViewport` | src/graphics.rs:129-136 | Sets the GL viewport with the i32-cast size, issues `glUniform2f` at the `uViewport` location with the new size, and caches it. Nothing else is logged; in particular no `glUseProgram`. |
| `Renderer.Graphics.Push` | src/graphics.rs:148-155 | A new scope on this context has depth 0, colour `WHITE` and no commands, and issues no GL call. |
| `Renderer.Scope.constructor` | src/graphics.rs:149-154 | The initial paint state is depth 0 and `WHITE`, with an empty command list. |
| `Renderer.Scope.SetDepth` | src/graphics.rs:360-362 | Changes only the current depth. Recorded commands and the colour are unchanged. |
| `Renderer.Scope.SetColor` | src/graphics.rs:364-366 | Changes only the current colour. Recorded commands and the depth are unchanged. |
| `Renderer.Scope.DrawRect` | src/graphics.rs:368-410 | Appends exactly one rectangle command in the current colour at the current depth. Earlier commands and the paint state are unchanged. |
| `Renderer.Scope.Flush` | src/graphics.rs:290-357 | The stream is the concatenation of the commands stable-sorted by depth, 36 floats per rectangle. The batch list is empty exactly when there were no commands; otherwise it is one batch counting the stream's floats. The command list ends empty. An empty stream issues no GL call; otherwise exactly the upload, draw and resolve calls are appended. |
| `Renderer.Collect` | src/graphics.rs:292-303 | The loop over the sorted commands produces their concatenated floats, plus a single batch counting them, created at the first command. |
| `Renderer.DrawBatches` | src/graphics.rs:320-328 | The draw loop issues exactly the batch draws: running index as first, `index + vert_count` as count. |
| `Renderer.TwoCommandsInPaintOrder` | src/graphics.rs:294-297 | Of two commands, the second reaches the stream first exactly when its depth is smaller. Equal depths keep call order. |

## Left out

- OpenGL: every GL call is an entry in an abstract log. Nothing the driver does with it is modelled: no buffer contents, framebuffer state, rasterisation or blending. GPU objects are named by role, not by the numbers the driver returns.
- `Graphics::new` (src/graphics.rs:29-127): shader compilation and linking, buffer and framebuffer creation, and attribute setup happen in the driver. Only the attribute layout (as constants) and the cached viewport size are modelled. `Renderer.Graphics.constructor` starts with an empty log, so the log holds only calls made after setup.
- `create_framebuffer`, `clear` and `Drop for Graphics`: these are sequences of driver calls with no logic of their own, so they are not modelled.
- `Shaders.CreateProgram`: the link status and info log are a parameter (`LinkReport`) standing for the driver, and the `glGetProgramiv` and `glGetProgramInfoLog` queries are not logged. Shader and program names are the driver's numbers, not the roles used by the flush's calls. The NUL panic of `create_shader` is a precondition on both sources, as for `Shaders.CreateShader`.
- `Renderer.Graphics.SetViewport`: the model claims nothing about which program receives the `uViewport` uniform, because the log does not model which program is current. As written, after any non-empty flush the swapchain program is current (`GlCalls.FlushLeavesSwapchainCurrent`), so the composite program keeps its old viewport size.
- `Shaders.CreateShader`: the compile status and info log are a parameter (`CompileReport`) standing for the driver. The `glGetShaderiv` and `glGetShaderInfoLog` queries are not logged. The panic of `CString::new(source).unwrap()` (src/graphics.rs:164) on a source holding a NUL is not modelled as an outcome: a valid kind requires a NUL-free source instead. Every call site (src/graphics.rs:87-90) passes a NUL-free literal.
- Floating point: f32 values are `real`. Rounding of `x + width`, and of the u32-to-f32 conversion in `Uniform2f`, is not modelled. A NaN depth cannot be represented, so the panic of `partial_cmp(..).unwrap()` at src/graphics.rs:295 is not modelled.
- `Commands.SortByDepth`: models the result of `sort_by`, not its in-place steps. It is an insertion sort; `Commands.StableSortIsSortByDepth` shows that any stable sort, including the library's, gives the same sequence.
- Integer widths: `vert_count` (usize) and the `as _` casts of `index` and `index + vert_count` to GL integers are unbounded in the model. Wrap-around needs more than 2^31 floats in one flush.
- The GLSL viewport-to-clip formula (src/graphics.rs:41), the `w = 0` of the strip position (src/graphics.rs:65), and texture sampling are GPU numerics and are not modelled. `Shaders.FullScreenStrip` states only the `xy` the fragment shader receives; with `w = 0` as written, the strip is not claimed to cover the screen.
- `GlCalls.RESOLVE_CALLS`: records the two `glBindTexture` calls (src/graphics.rs:336-337) with `GL_TEXTURE0` and `GL_TEXTURE1` as their first argument, as written. That argument is a texture unit, not a texture target, so the model claims nothing about which texture is sampled.
- Lifetime and borrowing: `Drop` becomes the explicit `Scope.Flush`. The `closed` flag stops recording after it and stops a second flush. The exclusive borrow of `Graphics` by one scope is not modelled.
- `Color::WHITE`: src/color.rs is not part of this model; `WHITE` is taken as (1, 1, 1, 1).
- src/gl.rs, src/lib.rs, src/event.rs and examples/hello.rs are not part of this model. They are a thin wrapper over the GL function table, module wiring, an event enum and a demo.
