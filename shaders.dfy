/** Shader handling: the kind check, call log and error message of
    `create_shader`, the error handling of `create_program` (with the driver's
    compile and link results as parameters), and the corner formula of the
    full-screen strip the swapchain vertex shader computes from `gl_VertexID`. */
module Shaders {
  import GlCalls

  /** The OpenGL enum values of the two shader kinds. */
  const GL_FRAGMENT_SHADER: nat := 0x8B30
  const GL_VERTEX_SHADER: nat := 0x8B31

  const INVALID_KIND_MESSAGE := "Invalid shader kind!"

  datatype Result<T> = Ok(value: T) | Err(error: string)

  /** What the driver reports for one shader: the name `glCreateShader` returned,
      the compile status and the info log. */
  datatype CompileReport = CompileReport(shader: nat, success: bool, infoLog: string)

  /** The result of `create_shader` and the GL calls it made that change state. */
  datatype ShaderOutcome = ShaderOutcome(result: Result<nat>, calls: seq<GlCalls.GlCall>)

  predicate ValidKind(kind: nat)
  {
    kind == GL_VERTEX_SHADER || kind == GL_FRAGMENT_SHADER
  }

  /** The compile error: "Vertex" for the vertex kind, "Fragment" for any other. */
  function CompileError(kind: nat, infoLog: string): (msg: string)
    ensures |msg| >= |infoLog| + 8
    ensures kind == GL_VERTEX_SHADER ==> msg[..6] == "Vertex"
    ensures kind != GL_VERTEX_SHADER ==> msg[..8] == "Fragment"
    ensures msg[|msg| - |infoLog|..] == infoLog
  {
    (if kind == GL_VERTEX_SHADER then "Vertex" else "Fragment") + " shader failed to compile! " + infoLog
  }

  /** A source `CString::new` accepts: it holds no NUL character. */
  predicate NulFree(source: string)
  {
    '\0' !in source
  }

  /** `create_shader(gl, kind, source)`, with the driver's answer as `report`.
      A valid kind with a source holding a NUL panics at `CString::new(..).unwrap()`,
      so callers must not pass one. */
  function CreateShader(kind: nat, source: string, report: CompileReport): (o: ShaderOutcome)
    requires ValidKind(kind) ==> NulFree(source)
    ensures !ValidKind(kind) ==> o == ShaderOutcome(Err(INVALID_KIND_MESSAGE), [])
    ensures ValidKind(kind) ==> o.calls == [GlCalls.CreateShader(kind), GlCalls.ShaderSource(report.shader, source),
                                            GlCalls.CompileShader(report.shader)]
    ensures o.result.Ok? <==> ValidKind(kind) && report.success
    ensures o.result.Ok? ==> o.result.value == report.shader
    ensures ValidKind(kind) && !report.success ==> o.result == Err(CompileError(kind, report.infoLog))
  {
    if !ValidKind(kind) then ShaderOutcome(Err(INVALID_KIND_MESSAGE), [])
    else
      var calls := [GlCalls.CreateShader(kind), GlCalls.ShaderSource(report.shader, source),
                    GlCalls.CompileShader(report.shader)];
      if report.success then ShaderOutcome(Ok(report.shader), calls)
      else ShaderOutcome(Err(CompileError(kind, report.infoLog)), calls)
  }

  /** The kind check comes first: `create_shader` answers "Invalid shader kind!"
      exactly for kinds other than vertex and fragment, and exactly then creates
      no shader. */
  lemma InvalidKindIffRejected(kind: nat, source: string, report: CompileReport)
    requires ValidKind(kind) ==> NulFree(source)
    ensures CreateShader(kind, source, report).result == Err(INVALID_KIND_MESSAGE) <==> !ValidKind(kind)
    ensures CreateShader(kind, source, report).calls == [] <==> !ValidKind(kind)
  {
    var o := CreateShader(kind, source, report);
    if ValidKind(kind) && !report.success {
      var msg := CompileError(kind, report.infoLog);
      assert msg[0] != INVALID_KIND_MESSAGE[0];
    }
  }

  /** What the driver reports for one program: the name `glCreateProgram`
      returned, the link status and the info log. */
  datatype LinkReport = LinkReport(program: nat, success: bool, infoLog: string)

  const LINK_ERROR_PREFIX := "Shader program failed to link! "

  /** The link error: a fixed prefix followed by the driver's info log. */
  function LinkError(infoLog: string): (msg: string)
    ensures |msg| == |LINK_ERROR_PREFIX| + |infoLog|
    ensures msg[..|LINK_ERROR_PREFIX|] == LINK_ERROR_PREFIX
    ensures msg[|LINK_ERROR_PREFIX|..] == infoLog
  {
    LINK_ERROR_PREFIX + infoLog
  }

  /** `create_program(gl, vertex_source, fragment_source)`, with the driver's
      answers for the two shaders and the program as parameters. A shader error
      is passed on unchanged and stops before anything later is created. */
  function CreateProgram(vertexSource: string, fragmentSource: string,
                         vr: CompileReport, fr: CompileReport, lr: LinkReport): (o: ShaderOutcome)
    requires NulFree(vertexSource)
    requires vr.success ==> NulFree(fragmentSource)
    ensures !vr.success ==>
              o == CreateShader(GL_VERTEX_SHADER, vertexSource, vr)
    ensures vr.success && !fr.success ==>
              o.result == CreateShader(GL_FRAGMENT_SHADER, fragmentSource, fr).result
              && o.calls == CreateShader(GL_VERTEX_SHADER, vertexSource, vr).calls
                            + CreateShader(GL_FRAGMENT_SHADER, fragmentSource, fr).calls
    ensures vr.success && fr.success ==>
              o.calls == CreateShader(GL_VERTEX_SHADER, vertexSource, vr).calls
                         + CreateShader(GL_FRAGMENT_SHADER, fragmentSource, fr).calls
                         + [GlCalls.CreateProgram, GlCalls.AttachShader(lr.program, vr.shader),
                            GlCalls.AttachShader(lr.program, fr.shader), GlCalls.LinkProgram(lr.program)]
    ensures o.result.Ok? <==> vr.success && fr.success && lr.success
    ensures o.result.Ok? ==> o.result.value == lr.program
    ensures vr.success && fr.success && !lr.success ==> o.result == Err(LinkError(lr.infoLog))
  {
    var vs := CreateShader(GL_VERTEX_SHADER, vertexSource, vr);
    if vs.result.Err? then vs
    else
      var fs := CreateShader(GL_FRAGMENT_SHADER, fragmentSource, fr);
      if fs.result.Err? then ShaderOutcome(fs.result, vs.calls + fs.calls)
      else
        var calls := vs.calls + fs.calls
                     + [GlCalls.CreateProgram, GlCalls.AttachShader(lr.program, vs.result.value),
                        GlCalls.AttachShader(lr.program, fs.result.value), GlCalls.LinkProgram(lr.program)];
        if lr.success then ShaderOutcome(Ok(lr.program), calls)
        else ShaderOutcome(Err(LinkError(lr.infoLog)), calls)
  }

  /** The error message of `create_program` tells which step failed: it starts
      with "Vertex" when the vertex shader failed, with "Fragment" when only the
      fragment shader failed, and with the link prefix when only the link failed. */
  lemma ProgramErrorNamesStep(vertexSource: string, fragmentSource: string,
                              vr: CompileReport, fr: CompileReport, lr: LinkReport)
    requires NulFree(vertexSource)
    requires vr.success ==> NulFree(fragmentSource)
    ensures !vr.success ==>
              CreateProgram(vertexSource, fragmentSource, vr, fr, lr).result.error[..6] == "Vertex"
    ensures vr.success && !fr.success ==>
              CreateProgram(vertexSource, fragmentSource, vr, fr, lr).result.error[..8] == "Fragment"
    ensures vr.success && fr.success && !lr.success ==>
              CreateProgram(vertexSource, fragmentSource, vr, fr, lr).result.error[..|LINK_ERROR_PREFIX|] == LINK_ERROR_PREFIX
  {
    var o := CreateProgram(vertexSource, fragmentSource, vr, fr, lr);
    if !vr.success {
      assert o.result == Err(CompileError(GL_VERTEX_SHADER, vr.infoLog));
    } else if !fr.success {
      assert o.result == Err(CompileError(GL_FRAGMENT_SHADER, fr.infoLog));
    }
  }

  /** The `xy` of vertex `vertexId` of the full-screen strip:
      `(-1 + int(id > 1) * 2, -1 + int(id % 2) * 2)`. Only the ids 0 to 3 are
      drawn; GLSL leaves `%` of a negative id undefined. */
  function StripCorner(vertexId: nat): (xy: (int, int))
    ensures xy.0 == 1 || xy.0 == -1
    ensures xy.1 == 1 || xy.1 == -1
    ensures xy.0 == 1 <==> vertexId > 1
    ensures xy.1 == 1 <==> vertexId % 2 == 1
  {
    (-1 + (if vertexId > 1 then 1 else 0) * 2, -1 + (vertexId % 2) * 2)
  }

  /** The texture coordinate `(xy + 1.0) * 0.5` the swapchain fragment shader samples. */
  function SampleCoord(xy: (real, real)): (uv: (real, real))
    ensures -1.0 <= xy.0 <= 1.0 ==> 0.0 <= uv.0 <= 1.0
    ensures -1.0 <= xy.1 <= 1.0 ==> 0.0 <= uv.1 <= 1.0
    ensures 2.0 * uv.0 - 1.0 == xy.0 && 2.0 * uv.1 - 1.0 == xy.1
  {
    ((xy.0 + 1.0) * 0.5, (xy.1 + 1.0) * 0.5)
  }

  function AsReal(xy: (int, int)): (real, real)
  {
    (xy.0 as real, xy.1 as real)
  }

  /** The `xy` the swapchain vertex shader hands to the fragment shader for the
      four strip vertices is (-1, -1), (-1, 1), (1, -1), (1, 1), and the
      coordinates sampled from it are the four corners of the unit square. */
  lemma FullScreenStrip()
    ensures [StripCorner(0), StripCorner(1), StripCorner(2), StripCorner(3)] == [(-1, -1), (-1, 1), (1, -1), (1, 1)]
    ensures [SampleCoord(AsReal(StripCorner(0))), SampleCoord(AsReal(StripCorner(1))),
             SampleCoord(AsReal(StripCorner(2))), SampleCoord(AsReal(StripCorner(3)))]
            == [(0.0, 0.0), (0.0, 1.0), (1.0, 0.0), (1.0, 1.0)]
  {
  }
}
