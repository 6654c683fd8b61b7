/** The raylib and rlgl side of the core: raylib's `Matrix`, render
    textures, the rlgl matrix state the eye bracket drives, and the trace of
    foreign side effects (log lines, submissions, unloads). */
module Raylib {
  import opened CTypes
  import opened OpenVr

  /** raylib's `Matrix`: its sixteen floats in declaration order
      m0, m4, m8, m12, m1, m5, ..., m15. A brace initialiser fills them in
      that order, so the entry at (row, col) is at index 4 * row + col. */
  type Matrix = m: seq<Float> | |m| == 16 witness seq(16, _ => ZERO_F)

  /** A zero-initialised `Matrix`. */
  const ZERO_MATRIX: Matrix := seq(16, _ => ZERO_F)

  function At(m: Matrix, row: nat, col: nat): Float
    requires row < 4 && col < 4
  {
    m[4 * row + col]
  }

  /** A matrix as the renderer receives it. `MatrixIdentity`, `MatrixInvert`
      and `MatrixMultiply` are floating-point code outside the core, so they
      stay uninterpreted: a term records exactly which arguments they were
      given and in which order. */
  datatype MatExpr =
    | Identity
    | Value(m: Matrix)
    | Invert(arg: MatExpr)
    | Multiply(left: MatExpr, right: MatExpr)
    | Ortho(width: int, height: int)   // MatrixOrtho(0, width, height, 0, 0, 1)

  /** `RenderTexture`: framebuffer id, colour texture id and the colour
      texture's size. */
  datatype RenderTexture = RenderTexture(id: nat, textureId: nat, width: int, height: int)

  /** `(RenderTexture){0}`. */
  const EMPTY_RENDER_TEXTURE: RenderTexture := RenderTexture(0, 0, 0, 0)

  /** The object names the graphics backend hands out in `LoadRenderTexture`. */
  datatype Allocation = Allocation(framebufferId: nat, textureId: nat)

  /** The abstract effect of `LoadRenderTexture(width, height)`. */
  function LoadRenderTexture(a: Allocation, width: int, height: int): RenderTexture
  {
    RenderTexture(a.framebufferId, a.textureId, width, height)
  }

  datatype Target = Screen | Texture(tex: RenderTexture)

  datatype MatrixMode = Projection | Modelview

  /** The rlgl state the core touches. `stack` holds the matrices saved by
      `rlPushMatrix`, the last one on top; `screenWidth` and `screenHeight`
      are the window size raylib sets the screen's projection up for. */
  datatype Gl = Gl(
    mode: MatrixMode,
    projection: MatExpr,
    modelview: MatExpr,
    stack: seq<MatExpr>,
    target: Target,
    depthTest: bool,
    screenWidth: int,
    screenHeight: int)

  function Current(g: Gl): MatExpr {
    if g.mode == Projection then g.projection else g.modelview
  }

  function SetCurrent(g: Gl, m: MatExpr): (r: Gl)
    ensures Current(r) == m && r.mode == g.mode && r.stack == g.stack
  {
    if g.mode == Projection then g.(projection := m) else g.(modelview := m)
  }

  // The rlgl calls of the eye bracket, by their effect on that state.

  function RlMatrixMode(g: Gl, mode: MatrixMode): Gl { g.(mode := mode) }

  function RlPushMatrix(g: Gl): Gl { g.(stack := g.stack + [Current(g)]) }

  /** rlgl pops only when its stack counter is positive. */
  function RlPopMatrix(g: Gl): Gl {
    if |g.stack| > 0 then SetCurrent(g, g.stack[|g.stack| - 1]).(stack := g.stack[..|g.stack| - 1])
    else g
  }

  function RlLoadIdentity(g: Gl): Gl { SetCurrent(g, Identity) }

  /** `rlMultMatrixf(MatrixToFloat(m))`: the current matrix becomes m times it. */
  function RlMultMatrix(g: Gl, m: MatExpr): Gl { SetCurrent(g, Multiply(m, Current(g))) }

  /** `rlOrtho(0, width, height, 0, 0, 1)`, multiplied onto the current matrix
      like `rlMultMatrixf`. */
  function RlOrtho(g: Gl, width: int, height: int): Gl { RlMultMatrix(g, Ortho(width, height)) }

  /** The projection raylib sets up for a drawing area of the given size: an
      identity, then the orthographic matrix for that area. */
  function OrthoProjection(width: int, height: int): MatExpr { Multiply(Ortho(width, height), Identity) }

  /** Sets the matrices up for 2-D drawing on an area of the given size: the
      orthographic projection, an identity modelview, modelview mode. */
  function SetupOrtho(g: Gl, width: int, height: int): Gl {
    RlLoadIdentity(RlMatrixMode(RlOrtho(RlLoadIdentity(RlMatrixMode(g, Projection)), width, height), Modelview))
  }

  /** raylib's `BeginTextureMode`: draw into the texture, with the matrices
      set up for 2-D drawing on the texture's area. */
  function BeginTextureMode(g: Gl, tex: RenderTexture): Gl {
    SetupOrtho(g.(target := Texture(tex)), tex.width, tex.height)
  }

  /** raylib's `EndTextureMode`: draw on the screen again, with the matrices
      set up for 2-D drawing on the window. */
  function EndTextureMode(g: Gl): Gl {
    SetupOrtho(g.(target := Screen), g.screenWidth, g.screenHeight)
  }

  function RlEnableDepthTest(g: Gl): Gl { g.(depthTest := true) }

  function RlDisableDepthTest(g: Gl): Gl { g.(depthTest := false) }

  datatype LogLevel = Info | Warning | Error | Fatal

  /** The `TraceLog` lines the core writes, one constructor per format string. */
  datatype Message =
    | Initializing                                   // "OPENVR: Initializing OpenVR"
    | TrackingSystem(name: string)                   // "OPENVR: Tracking system is %s"
    | NoRuntimeInstalled                             // "OPENVR: No OpenVR runtime installed"
    | NoHmdPresent                                   // "OPENVR: No HMD present"
    | RuntimeInitFailed(code: int)                   // "OPENVR: Failed to initialize runtime: %s"
    | InterfaceTableFailed(table: Interface, code: int)  // "Failed to get table %s (%s): %s"
    | SubmitFailed(code: int)                        // "OPENVR: Failed to submit frame (%d)"

  /** A side effect on code outside the core, in the order it happens. */
  datatype Event =
    | Log(level: LogLevel, message: Message)
    | Submit(submission: Submission)
    | Unload(tex: RenderTexture)
    | RuntimeShutdown

  /** What a `Submit` that returned `code` leaves in the log. */
  function SubmitErrorLog(code: int): (r: seq<Event>)
    ensures r == [] <==> code == COMPOSITOR_ERROR_NONE
    ensures |r| <= 1
    ensures forall e | e in r :: e == Log(Error, SubmitFailed(code))
  {
    if code != COMPOSITOR_ERROR_NONE then [Log(Error, SubmitFailed(code))] else []
  }

  /** The outcome of an `InitOpenVr` call: `Exited` when the process was
      terminated (`exit`, or `TraceLog(LOG_FATAL, ...)`, which exits). */
  datatype InitStatus = Initialized | Exited
}
