/** The C variant: the global `VRCORE` struct as one object. */
module Rayvr {
  import opened CTypes
  import opened Wrappers
  import opened OpenVr
  import opened Raylib
  import opened Adapter
  import opened PoseStore
  import opened EyeBracket

  /** The clip planes `InitOpenVr` stores: 0.1f and 30.0f. */
  const CLIP_Z_NEAR: Float := Float(0x3DCC_CCCD)
  const CLIP_Z_FAR: Float := Float(0x41F0_0000)

  /** `GetEyeMatrix(eye)`: the eye-to-head transform. */
  function EyeMatrix(rt: Runtime, eye: Eye): Matrix {
    OpenVr34ToRaylib44Matrix(rt.eyeToHead(eye))
  }

  /** The modelview this variant loads:
      `MatrixMultiply(MatrixInvert(Eye), matrixInvHmdTf)`, with the cached
      head inverse. */
  function ViewMatrix(eyeTf: Matrix, invHmd: MatExpr): MatExpr
  {
    Multiply(Invert(Value(eyeTf)), invHmd)
  }

  /** The render texture an eye draws into: left for `EVREye_Eye_Left`, right otherwise. */
  function EyeTexture(eye: Eye, left: RenderTexture, right: RenderTexture): RenderTexture {
    if eye == Left then left else right
  }

  /** The events `InitOpenVr` logs before `VR_InitInternal` is called. */
  function InitChecks(rt: Runtime): (r: seq<Event>)
    ensures |r| >= 1 && r[0] == Log(Info, Initializing)
    ensures Log(Error, NoRuntimeInstalled) in r <==> !rt.runtimeInstalled
    ensures Log(Warning, NoHmdPresent) in r <==> !rt.hmdPresent
  {
    [Log(Info, Initializing)]
      + (if !rt.runtimeInstalled then [Log(Error, NoRuntimeInstalled)] else [])
      + (if !rt.hmdPresent then [Log(Warning, NoHmdPresent)] else [])
  }

  class Core {
    var hmd: Option<Handle>                   // VRCORE.hmd
    var compositor: Option<Handle>            // VRCORE.compositor
    const trackedPoses: array<TrackedPose>    // VRCORE.trackedPoses
    var renderTargetWidth: uint32             // VRCORE.renderTargetWidth
    var renderTargetHeight: uint32            // VRCORE.renderTargetHeight
    var renderTextureLeft: RenderTexture      // VRCORE.renderTextureLeft
    var renderTextureRight: RenderTexture     // VRCORE.renderTextureRight
    var clipZNear: Float                      // VRCORE.clipZNear
    var clipZFar: Float                       // VRCORE.clipZFar
    var matrixHmdTf: Matrix                   // VRCORE.matrixHmdTf
    var matrixInvHmdTf: MatExpr               // VRCORE.matrixInvHmdTf
    var gl: Gl                                // rlgl's state
    var events: seq<Event>                    // foreign side effects, in order

    ghost predicate Valid()
      reads this
    {
      trackedPoses.Length == MAX_TRACKED_DEVICE_COUNT
    }

    /** The cached head pose. */
    function Head(): HeadPose
      reads this
    {
      HeadPose(matrixHmdTf, matrixInvHmdTf)
    }

    /** `GetPoseMatrix`. */
    function GetPoseMatrix(): Matrix
      reads this
    {
      matrixHmdTf
    }

    /** `GetProjectionMatrix(eye)`: the runtime's projection for the stored clip planes. */
    function ProjectionMatrix(rt: Runtime, eye: Eye): Matrix
      reads this
    {
      OpenVr44ToRaylib44Matrix(rt.projection(eye, clipZNear, clipZFar))
    }

    /** `VRCORE = {0}`; `gl0` is whatever rlgl state the window was opened with. */
    constructor (gl0: Gl)
      ensures Valid() && fresh(trackedPoses)
      ensures hmd == None && compositor == None
      ensures GetPoseMatrix() == ZERO_MATRIX && Head() == INITIAL_HEAD
      ensures renderTextureLeft == EMPTY_RENDER_TEXTURE && renderTextureRight == EMPTY_RENDER_TEXTURE
      ensures renderTargetWidth == 0 && renderTargetHeight == 0
      ensures clipZNear == ZERO_F && clipZFar == ZERO_F
      ensures trackedPoses[..] == seq(MAX_TRACKED_DEVICE_COUNT, _ => ZERO_POSE)
      ensures gl == gl0 && events == []
    {
      hmd, compositor := None, None;
      trackedPoses := new TrackedPose[MAX_TRACKED_DEVICE_COUNT](_ => ZERO_POSE);
      renderTargetWidth, renderTargetHeight := 0, 0;
      renderTextureLeft, renderTextureRight := EMPTY_RENDER_TEXTURE, EMPTY_RENDER_TEXTURE;
      clipZNear, clipZFar := ZERO_F, ZERO_F;
      matrixHmdTf, matrixInvHmdTf := ZERO_MATRIX, Value(ZERO_MATRIX);
      gl := gl0;
      events := [];
    }

    /** `InitOpenVr`: warn about a missing runtime or HMD and carry on; start
        the runtime and fetch the system table, size both render textures
        alike, set the clip planes, fetch the compositor table. A failure of
        any of the three runtime calls is logged at `LOG_FATAL`, which ends
        the process. */
    method InitOpenVr(rt: Runtime, left: Allocation, right: Allocation) returns (status: InitStatus)
      modifies this`hmd, this`compositor, this`renderTargetWidth, this`renderTargetHeight,
               this`renderTextureLeft, this`renderTextureRight, this`clipZNear, this`clipZFar, this`events
      ensures status == Initialized <==>
        rt.initError == INIT_ERROR_NONE && rt.systemTableError == INIT_ERROR_NONE
        && rt.compositorTableError == INIT_ERROR_NONE
      ensures rt.initError != INIT_ERROR_NONE ==>
        && hmd == None && compositor == old(compositor)
        && events == old(events) + InitChecks(rt) + [Log(Fatal, RuntimeInitFailed(rt.initError))]
        && renderTextureLeft == old(renderTextureLeft) && renderTextureRight == old(renderTextureRight)
      ensures rt.initError == INIT_ERROR_NONE && rt.systemTableError != INIT_ERROR_NONE ==>
        && hmd == Some(rt.systemTable) && compositor == old(compositor)
        && events == old(events) + InitChecks(rt)
                     + [Log(Fatal, InterfaceTableFailed(SystemInterface, rt.systemTableError))]
        && renderTextureLeft == old(renderTextureLeft) && renderTextureRight == old(renderTextureRight)
      ensures rt.initError == INIT_ERROR_NONE && rt.systemTableError == INIT_ERROR_NONE ==>
        && hmd == Some(rt.systemTable) && compositor == Some(rt.compositorTable)
        && renderTargetWidth == rt.recommendedWidth && renderTargetHeight == rt.recommendedHeight
        && renderTextureLeft == LoadRenderTexture(left, ToInt32(rt.recommendedWidth), ToInt32(rt.recommendedHeight))
        && renderTextureRight == LoadRenderTexture(right, ToInt32(rt.recommendedWidth), ToInt32(rt.recommendedHeight))
        && clipZNear == CLIP_Z_NEAR && clipZFar == CLIP_Z_FAR
        && events == old(events) + InitChecks(rt)
                     + (if rt.compositorTableError != INIT_ERROR_NONE
                        then [Log(Fatal, InterfaceTableFailed(CompositorInterface, rt.compositorTableError))]
                        else [])
    {
      events := events + [Log(Info, Initializing)];
      if !rt.runtimeInstalled {
        events := events + [Log(Error, NoRuntimeInstalled)];
      }
      if !rt.hmdPresent {
        events := events + [Log(Warning, NoHmdPresent)];
      }
      assert events == old(events) + InitChecks(rt);
      hmd := Some(rt.initHandle);
      if rt.initError != INIT_ERROR_NONE {
        hmd := None;
        events := events + [Log(Fatal, RuntimeInitFailed(rt.initError))];
        return Exited;
      }
      hmd := Some(rt.systemTable);
      if rt.systemTableError != INIT_ERROR_NONE {
        events := events + [Log(Fatal, InterfaceTableFailed(SystemInterface, rt.systemTableError))];
        return Exited;
      }
      renderTargetWidth, renderTargetHeight := rt.recommendedWidth, rt.recommendedHeight;
      renderTextureLeft := LoadRenderTexture(left, ToInt32(renderTargetWidth), ToInt32(renderTargetHeight));
      renderTextureRight := LoadRenderTexture(right, ToInt32(renderTargetWidth), ToInt32(renderTargetHeight));
      clipZNear := CLIP_Z_NEAR;
      clipZFar := CLIP_Z_FAR;
      compositor := Some(rt.compositorTable);
      if rt.compositorTableError != INIT_ERROR_NONE {
        events := events + [Log(Fatal, InterfaceTableFailed(CompositorInterface, rt.compositorTableError))];
        return Exited;
      }
      return Initialized;
    }

    /** `UpdateOpenVr`: store the sample `WaitGetPoses` delivered, and
        overwrite `matrixHmdTf` and `matrixInvHmdTf` only if the HMD's pose
        is valid. */
    method UpdateOpenVr(sample: PoseSample)
      requires Valid() && hmd.Some? && compositor.Some?
      modifies this`matrixHmdTf, this`matrixInvHmdTf, trackedPoses
      ensures trackedPoses[..] == sample
      ensures Head() == Sample(old(Head()), sample)
      ensures HeadPoseValid(sample) ==>
        Consistent(Head()) && matrixHmdTf == OpenVr34ToRaylib44Matrix(sample[HMD_DEVICE_INDEX].deviceToAbsoluteTracking)
      ensures !HeadPoseValid(sample) ==> matrixHmdTf == old(matrixHmdTf) && matrixInvHmdTf == old(matrixInvHmdTf)
    {
      forall i | 0 <= i < MAX_TRACKED_DEVICE_COUNT {
        trackedPoses[i] := sample[i];
      }
      if trackedPoses[HMD_DEVICE_INDEX].poseIsValid {
        var mat := trackedPoses[HMD_DEVICE_INDEX].deviceToAbsoluteTracking;
        matrixHmdTf := OpenVr34ToRaylib44Matrix(mat);
        matrixInvHmdTf := Invert(Value(matrixHmdTf));
      }
    }

    /** `BeginEyeDrawing`. */
    method BeginEyeDrawing(eye: Eye, rt: Runtime)
      requires hmd.Some?
      modifies this`gl
      ensures gl == BeginEye(old(gl), EyeTexture(eye, renderTextureLeft, renderTextureRight),
                             ProjectionMatrix(rt, eye), ViewMatrix(EyeMatrix(rt, eye), matrixInvHmdTf))
      ensures gl.target == Texture(if eye == Left then renderTextureLeft else renderTextureRight)
      ensures var tex := EyeTexture(eye, renderTextureLeft, renderTextureRight);
        gl.stack == old(gl.stack) + [OrthoProjection(tex.width, tex.height)]
    {
      gl := BeginTextureMode(gl, if eye == Left then renderTextureLeft else renderTextureRight);
      gl := RlMatrixMode(gl, Projection);
      gl := RlPushMatrix(gl);
      gl := RlLoadIdentity(gl);
      gl := RlMultMatrix(gl, Value(ProjectionMatrix(rt, eye)));
      gl := RlMatrixMode(gl, Modelview);
      gl := RlLoadIdentity(gl);
      gl := RlMultMatrix(gl, Multiply(Invert(Value(EyeMatrix(rt, eye))), matrixInvHmdTf));
      gl := RlEnableDepthTest(gl);
    }

    /** `EndEyeDrawing`. */
    method EndEyeDrawing()
      modifies this`gl
      ensures gl == EndEye(old(gl))
      ensures gl.target == Screen && gl.modelview == Identity
      ensures |old(gl.stack)| > 0 ==> gl.stack == old(gl.stack)[..|old(gl.stack)| - 1]
    {
      gl := EndTextureMode(gl);
      gl := RlMatrixMode(gl, Projection);
      gl := RlPopMatrix(gl);
      gl := RlMatrixMode(gl, Modelview);
      gl := RlLoadIdentity(gl);
      gl := RlDisableDepthTest(gl);
    }

    /** `SubmitFrames`: submit the left texture, then the right one; a
        failed submission is logged and the next one is still made. */
    method SubmitFrames(leftError: int, rightError: int)
      requires hmd.Some? && compositor.Some?
      modifies this`events
      ensures events == old(events)
        + [Submit(Submission(Left, renderTextureLeft.textureId, ColorSpaceAuto))] + SubmitErrorLog(leftError)
        + [Submit(Submission(Right, renderTextureRight.textureId, ColorSpaceAuto))] + SubmitErrorLog(rightError)
    {
      var err := leftError;
      events := events + [Submit(Submission(Left, renderTextureLeft.textureId, ColorSpaceAuto))];
      if err != COMPOSITOR_ERROR_NONE {
        events := events + [Log(Error, SubmitFailed(err))];
      }
      err := rightError;
      events := events + [Submit(Submission(Right, renderTextureRight.textureId, ColorSpaceAuto))];
      if err != COMPOSITOR_ERROR_NONE {
        events := events + [Log(Error, SubmitFailed(err))];
      }
    }

    /** `EndOpenVrDrawing`: submit both eyes. */
    method EndOpenVrDrawing(leftError: int, rightError: int)
      requires hmd.Some? && compositor.Some?
      modifies this`events
      ensures events == old(events)
        + [Submit(Submission(Left, renderTextureLeft.textureId, ColorSpaceAuto))] + SubmitErrorLog(leftError)
        + [Submit(Submission(Right, renderTextureRight.textureId, ColorSpaceAuto))] + SubmitErrorLog(rightError)
    {
      SubmitFrames(leftError, rightError);
    }

    /** `ShutdownOpenVr`: shut the runtime down, null the HMD table and
        release and zero both render textures. The compositor table is left
        as it was. */
    method ShutdownOpenVr()
      modifies this`hmd, this`renderTextureLeft, this`renderTextureRight, this`events
      ensures hmd == None
      ensures renderTextureLeft == EMPTY_RENDER_TEXTURE && renderTextureRight == EMPTY_RENDER_TEXTURE
      ensures events == old(events)
        + [RuntimeShutdown, Unload(old(renderTextureLeft)), Unload(old(renderTextureRight))]
    {
      events := events + [RuntimeShutdown];
      hmd := None;
      events := events + [Unload(renderTextureLeft)];
      events := events + [Unload(renderTextureRight)];
      renderTextureLeft := EMPTY_RENDER_TEXTURE;
      renderTextureRight := EMPTY_RENDER_TEXTURE;
    }
  }

  /** One pass of an application loop over this variant: sample, draw the
      left eye, draw the right eye, submit. The projection stack comes back
      as it was, the projection left behind is the right texture's
      orthographic one, and only the head pair, the tracked poses, rlgl and
      the trace change. */
  method DrawFrame(c: Core, rt: Runtime, sample: PoseSample, leftError: int, rightError: int)
    requires c.Valid() && c.hmd.Some? && c.compositor.Some?
    modifies c`matrixHmdTf, c`matrixInvHmdTf, c`gl, c`events, c.trackedPoses
    ensures c.Valid() && c.hmd == old(c.hmd) && c.compositor == old(c.compositor)
    ensures c.Head() == Sample(old(c.Head()), sample)
    ensures c.trackedPoses[..] == sample
    ensures c.gl == old(c.gl).(mode := Modelview, projection := OrthoProjection(c.renderTextureRight.width, c.renderTextureRight.height),
                                 modelview := Identity, target := Screen, depthTest := false)
    ensures c.events == old(c.events)
      + [Submit(Submission(Left, old(c.renderTextureLeft).textureId, ColorSpaceAuto))] + SubmitErrorLog(leftError)
      + [Submit(Submission(Right, old(c.renderTextureRight).textureId, ColorSpaceAuto))] + SubmitErrorLog(rightError)
  {
    c.UpdateOpenVr(sample);
    ghost var g0 := c.gl;
    c.BeginEyeDrawing(Left, rt);
    c.EndEyeDrawing();
    BracketBalanced(g0, c.renderTextureLeft, c.ProjectionMatrix(rt, Left),
                    ViewMatrix(EyeMatrix(rt, Left), c.matrixInvHmdTf));
    ghost var g1 := c.gl;
    c.BeginEyeDrawing(Right, rt);
    c.EndEyeDrawing();
    BracketBalanced(g1, c.renderTextureRight, c.ProjectionMatrix(rt, Right),
                    ViewMatrix(EyeMatrix(rt, Right), c.matrixInvHmdTf));
    c.EndOpenVrDrawing(leftError, rightError);
  }
}
