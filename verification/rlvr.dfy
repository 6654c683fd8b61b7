/** The C++ variant (`rlvr` namespace): its file-level statics as one object. */
module Rlvr {
  import opened CTypes
  import opened Wrappers
  import opened OpenVr
  import opened Raylib
  import opened Adapter
  import opened PoseStore
  import opened EyeBracket

  /** `NEAR_Z` and `FAR_Z`: 0.1f and 30.0f. */
  const NEAR_Z: Float := Float(0x3DCC_CCCD)
  const FAR_Z: Float := Float(0x41F0_0000)

  /** `GetProjectionMatrix(eye)`: the runtime's projection for the fixed clip planes. */
  function ProjectionMatrix(rt: Runtime, eye: Eye): Matrix {
    OpenVr44ToRaylib44Matrix(rt.projection(eye, NEAR_Z, FAR_Z))
  }

  /** `rlvr::GetEyeMatrix(eye)`: the eye-to-head transform. */
  function EyeMatrix(rt: Runtime, eye: Eye): Matrix {
    OpenVr34ToRaylib44Matrix(rt.eyeToHead(eye))
  }

  /** The modelview this variant loads: `MatrixMultiply(Eye, MatrixInvert(HMD_POSE))`,
      inverting the pose afresh rather than reading `HMD_POSE_INV`. */
  function ViewMatrix(eyeTf: Matrix, hmdPose: Matrix): MatExpr
  {
    Multiply(Value(eyeTf), Invert(Value(hmdPose)))
  }

  /** The render texture an eye draws into: left for `Eye_Left`, right otherwise. */
  function EyeTexture(eye: Eye, left: RenderTexture, right: RenderTexture): RenderTexture {
    if eye == Left then left else right
  }

  class Session {
    var hmd: Option<Handle>                   // HMD
    var renderTexWidth: uint32                // RENDER_TEX_WIDTH
    var renderTexHeight: uint32               // RENDER_TEX_HEIGHT
    var renderTexL: RenderTexture             // RENDER_TEX_L
    var renderTexR: RenderTexture             // RENDER_TEX_R
    const trackedPoses: array<TrackedPose>    // TRACKED_POSES
    var matProjLeft: Matrix                   // MAT_PROJ_LEFT
    var matProjRight: Matrix                  // MAT_PROJ_RIGHT
    var matEyeLeft: Matrix                    // MAT_EYE_LEFT
    var matEyeRight: Matrix                   // MAT_EYE_RIGHT
    var hmdPose: Matrix                       // HMD_POSE
    var hmdPoseInv: MatExpr                   // HMD_POSE_INV
    var gl: Gl                                // rlgl's state
    var events: seq<Event>                    // foreign side effects, in order

    ghost predicate Valid()
      reads this
    {
      trackedPoses.Length == MAX_TRACKED_DEVICE_COUNT
    }

    /** The cached head pose. */
    function Head(): HeadPose
      reads this
    {
      HeadPose(hmdPose, hmdPoseInv)
    }

    /** `rlvr::GetPoseMatrix`. */
    function GetPoseMatrix(): Matrix
      reads this
    {
      hmdPose
    }

    /** `rlvr::GetHmd`. */
    function GetHmd(): Option<Handle>
      reads this
    {
      hmd
    }

    /** The statics before `InitOpenVr`: all zero-initialised; `gl0` is
        whatever rlgl state the window was opened with. */
    constructor (gl0: Gl)
      ensures Valid() && fresh(trackedPoses)
      ensures GetHmd() == None && GetPoseMatrix() == ZERO_MATRIX && Head() == INITIAL_HEAD
      ensures renderTexL == EMPTY_RENDER_TEXTURE && renderTexR == EMPTY_RENDER_TEXTURE
      ensures renderTexWidth == 0 && renderTexHeight == 0
      ensures trackedPoses[..] == seq(MAX_TRACKED_DEVICE_COUNT, _ => ZERO_POSE)
      ensures gl == gl0 && events == []
    {
      hmd := None;
      renderTexWidth, renderTexHeight := 0, 0;
      renderTexL, renderTexR := EMPTY_RENDER_TEXTURE, EMPTY_RENDER_TEXTURE;
      trackedPoses := new TrackedPose[MAX_TRACKED_DEVICE_COUNT](_ => ZERO_POSE);
      matProjLeft, matProjRight, matEyeLeft, matEyeRight := ZERO_MATRIX, ZERO_MATRIX, ZERO_MATRIX, ZERO_MATRIX;
      hmdPose, hmdPoseInv := ZERO_MATRIX, Value(ZERO_MATRIX);
      gl := gl0;
      events := [];
    }

    /** `rlvr::InitOpenVr`: start the runtime, or log and exit when it fails;
        then size both render textures alike and cache the eye matrices.
        `left` and `right` are what the backend allocates for the two
        `LoadRenderTexture` calls. */
    method InitOpenVr(rt: Runtime, left: Allocation, right: Allocation) returns (status: InitStatus)
      modifies this`hmd, this`renderTexWidth, this`renderTexHeight, this`renderTexL, this`renderTexR,
               this`matProjLeft, this`matProjRight, this`matEyeLeft, this`matEyeRight, this`events
      ensures status == Exited <==> rt.initError != INIT_ERROR_NONE
      ensures status == Exited ==>
        && hmd == None
        && events == old(events) + [Log(Info, Initializing), Log(Error, RuntimeInitFailed(rt.initError))]
        && renderTexL == old(renderTexL) && renderTexR == old(renderTexR)
      ensures status == Initialized ==>
        && hmd == Some(rt.initHandle)
        && events == old(events) + [Log(Info, Initializing), Log(Info, TrackingSystem(rt.trackingSystemName))]
        && renderTexWidth == rt.recommendedWidth && renderTexHeight == rt.recommendedHeight
        && renderTexL == LoadRenderTexture(left, ToInt32(rt.recommendedWidth), ToInt32(rt.recommendedHeight))
        && renderTexR == LoadRenderTexture(right, ToInt32(rt.recommendedWidth), ToInt32(rt.recommendedHeight))
        && renderTexL.width == renderTexR.width && renderTexL.height == renderTexR.height
        && matProjLeft == ProjectionMatrix(rt, Left) && matProjRight == ProjectionMatrix(rt, Right)
        && matEyeLeft == EyeMatrix(rt, Left) && matEyeRight == EyeMatrix(rt, Right)
    {
      events := events + [Log(Info, Initializing)];
      hmd := Some(rt.initHandle);
      if rt.initError != INIT_ERROR_NONE {
        hmd := None;
        events := events + [Log(Error, RuntimeInitFailed(rt.initError))];
        return Exited;
      }
      events := events + [Log(Info, TrackingSystem(rt.trackingSystemName))];
      renderTexWidth, renderTexHeight := rt.recommendedWidth, rt.recommendedHeight;
      renderTexL := LoadRenderTexture(left, ToInt32(renderTexWidth), ToInt32(renderTexHeight));
      renderTexR := LoadRenderTexture(right, ToInt32(renderTexWidth), ToInt32(renderTexHeight));
      matProjLeft := ProjectionMatrix(rt, Left);
      matProjRight := ProjectionMatrix(rt, Right);
      matEyeLeft := EyeMatrix(rt, Left);
      matEyeRight := EyeMatrix(rt, Right);
      return Initialized;
    }

    /** `rlvr::UpdateOpenVr`: store the sample `WaitGetPoses` delivered, and
        refresh the head pose and its inverse only if the HMD's pose is valid. */
    method UpdateOpenVr(sample: PoseSample)
      requires Valid() && hmd.Some?
      modifies this`hmdPose, this`hmdPoseInv, trackedPoses
      ensures trackedPoses[..] == sample
      ensures Head() == Sample(old(Head()), sample)
      ensures HeadPoseValid(sample) ==>
        Consistent(Head()) && hmdPose == OpenVr34ToRaylib44Matrix(sample[HMD_DEVICE_INDEX].deviceToAbsoluteTracking)
      ensures !HeadPoseValid(sample) ==> hmdPose == old(hmdPose) && hmdPoseInv == old(hmdPoseInv)
    {
      forall i | 0 <= i < MAX_TRACKED_DEVICE_COUNT {
        trackedPoses[i] := sample[i];
      }
      if trackedPoses[HMD_DEVICE_INDEX].poseIsValid {
        var mat := trackedPoses[HMD_DEVICE_INDEX].deviceToAbsoluteTracking;
        hmdPose := OpenVr34ToRaylib44Matrix(mat);
        hmdPoseInv := Invert(Value(hmdPose));
      }
    }

    /** `rlvr::BeginEyeDrawing`. */
    method BeginEyeDrawing(eye: Eye, rt: Runtime)
      requires hmd.Some?
      modifies this`gl
      ensures gl == BeginEye(old(gl), EyeTexture(eye, renderTexL, renderTexR),
                             ProjectionMatrix(rt, eye), ViewMatrix(EyeMatrix(rt, eye), hmdPose))
      ensures gl.target == Texture(if eye == Left then renderTexL else renderTexR)
      ensures var tex := EyeTexture(eye, renderTexL, renderTexR);
        gl.stack == old(gl.stack) + [OrthoProjection(tex.width, tex.height)]
    {
      gl := BeginTextureMode(gl, if eye == Left then renderTexL else renderTexR);
      gl := RlMatrixMode(gl, Projection);
      gl := RlPushMatrix(gl);
      gl := RlLoadIdentity(gl);
      gl := RlMultMatrix(gl, Value(ProjectionMatrix(rt, eye)));
      gl := RlMatrixMode(gl, Modelview);
      gl := RlLoadIdentity(gl);
      gl := RlMultMatrix(gl, Multiply(Value(EyeMatrix(rt, eye)), Invert(Value(hmdPose))));
      gl := RlEnableDepthTest(gl);
    }

    /** `rlvr::EndEyeDrawing`. */
    method EndEyeDrawing()
      modifies this`gl
      ensures gl == EndEye(old(gl))
      ensures gl.target == Screen && gl.modelview == Identity
      ensures |old(gl.stack)| > 0 ==> gl.stack == old(gl.stack)[..|old(gl.stack)| - 1]
    {
      gl := EndTextureMode(gl);
      gl := RlMatrixMode(gl, Projection);
      gl := RlPopMatrix(gl);
      gl := RlMatrixMode(gl, Modelview);
      gl := RlLoadIdentity(gl);
      gl := RlDisableDepthTest(gl);
    }

    /** `SubmitFrames`: submit the left texture, then the right one; a
        failed submission is logged and the next one is still made.
        `leftError` and `rightError` are what the two `Submit` calls return. */
    method SubmitFrames(leftError: int, rightError: int)
      requires hmd.Some?
      modifies this`events
      ensures events == old(events)
        + [Submit(Submission(Left, renderTexL.textureId, ColorSpaceGamma))] + SubmitErrorLog(leftError)
        + [Submit(Submission(Right, renderTexR.textureId, ColorSpaceGamma))] + SubmitErrorLog(rightError)
    {
      var compErr := leftError;
      events := events + [Submit(Submission(Left, renderTexL.textureId, ColorSpaceGamma))];
      if compErr != COMPOSITOR_ERROR_NONE {
        events := events + [Log(Error, SubmitFailed(compErr))];
      }
      compErr := rightError;
      events := events + [Submit(Submission(Right, renderTexR.textureId, ColorSpaceGamma))];
      if compErr != COMPOSITOR_ERROR_NONE {
        events := events + [Log(Error, SubmitFailed(compErr))];
      }
    }

    /** `rlvr::EndOpenVrDrawing`: submit both eyes. */
    method EndOpenVrDrawing(leftError: int, rightError: int)
      requires hmd.Some?
      modifies this`events
      ensures events == old(events)
        + [Submit(Submission(Left, renderTexL.textureId, ColorSpaceGamma))] + SubmitErrorLog(leftError)
        + [Submit(Submission(Right, renderTexR.textureId, ColorSpaceGamma))] + SubmitErrorLog(rightError)
    {
      SubmitFrames(leftError, rightError);
    }

    /** `rlvr::ShutdownOpenVr`: shut the runtime down, drop the HMD handle and
        release and zero both render textures. */
    method ShutdownOpenVr()
      modifies this`hmd, this`renderTexL, this`renderTexR, this`events
      ensures GetHmd() == None
      ensures renderTexL == EMPTY_RENDER_TEXTURE && renderTexR == EMPTY_RENDER_TEXTURE
      ensures events == old(events) + [RuntimeShutdown, Unload(old(renderTexL)), Unload(old(renderTexR))]
    {
      events := events + [RuntimeShutdown];
      hmd := None;
      events := events + [Unload(renderTexL)];
      renderTexL := EMPTY_RENDER_TEXTURE;
      events := events + [Unload(renderTexR)];
      renderTexR := EMPTY_RENDER_TEXTURE;
    }
  }

  /** One pass of the application loop (main.cpp): sample, draw the left
      eye, draw the right eye, submit. The projection stack comes back as it
      was, the projection left behind is the right texture's orthographic
      one, the left eye is submitted before the right one, and only the
      head pair, the tracked poses, rlgl and the trace change. */
  method DrawFrame(s: Session, rt: Runtime, sample: PoseSample, leftError: int, rightError: int)
    requires s.Valid() && s.hmd.Some?
    modifies s`hmdPose, s`hmdPoseInv, s`gl, s`events, s.trackedPoses
    ensures s.Valid() && s.hmd == old(s.hmd)
    ensures s.Head() == Sample(old(s.Head()), sample)
    ensures s.trackedPoses[..] == sample
    ensures s.gl == old(s.gl).(mode := Modelview, projection := OrthoProjection(s.renderTexR.width, s.renderTexR.height),
                                 modelview := Identity, target := Screen, depthTest := false)
    ensures s.events == old(s.events)
      + [Submit(Submission(Left, old(s.renderTexL).textureId, ColorSpaceGamma))] + SubmitErrorLog(leftError)
      + [Submit(Submission(Right, old(s.renderTexR).textureId, ColorSpaceGamma))] + SubmitErrorLog(rightError)
  {
    s.UpdateOpenVr(sample);
    ghost var g0 := s.gl;
    s.BeginEyeDrawing(Left, rt);
    s.EndEyeDrawing();
    BracketBalanced(g0, s.renderTexL, ProjectionMatrix(rt, Left), ViewMatrix(EyeMatrix(rt, Left), s.hmdPose));
    ghost var g1 := s.gl;
    s.BeginEyeDrawing(Right, rt);
    s.EndEyeDrawing();
    BracketBalanced(g1, s.renderTexR, ProjectionMatrix(rt, Right), ViewMatrix(EyeMatrix(rt, Right), s.hmdPose));
    s.EndOpenVrDrawing(leftError, rightError);
  }
}
