/** The OpenVR types and runtime replies the core consumes. Every OpenVR call
    the core makes is foreign: its answers arrive here as plain values. */
module OpenVr {
  import opened CTypes

  /** One row of an OpenVR matrix (`float m[..][4]`). */
  type HmdRow = r: seq<Float> | |r| == 4 witness [ZERO_F, ZERO_F, ZERO_F, ZERO_F]

  const ZERO_ROW: HmdRow := [ZERO_F, ZERO_F, ZERO_F, ZERO_F]

  /** `HmdMatrix44_t`: four rows of four floats, row-major. */
  type HmdMatrix44 = m: seq<HmdRow> | |m| == 4 witness [ZERO_ROW, ZERO_ROW, ZERO_ROW, ZERO_ROW]

  /** `HmdMatrix34_t`: the three rows of an affine transform, row-major. */
  type HmdMatrix34 = m: seq<HmdRow> | |m| == 3 witness [ZERO_ROW, ZERO_ROW, ZERO_ROW]

  const ZERO_34: HmdMatrix34 := [ZERO_ROW, ZERO_ROW, ZERO_ROW]

  /** `Hmd_Eye` / `EVREye`. */
  datatype Eye = Left | Right

  /** `k_unMaxTrackedDeviceCount`, also the literal size of the C variant's array. */
  const MAX_TRACKED_DEVICE_COUNT: nat := 64

  /** `k_unTrackedDeviceIndex_Hmd`: the head-mounted display is device 0. */
  const HMD_DEVICE_INDEX: nat := 0

  /** `TrackedDevicePose_t`, reduced to the two members the core reads. */
  datatype TrackedPose = TrackedPose(deviceToAbsoluteTracking: HmdMatrix34, poseIsValid: bool)

  /** A zero-initialised `TrackedDevicePose_t`. */
  const ZERO_POSE: TrackedPose := TrackedPose(ZERO_34, false)

  /** What `WaitGetPoses` writes: one pose per tracked-device index. */
  type PoseSample = s: seq<TrackedPose> | |s| == MAX_TRACKED_DEVICE_COUNT
    witness seq(MAX_TRACKED_DEVICE_COUNT, _ => ZERO_POSE)

  predicate HeadPoseValid(sample: PoseSample) {
    sample[HMD_DEVICE_INDEX].poseIsValid
  }

  /** `VRInitError_None` and `VRCompositorError_None`. */
  const INIT_ERROR_NONE: int := 0
  const COMPOSITOR_ERROR_NONE: int := 0

  /** An opaque non-null pointer or interface token handed out by the runtime. */
  type Handle = nat

  /** The interface-version strings the C variant builds its table names from. */
  datatype Interface = SystemInterface | CompositorInterface

  datatype ColorSpace = ColorSpaceAuto | ColorSpaceGamma | ColorSpaceLinear

  /** One `Submit` call: the eye, the OpenGL texture name passed as the
      handle (`TextureType_OpenGL` in both variants) and the colour space. */
  datatype Submission = Submission(eye: Eye, textureHandle: nat, colorSpace: ColorSpace)

  /** The replies of the tracking runtime the core queries. */
  datatype Runtime = Runtime(
    runtimeInstalled: bool,                        // VR_IsRuntimeInstalled
    hmdPresent: bool,                              // VR_IsHmdPresent
    initError: int,                                // error out of VR_Init / VR_InitInternal
    initHandle: Handle,                            // what VR_Init / VR_InitInternal returns
    systemTableError: int,                         // VR_GetGenericInterface for IVRSystem
    systemTable: Handle,
    compositorTableError: int,                     // VR_GetGenericInterface for IVRCompositor
    compositorTable: Handle,
    trackingSystemName: string,                    // Prop_TrackingSystemName_String of the HMD
    recommendedWidth: uint32,                      // GetRecommendedRenderTargetSize
    recommendedHeight: uint32,
    projection: (Eye, Float, Float) -> HmdMatrix44, // GetProjectionMatrix(eye, near, far)
    eyeToHead: Eye -> HmdMatrix34                  // GetEyeToHeadTransform(eye)
  )
}
