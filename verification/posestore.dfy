/** The cached head pose both variants keep: the HMD's transform and its
    inverse, refreshed together from one sample and kept when the sample is
    not valid. */
module PoseStore {
  import opened OpenVr
  import opened Raylib
  import opened Adapter

  /** The cached pair (`HMD_POSE`, `HMD_POSE_INV` / `matrixHmdTf`,
      `matrixInvHmdTf`). */
  datatype HeadPose = HeadPose(pose: Matrix, inverse: MatExpr)

  /** Both variants zero-initialise the pair: the inverse is the zero
      matrix, not the inverse of anything. */
  const INITIAL_HEAD: HeadPose := HeadPose(ZERO_MATRIX, Value(ZERO_MATRIX))

  /** The inverse was computed from the pose it is stored with. */
  predicate Consistent(h: HeadPose) {
    h.inverse == Invert(Value(h.pose))
  }

  /** The pair one valid sample produces. */
  function Fresh(sample: PoseSample): HeadPose {
    var pose := OpenVr34ToRaylib44Matrix(sample[HMD_DEVICE_INDEX].deviceToAbsoluteTracking);
    HeadPose(pose, Invert(Value(pose)))
  }

  /** One `UpdateOpenVr` step on the pair. */
  function Sample(h: HeadPose, sample: PoseSample): (r: HeadPose)
    ensures Consistent(h) || HeadPoseValid(sample) ==> Consistent(r)
  {
    if HeadPoseValid(sample) then Fresh(sample) else h
  }

  /** The pair after a sequence of samples, the last one applied last. */
  function History(h: HeadPose, samples: seq<PoseSample>): HeadPose
    decreases |samples|
  {
    if |samples| == 0 then h
    else Sample(History(h, samples[..|samples| - 1]), samples[|samples| - 1])
  }

  /** Samples with no valid head pose never change the pair, however many
      there are. */
  lemma {:induction false} StaleRetained(h: HeadPose, samples: seq<PoseSample>)
    requires forall k | 0 <= k < |samples| :: !HeadPoseValid(samples[k])
    ensures History(h, samples) == h
    decreases |samples|
  {
    if |samples| > 0 {
      StaleRetained(h, samples[..|samples| - 1]);
    }
  }

  /** The pair is the one produced by the last valid sample. */
  lemma {:induction false} LastValidWins(h: HeadPose, samples: seq<PoseSample>, k: nat)
    requires k < |samples| && HeadPoseValid(samples[k])
    requires forall j | k < j < |samples| :: !HeadPoseValid(samples[j])
    ensures History(h, samples) == Fresh(samples[k])
    decreases |samples|
  {
    if k < |samples| - 1 {
      LastValidWins(h, samples[..|samples| - 1], k);
    }
  }

  /** Once any sample has been valid, the cached inverse is the inverse of
      the cached pose. */
  lemma {:induction false} InverseMatchesPose(h: HeadPose, samples: seq<PoseSample>, k: nat)
    requires k < |samples| && HeadPoseValid(samples[k])
    ensures Consistent(History(h, samples))
    decreases |samples|
  {
    if k < |samples| - 1 {
      InverseMatchesPose(h, samples[..|samples| - 1], k);
    }
  }

  /** Before any valid sample the pose is the zero matrix and the stored
      inverse is the zero matrix too, not a term computed by inverting that
      pose. */
  lemma {:induction false} UntrackedHeadIsZero(samples: seq<PoseSample>)
    requires forall k | 0 <= k < |samples| :: !HeadPoseValid(samples[k])
    ensures History(INITIAL_HEAD, samples) == INITIAL_HEAD
    ensures History(INITIAL_HEAD, samples).pose == ZERO_MATRIX
    ensures History(INITIAL_HEAD, samples).inverse == Value(ZERO_MATRIX)
    ensures !Consistent(History(INITIAL_HEAD, samples))
  {
    StaleRetained(INITIAL_HEAD, samples);
  }
}
