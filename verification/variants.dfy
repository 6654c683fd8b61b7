/** How the two bindings differ in the view matrix they load for an eye,
    over the same history of pose samples. Both cache the head pose and
    its inverse the same way; the C++ binding multiplies the eye-to-head
    transform by the inverse of the cached pose, the C binding multiplies
    the inverse of the eye-to-head transform by the cached inverse. */
module Variants {
  import opened OpenVr
  import opened Raylib
  import opened PoseStore
  import Rlvr
  import Rayvr

  /** Once any sample has carried a valid head pose, both bindings use the
      inverse of the same cached pose as the head factor; their view
      expressions still differ in the eye factor, which only the C binding
      inverts. These are terms: for an eye-to-head transform that is its own
      inverse the two views denote the same matrix. */
  lemma TrackedViewsShareHeadFactor(samples: seq<PoseSample>, k: nat, eyeTf: Matrix)
    requires k < |samples| && HeadPoseValid(samples[k])
    ensures Rlvr.ViewMatrix(eyeTf, History(INITIAL_HEAD, samples).pose).right
         == Rayvr.ViewMatrix(eyeTf, History(INITIAL_HEAD, samples).inverse).right
    ensures Rlvr.ViewMatrix(eyeTf, History(INITIAL_HEAD, samples).pose)
         != Rayvr.ViewMatrix(eyeTf, History(INITIAL_HEAD, samples).inverse)
  {
    InverseMatchesPose(INITIAL_HEAD, samples, k);
  }

  /** Before any valid head pose has arrived, the C binding multiplies by
      the zero matrix it was initialised with, while the C++ binding
      inverts the zero pose: the two head factors are different
      expressions. */
  lemma UntrackedViewsDiffer(samples: seq<PoseSample>, eyeTf: Matrix)
    requires forall k | 0 <= k < |samples| :: !HeadPoseValid(samples[k])
    ensures Rayvr.ViewMatrix(eyeTf, History(INITIAL_HEAD, samples).inverse).right == Value(ZERO_MATRIX)
    ensures Rlvr.ViewMatrix(eyeTf, History(INITIAL_HEAD, samples).pose).right == Invert(Value(ZERO_MATRIX))
  {
    StaleRetained(INITIAL_HEAD, samples);
  }
}
