/** The matrix adapters: OpenVR's row-major 4x4 and 3x4 matrices to raylib's
    `Matrix`. Both are pure copies; no value is changed. */
module Adapter {
  import opened CTypes
  import opened OpenVr
  import opened Raylib

  /** `OpenVr44ToRaylib44Matrix`: every entry lands at the same row and column. */
  function OpenVr44ToRaylib44Matrix(mat: HmdMatrix44): (r: Matrix)
    ensures forall row, col | 0 <= row < 4 && 0 <= col < 4 :: At(r, row, col) == mat[row][col]
  {
    var r0: seq<Float> := mat[0];
    r0 + mat[1] + mat[2] + mat[3]
  }

  /** `OpenVr34ToRaylib44Matrix`: the three rows are copied and the fourth row
      becomes 0, 0, 0, 1. */
  function OpenVr34ToRaylib44Matrix(mat: HmdMatrix34): (r: Matrix)
    ensures forall row, col | 0 <= row < 3 && 0 <= col < 4 :: At(r, row, col) == mat[row][col]
    ensures r[12..] == [ZERO_F, ZERO_F, ZERO_F, ONE_F]
  {
    var r0: seq<Float> := mat[0];
    r0 + mat[1] + mat[2] + [ZERO_F, ZERO_F, ZERO_F, ONE_F]
  }

  /** The inverse relabelling: a raylib matrix read back as OpenVR rows. */
  function Rows44(m: Matrix): (r: HmdMatrix44)
    ensures forall row, col | 0 <= row < 4 && 0 <= col < 4 :: r[row][col] == At(m, row, col)
  {
    [m[0..4], m[4..8], m[8..12], m[12..16]]
  }

  /** The upper 3x4 block of a raylib matrix. */
  function AffineBlock(m: Matrix): (r: HmdMatrix34)
    ensures forall row, col | 0 <= row < 3 && 0 <= col < 4 :: r[row][col] == At(m, row, col)
  {
    [m[0..4], m[4..8], m[8..12]]
  }

  /** A matrix whose fourth row is the homogeneous row 0, 0, 0, 1. */
  predicate IsAffine(m: Matrix) {
    m[12..] == [ZERO_F, ZERO_F, ZERO_F, ONE_F]
  }

  /** Two matrices are equal when their entries are. */
  lemma {:induction false} EntrywiseEqual(a: Matrix, b: Matrix)
    requires forall row, col | 0 <= row < 4 && 0 <= col < 4 :: At(a, row, col) == At(b, row, col)
    ensures a == b
  {
    forall i | 0 <= i < 16 ensures a[i] == b[i] {
      assert At(a, i / 4, i % 4) == At(b, i / 4, i % 4);
    }
  }

  /** The 4x4 adapter loses nothing: reading the rows back gives the input,
      and every raylib matrix is the image of its own rows. */
  lemma {:induction false} Convert44RoundTrip(mat: HmdMatrix44, m: Matrix)
    ensures Rows44(OpenVr44ToRaylib44Matrix(mat)) == mat
    ensures OpenVr44ToRaylib44Matrix(Rows44(m)) == m
  {
    var r := Rows44(OpenVr44ToRaylib44Matrix(mat));
    forall row | 0 <= row < 4 ensures r[row] == mat[row] {
      forall col | 0 <= col < 4 ensures r[row][col] == mat[row][col] {
      }
    }
    EntrywiseEqual(OpenVr44ToRaylib44Matrix(Rows44(m)), m);
  }

  /** The 3x4 adapter loses nothing of its input, and its images are exactly
      the affine matrices. */
  lemma {:induction false} Convert34RoundTrip(mat: HmdMatrix34, m: Matrix)
    ensures AffineBlock(OpenVr34ToRaylib44Matrix(mat)) == mat
    ensures IsAffine(OpenVr34ToRaylib44Matrix(mat))
    ensures OpenVr34ToRaylib44Matrix(AffineBlock(m)) == m <==> IsAffine(m)
  {
    var r := AffineBlock(OpenVr34ToRaylib44Matrix(mat));
    forall row | 0 <= row < 3 ensures r[row] == mat[row] {
      forall col | 0 <= col < 4 ensures r[row][col] == mat[row][col] {
      }
    }
    var back := OpenVr34ToRaylib44Matrix(AffineBlock(m));
    if IsAffine(m) {
      forall row, col | 0 <= row < 4 && 0 <= col < 4 ensures At(back, row, col) == At(m, row, col) {
        if row == 3 {
          assert At(back, row, col) == back[12..][col];
          assert At(m, row, col) == m[12..][col];
        }
      }
      EntrywiseEqual(back, m);
    }
  }
}
