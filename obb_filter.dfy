/**
 * OrientedBoundingBoxLabelMapFilter::ThreadedProcessLabelObject: the start
 * and end of every line become physical points relative to the centroid,
 * are projected onto the principal axes, and the per-axis bounds of the
 * projections, widened to the corners of the voxels, give the box's size,
 * direction and corner vertices.
 */
module OrientedBoundingBoxFilter {
  import opened Regions
  import opened LinearAlgebra
  import opened LabelObjects
  import opened OrientedBoundingBoxLabelObjects

  /** Every vector of `q` has `d` components. */
  predicate Dims(q: seq<Vec>, d: nat)
  {
    forall k :: 0 <= k < |q| ==> |q[k]| == d
  }

  // ---------------------------------------------------------------------
  // The point set

  /** The last index of a line: its start moved length - 1 samples along axis 0. */
  function LineEnd(line: Line): Index
    requires |line.index| > 0
  {
    line.index[0 := line.index[0] + line.length - 1]
  }

  /** The points of the label object: each line's start and end, in physical space, relative to the centroid. */
  function Points(lines: seq<Line>, toPhysical: Index -> Vec, centroid: Vec): (pts: seq<Vec>)
    requires |centroid| > 0 && forall l :: 0 <= l < |lines| ==> |lines[l].index| == |centroid|
    requires forall idx :: |idx| == |centroid| ==> |toPhysical(idx)| == |centroid|
    ensures |pts| == 2 * |lines| && Dims(pts, |centroid|)
    ensures forall l :: 0 <= l < |lines| ==>
      pts[2 * l] == VSub(toPhysical(lines[l].index), centroid) &&
      pts[2 * l + 1] == VSub(toPhysical(LineEnd(lines[l])), centroid)
    decreases |lines|
  {
    if |lines| == 0 then []
    else
      var line := lines[|lines| - 1];
      Points(lines[..|lines| - 1], toPhysical, centroid) +
        [VSub(toPhysical(line.index), centroid), VSub(toPhysical(LineEnd(line)), centroid)]
  }

  /** The loop that fills the matrix of pixel locations, two columns per line. */
  method PixelLocations(lines: seq<Line>, toPhysical: Index -> Vec, centroid: Vec) returns (pts: seq<Vec>)
    requires |centroid| > 0 && forall l :: 0 <= l < |lines| ==> |lines[l].index| == |centroid|
    requires forall idx :: |idx| == |centroid| ==> |toPhysical(idx)| == |centroid|
    ensures pts == Points(lines, toPhysical, centroid)
  {
    pts := [];
    for l := 0 to |lines|
      invariant pts == Points(lines[..l], toPhysical, centroid)
    {
      assert lines[..l + 1][..l] == lines[..l];
      var line := lines[l];
      var idx := line.index;
      var start := VSub(toPhysical(idx), centroid);
      idx := idx[0 := idx[0] + line.length - 1];
      var end := VSub(toPhysical(idx), centroid);
      pts := pts + [start, end];
    }
    assert lines[..|lines|] == lines;
  }

  /** The columns of rotation times the point matrix: every point projected onto the principal axes. */
  function Projected(r: Matrix, pts: seq<Vec>, d: nat): (q: seq<Vec>)
    requires IsMatrix(r, d, d) && Dims(pts, d)
    ensures |q| == |pts| && Dims(q, d)
  {
    seq(|pts|, k requires 0 <= k < |pts| => MatVec(r, pts[k]))
  }

  // ---------------------------------------------------------------------
  // The running scan for the per-axis bounds

  /** std::min(a, v): `a` unless `v` is smaller. */
  function RMin(a: real, v: real): real { if v < a then v else a }

  /** std::max(a, v): `a` unless `v` is larger. */
  function RMax(a: real, v: real): real { if a < v then v else a }

  /** Axis `i` of the running minimum, started from the first vector. */
  function MinOf(q: seq<Vec>, i: nat): real
    requires |q| > 0 && forall k :: 0 <= k < |q| ==> i < |q[k]|
    decreases |q|
  {
    if |q| == 1 then q[0][i] else RMin(MinOf(q[..|q| - 1], i), q[|q| - 1][i])
  }

  /** Axis `i` of the running maximum, started from the first vector. */
  function MaxOf(q: seq<Vec>, i: nat): real
    requires |q| > 0 && forall k :: 0 <= k < |q| ==> i < |q[k]|
    decreases |q|
  {
    if |q| == 1 then q[0][i] else RMax(MaxOf(q[..|q| - 1], i), q[|q| - 1][i])
  }

  function Lower(q: seq<Vec>, d: nat): (lo: Vec)
    requires |q| > 0 && Dims(q, d)
    ensures |lo| == d
  {
    seq(d, i requires 0 <= i < d => MinOf(q, i))
  }

  function Upper(q: seq<Vec>, d: nat): (hi: Vec)
    requires |q| > 0 && Dims(q, d)
    ensures |hi| == d
  {
    seq(d, i requires 0 <= i < d => MaxOf(q, i))
  }

  /** The scan's bounds hold every vector and are each attained by one of them. */
  lemma {:induction false} ScanBounds(q: seq<Vec>, d: nat, i: nat)
    requires |q| > 0 && Dims(q, d) && i < d
    ensures forall k :: 0 <= k < |q| ==> MinOf(q, i) <= q[k][i] <= MaxOf(q, i)
    ensures exists k :: 0 <= k < |q| && MinOf(q, i) == q[k][i]
    ensures exists k :: 0 <= k < |q| && MaxOf(q, i) == q[k][i]
    decreases |q|
  {
    var n := |q| - 1;
    if n == 0 {
      assert MinOf(q, i) == q[0][i] && MaxOf(q, i) == q[0][i];
    } else {
      ScanBounds(q[..n], d, i);
      var k1 :| 0 <= k1 < n && MinOf(q[..n], i) == q[..n][k1][i];
      var k2 :| 0 <= k2 < n && MaxOf(q[..n], i) == q[..n][k2][i];
      assert MinOf(q, i) == q[k1][i] || MinOf(q, i) == q[n][i];
      assert MaxOf(q, i) == q[k2][i] || MaxOf(q, i) == q[n][i];
      forall k | 0 <= k < |q|
        ensures MinOf(q, i) <= q[k][i] <= MaxOf(q, i)
      {
        if k < n { assert q[k] == q[..n][k]; }
      }
    }
  }

  lemma ScanStep(q: seq<Vec>, d: nat, c: nat)
    requires Dims(q, d) && 0 < c < |q|
    ensures forall i :: 0 <= i < d ==>
      MinOf(q[..c + 1], i) == RMin(MinOf(q[..c], i), q[c][i]) &&
      MaxOf(q[..c + 1], i) == RMax(MaxOf(q[..c], i), q[c][i])
  {
    assert q[..c + 1][..c] == q[..c];
  }

  /**
   * The scan over the projected points: both bounds start at the first
   * column and every further column lowers the minimum or raises the
   * maximum on each axis.
   */
  method ProjectionBounds(q: seq<Vec>, d: nat) returns (lo: Vec, hi: Vec)
    requires |q| > 0 && Dims(q, d)
    ensures lo == Lower(q, d) && hi == Upper(q, d)
  {
    lo, hi := q[0], q[0];
    for column := 1 to |q|
      invariant |lo| == d && |hi| == d
      invariant forall i :: 0 <= i < d ==> lo[i] == MinOf(q[..column], i) && hi[i] == MaxOf(q[..column], i)
    {
      ScanStep(q, d, column);
      ghost var lo0, hi0 := lo, hi;
      for i := 0 to d
        invariant |lo| == d && |hi| == d
        invariant forall k :: 0 <= k < d ==>
          lo[k] == (if k < i then RMin(lo0[k], q[column][k]) else lo0[k]) &&
          hi[k] == (if k < i then RMax(hi0[k], q[column][k]) else hi0[k])
      {
        lo := lo[i := RMin(lo[i], q[column][i])];
        hi := hi[i := RMax(hi[i], q[column][i])];
      }
    }
    assert q[..|q|] == q;
  }

  // ---------------------------------------------------------------------
  // Binary corner indexing

  function Pow2(n: nat): (p: nat)
    ensures p >= 1
  {
    if n == 0 then 1 else 2 * Pow2(n - 1)
  }

  /** Bit `b` of `i` is set: `i & (1 << b)` is non-zero. */
  function Bit(i: nat, b: nat): bool
  {
    if b == 0 then i % 2 == 1 else Bit(i / 2, b - 1)
  }

  /**
   * Corner `k` of the box [lo, hi]: on axis j the upper bound when bit
   * D-1-j of `k` is set, so axis 0 follows the most significant bit.
   */
  function Corner(lo: Vec, hi: Vec, k: nat): (v: Vec)
    requires |lo| == |hi|
    ensures |v| == |lo|
  {
    seq(|lo|, j requires 0 <= j < |lo| => if Bit(k, |lo| - 1 - j) then hi[j] else lo[j])
  }

  lemma {:induction false} BitZero(b: nat)
    ensures !Bit(0, b)
  {
    if b > 0 { BitZero(b - 1); }
  }

  lemma {:induction false} BitAllOnes(n: nat, b: nat)
    requires b < n
    ensures Bit(Pow2(n) - 1, b)
  {
    var p := Pow2(n - 1);
    assert Pow2(n) - 1 == 2 * (p - 1) + 1;
    if b > 0 {
      assert (Pow2(n) - 1) / 2 == p - 1;
      BitAllOnes(n - 1, b - 1);
    }
  }

  /** Corner 0 is the all-minimum corner and corner 2^D - 1 the all-maximum corner. */
  lemma CornerExtremes(lo: Vec, hi: Vec)
    requires |lo| == |hi|
    ensures Corner(lo, hi, 0) == lo
    ensures Corner(lo, hi, Pow2(|lo|) - 1) == hi
  {
    forall j | 0 <= j < |lo|
      ensures Corner(lo, hi, 0)[j] == lo[j] && Corner(lo, hi, Pow2(|lo|) - 1)[j] == hi[j]
    {
      BitZero(|lo| - 1 - j);
      BitAllOnes(|lo|, |lo| - 1 - j);
    }
  }

  // ---------------------------------------------------------------------
  // Widening to the voxel corners

  /**
   * The physical offsets from a voxel centre to its 2^D corners: the corners
   * of the half-spacing box, mapped by the image's local-to-physical vector map.
   */
  function HalfVoxelCorners(localToPhysical: Vec -> Vec, spacing: Vec): (cs: seq<Vec>)
    requires forall v :: |v| == |spacing| ==> |localToPhysical(v)| == |spacing|
    ensures |cs| == Pow2(|spacing|) && Dims(cs, |spacing|)
  {
    var lo, hi := VScale(-0.5, spacing), VScale(0.5, spacing);
    var cs := seq(Pow2(|spacing|), k requires 0 <= k < Pow2(|spacing|) => localToPhysical(Corner(lo, hi, k)));
    assert forall k :: 0 <= k < |cs| ==> cs[k] == localToPhysical(Corner(lo, hi, k));
    cs
  }

  /** The lower bounds of the box in the principal frame: the points' minima plus the voxel corners' minima. */
  function BoxLower(r: Matrix, pts: seq<Vec>, corners: seq<Vec>, d: nat): (lo: Vec)
    requires IsMatrix(r, d, d) && |pts| > 0 && Dims(pts, d) && |corners| > 0 && Dims(corners, d)
    ensures |lo| == d
  {
    VAdd(Lower(Projected(r, pts, d), d), Lower(Projected(r, corners, d), d))
  }

  function BoxUpper(r: Matrix, pts: seq<Vec>, corners: seq<Vec>, d: nat): (hi: Vec)
    requires IsMatrix(r, d, d) && |pts| > 0 && Dims(pts, d) && |corners| > 0 && Dims(corners, d)
    ensures |hi| == d
  {
    VAdd(Upper(Projected(r, pts, d), d), Upper(Projected(r, corners, d), d))
  }

  /** Projection is linear: projecting a sum adds the projections. */
  lemma MatVecAdd(r: Matrix, d: nat, p: Vec, c: Vec)
    requires IsMatrix(r, d, d) && |p| == d && |c| == d
    ensures MatVec(r, VAdd(p, c)) == VAdd(MatVec(r, p), MatVec(r, c))
  {
    forall i | 0 <= i < d
      ensures Dot(r[i], VAdd(p, c)) == Dot(r[i], p) + Dot(r[i], c)
    {
      DotAdd(r[i], p, c, VAdd(p, c));
    }
  }

  /** The component of a projected voxel corner: the point's projection plus the corner offset's. */
  lemma ProjectSum(r: Matrix, pts: seq<Vec>, corners: seq<Vec>, d: nat, k: nat, m: nat, i: nat)
    requires IsMatrix(r, d, d) && Dims(pts, d) && Dims(corners, d) && k < |pts| && m < |corners| && i < d
    ensures MatVec(r, VAdd(pts[k], corners[m]))[i] == Projected(r, pts, d)[k][i] + Projected(r, corners, d)[m][i]
  {
    MatVecAdd(r, d, pts[k], corners[m]);
  }

  /**
   * The widened box holds every corner of every voxel the points stand
   * for, projected onto the principal axes.
   */
  lemma BoxHoldsVoxelCorners(r: Matrix, pts: seq<Vec>, corners: seq<Vec>, d: nat, i: nat)
    requires IsMatrix(r, d, d) && |pts| > 0 && Dims(pts, d) && |corners| > 0 && Dims(corners, d) && i < d
    ensures forall k, m :: 0 <= k < |pts| && 0 <= m < |corners| ==>
      BoxLower(r, pts, corners, d)[i] <= MatVec(r, VAdd(pts[k], corners[m]))[i] <= BoxUpper(r, pts, corners, d)[i]
  {
    ScanBounds(Projected(r, pts, d), d, i);
    ScanBounds(Projected(r, corners, d), d, i);
    forall k, m | 0 <= k < |pts| && 0 <= m < |corners|
      ensures BoxLower(r, pts, corners, d)[i] <= MatVec(r, VAdd(pts[k], corners[m]))[i] <= BoxUpper(r, pts, corners, d)[i]
    {
      ProjectSum(r, pts, corners, d, k, m, i);
    }
  }

  /** The lower bound of the widened box is reached by a projected voxel corner. */
  lemma BoxLowerTight(r: Matrix, pts: seq<Vec>, corners: seq<Vec>, d: nat, i: nat)
    requires IsMatrix(r, d, d) && |pts| > 0 && Dims(pts, d) && |corners| > 0 && Dims(corners, d) && i < d
    ensures exists k, m ::
      0 <= k < |pts| && 0 <= m < |corners| && BoxLower(r, pts, corners, d)[i] == MatVec(r, VAdd(pts[k], corners[m]))[i]
  {
    var qp, qc := Projected(r, pts, d), Projected(r, corners, d);
    ScanBounds(qp, d, i);
    ScanBounds(qc, d, i);
    var k :| 0 <= k < |qp| && MinOf(qp, i) == qp[k][i];
    var m :| 0 <= m < |qc| && MinOf(qc, i) == qc[m][i];
    assert BoxLower(r, pts, corners, d)[i] == qp[k][i] + qc[m][i];
    ProjectSum(r, pts, corners, d, k, m, i);
    assert BoxLower(r, pts, corners, d)[i] == MatVec(r, VAdd(pts[k], corners[m]))[i];
  }

  /** The upper bound of the widened box is reached by a projected voxel corner. */
  lemma BoxUpperTight(r: Matrix, pts: seq<Vec>, corners: seq<Vec>, d: nat, i: nat)
    requires IsMatrix(r, d, d) && |pts| > 0 && Dims(pts, d) && |corners| > 0 && Dims(corners, d) && i < d
    ensures exists k, m ::
      0 <= k < |pts| && 0 <= m < |corners| && BoxUpper(r, pts, corners, d)[i] == MatVec(r, VAdd(pts[k], corners[m]))[i]
  {
    var qp, qc := Projected(r, pts, d), Projected(r, corners, d);
    ScanBounds(qp, d, i);
    ScanBounds(qc, d, i);
    var k :| 0 <= k < |qp| && MaxOf(qp, i) == qp[k][i];
    var m :| 0 <= m < |qc| && MaxOf(qc, i) == qc[m][i];
    assert BoxUpper(r, pts, corners, d)[i] == qp[k][i] + qc[m][i];
    ProjectSum(r, pts, corners, d, k, m, i);
    assert BoxUpper(r, pts, corners, d)[i] == MatVec(r, VAdd(pts[k], corners[m]))[i];
  }

  /** The lower bound never exceeds the upper bound, so the size is their difference. */
  lemma BoxOrdered(r: Matrix, pts: seq<Vec>, corners: seq<Vec>, d: nat)
    requires IsMatrix(r, d, d) && |pts| > 0 && Dims(pts, d) && |corners| > 0 && Dims(corners, d)
    ensures forall i :: 0 <= i < d ==> BoxLower(r, pts, corners, d)[i] <= BoxUpper(r, pts, corners, d)[i]
  {
    forall i | 0 <= i < d
      ensures BoxLower(r, pts, corners, d)[i] <= BoxUpper(r, pts, corners, d)[i]
    {
      ScanBounds(Projected(r, pts, d), d, i);
      ScanBounds(Projected(r, corners, d), d, i);
    }
  }

  /** Adds `v` to `u` axis by axis, as the widening and centring loops do. */
  method AddInPlace(u: Vec, v: Vec) returns (w: Vec)
    requires |u| == |v|
    ensures w == VAdd(u, v)
  {
    w := u;
    for i := 0 to |u|
      invariant |w| == |u| && forall k :: 0 <= k < |u| ==> w[k] == if k < i then u[k] + v[k] else u[k]
    {
      w := w[i := w[i] + v[i]];
    }
  }

  function RAbs(x: real): real { if x < 0.0 then -x else x }

  /** The real physical size: the absolute distance between the bounds on every axis. */
  function BoxSize(lo: Vec, hi: Vec): (s: Vec)
    requires |lo| == |hi|
    ensures |s| == |lo| && forall i :: 0 <= i < |lo| ==> s[i] >= 0.0
    ensures forall i :: 0 <= i < |lo| && lo[i] <= hi[i] ==> s[i] == hi[i] - lo[i]
  {
    seq(|lo|, i requires 0 <= i < |lo| => RAbs(hi[i] - lo[i]))
  }

  method ComputeSize(lo: Vec, hi: Vec) returns (s: Vec)
    requires |lo| == |hi|
    ensures s == BoxSize(lo, hi)
  {
    s := [];
    for i := 0 to |lo|
      invariant s == BoxSize(lo[..i], hi[..i])
    {
      s := s + [RAbs(hi[i] - lo[i])];
    }
    assert lo[..|lo|] == lo && hi[..|hi|] == hi;
  }

  // ---------------------------------------------------------------------
  // The vertices

  /** The box's corners mapped back from the principal frame and placed at the centroid. */
  function Vertices(rt: Matrix, lo: Vec, hi: Vec, c: Vec): (vs: seq<Vec>)
    requires |lo| == |hi| == |c| && IsMatrix(rt, |c|, |c|)
    ensures |vs| == Pow2(|lo|) && Dims(vs, |c|)
  {
    seq(Pow2(|lo|), k requires 0 <= k < Pow2(|lo|) => VAdd(MatVec(rt, Corner(lo, hi, k)), c))
  }

  lemma SubAdd(x: Vec, c: Vec)
    requires |x| == |c|
    ensures VSub(VAdd(x, c), c) == x
  {
  }

  /**
   * With an orthonormal rotation, vertex k seen from the centroid in the
   * principal frame is exactly corner k of the box [lo, hi].
   */
  lemma VerticesAreBoxCorners(r: Matrix, lo: Vec, hi: Vec, c: Vec, k: nat)
    requires RowsOrthonormal(r, |c|) && |lo| == |hi| == |c| && k < Pow2(|lo|)
    ensures MatVec(r, VSub(Vertices(Transpose(r, |c|), lo, hi, c)[k], c)) == Corner(lo, hi, k)
  {
    var x := Corner(lo, hi, k);
    SubAdd(MatVec(Transpose(r, |c|), x), c);
    RotateBack(r, |c|, x);
  }

  /** The loop over the 2^D vertices, each built axis by axis from its binary index. */
  method BoxVertices(rt: Matrix, lo: Vec, hi: Vec, c: Vec) returns (vs: seq<Vec>)
    requires |lo| == |hi| == |c| && IsMatrix(rt, |c|, |c|)
    ensures vs == Vertices(rt, lo, hi, c)
  {
    var d := |lo|;
    var count := Pow2(d);
    vs := [];
    for i := 0 to count
      invariant |vs| == i && forall k :: 0 <= k < i ==> vs[k] == VAdd(MatVec(rt, Corner(lo, hi, k)), c)
    {
      var corner := [];
      for j := 0 to d
        invariant corner == Corner(lo, hi, i)[..j]
      {
        corner := corner + [if Bit(i, d - 1 - j) then hi[j] else lo[j]];
      }
      assert corner == Corner(lo, hi, i);
      vs := vs + [VAdd(MatVec(rt, corner), c)];
    }
  }

  /** The box origin: the physical position of the box's all-minimum corner. */
  function BoxOrigin(rt: Matrix, lo: Vec, c: Vec): (o: Vec)
    requires |lo| == |c| && IsMatrix(rt, |c|, |c|)
    ensures |o| == |c|
  {
    VAdd(MatVec(rt, lo), c)
  }

  /** The box origin is vertex 0. */
  lemma BoxOriginIsVertexZero(rt: Matrix, lo: Vec, hi: Vec, c: Vec)
    requires |lo| == |hi| == |c| && IsMatrix(rt, |c|, |c|)
    ensures BoxOrigin(rt, lo, c) == Vertices(rt, lo, hi, c)[0]
  {
    CornerExtremes(lo, hi);
  }

  /** Seen from the centroid in the principal frame, the box origin is the lower bound `lo`. */
  lemma BoxOriginIsMinCorner(r: Matrix, lo: Vec, c: Vec)
    requires RowsOrthonormal(r, |c|) && |lo| == |c|
    ensures MatVec(r, VSub(BoxOrigin(Transpose(r, |c|), lo, c), c)) == lo
  {
    SubAdd(MatVec(Transpose(r, |c|), lo), c);
    RotateBack(r, |c|, lo);
  }

  // ---------------------------------------------------------------------
  // The label object's box

  /** What the image geometry and the label object give the filter, and what they must satisfy. */
  ghost predicate Inputs(obj: OrientedBoundingBoxLabelObject, toPhysical: Index -> Vec, localToPhysical: Vec -> Vec,
                         spacing: Vec)
    reads obj
  {
    var d := obj.dimension;
    d > 0 && |obj.lines| > 0 && (forall l :: 0 <= l < |obj.lines| ==> |obj.lines[l].index| == d > 0) &&
    |obj.inherited.centroid| == d && IsMatrix(obj.inherited.principalAxes, d, d) && |spacing| == d &&
    (forall idx :: |idx| == d ==> |toPhysical(idx)| == d) && (forall v :: |v| == d ==> |localToPhysical(v)| == d)
  }

  /**
   * Computes the oriented bounding box of one label object and stores its
   * vertices, size, direction and origin (the origin is the corrected
   * behaviour: the source leaves it as it was). The source asserts that the
   * object has at least one line.
   */
  method ThreadedProcessLabelObject(obj: OrientedBoundingBoxLabelObject, toPhysical: Index -> Vec,
                                    localToPhysical: Vec -> Vec, spacing: Vec)
    requires Inputs(obj, toPhysical, localToPhysical, spacing)
    modifies obj`obbVertices, obj`obbSize, obj`obbDirection, obj`obbOrigin
    ensures var d, r, c := obj.dimension, obj.inherited.principalAxes, obj.inherited.centroid;
      var pts := Points(obj.lines, toPhysical, c);
      var corners := HalfVoxelCorners(localToPhysical, spacing);
      var lo, hi := BoxLower(r, pts, corners, d), BoxUpper(r, pts, corners, d);
      obj.obbVertices == Vertices(Transpose(r, d), lo, hi, c) &&
      obj.obbSize == BoxSize(lo, hi) &&
      obj.obbDirection == Transpose(r, d) &&
      obj.obbOrigin == BoxOrigin(Transpose(r, d), lo, c)
  {
    var d := obj.dimension;
    var rotation := obj.inherited.principalAxes;
    var centroid := obj.inherited.centroid;
    var pts := PixelLocations(obj.lines, toPhysical, centroid);
    var lo, hi := ProjectionBounds(Projected(rotation, pts, d), d);
    var corners := HalfVoxelCorners(localToPhysical, spacing);
    var cornerLo, cornerHi := ProjectionBounds(Projected(rotation, corners, d), d);
    lo := AddInPlace(lo, cornerLo);
    hi := AddInPlace(hi, cornerHi);
    var size := ComputeSize(lo, hi);
    rotation := Transpose(rotation, d);
    var vertices := BoxVertices(rotation, lo, hi, centroid);
    var origin := VAdd(MatVec(rotation, lo), centroid);
    obj.SetOrientedBoundingBoxVertices(vertices);
    obj.SetOrientedBoundingBoxSize(size);
    obj.SetOrientedBoundingBoxDirection(rotation);
    obj.SetOrientedBoundingBoxOrigin(origin);
  }

  // ---------------------------------------------------------------------
  // The widening and the vertices as the source writes them

  /** The rotation by the 3-4-5 angle used in the two examples below. */
  const Rot345: Matrix := [[0.6, -0.8], [0.8, 0.6]]

  lemma Dot2(u: Vec, v: Vec)
    requires |u| == |v| == 2
    ensures Dot(u, v) == u[0] * v[0] + u[1] * v[1]
  {
    assert Dot(u[..1], v[..1]) == Dot(u[..1][..0], v[..1][..0]) + u[0] * v[0];
  }

  lemma Rot345Orthonormal()
    ensures RowsOrthonormal(Rot345, 2)
  {
    assert Dot(Rot345[0], Rot345[0]) == 1.0;
    assert Dot(Rot345[1], Rot345[1]) == 1.0;
    assert Dot(Rot345[0], Rot345[1]) == 0.0;
    assert Dot(Rot345[1], Rot345[0]) == 0.0;
  }

  /**
   * The widening as written: both bounds move by the projection of the one
   * physical half-spacing vector, with its sign.
   */
  function WidenAsWritten(r: Matrix, lo: Vec, hi: Vec, localToPhysical: Vec -> Vec, spacing: Vec, d: nat): (Vec, Vec)
    requires IsMatrix(r, d, d) && |lo| == |hi| == |spacing| == d
    requires forall v :: |v| == d ==> |localToPhysical(v)| == d
  {
    var off := MatVec(r, localToPhysical(VScale(0.5, spacing)));
    (VSub(lo, off), VAdd(hi, off))
  }

  /**
   * A single point at the centroid, unit spacing, an identity image
   * direction and the 3-4-5 rotation: the widening as written gives the
   * bounds (0.1, -0.7) and (-0.1, 0.7), so the minimum exceeds the maximum
   * on axis 0 and the voxel corner (0.5, -0.5), projected to (0.7, 0.1), is
   * outside them. BoxHoldsVoxelCorners shows the corrected box holds it.
   */
  lemma WidenAsWrittenMissesCorner()
    ensures WidenAsWritten(Rot345, [0.0, 0.0], [0.0, 0.0], v => v, [1.0, 1.0], 2) == ([0.1, -0.7], [-0.1, 0.7])
    ensures Corner(VScale(-0.5, [1.0, 1.0]), VScale(0.5, [1.0, 1.0]), 2) == [0.5, -0.5]
    ensures MatVec(Rot345, [0.5, -0.5]) == [0.7, 0.1]
    ensures 0.7 > WidenAsWritten(Rot345, [0.0, 0.0], [0.0, 0.0], v => v, [1.0, 1.0], 2).1[0]
  {
    var off := MatVec(Rot345, VScale(0.5, [1.0, 1.0]));
    assert VScale(0.5, [1.0, 1.0]) == [0.5, 0.5];
    assert Dot(Rot345[0], [0.5, 0.5]) == -0.1;
    assert Dot(Rot345[1], [0.5, 0.5]) == 0.7;
    assert off == [-0.1, 0.7];
    assert VSub([0.0, 0.0], off) == [0.1, -0.7];
    assert VAdd([0.0, 0.0], off) == [-0.1, 0.7];
    assert Bit(2, 1) && !Bit(2, 0);
    assert Dot(Rot345[0], [0.5, -0.5]) == 0.7;
    assert Dot(Rot345[1], [0.5, -0.5]) == 0.1;
  }

  /**
   * The vertices as written: the bounds are mapped back to two physical
   * points, and vertex k takes each physical coordinate from one of the two.
   */
  function VerticesAsWritten(rt: Matrix, lo: Vec, hi: Vec, c: Vec): (vs: seq<Vec>)
    requires |lo| == |hi| == |c| && IsMatrix(rt, |c|, |c|)
  {
    var lower, upper := VAdd(MatVec(rt, lo), c), VAdd(MatVec(rt, hi), c);
    seq(Pow2(|lo|), k requires 0 <= k < Pow2(|lo|) => Corner(lower, upper, k))
  }

  /**
   * The box [0, 5] x [0, 5] in the frame of the 3-4-5 rotation, centred at
   * the origin: the two mapped-back points are (0, 0) and (7, -1), so vertex
   * 1 as written is (0, -1), which the rotation takes to (0.8, -0.6), not a
   * corner of the box; the corrected vertex 1 is (4, 3), the box's corner (0, 5).
   */
  lemma VerticesAsWrittenOffBox()
    ensures Transpose(Rot345, 2) == [[0.6, 0.8], [-0.8, 0.6]]
    ensures VerticesAsWritten(Transpose(Rot345, 2), [0.0, 0.0], [5.0, 5.0], [0.0, 0.0])[1] == [0.0, -1.0]
    ensures MatVec(Rot345, [0.0, -1.0]) == [0.8, -0.6]
    ensures Vertices(Transpose(Rot345, 2), [0.0, 0.0], [5.0, 5.0], [0.0, 0.0])[1] == [4.0, 3.0]
    ensures Corner([0.0, 0.0], [5.0, 5.0], 1) == [0.0, 5.0]
  {
    var rt := [[0.6, 0.8], [-0.8, 0.6]];
    var t := Transpose(Rot345, 2);
    assert t[0][0] == 0.6 && t[0][1] == 0.8 && t[1][0] == -0.8 && t[1][1] == 0.6;
    assert t[0] == rt[0] && t[1] == rt[1];
    assert t == rt;
    Dot2(rt[0], [0.0, 0.0]); Dot2(rt[1], [0.0, 0.0]);
    Dot2(rt[0], [5.0, 5.0]); Dot2(rt[1], [5.0, 5.0]);
    Dot2(rt[0], [0.0, 5.0]); Dot2(rt[1], [0.0, 5.0]);
    Dot2(Rot345[0], [0.0, -1.0]); Dot2(Rot345[1], [0.0, -1.0]);
    assert MatVec(rt, [0.0, 0.0]) == [0.0, 0.0];
    assert MatVec(rt, [5.0, 5.0]) == [7.0, -1.0];
    assert VAdd([0.0, 0.0], [0.0, 0.0]) == [0.0, 0.0];
    assert VAdd([7.0, -1.0], [0.0, 0.0]) == [7.0, -1.0];
    assert Bit(1, 0) && !Bit(1, 1);
    assert Corner([0.0, 0.0], [7.0, -1.0], 1) == [0.0, -1.0];
    assert Corner([0.0, 0.0], [5.0, 5.0], 1) == [0.0, 5.0];
    assert MatVec(rt, [0.0, 5.0]) == [4.0, 3.0];
    assert VAdd([4.0, 3.0], [0.0, 0.0]) == [4.0, 3.0];
  }

  /** The origin the filter as written leaves on the object: whatever it held before. */
  function OriginAsWritten(before: Vec, rt: Matrix, lo: Vec, c: Vec): Vec
  {
    before
  }

  /**
   * An object whose origin still holds (0, 0), with the identity frame, the
   * centroid at (5, 5) and the lower bound (0, 0): the origin as written is
   * (-5, -5) from the centroid instead of the lower bound; the corrected
   * origin is (5, 5), which is at the lower bound.
   */
  lemma OriginAsWrittenOffBox()
    ensures VSub(OriginAsWritten([0.0, 0.0], Identity2, [0.0, 0.0], [5.0, 5.0]), [5.0, 5.0]) == [-5.0, -5.0]
    ensures BoxOrigin(Identity2, [0.0, 0.0], [5.0, 5.0]) == [5.0, 5.0]
  {
    Dot2(Identity2[0], [0.0, 0.0]); Dot2(Identity2[1], [0.0, 0.0]);
    assert MatVec(Identity2, [0.0, 0.0]) == [0.0, 0.0];
  }

  const Identity2: Matrix := [[1.0, 0.0], [0.0, 1.0]]
}
