/**
 * OrientedBoundingBoxImageLabelMapFilter: for every label object, the grid
 * of its oriented bounding box (size per axis, origin, direction, spacing)
 * is computed, the feature image is resampled on it, and the result is
 * attached to the object as its attribute image.
 */
module OrientedBoundingBoxImageFilter {
  import opened Wrappers
  import opened Regions
  import opened LinearAlgebra
  import opened LabelObjects
  import opened OrientedBoundingBoxLabelObjects
  import opened AttributeImageLabelObjects
  import opened OrientedBoundingBoxFilter

  /** The interpolators the filter can hold; a new filter holds a linear one. */
  datatype Interpolator = LinearInterpolator | NearestNeighborInterpolator

  /** Math::Round: to the nearest integer, halves upwards. */
  function Round(x: real): int
  {
    (x + 0.5).Floor
  }

  /** Round is within one half of its argument. */
  lemma RoundNearest(x: real)
    ensures x - 0.5 < Round(x) as real <= x + 0.5
  {
  }

  /**
   * Samples on one axis of the output grid: one when a negative padding
   * leaves no extent, otherwise the padded extent in units of the output
   * spacing, rounded, plus one.
   */
  function OutSizeAxis(size: real, pad: real, spacing: real): int
    requires spacing != 0.0
  {
    if pad < 0.0 && size <= -2.0 * pad then 1 else Round((size + 2.0 * pad) / spacing) + 1
  }

  lemma QuotientNonnegative(x: real, s: real)
    requires x >= 0.0 && s > 0.0
    ensures x / s >= 0.0
  {
  }

  /** For a box size of at least zero and a positive spacing, every axis has at least one sample. */
  lemma OutSizeAtLeastOne(size: real, pad: real, spacing: real)
    requires size >= 0.0 && spacing > 0.0
    ensures OutSizeAxis(size, pad, spacing) >= 1
  {
    if !(pad < 0.0 && size <= -2.0 * pad) {
      QuotientNonnegative(size + 2.0 * pad, spacing);
    }
  }

  lemma ScaleBounds(lo: real, hi: real, n: real, s: real)
    requires s > 0.0 && lo < n <= hi
    ensures lo * s < n * s <= hi * s
  {
  }

  /**
   * Outside the degenerate case, the grid's first-to-last distance, (n - 1)
   * samples of spacing s, is within half a sample of the padded extent.
   */
  lemma OutSizeSpansBox(size: real, pad: real, spacing: real)
    requires spacing > 0.0 && !(pad < 0.0 && size <= -2.0 * pad)
    ensures var extent := (OutSizeAxis(size, pad, spacing) - 1) as real * spacing;
      size + 2.0 * pad - spacing / 2.0 < extent <= size + 2.0 * pad + spacing / 2.0
  {
    var x := (size + 2.0 * pad) / spacing;
    RoundNearest(x);
    ScaleBounds(x - 0.5, x + 0.5, Round(x) as real, spacing);
    assert x * spacing == size + 2.0 * pad;
  }

  /** The number of samples per axis of the output grid. */
  function OutputSize(size: Vec, pad: Vec, spacing: Vec): (n: seq<nat>)
    requires |size| == |pad| == |spacing|
    requires forall i :: 0 <= i < |size| ==> size[i] >= 0.0 && spacing[i] > 0.0
    ensures |n| == |size| && forall i :: 0 <= i < |size| ==> n[i] >= 1
  {
    seq(|size|, i requires 0 <= i < |size| =>
      OutSizeAtLeastOne(size[i], pad[i], spacing[i]);
      OutSizeAxis(size[i], pad[i], spacing[i]))
  }

  /** The output origin: the box origin moved back by the padding expressed in the box's directions. */
  function OutputOrigin(origin: Vec, direction: Matrix, pad: Vec): (o: Vec)
    requires |origin| == |direction| && forall i :: 0 <= i < |direction| ==> |direction[i]| == |pad|
    ensures |o| == |origin|
  {
    VSub(origin, MatVec(direction, pad))
  }

  /**
   * When the box direction is the transpose of an orthonormal rotation `r`
   * (as the oriented-bounding-box filter stores it), the origin lies `pad`
   * before the box origin along every one of the box's axes: `r` takes the
   * shift back to the padding vector.
   */
  lemma OutputOriginShift(origin: Vec, r: Matrix, pad: Vec)
    requires |origin| == |pad| && RowsOrthonormal(r, |pad|)
    ensures var direction := Transpose(r, |pad|);
      MatVec(r, VSub(origin, OutputOrigin(origin, direction, pad))) == pad
  {
    var direction := Transpose(r, |pad|);
    assert VSub(origin, OutputOrigin(origin, direction, pad)) == MatVec(direction, pad);
    RotateBack(r, |pad|, pad);
  }

  class OrientedBoundingBoxImageLabelMapFilter {
    const dimension: nat
    /** The named inputs the pipeline must be given besides the label map. */
    const requiredInputNames: set<string>
    var paddingOffset: seq<real>
    var attributeImageSpacing: seq<real>
    var interpolator: Interpolator
    var defaultPixelValue: int
    /** The "FeatureImage" input. */
    var featureImage: Option<Image>
    var modifiedTime: nat

    ghost predicate Valid()
      reads this
    {
      dimension > 0 && |paddingOffset| == dimension && |attributeImageSpacing| == dimension
    }

    /** A new filter: padding -0.5 and spacing 1 on every axis, a linear interpolator, default value 0. */
    constructor (dimension: nat)
      requires dimension > 0
      ensures Valid() && this.dimension == dimension && requiredInputNames == {"FeatureImage"}
      ensures paddingOffset == seq(dimension, _ => -0.5) && attributeImageSpacing == seq(dimension, _ => 1.0)
      ensures interpolator == LinearInterpolator && defaultPixelValue == 0
      ensures featureImage.None? && modifiedTime == 0
    {
      this.dimension := dimension;
      requiredInputNames := {"FeatureImage"};
      paddingOffset := seq(dimension, _ => -0.5);
      attributeImageSpacing := seq(dimension, _ => 1.0);
      interpolator := LinearInterpolator;
      defaultPixelValue := 0;
      featureImage := None;
      modifiedTime := 0;
    }

    method SetFeatureImage(image: Image)
      modifies this`featureImage
      ensures featureImage == Some(image)
    {
      featureImage := Some(image);
    }

    /** The padding vector setter: replaces it and marks the filter modified only when it differs. */
    method SetPaddingOffset(o: seq<real>)
      requires |o| == dimension
      modifies this`paddingOffset, this`modifiedTime
      ensures paddingOffset == o
      ensures modifiedTime == if old(paddingOffset) != o then old(modifiedTime) + 1 else old(modifiedTime)
    {
      if paddingOffset != o {
        paddingOffset := o;
        modifiedTime := modifiedTime + 1;
      }
    }

    /** The scalar overload: the same padding on every axis. */
    method SetPaddingOffsetAll(o: real)
      modifies this`paddingOffset, this`modifiedTime
      ensures |paddingOffset| == dimension && forall i :: 0 <= i < dimension ==> paddingOffset[i] == o
      ensures modifiedTime == if old(paddingOffset) != seq(dimension, _ => o) then old(modifiedTime) + 1 else old(modifiedTime)
    {
      var offset := seq(dimension, _ => o);
      SetPaddingOffset(offset);
    }

    method SetAttributeImageSpacing(s: seq<real>)
      requires |s| == dimension
      modifies this`attributeImageSpacing, this`modifiedTime
      ensures attributeImageSpacing == s
      ensures modifiedTime == if old(attributeImageSpacing) != s then old(modifiedTime) + 1 else old(modifiedTime)
    {
      if attributeImageSpacing != s {
        attributeImageSpacing := s;
        modifiedTime := modifiedTime + 1;
      }
    }

    method SetInterpolator(i: Interpolator)
      modifies this`interpolator, this`modifiedTime
      ensures interpolator == i
      ensures modifiedTime == if old(interpolator) != i then old(modifiedTime) + 1 else old(modifiedTime)
    {
      if interpolator != i {
        interpolator := i;
        modifiedTime := modifiedTime + 1;
      }
    }

    method SetDefaultPixelValue(v: int)
      modifies this`defaultPixelValue, this`modifiedTime
      ensures defaultPixelValue == v
      ensures modifiedTime == if old(defaultPixelValue) != v then old(modifiedTime) + 1 else old(modifiedTime)
    {
      if defaultPixelValue != v {
        defaultPixelValue := v;
        modifiedTime := modifiedTime + 1;
      }
    }

    /** The loop filling the output size axis by axis. */
    method ComputeOutputSize(size: Vec) returns (outSize: seq<nat>)
      requires Valid() && |size| == dimension
      requires forall i :: 0 <= i < dimension ==> size[i] >= 0.0 && attributeImageSpacing[i] > 0.0
      ensures outSize == OutputSize(size, paddingOffset, attributeImageSpacing)
    {
      outSize := [];
      for i := 0 to dimension
        invariant |outSize| == i
        invariant forall k :: 0 <= k < i ==> outSize[k] == OutputSize(size, paddingOffset, attributeImageSpacing)[k]
      {
        var n: nat;
        if paddingOffset[i] < 0.0 && size[i] <= -2.0 * paddingOffset[i] {
          n := 1;
        } else {
          OutSizeAtLeastOne(size[i], paddingOffset[i], attributeImageSpacing[i]);
          n := Round((size[i] + 2.0 * paddingOffset[i]) / attributeImageSpacing[i]) + 1;
        }
        outSize := outSize + [n];
      }
    }

    /**
     * Computes the object's oriented bounding box (the parent filter's step),
     * then resamples the feature image on that box and attaches the result.
     * `obb` and `att` are the oriented-bounding-box and the attribute-image
     * sides of the one label object; `resample` stands for the resampling
     * filter, which is given the grid and the input and neither the
     * interpolator nor the default pixel value.
     */
    method ThreadedProcessLabelObject(obb: OrientedBoundingBoxLabelObject, att: AttributeImageLabelObject,
                                      toPhysical: Index -> Vec, localToPhysical: Vec -> Vec, imageSpacing: Vec,
                                      resample: (Image, Geometry, seq<nat>) -> Grid<int>)
      requires Valid() && featureImage.Some? && obb.dimension == dimension
      requires Inputs(obb, toPhysical, localToPhysical, imageSpacing)
      requires forall i :: 0 <= i < dimension ==> attributeImageSpacing[i] > 0.0
      modifies obb`obbVertices, obb`obbSize, obb`obbDirection, obb`obbOrigin, att`attributeImage
      ensures var d, r, c := dimension, obb.inherited.principalAxes, obb.inherited.centroid;
        var pts := Points(obb.lines, toPhysical, c);
        var corners := HalfVoxelCorners(localToPhysical, imageSpacing);
        var lo, hi := BoxLower(r, pts, corners, d), BoxUpper(r, pts, corners, d);
        obb.obbVertices == Vertices(Transpose(r, d), lo, hi, c) &&
        obb.obbSize == BoxSize(lo, hi) &&
        obb.obbDirection == Transpose(r, d) &&
        obb.obbOrigin == BoxOrigin(Transpose(r, d), lo, c)
      ensures att.attributeImage != null && fresh(att.attributeImage)
      ensures var geometry := Geometry(OutputOrigin(obb.obbOrigin, obb.obbDirection, paddingOffset),
                                       attributeImageSpacing, obb.obbDirection);
        att.attributeImage.geometry == geometry &&
        att.attributeImage.grid == resample(featureImage.value, geometry,
                                            OutputSize(obb.obbSize, paddingOffset, attributeImageSpacing))
    {
      OrientedBoundingBoxFilter.ThreadedProcessLabelObject(obb, toPhysical, localToPhysical, imageSpacing);
      var feature := featureImage.value;
      var offset := MatVec(obb.obbDirection, paddingOffset);
      var outSize := ComputeOutputSize(obb.obbSize);
      var geometry := Geometry(VSub(obb.obbOrigin, offset), attributeImageSpacing, obb.obbDirection);
      var output := resample(feature, geometry, outSize);
      var image := new AttributeImage(output, geometry);
      att.SetAttributeImage(image);
    }
  }
}
