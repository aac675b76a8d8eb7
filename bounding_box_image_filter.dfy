/**
 * BoundingBoxImageLabelMapFilter: for every label object, its bounding box
 * is padded (or shrunk) axis by axis, cropped to the feature image's
 * buffered region, and the feature image's pixels in the cropped box are
 * attached to the object as its attribute image.
 */
module BoundingBoxImageFilter {
  import opened Wrappers
  import opened Regions
  import opened LabelObjects
  import opened AttributeImageLabelObjects

  function MinNat(a: nat, b: nat): nat { if a < b then a else b }

  // ---------------------------------------------------------------------
  // Padding one axis

  /**
   * The padding rule for one axis, as (start, size): a positive pad grows
   * the axis by the pad on both sides; a negative pad shrinks an axis of
   * more than two samples by the pad clamped to size/2 - 1 on both sides;
   * otherwise the axis is kept.
   */
  function AxisPad(index: int, size: nat, p: int): (int, nat)
  {
    if p > 0 then (index - p, size + 2 * p)
    else if p < 0 && size > 2 then
      var s := MinNat(-p, size / 2 - 1);
      (index + s, size - 2 * s)
    else (index, size)
  }

  /** A positive pad adds exactly `p` samples before and after the axis. */
  lemma AxisPadGrows(index: int, size: nat, p: int)
    requires p > 0
    ensures AxisPad(index, size, p).0 == index - p
    ensures AxisPad(index, size, p).0 + AxisPad(index, size, p).1 == index + size + p
  {
  }

  /**
   * A negative pad on an axis of more than two samples removes the same
   * number of samples, min(-p, size/2 - 1), from both ends, keeps the axis
   * inside its old extent and leaves at least two samples.
   */
  lemma AxisPadShrinks(index: int, size: nat, p: int)
    requires p < 0 && size > 2
    ensures var r := AxisPad(index, size, p); var s := MinNat(-p, size / 2 - 1);
      r.0 == index + s && r.0 + r.1 == index + size - s &&
      index <= r.0 && r.0 + r.1 <= index + size && 2 <= r.1 <= size
  {
    assert 2 * (size / 2) <= size;
  }

  /** A zero pad, or a negative pad on an axis of at most two samples, keeps the axis. */
  lemma AxisPadKeeps(index: int, size: nat, p: int)
    requires p == 0 || (p < 0 && size <= 2)
    ensures AxisPad(index, size, p) == (index, size)
  {
  }

  /** The box with axis `i` padded and every other axis kept. */
  function PadAxis(bb: Region, i: nat, p: int): (r: Region)
    requires bb.Valid() && i < bb.Dim()
    ensures r.Valid() && r.Dim() == bb.Dim()
  {
    var a := AxisPad(bb.index[i], bb.size[i], p);
    Region(bb.index[i := a.0], bb.size[i := a.1])
  }

  /** The box after the axes 0 .. n-1 have been padded in turn. */
  function PaddedBox(bb: Region, pad: seq<int>, n: nat): (r: Region)
    requires bb.Valid() && |pad| == bb.Dim() && n <= |pad|
    ensures r.Valid() && r.Dim() == bb.Dim()
    decreases n
  {
    if n == 0 then bb else PadAxis(PaddedBox(bb, pad, n - 1), n - 1, pad[n - 1])
  }

  /** Every axis is padded by its own rule, independently of the others. */
  lemma {:induction false} PaddedBoxAxis(bb: Region, pad: seq<int>, n: nat, i: nat)
    requires bb.Valid() && |pad| == bb.Dim() && n <= |pad| && i < |pad|
    ensures var r := PaddedBox(bb, pad, n);
      (r.index[i], r.size[i]) == if i < n then AxisPad(bb.index[i], bb.size[i], pad[i]) else (bb.index[i], bb.size[i])
    decreases n
  {
    if n > 0 {
      PaddedBoxAxis(bb, pad, n - 1, i);
    }
  }

  /** The radius vector with `v` on axis `i` and 0 on every other axis. */
  function AxisRadius(d: nat, i: nat, v: nat): (o: seq<nat>)
    ensures |o| == d && forall k :: 0 <= k < d ==> o[k] == if k == i then v else 0
  {
    seq(d, k => if k == i then v else 0)
  }

  /** One turn of the padding loop: PadByRadius or ShrinkByRadius with a radius on axis `i` only. */
  method PadOneAxis(bb: Region, i: nat, p: int) returns (out: Region)
    requires bb.Valid() && i < bb.Dim()
    ensures out == PadAxis(bb, i, p)
  {
    var d := bb.Dim();
    if p > 0 {
      out := PadByRadius(bb, AxisRadius(d, i, p));
    } else if p < 0 && bb.size[i] > 2 {
      var r := MinNat(-p, bb.size[i] / 2 - 1);
      var o := AxisRadius(d, i, r);
      assert forall k :: 0 <= k < d ==> bb.size[k] >= 2 * o[k];
      var shrunk := ShrinkByRadius(bb, o);
      out := shrunk.value;
    } else {
      out := bb;
    }
    assert out.index == PadAxis(bb, i, p).index && out.size == PadAxis(bb, i, p).size;
  }

  // ---------------------------------------------------------------------
  // The padding as the source writes it

  /**
   * The padding step with the radius vector declared without initialisation:
   * `junk` stands for whatever its other components hold. A shrink whose
   * radius does not fit fails silently; the flag that should catch it is
   * or-ed into a value that is already true.
   */
  function PadAxisAsWritten(bb: Region, i: nat, p: int, junk: seq<nat>): Region
    requires bb.Valid() && i < bb.Dim() && |junk| == bb.Dim()
  {
    if p > 0 then PadByRadius(bb, junk[i := p])
    else if p < 0 && bb.size[i] > 2 then
      match ShrinkByRadius(bb, junk[i := MinNat(-p, bb.size[i] / 2 - 1)])
      case None => bb
      case Some(b) => b
    else bb
  }

  /** The value of the flag after the shrink: true whatever the shrink returns. */
  function BoxOkAsWritten(shrunk: bool): bool
  {
    true || shrunk
  }

  /**
   * A 5x5 box padded on axis 0 with stale value 3 on axis 1: a pad of 1
   * also grows axis 1 by 3 on both sides; a pad of -1 fails altogether (axis
   * 1 is too small for radius 3), the box is left as it was and the flag
   * stays true. The corrected rule touches axis 0 only.
   */
  lemma PaddingReadsUninitialised()
    ensures PadAxisAsWritten(Region([0, 0], [5, 5]), 0, 1, [0, 3]) == Region([-1, -3], [7, 11])
    ensures PadAxis(Region([0, 0], [5, 5]), 0, 1) == Region([-1, 0], [7, 5])
    ensures ShrinkByRadius(Region([0, 0], [5, 5]), [1, 3]).None? && BoxOkAsWritten(false)
    ensures PadAxisAsWritten(Region([0, 0], [5, 5]), 0, -1, [0, 3]) == Region([0, 0], [5, 5])
    ensures PadAxis(Region([0, 0], [5, 5]), 0, -1) == Region([1, 0], [3, 5])
  {
    var bb := Region([0, 0], [5, 5]);
    assert [0, 3][0 := 1] == [1, 3];
    var grown := PadByRadius(bb, [1, 3]);
    assert grown.index == [-1, -3] && grown.size == [7, 11];
    assert MinNat(1, 5 / 2 - 1) == 1;
    assert bb.size[1] < 2 * [1, 3][1];
    assert [0, 0][0 := -1] == [-1, 0] && [5, 5][0 := 7] == [7, 5];
    assert [0, 0][0 := 1] == [1, 0] && [5, 5][0 := 3] == [3, 5];
  }

  // ---------------------------------------------------------------------
  // The region-of-interest copy

  /**
   * The sub-image of `src` on `roi`, copied pixel by pixel in buffer order.
   * The copy keeps the indices of the box, which places it where the
   * region-of-interest filter's re-indexed output with shifted origin lies.
   */
  method RegionOfInterest(src: Grid<int>, roi: Region) returns (out: Grid<int>)
    requires src.Valid() && roi.Valid() && roi.Dim() == src.region.Dim()
    requires forall idx :: roi.IsInside(idx) ==> src.region.IsInside(idx)
    ensures out.Valid() && out.region == roi
    ensures forall idx :: roi.IsInside(idx) ==> Pixel(out, idx) == Pixel(src, idx)
  {
    var pixels := [];
    var n := roi.NumberOfPixels();
    for k := 0 to n
      invariant |pixels| == k
      invariant forall m :: 0 <= m < k ==>
        InBox(roi.index, roi.size, IndexAt(roi.index, roi.size, m)) &&
        pixels[m] == Pixel(src, IndexAt(roi.index, roi.size, m))
    {
      IndexAtInverse(roi.index, roi.size, k);
      pixels := pixels + [Pixel(src, IndexAt(roi.index, roi.size, k))];
    }
    out := Grid(roi, pixels);
    forall idx | roi.IsInside(idx)
      ensures Pixel(out, idx) == Pixel(src, idx)
    {
      LinearOffsetInverse(roi.index, roi.size, idx);
    }
  }

  // ---------------------------------------------------------------------
  // The filter

  /** The exception raised for a box outside the feature image: it names the label and its bounding box. */
  datatype BoxError = OutsideBufferedRegion(labelValue: int, boundingBox: Region)

  class BoundingBoxImageLabelMapFilter {
    const dimension: nat
    /** The named inputs the pipeline must be given besides the label map. */
    const requiredInputNames: set<string>
    /** The signed per-axis padding. */
    var paddingOffset: seq<int>
    /** The "FeatureImage" input. */
    var featureImage: Option<Image>
    var modifiedTime: nat

    ghost predicate Valid()
      reads this
    {
      dimension > 0 && |paddingOffset| == dimension
    }

    /**
     * A new filter requires the feature image. The constructor does not
     * initialise the padding offset, so nothing is promised about its value.
     */
    constructor (dimension: nat)
      requires dimension > 0
      ensures Valid() && this.dimension == dimension
      ensures requiredInputNames == {"FeatureImage"} && featureImage.None? && modifiedTime == 0
    {
      this.dimension := dimension;
      requiredInputNames := {"FeatureImage"};
      var pad: seq<int> :| |pad| == dimension by {
        assert |seq(dimension, _ => 0)| == dimension;
      }
      paddingOffset := pad;
      featureImage := None;
      modifiedTime := 0;
    }

    method SetFeatureImage(image: Image)
      modifies this`featureImage
      ensures featureImage == Some(image)
    {
      featureImage := Some(image);
    }

    /** The padding vector setter: replaces it and marks the filter modified only when it differs. */
    method SetPaddingOffset(o: seq<int>)
      requires |o| == dimension
      modifies this`paddingOffset, this`modifiedTime
      ensures paddingOffset == o
      ensures modifiedTime == if old(paddingOffset) != o then old(modifiedTime) + 1 else old(modifiedTime)
    {
      if paddingOffset != o {
        paddingOffset := o;
        modifiedTime := modifiedTime + 1;
      }
    }

    /** The scalar overload: the same pad on every axis. */
    method SetPaddingOffsetAll(o: int)
      modifies this`paddingOffset, this`modifiedTime
      ensures |paddingOffset| == dimension && forall i :: 0 <= i < dimension ==> paddingOffset[i] == o
      ensures modifiedTime == if old(paddingOffset) != seq(dimension, _ => o) then old(modifiedTime) + 1 else old(modifiedTime)
    {
      var offset := seq(dimension, _ => o);
      SetPaddingOffset(offset);
    }

    /** The padding loop over the axes, on a local copy of the bounding box. */
    method PadBox(bb0: Region) returns (bb: Region)
      requires Valid() && bb0.Valid() && bb0.Dim() == dimension
      ensures bb == PaddedBox(bb0, paddingOffset, dimension)
    {
      bb := bb0;
      for i := 0 to dimension
        invariant bb == PaddedBox(bb0, paddingOffset, i)
      {
        bb := PadOneAxis(bb, i, paddingOffset[i]);
      }
    }

    /**
     * Pads the object's bounding box, crops it to the feature image's
     * buffered region and attaches the feature pixels of the cropped box as
     * the object's attribute image; a box that misses the buffered region is
     * an error naming the label, and the object is then left as it was.
     */
    method ThreadedProcessLabelObject(labelObject: AttributeImageLabelObject) returns (r: Result<AttributeImage, BoxError>)
      requires Valid() && featureImage.Some? && featureImage.value.grid.Valid()
      requires featureImage.value.grid.region.Dim() == dimension
      requires labelObject.inherited.boundingBox.Valid() && labelObject.inherited.boundingBox.Dim() == dimension
      modifies labelObject`attributeImage
      ensures var feature := featureImage.value.grid;
        var box := Crop(PaddedBox(labelObject.inherited.boundingBox, paddingOffset, dimension), feature.region);
        if box.None? then
          r == Err(OutsideBufferedRegion(labelObject.inherited.labelValue, labelObject.inherited.boundingBox)) &&
          labelObject.attributeImage == old(labelObject.attributeImage)
        else
          r.Ok? && fresh(r.value) && labelObject.attributeImage == r.value &&
          r.value.grid.Valid() && r.value.grid.region == box.value &&
          r.value.geometry == featureImage.value.geometry &&
          (forall idx :: box.value.IsInside(idx) ==> feature.region.IsInside(idx) && Pixel(r.value.grid, idx) == Pixel(feature, idx))
    {
      var feature := featureImage.value;
      var bb := PadBox(labelObject.inherited.boundingBox);
      var cropped := Crop(bb, feature.grid.region);
      if cropped.None? {
        return Err(OutsideBufferedRegion(labelObject.inherited.labelValue, labelObject.inherited.boundingBox));
      }
      bb := cropped.value;
      forall idx | bb.IsInside(idx)
        ensures feature.grid.region.IsInside(idx)
      {
        CropIsIntersection(PaddedBox(labelObject.inherited.boundingBox, paddingOffset, dimension), feature.grid.region, idx);
      }
      var roi := RegionOfInterest(feature.grid, bb);
      var image := new AttributeImage(roi, feature.geometry);
      labelObject.SetAttributeImage(image);
      return Ok(image);
    }
  }
}
