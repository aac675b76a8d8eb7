/**
 * GLCMLabelMapFilter: per label object, the grey-level co-occurrence
 * histogram of the feature image over the object's lines, reduced to the
 * eight texture features stored on the object.
 */
module GLCMFilter {
  import opened Wrappers
  import opened Regions
  import opened LabelObjects
  import opened GLCMLabelObjects
  import opened GLCMCooccurrence

  /** The number of histogram bins per axis a new filter uses. */
  const DefaultBinsPerAxis: nat := 64

  function Abs(v: int): nat { if v < 0 then -v else v }

  function MaxNat(a: nat, b: nat): nat { if a < b then b else a }

  /** One offset's effect on the window radius: every axis grows to at least |o[i]|. */
  function Widen(w: seq<nat>, o: Offset): (r: seq<nat>)
    requires |o| == |w|
    ensures |r| == |w|
  {
    seq(|w|, i requires 0 <= i < |w| => MaxNat(w[i], Abs(o[i])))
  }

  /** The window radius after the offsets are folded in, first offset first. */
  function WindowRadius(w: seq<nat>, offsets: seq<Offset>): (r: seq<nat>)
    requires Conforms(offsets, |w|)
    ensures |r| == |w|
    decreases |offsets|
  {
    if |offsets| == 0 then w else Widen(WindowRadius(w, offsets[..|offsets| - 1]), offsets[|offsets| - 1])
  }

  /** The radius never shrinks, and it reaches every offset on every axis. */
  lemma {:induction false} WindowRadiusBounds(w: seq<nat>, offsets: seq<Offset>)
    requires Conforms(offsets, |w|)
    ensures forall i :: 0 <= i < |w| ==> w[i] <= WindowRadius(w, offsets)[i]
    ensures WithinRadius(offsets, WindowRadius(w, offsets))
    decreases |offsets|
  {
    if |offsets| > 0 {
      var n := |offsets| - 1;
      WindowRadiusBounds(w, offsets[..n]);
      var r', r := WindowRadius(w, offsets[..n]), WindowRadius(w, offsets);
      forall j | 0 <= j < |offsets|
        ensures |offsets[j]| == |r| && forall i :: 0 <= i < |r| ==> -r[i] <= offsets[j][i] <= r[i]
      {
        if j < n {
          assert offsets[j] == offsets[..n][j];
          forall i | 0 <= i < |r|
            ensures -r[i] <= offsets[j][i] <= r[i]
          {
            assert -r'[i] <= offsets[..n][j][i] <= r'[i];
          }
        }
      }
    }
  }

  /** Each axis of the radius is its start value or the size of some offset on that axis: the maximum is attained. */
  lemma {:induction false} WindowRadiusAttained(w: seq<nat>, offsets: seq<Offset>, i: nat)
    requires Conforms(offsets, |w|) && i < |w|
    ensures WindowRadius(w, offsets)[i] == w[i] ||
            exists j :: 0 <= j < |offsets| && WindowRadius(w, offsets)[i] == Abs(offsets[j][i])
    decreases |offsets|
  {
    if |offsets| > 0 {
      var n := |offsets| - 1;
      WindowRadiusAttained(w, offsets[..n], i);
      if WindowRadius(w, offsets)[i] != Abs(offsets[n][i]) && WindowRadius(w, offsets[..n])[i] != w[i] {
        var j :| 0 <= j < n && WindowRadius(w, offsets[..n])[i] == Abs(offsets[..n][j][i]);
        assert offsets[..n][j] == offsets[j];
      }
    }
  }

  /** The smallest of `init` and the values, scanning left to right. */
  function ScanMin(init: int, vs: seq<int>): int
    decreases |vs|
  {
    if |vs| == 0 then init else var m := ScanMin(init, vs[..|vs| - 1]); if vs[|vs| - 1] < m then vs[|vs| - 1] else m
  }

  /** The largest of `init` and the values, scanning left to right. */
  function ScanMax(init: int, vs: seq<int>): int
    decreases |vs|
  {
    if |vs| == 0 then init else var m := ScanMax(init, vs[..|vs| - 1]); if vs[|vs| - 1] > m then vs[|vs| - 1] else m
  }

  /**
   * Started from sentinels that bound every value, the scans give the true
   * minimum and maximum of a non-empty image: bounds of every value, each
   * attained by some pixel.
   */
  lemma {:induction false} ScanMinMaxExact(lo: int, hi: int, vs: seq<int>)
    requires |vs| > 0 && forall k :: 0 <= k < |vs| ==> vs[k] <= lo && hi <= vs[k]
    ensures forall k :: 0 <= k < |vs| ==> ScanMin(lo, vs) <= vs[k] <= ScanMax(hi, vs)
    ensures exists k :: 0 <= k < |vs| && ScanMin(lo, vs) == vs[k]
    ensures exists k :: 0 <= k < |vs| && ScanMax(hi, vs) == vs[k]
    decreases |vs|
  {
    var n := |vs| - 1;
    if n == 0 {
      assert ScanMin(lo, vs) == vs[0] && ScanMax(hi, vs) == vs[0];
    } else {
      ScanMinMaxExact(lo, hi, vs[..n]);
      var k1 :| 0 <= k1 < n && ScanMin(lo, vs[..n]) == vs[..n][k1];
      var k2 :| 0 <= k2 < n && ScanMax(hi, vs[..n]) == vs[..n][k2];
      assert ScanMin(lo, vs) == vs[k1] || ScanMin(lo, vs) == vs[n];
      assert ScanMax(hi, vs) == vs[k2] || ScanMax(hi, vs) == vs[n];
      forall k | 0 <= k < |vs|
        ensures ScanMin(lo, vs) <= vs[k] <= ScanMax(hi, vs)
      {
        if k < n { assert vs[k] == vs[..n][k]; }
      }
    }
  }

  /** MinimumMaximumImageCalculator: one pass over the pixels from the pixel type's sentinels. */
  method ComputeMinimumMaximum(pixels: seq<int>, typeMax: int, typeNonpositiveMin: int)
    returns (minimum: int, maximum: int)
    ensures minimum == ScanMin(typeMax, pixels) && maximum == ScanMax(typeNonpositiveMin, pixels)
  {
    minimum, maximum := typeMax, typeNonpositiveMin;
    for k := 0 to |pixels|
      invariant minimum == ScanMin(typeMax, pixels[..k]) && maximum == ScanMax(typeNonpositiveMin, pixels[..k])
    {
      assert pixels[..k + 1][..k] == pixels[..k];
      if pixels[k] < minimum { minimum := pixels[k]; }
      if pixels[k] > maximum { maximum := pixels[k]; }
    }
    assert pixels[..|pixels|] == pixels;
  }

  class GLCMLabelMapFilter {
    /** ImageDimension. */
    const dimension: nat
    /** NumericTraits<PixelType>::max() and ::NonpositiveMin(): the "not set" values of Min and Max. */
    const pixelMax: int
    const pixelNonpositiveMin: int
    /** The same sentinels for the feature image's pixel type, where the min/max calculator starts. */
    const featureMax: int
    const featureNonpositiveMin: int
    const numberOfRequiredInputs: nat

    var offsets: seq<Offset>
    var windowSize: seq<nat>
    var min: int
    var max: int
    var numberOfBinsPerAxis: nat
    var normalize: bool
    /** The filter's inputs by slot; the feature image is slot 1. */
    var inputs: map<nat, Grid<int>>
    /** Counts the calls to Modified(). */
    var modifiedTime: nat

    ghost predicate Valid()
      reads this
    {
      dimension > 0 && |windowSize| == dimension && Conforms(offsets, dimension)
    }

    constructor (dimension: nat, pixelMax: int, pixelNonpositiveMin: int, featureMax: int, featureNonpositiveMin: int)
      requires dimension > 0
      ensures Valid()
      ensures this.dimension == dimension && this.pixelMax == pixelMax && this.pixelNonpositiveMin == pixelNonpositiveMin
      ensures this.featureMax == featureMax && this.featureNonpositiveMin == featureNonpositiveMin
      ensures numberOfRequiredInputs == 2
      ensures min == pixelMax && max == pixelNonpositiveMin
      ensures numberOfBinsPerAxis == DefaultBinsPerAxis && !normalize
      ensures windowSize == seq(dimension, _ => 1) && offsets == [] && inputs == map[] && modifiedTime == 0
    {
      this.dimension := dimension;
      this.pixelMax, this.pixelNonpositiveMin := pixelMax, pixelNonpositiveMin;
      this.featureMax, this.featureNonpositiveMin := featureMax, featureNonpositiveMin;
      numberOfRequiredInputs := 2;
      min, max := pixelMax, pixelNonpositiveMin;
      numberOfBinsPerAxis := DefaultBinsPerAxis;
      normalize := false;
      windowSize := seq(dimension, _ => 1);
      offsets := [];
      inputs := map[];
      modifiedTime := 0;
    }

    method SetFeatureImage(image: Grid<int>)
      modifies this`inputs
      ensures inputs == old(inputs)[1 := image]
    {
      inputs := inputs[1 := image];
    }

    function FeatureImage(): (r: Option<Grid<int>>)
      reads this
      ensures r.Some? <==> 1 in inputs
      ensures r.Some? ==> r.value == inputs[1]
    {
      if 1 in inputs then Some(inputs[1]) else None
    }

    /** Replaces the whole offset list; marks the filter modified only when the list differs. */
    method SetOffsets(newOffsets: seq<Offset>)
      requires Conforms(newOffsets, dimension)
      modifies this`offsets, this`modifiedTime
      ensures offsets == newOffsets
      ensures modifiedTime == if old(offsets) != newOffsets then old(modifiedTime) + 1 else old(modifiedTime)
    {
      if offsets != newOffsets {
        offsets := newOffsets;
        modifiedTime := modifiedTime + 1;
      }
    }

    method SetOffset(offset: Offset)
      requires |offset| == dimension
      modifies this`offsets, this`modifiedTime
      ensures offsets == [offset]
      ensures modifiedTime == if old(offsets) != [offset] then old(modifiedTime) + 1 else old(modifiedTime)
    {
      SetOffsets([offset]);
    }

    /** Both bounds are inclusive; the filter is always marked modified. */
    method SetPixelValueMinMax(minimum: int, maximum: int)
      modifies this`min, this`max, this`modifiedTime
      ensures min == minimum && max == maximum && modifiedTime == old(modifiedTime) + 1
    {
      min := minimum;
      max := maximum;
      modifiedTime := modifiedTime + 1;
    }

    method SetNumberOfBinsPerAxis(n: nat)
      modifies this`numberOfBinsPerAxis, this`modifiedTime
      ensures numberOfBinsPerAxis == n
      ensures modifiedTime == if old(numberOfBinsPerAxis) != n then old(modifiedTime) + 1 else old(modifiedTime)
    {
      if numberOfBinsPerAxis != n {
        numberOfBinsPerAxis := n;
        modifiedTime := modifiedTime + 1;
      }
    }

    method SetNormalize(b: bool)
      modifies this`normalize, this`modifiedTime
      ensures normalize == b
      ensures modifiedTime == if old(normalize) != b then old(modifiedTime) + 1 else old(modifiedTime)
    {
      if normalize != b {
        normalize := b;
        modifiedTime := modifiedTime + 1;
      }
    }

    method NormalizeOn()
      modifies this`normalize, this`modifiedTime
      ensures normalize
      ensures modifiedTime == if !old(normalize) then old(modifiedTime) + 1 else old(modifiedTime)
    {
      SetNormalize(true);
    }

    method NormalizeOff()
      modifies this`normalize, this`modifiedTime
      ensures !normalize
      ensures modifiedTime == if old(normalize) then old(modifiedTime) + 1 else old(modifiedTime)
    {
      SetNormalize(false);
    }

    /**
     * When Min and Max both still hold their sentinels they are taken from
     * the feature image; then the window radius is widened to reach every
     * offset. The radius is kept from earlier runs.
     */
    method BeforeThreadedGenerateData()
      requires Valid() && 1 in inputs
      modifies this`min, this`max, this`windowSize
      ensures Valid()
      ensures if old(min) == pixelMax && old(max) == pixelNonpositiveMin
              then min == ScanMin(featureMax, inputs[1].pixels) && max == ScanMax(featureNonpositiveMin, inputs[1].pixels)
              else min == old(min) && max == old(max)
      ensures windowSize == WindowRadius(old(windowSize), offsets)
    {
      if min == pixelMax && max == pixelNonpositiveMin {
        min, max := ComputeMinimumMaximum(inputs[1].pixels, featureMax, featureNonpositiveMin);
      }
      ghost var w0 := windowSize;
      var j := 0;
      while j < |offsets|
        invariant 0 <= j <= |offsets| && |windowSize| == dimension
        invariant Conforms(offsets[..j], |w0|) && windowSize == WindowRadius(w0, offsets[..j])
        modifies this`windowSize
      {
        assert offsets[..j + 1][..j] == offsets[..j];
        ghost var before := windowSize;
        for i := 0 to dimension
          invariant |windowSize| == dimension
          modifies this`windowSize
          invariant forall k :: 0 <= k < dimension ==>
            windowSize[k] == if k < i then MaxNat(before[k], Abs(offsets[j][k])) else before[k]
        {
          windowSize := windowSize[i := MaxNat(windowSize[i], Abs(offsets[j][i]))];
        }
        assert windowSize == Widen(before, offsets[j]);
        j := j + 1;
      }
      assert offsets[..|offsets|] == offsets;
    }

    /**
     * Accumulates the object's co-occurrence histogram and stores the eight
     * features that `features` (the external texture calculator, given the
     * histogram, its bounds and its bin count) reduces it to.
     */
    method ThreadedProcessLabelObject(labelObject: GLCMLabelObject, features: (Histogram, int, int, nat) -> Texture)
      requires Valid() && 1 in inputs && inputs[1].Valid() && inputs[1].region.Dim() == dimension
      requires forall l :: 0 <= l < |labelObject.lines| ==> |labelObject.lines[l].index| == dimension
      modifies labelObject`energy, labelObject`entropy, labelObject`correlation, labelObject`inverseDifferenceMoment
      modifies labelObject`inertia, labelObject`clusterShade, labelObject`clusterProminence
      modifies labelObject`haralickCorrelation
      ensures labelObject.Features() ==
        features(Cooccurrence(inputs[1], labelObject.lines, offsets, windowSize, min, max), min, max, numberOfBinsPerAxis)
    {
      var histogram := ComputeCooccurrence(inputs[1], labelObject.lines, offsets, windowSize, min, max);
      var t := features(histogram, min, max, numberOfBinsPerAxis);
      StoreFeatures(labelObject, t);
    }

    /** The eight setter calls, one per feature. */
    static method StoreFeatures(labelObject: GLCMLabelObject, t: Texture)
      modifies labelObject`energy, labelObject`entropy, labelObject`correlation, labelObject`inverseDifferenceMoment
      modifies labelObject`inertia, labelObject`clusterShade, labelObject`clusterProminence
      modifies labelObject`haralickCorrelation
      ensures labelObject.Features() == t
    {
      labelObject.SetEnergy(t.energy);
      labelObject.SetEntropy(t.entropy);
      labelObject.SetCorrelation(t.correlation);
      labelObject.SetInverseDifferenceMoment(t.inverseDifferenceMoment);
      labelObject.SetInertia(t.inertia);
      labelObject.SetClusterShade(t.clusterShade);
      labelObject.SetClusterProminence(t.clusterProminence);
      labelObject.SetHaralickCorrelation(t.haralickCorrelation);
    }
  }
}
