/**
 * The shape of the co-occurrence histogram for the two feature images of the
 * GLCM filter's second test: a uniform image, and an image whose buffer
 * alternates 1, 0, 1, ... analysed along axis 0. Both hold for any set of
 * lines and any window radius the offsets fit in.
 */
module GLCMHistogramShapes {
  import opened Regions
  import opened LabelObjects
  import opened GLCMCooccurrence

  /** A sequence all of whose entries are `p` holds `p` |ps| times and nothing else. */
  lemma {:induction false} CountConstant(ps: seq<(int, int)>, p: (int, int), q: (int, int))
    requires forall k :: 0 <= k < |ps| ==> ps[k] == p
    ensures multiset(ps)[q] == if q == p then |ps| else 0
    decreases |ps|
  {
    if |ps| > 0 {
      var n := |ps| - 1;
      CountConstant(ps[..n], p, q);
      assert ps == ps[..n] + [ps[n]];
      assert multiset(ps) == multiset(ps[..n]) + multiset{ps[n]};
    }
  }

  /** A sequence each of whose entries is `p` or `q` holds the two |ps| times together and nothing else. */
  lemma {:induction false} CountTwo(ps: seq<(int, int)>, p: (int, int), q: (int, int), r: (int, int))
    requires p != q && forall k :: 0 <= k < |ps| ==> ps[k] == p || ps[k] == q
    ensures multiset(ps)[p] + multiset(ps)[q] == |ps|
    ensures r != p && r != q ==> multiset(ps)[r] == 0
    decreases |ps|
  {
    if |ps| > 0 {
      var n := |ps| - 1;
      CountTwo(ps[..n], p, q, r);
      assert ps == ps[..n] + [ps[n]];
      assert multiset(ps) == multiset(ps[..n]) + multiset{ps[n]};
    }
  }

  /** The pixel read at an index of the image is the buffer entry at its linear position. */
  lemma PixelAtInside(img: Grid<int>, idx: Index)
    requires img.Valid() && img.region.IsInside(idx)
    ensures 0 <= LinearOffset(img.region.index, img.region.size, idx) < |img.pixels|
    ensures PixelAt(img, idx) == img.pixels[LinearOffset(img.region.index, img.region.size, idx)]
  {
    LinearOffsetBounds(img.region.index, img.region.size, idx);
  }

  /**
   * A uniform image of value `v`: the only non-empty bin is (v, v), holding
   * two counts per visit when `v` lies in [lo, hi]; otherwise nothing is counted.
   */
  lemma UniformImage(img: Grid<int>, lines: seq<Line>, offsets: seq<Offset>, radius: seq<nat>,
                     lo: int, hi: int, v: int, a: int, b: int)
    requires img.Valid() && |radius| == img.region.Dim() > 0 && WithinRadius(offsets, radius)
    requires forall l :: 0 <= l < |lines| ==> |lines[l].index| == |radius|
    requires forall k :: 0 <= k < |img.pixels| ==> img.pixels[k] == v
    ensures Cooccurrence(img, lines, offsets, radius, lo, hi)[(a, b)] ==
      if a == v && b == v && InRange(v, lo, hi) then 2 * |Visits(img.region, lines, offsets, radius)| else 0
  {
    var vs := Visits(img.region, lines, offsets, radius);
    var ps := Values(Accessor(img), vs);
    VisitsInside(img.region, lines, offsets, radius);
    forall k | 0 <= k < |ps|
      ensures ps[k] == (v, v)
    {
      PixelAtInside(img, vs[k].0);
      PixelAtInside(img, vs[k].1);
    }
    HistOfBin(ps, lo, hi, a, b);
    CountConstant(ps, (v, v), (a, b));
    CountConstant(ps, (v, v), (b, a));
  }

  /** The offset one sample along axis 0. */
  function UnitOffset(d: nat): (o: Offset)
    ensures |o| == d && forall i :: 0 <= i < d ==> o[i] == if i == 0 then 1 else 0
  {
    seq(d, i => if i == 0 then 1 else 0)
  }

  /** Adding the unit offset steps one sample along axis 0. */
  lemma AddUnitOffset(x: Index)
    requires |x| > 0
    ensures Add(x, UnitOffset(|x|)) == Step(x, 1)
  {
  }

  /** One sample along axis 0 is one position further in the buffer. */
  lemma LinearOffsetStep(start: Index, size: seq<nat>, x: Index)
    requires |start| == |size| == |x| > 0
    ensures LinearOffset(start, size, Step(x, 1)) == LinearOffset(start, size, x) + 1
  {
    assert Step(x, 1)[1..] == x[1..];
  }

  /** Every visit pairs its centre with the neighbour along one of the offsets. */
  lemma VisitsReachOffsets(region: Region, lines: seq<Line>, offsets: seq<Offset>, radius: seq<nat>)
    requires region.Valid() && |radius| == region.Dim() > 0 && Conforms(offsets, |radius|)
    requires forall l :: 0 <= l < |lines| ==> |lines[l].index| == |radius|
    ensures forall k :: 0 <= k < |Visits(region, lines, offsets, radius)| ==>
      var v := Visits(region, lines, offsets, radius)[k];
      |v.0| == |radius| && exists j :: 0 <= j < |offsets| && |offsets[j]| == |v.0| && v.1 == Add(v.0, offsets[j])
  {
    match ShrinkByRadius(region, radius)
    case None =>
    case Some(bb) =>
      LinesVisitsFrom(bb, lines, offsets);
  }

  /** On an alternating buffer, a sample and its right-hand neighbour read (1, 0) or (0, 1). */
  lemma AlternatingPair(img: Grid<int>, x: Index)
    requires img.Valid() && |x| > 0 && img.region.IsInside(x) && img.region.IsInside(Add(x, UnitOffset(|x|)))
    requires forall k :: 0 <= k < |img.pixels| ==> img.pixels[k] == if k % 2 == 0 then 1 else 0
    ensures var p := (PixelAt(img, x), PixelAt(img, Add(x, UnitOffset(|x|))));
      p == (1, 0) || p == (0, 1)
  {
    var y := Add(x, UnitOffset(|x|));
    PixelAtInside(img, x);
    PixelAtInside(img, y);
    AddUnitOffset(x);
    LinearOffsetStep(img.region.index, img.region.size, x);
  }

  /** Reads that are all (1, 0) or (0, 1), with 0 and 1 in range, fill bins (0, 1) and (1, 0) once per read and nothing else. */
  lemma AlternatingHist(ps: seq<(int, int)>, lo: int, hi: int, a: int, b: int)
    requires forall k :: 0 <= k < |ps| ==> ps[k] == (1, 0) || ps[k] == (0, 1)
    requires lo <= 0 && 1 <= hi
    ensures HistOf(ps, lo, hi)[(0, 1)] == |ps| && HistOf(ps, lo, hi)[(1, 0)] == |ps|
    ensures (a, b) != (0, 1) && (a, b) != (1, 0) ==> HistOf(ps, lo, hi)[(a, b)] == 0
  {
    CountTwo(ps, (1, 0), (0, 1), (a, b));
    CountTwo(ps, (1, 0), (0, 1), (b, a));
    HistOfBin(ps, lo, hi, 0, 1);
    HistOfBin(ps, lo, hi, 1, 0);
    HistOfBin(ps, lo, hi, a, b);
  }

  /**
   * An image whose buffer alternates 1, 0, 1, ... analysed with the single
   * offset one sample along axis 0: every pair read is (1, 0) or (0, 1), so
   * with 0 and 1 in [lo, hi] the bins (0, 1) and (1, 0) both count one per
   * visit and every other bin is empty.
   */
  lemma AlternatingImage(img: Grid<int>, lines: seq<Line>, radius: seq<nat>, lo: int, hi: int, a: int, b: int)
    requires img.Valid() && |radius| == img.region.Dim() > 0
    requires WithinRadius([UnitOffset(|radius|)], radius)
    requires forall l :: 0 <= l < |lines| ==> |lines[l].index| == |radius|
    requires forall k :: 0 <= k < |img.pixels| ==> img.pixels[k] == if k % 2 == 0 then 1 else 0
    requires lo <= 0 && 1 <= hi
    ensures var h := Cooccurrence(img, lines, [UnitOffset(|radius|)], radius, lo, hi);
      var n := |Visits(img.region, lines, [UnitOffset(|radius|)], radius)|;
      h[(0, 1)] == n && h[(1, 0)] == n &&
      ((a, b) != (0, 1) && (a, b) != (1, 0) ==> h[(a, b)] == 0)
  {
    var offsets := [UnitOffset(|radius|)];
    var vs := Visits(img.region, lines, offsets, radius);
    var ps := Values(Accessor(img), vs);
    VisitsInside(img.region, lines, offsets, radius);
    VisitsReachOffsets(img.region, lines, offsets, radius);
    forall k | 0 <= k < |ps|
      ensures ps[k] == (1, 0) || ps[k] == (0, 1)
    {
      var x := vs[k].0;
      assert vs[k].1 == Add(x, UnitOffset(|x|));
      AlternatingPair(img, x);
    }
    AlternatingHist(ps, lo, hi, a, b);
  }
}
