/**
 * N-dimensional index regions and dense pixel grids, as the filters use
 * ITK's ImageRegion and Image: a region is a start index plus a size per
 * axis, and a grid stores one pixel per index of its region with axis 0
 * varying fastest.
 */
module Regions {
  import opened Wrappers

  type Index = seq<int>

  /** Number of indices in a box of the given per-axis sizes. */
  function Product(size: seq<nat>): nat
    decreases |size|
  {
    if |size| == 0 then 1 else size[0] * Product(size[1..])
  }

  /** `idx` lies in the box that starts at `start` and has `size` samples per axis. */
  predicate InBox(start: Index, size: seq<nat>, idx: Index)
  {
    |start| == |size| == |idx| &&
    forall i :: 0 <= i < |size| ==> start[i] <= idx[i] < start[i] + size[i]
  }

  datatype Region = Region(index: Index, size: seq<nat>)
  {
    predicate Valid() { |index| == |size| }

    function Dim(): nat { |index| }

    predicate IsInside(idx: Index) { InBox(index, size, idx) }

    /** The last index of the region on every axis (ITK's GetUpperIndex). */
    function UpperIndex(): (u: Index)
      requires Valid()
      ensures |u| == Dim()
      ensures forall i :: 0 <= i < Dim() ==> u[i] == index[i] + size[i] - 1
    {
      seq(|index|, i requires 0 <= i < |index| => index[i] + size[i] - 1)
    }

    function NumberOfPixels(): nat { Product(size) }
  }

  /** Componentwise sum of an index and an offset. */
  function Add(x: Index, o: seq<int>): (y: Index)
    requires |x| == |o|
    ensures |y| == |x| && forall i :: 0 <= i < |x| ==> y[i] == x[i] + o[i]
  {
    seq(|x|, i requires 0 <= i < |x| => x[i] + o[i])
  }

  /**
   * ImageRegion::ShrinkByRadius: every axis loses `radius` samples on both
   * sides; when an axis is shorter than twice its radius the call fails and
   * the region is left as it was.
   */
  function ShrinkByRadius(r: Region, radius: seq<nat>): (res: Option<Region>)
    requires r.Valid() && |radius| == r.Dim()
    ensures res.None? <==> exists i :: 0 <= i < r.Dim() && r.size[i] < 2 * radius[i]
    ensures res.Some? ==>
      res.value.Valid() && res.value.Dim() == r.Dim() &&
      forall i :: 0 <= i < r.Dim() ==>
        res.value.index[i] == r.index[i] + radius[i] &&
        res.value.size[i] == r.size[i] - 2 * radius[i]
  {
    if exists i :: 0 <= i < r.Dim() && r.size[i] < 2 * radius[i] then None
    else
      Some(Region(seq(r.Dim(), i requires 0 <= i < r.Dim() => r.index[i] + radius[i]),
                  seq(r.Dim(), i requires 0 <= i < r.Dim() => r.size[i] - 2 * radius[i])))
  }

  /** ImageRegion::PadByRadius: every axis gains `radius` samples on both sides. */
  function PadByRadius(r: Region, radius: seq<nat>): (res: Region)
    requires r.Valid() && |radius| == r.Dim()
    ensures res.Valid() && res.Dim() == r.Dim()
    ensures forall i :: 0 <= i < r.Dim() ==>
      res.index[i] == r.index[i] - radius[i] && res.size[i] == r.size[i] + 2 * radius[i]
  {
    Region(seq(r.Dim(), i requires 0 <= i < r.Dim() => r.index[i] - radius[i]),
           seq(r.Dim(), i requires 0 <= i < r.Dim() => r.size[i] + 2 * radius[i]))
  }

  /** The two regions share no index range on axis `i`. */
  predicate DisjointOnAxis(r: Region, other: Region, i: nat)
    requires r.Valid() && other.Valid() && r.Dim() == other.Dim() && i < r.Dim()
  {
    r.index[i] >= other.index[i] + other.size[i] || other.index[i] >= r.index[i] + r.size[i]
  }

  function Max(a: int, b: int): int { if a < b then b else a }
  function Min(a: int, b: int): int { if a < b then a else b }

  /**
   * ImageRegion::Crop: fails when the regions are apart on some axis;
   * otherwise the region is clipped to `other` on every axis.
   */
  function Crop(r: Region, other: Region): (res: Option<Region>)
    requires r.Valid() && other.Valid() && r.Dim() == other.Dim()
    ensures res.None? <==> exists i :: 0 <= i < r.Dim() && DisjointOnAxis(r, other, i)
    ensures res.Some? ==> res.value.Valid() && res.value.Dim() == r.Dim()
  {
    if exists i :: 0 <= i < r.Dim() && DisjointOnAxis(r, other, i) then None
    else
      Some(Region(
        seq(r.Dim(), i requires 0 <= i < r.Dim() => Max(r.index[i], other.index[i])),
        seq(r.Dim(), i requires 0 <= i < r.Dim() && !DisjointOnAxis(r, other, i) =>
          Min(r.index[i] + r.size[i], other.index[i] + other.size[i]) - Max(r.index[i], other.index[i]))))
  }

  /** A successful crop holds exactly the indices that lie in both regions. */
  lemma CropIsIntersection(r: Region, other: Region, idx: Index)
    requires r.Valid() && other.Valid() && r.Dim() == other.Dim()
    requires Crop(r, other).Some?
    ensures Crop(r, other).value.IsInside(idx) <==> r.IsInside(idx) && other.IsInside(idx)
  {
    var c := Crop(r, other).value;
    if c.IsInside(idx) {
      forall i | 0 <= i < r.Dim()
        ensures r.index[i] <= idx[i] < r.index[i] + r.size[i]
        ensures other.index[i] <= idx[i] < other.index[i] + other.size[i]
      {
        assert c.index[i] <= idx[i] < c.index[i] + c.size[i];
      }
    }
    if r.IsInside(idx) && other.IsInside(idx) {
      forall i | 0 <= i < r.Dim()
        ensures c.index[i] <= idx[i] < c.index[i] + c.size[i]
      {
        assert r.index[i] <= idx[i] < r.index[i] + r.size[i];
        assert other.index[i] <= idx[i] < other.index[i] + other.size[i];
      }
    }
  }

  // ---------------------------------------------------------------------
  // Linear buffer layout: axis 0 varies fastest.

  /** Position of `idx` in the buffer of the box `start`/`size`. */
  function LinearOffset(start: Index, size: seq<nat>, idx: Index): int
    requires |start| == |size| == |idx|
    decreases |size|
  {
    if |size| == 0 then 0
    else (idx[0] - start[0]) + size[0] * LinearOffset(start[1..], size[1..], idx[1..])
  }

  lemma InBoxTail(start: Index, size: seq<nat>, idx: Index)
    requires |size| > 0 && InBox(start, size, idx)
    ensures InBox(start[1..], size[1..], idx[1..])
    ensures 0 <= idx[0] - start[0] < size[0]
  {
    forall i | 0 <= i < |size| - 1
      ensures start[1..][i] <= idx[1..][i] < start[1..][i] + size[1..][i]
    {
      assert start[i + 1] <= idx[i + 1] < start[i + 1] + size[i + 1];
    }
  }

  lemma MulBound(a: int, s: int, l: int, p: int)
    requires 0 <= a < s && 0 <= l < p
    ensures 0 <= a + s * l < s * p
  {
    assert s * (p - 1 - l) >= 0;
    assert s * p == s * (p - 1 - l) + s * l + s;
  }

  /** Every in-box index has a buffer position inside the buffer. */
  lemma {:induction false} LinearOffsetBounds(start: Index, size: seq<nat>, idx: Index)
    requires InBox(start, size, idx)
    ensures 0 <= LinearOffset(start, size, idx) < Product(size)
    decreases |size|
  {
    if |size| > 0 {
      InBoxTail(start, size, idx);
      LinearOffsetBounds(start[1..], size[1..], idx[1..]);
      MulBound(idx[0] - start[0], size[0], LinearOffset(start[1..], size[1..], idx[1..]), Product(size[1..]));
    }
  }

  lemma DivBound(k: int, s: nat, p: nat)
    requires 0 <= k < s * p
    ensures s > 0 && 0 <= k / s < p && 0 <= k % s < s
  {
    assert s != 0;
    var q := k / s;
    assert k == s * q + k % s;
    assert s * q <= k;
    assert s * (p - q) == s * p - s * q;
  }

  /** The index stored at position `k` of the buffer of the box `start`/`size`. */
  function IndexAt(start: Index, size: seq<nat>, k: int): (idx: Index)
    requires |start| == |size| && 0 <= k < Product(size)
    ensures |idx| == |size|
    decreases |size|
  {
    if |size| == 0 then []
    else
      DivBound(k, size[0], Product(size[1..]));
      [start[0] + k % size[0]] + IndexAt(start[1..], size[1..], k / size[0])
  }

  /** Buffer position and index are inverse to each other (position first). */
  lemma {:induction false} IndexAtInverse(start: Index, size: seq<nat>, k: int)
    requires |start| == |size| && 0 <= k < Product(size)
    ensures InBox(start, size, IndexAt(start, size, k))
    ensures LinearOffset(start, size, IndexAt(start, size, k)) == k
    decreases |size|
  {
    if |size| > 0 {
      DivBound(k, size[0], Product(size[1..]));
      var q := k / size[0];
      IndexAtInverse(start[1..], size[1..], q);
      var idx := IndexAt(start, size, k);
      assert idx[1..] == IndexAt(start[1..], size[1..], q);
      forall i | 0 <= i < |size|
        ensures start[i] <= idx[i] < start[i] + size[i]
      {
        if i > 0 { assert idx[i] == idx[1..][i - 1]; }
      }
      assert k == k % size[0] + size[0] * q;
    }
  }

  lemma MulAtLeast(s: int, x: int)
    requires s > 0 && x >= 1
    ensures s * x >= s
  {
    assert s * x == s + s * (x - 1);
    assert s * (x - 1) >= 0;
  }

  lemma DivModUnique(a: int, s: int, l: int)
    requires 0 <= a < s
    ensures (a + s * l) / s == l && (a + s * l) % s == a
  {
    var n := a + s * l;
    var q, r := n / s, n % s;
    assert n == s * q + r && 0 <= r < s;
    assert s * (q - l) == a - r;
    if q - l >= 1 {
      MulAtLeast(s, q - l);
    } else if l - q >= 1 {
      MulAtLeast(s, l - q);
    }
    assert q == l;
  }

  /** Buffer position and index are inverse to each other (index first). */
  lemma {:induction false} LinearOffsetInverse(start: Index, size: seq<nat>, idx: Index)
    requires InBox(start, size, idx)
    ensures 0 <= LinearOffset(start, size, idx) < Product(size)
    ensures IndexAt(start, size, LinearOffset(start, size, idx)) == idx
    decreases |size|
  {
    LinearOffsetBounds(start, size, idx);
    if |size| > 0 {
      InBoxTail(start, size, idx);
      LinearOffsetInverse(start[1..], size[1..], idx[1..]);
      var l := LinearOffset(start[1..], size[1..], idx[1..]);
      DivModUnique(idx[0] - start[0], size[0], l);
      assert [idx[0]] + idx[1..] == idx;
    }
  }

  /** A dense image: one pixel per index of `region`, axis 0 fastest in `pixels`. */
  datatype Grid<T> = Grid(region: Region, pixels: seq<T>)
  {
    predicate Valid() { region.Valid() && |pixels| == region.NumberOfPixels() }
  }

  /** The pixel stored at an index of the grid's region. */
  function Pixel<T>(g: Grid<T>, idx: Index): T
    requires g.Valid() && g.region.IsInside(idx)
  {
    LinearOffsetBounds(g.region.index, g.region.size, idx);
    g.pixels[LinearOffset(g.region.index, g.region.size, idx)]
  }
}
