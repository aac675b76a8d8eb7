/**
 * The co-occurrence accumulation of GLCMLabelMapFilter::ThreadedProcessLabelObject:
 * every line of a label object is trimmed to the analysis domain (the
 * feature image shrunk by the window radius), and for every visited sample
 * and every offset the pair (centre value, neighbour value) is counted twice,
 * once as (p1, p2) and once as (p2, p1), when both values lie in [Min, Max].
 */
module GLCMCooccurrence {
  import opened Wrappers
  import opened Regions
  import opened LabelObjects

  type Offset = seq<int>

  /** Co-occurrence frequencies: the multiplicity of (a, b) is the count of bin (a, b). */
  type Histogram = multiset<(int, int)>

  /** Every offset has one component per axis and fits in the radius on every axis. */
  predicate WithinRadius(offsets: seq<Offset>, radius: seq<nat>)
  {
    forall j :: 0 <= j < |offsets| ==>
      |offsets[j]| == |radius| && forall i :: 0 <= i < |radius| ==> -radius[i] <= offsets[j][i] <= radius[i]
  }

  /** Every offset has one component per axis of a `d`-dimensional image. */
  predicate Conforms(offsets: seq<Offset>, d: nat)
  {
    forall j :: 0 <= j < |offsets| ==> |offsets[j]| == d
  }

  /** Every index of `bb`, and its neighbour along every offset, lies in `region`. */
  ghost predicate Covers(region: Region, bb: Region, offsets: seq<Offset>)
  {
    forall x :: bb.IsInside(x) ==>
      region.IsInside(x) &&
      forall j :: 0 <= j < |offsets| ==> |offsets[j]| == |x| && region.IsInside(Add(x, offsets[j]))
  }

  /**
   * The image shrunk by the radius covers every neighbour the offsets reach,
   * so the neighbourhood iterator needs no boundary condition.
   */
  lemma DomainCovers(region: Region, radius: seq<nat>, offsets: seq<Offset>)
    requires region.Valid() && |radius| == region.Dim() && WithinRadius(offsets, radius)
    requires ShrinkByRadius(region, radius).Some?
    ensures Covers(region, ShrinkByRadius(region, radius).value, offsets)
  {
    var r := region;
    var bb := ShrinkByRadius(r, radius).value;
    forall x | bb.IsInside(x)
      ensures r.IsInside(x)
      ensures forall j :: 0 <= j < |offsets| ==> |offsets[j]| == |x| && r.IsInside(Add(x, offsets[j]))
    {
      forall i | 0 <= i < |x|
        ensures r.index[i] <= x[i] < r.index[i] + r.size[i]
      {
        assert bb.index[i] <= x[i] < bb.index[i] + bb.size[i];
      }
      forall j | 0 <= j < |offsets|
        ensures r.IsInside(Add(x, offsets[j]))
      {
        var y := Add(x, offsets[j]);
        forall i | 0 <= i < |x|
          ensures r.index[i] <= y[i] < r.index[i] + r.size[i]
        {
          assert bb.index[i] <= x[i] < bb.index[i] + bb.size[i];
          assert -radius[i] <= offsets[j][i] <= radius[i];
        }
      }
    }
  }

  // ---------------------------------------------------------------------
  // Trimming a line to the analysis domain

  /** The index `k` samples further along axis 0. */
  function Step(x: Index, k: int): Index
    requires |x| > 0
  {
    x[0 := x[0] + k]
  }

  lemma StepNext(x: Index, k: int)
    requires |x| > 0
    ensures Step(x, k)[0 := Step(x, k)[0] + 1] == Step(x, k + 1)
  {
  }

  /** `x` is one of the samples of `line`. */
  predicate OnLine(line: Line, x: Index)
  {
    |x| == |line.index| > 0 &&
    line.index[0] <= x[0] < line.index[0] + line.length &&
    forall i :: 0 < i < |x| ==> x[i] == line.index[i]
  }

  /**
   * The run of a line that the filter visits, or None when the line is
   * skipped. The start moves to the domain's first column, the length is
   * shortened accordingly, the line is skipped when its start is then outside
   * the domain or nothing of it is left, and a run past the domain's last
   * column is cut there.
   */
  function TrimLine(line: Line, bb: Region): Option<Line>
    requires bb.Valid() && bb.Dim() > 0 && |line.index| == bb.Dim()
  {
    var first := bb.index[0];
    var start := if first > line.index[0] then line.index[0 := first] else line.index;
    var length := if first > line.index[0] then line.length - (first - line.index[0]) else line.length;
    if length <= 0 || !bb.IsInside(start) then None
    else
      var last := bb.index[0] + bb.size[0] - 1;
      Some(Line(start, if start[0] + length > last then last - start[0] + 1 else length))
  }

  /** The visited samples are exactly the samples of the line that lie in the domain. */
  lemma TrimLineExact(line: Line, bb: Region, x: Index)
    requires bb.Valid() && bb.Dim() > 0 && |line.index| == bb.Dim()
    ensures (TrimLine(line, bb).Some? && OnLine(TrimLine(line, bb).value, x)) <==> OnLine(line, x) && bb.IsInside(x)
  {
    var t := TrimLine(line, bb);
    if OnLine(line, x) && bb.IsInside(x) {
      var first := bb.index[0];
      var start := if first > line.index[0] then line.index[0 := first] else line.index;
      assert start[0] <= x[0];
      forall i | 0 <= i < |x|
        ensures bb.index[i] <= start[i] < bb.index[i] + bb.size[i]
      {
        assert bb.index[i] <= x[i] < bb.index[i] + bb.size[i];
      }
    }
    if t.Some? && OnLine(t.value, x) {
      forall i | 0 <= i < |x|
        ensures bb.index[i] <= x[i] < bb.index[i] + bb.size[i]
      {
        assert bb.index[i] <= t.value.index[i] < bb.index[i] + bb.size[i];
      }
    }
  }

  /** The closed form of a visited run: from max(start, first column) to min(end, last column). */
  lemma TrimLineBounds(line: Line, bb: Region)
    requires bb.Valid() && bb.Dim() > 0 && |line.index| == bb.Dim()
    requires TrimLine(line, bb).Some?
    ensures var run := TrimLine(line, bb).value;
      run.index[0] == Max(line.index[0], bb.index[0]) &&
      run.index[0] + run.length - 1 == Min(line.index[0] + line.length - 1, bb.index[0] + bb.size[0] - 1) &&
      run.length >= 1 &&
      forall i :: 0 < i < |run.index| ==> run.index[i] == line.index[i]
  {
  }

  /** Every sample of a visited run lies in the domain. */
  lemma TrimLineInside(line: Line, bb: Region)
    requires bb.Valid() && bb.Dim() > 0 && |line.index| == bb.Dim()
    ensures TrimLine(line, bb).Some? ==> forall x :: OnLine(TrimLine(line, bb).value, x) ==> bb.IsInside(x)
  {
    if TrimLine(line, bb).Some? {
      forall x | OnLine(TrimLine(line, bb).value, x)
        ensures bb.IsInside(x)
      {
        TrimLineExact(line, bb, x);
      }
    }
  }

  // ---------------------------------------------------------------------
  // The index pairs the filter visits, in the order it visits them

  /** A visit: the centre index and one of its offset neighbours. */
  type Visit = (Index, Index)

  /** The visits at sample `x`: one per offset, in offset order. */
  function SampleVisits(x: Index, offsets: seq<Offset>): seq<Visit>
    requires Conforms(offsets, |x|)
  {
    seq(|offsets|, j requires 0 <= j < |offsets| => (x, Add(x, offsets[j])))
  }

  /** The visits along a run, sample by sample. */
  function RunVisits(run: Line, offsets: seq<Offset>): seq<Visit>
    requires Conforms(offsets, |run.index|) && |run.index| > 0
    decreases run.length
  {
    if run.length == 0 then []
    else RunVisits(Line(run.index, run.length - 1), offsets) + SampleVisits(Step(run.index, run.length - 1), offsets)
  }

  /** The visits over all lines of a label object, each line trimmed to the domain `bb` first. */
  function LinesVisits(bb: Region, lines: seq<Line>, offsets: seq<Offset>): seq<Visit>
    requires bb.Valid() && bb.Dim() > 0 && Conforms(offsets, bb.Dim())
    requires forall l :: 0 <= l < |lines| ==> |lines[l].index| == bb.Dim()
    decreases |lines|
  {
    if |lines| == 0 then []
    else
      var before := LinesVisits(bb, lines[..|lines| - 1], offsets);
      match TrimLine(lines[|lines| - 1], bb)
      case None => before
      case Some(run) => before + RunVisits(run, offsets)
  }

  /** All visits for a label object; there are none when the image is smaller than the window. */
  function Visits(region: Region, lines: seq<Line>, offsets: seq<Offset>, radius: seq<nat>): seq<Visit>
    requires region.Valid() && |radius| == region.Dim() > 0 && Conforms(offsets, |radius|)
    requires forall l :: 0 <= l < |lines| ==> |lines[l].index| == |radius|
  {
    match ShrinkByRadius(region, radius)
    case None => []
    case Some(bb) => LinesVisits(bb, lines, offsets)
  }

  /** `v` is centred in `bb` and reaches one of the offsets. */
  ghost predicate VisitFrom(v: Visit, bb: Region, offsets: seq<Offset>)
  {
    bb.IsInside(v.0) && exists j :: 0 <= j < |offsets| && |offsets[j]| == |v.0| && v.1 == Add(v.0, offsets[j])
  }

  lemma {:induction false} RunVisitsFrom(run: Line, bb: Region, offsets: seq<Offset>)
    requires Conforms(offsets, |run.index|) && |run.index| > 0
    requires forall x :: OnLine(run, x) ==> bb.IsInside(x)
    ensures forall k :: 0 <= k < |RunVisits(run, offsets)| ==> VisitFrom(RunVisits(run, offsets)[k], bb, offsets)
    decreases run.length
  {
    if run.length > 0 {
      var shorter := Line(run.index, run.length - 1);
      assert forall x :: OnLine(shorter, x) ==> OnLine(run, x);
      RunVisitsFrom(shorter, bb, offsets);
      var x := Step(run.index, run.length - 1);
      assert OnLine(run, x);
      var here := SampleVisits(x, offsets);
      forall j | 0 <= j < |here|
        ensures VisitFrom(here[j], bb, offsets)
      {
        assert here[j].1 == Add(x, offsets[j]);
      }
    }
  }

  lemma {:induction false} LinesVisitsFrom(bb: Region, lines: seq<Line>, offsets: seq<Offset>)
    requires bb.Valid() && bb.Dim() > 0 && Conforms(offsets, bb.Dim())
    requires forall l :: 0 <= l < |lines| ==> |lines[l].index| == bb.Dim()
    ensures forall k :: 0 <= k < |LinesVisits(bb, lines, offsets)| ==>
      VisitFrom(LinesVisits(bb, lines, offsets)[k], bb, offsets)
    decreases |lines|
  {
    if |lines| > 0 {
      var line := lines[|lines| - 1];
      LinesVisitsFrom(bb, lines[..|lines| - 1], offsets);
      TrimLineInside(line, bb);
      if TrimLine(line, bb).Some? {
        RunVisitsFrom(TrimLine(line, bb).value, bb, offsets);
      }
    }
  }

  /** Every index the filter visits, centre and neighbour, is a pixel of the image. */
  lemma VisitsInside(region: Region, lines: seq<Line>, offsets: seq<Offset>, radius: seq<nat>)
    requires region.Valid() && |radius| == region.Dim() > 0 && WithinRadius(offsets, radius)
    requires forall l :: 0 <= l < |lines| ==> |lines[l].index| == |radius|
    ensures forall k :: 0 <= k < |Visits(region, lines, offsets, radius)| ==>
      region.IsInside(Visits(region, lines, offsets, radius)[k].0) &&
      region.IsInside(Visits(region, lines, offsets, radius)[k].1)
  {
    match ShrinkByRadius(region, radius)
    case None =>
    case Some(bb) =>
      DomainCovers(region, radius, offsets);
      LinesVisitsFrom(bb, lines, offsets);
  }

  /** The pixel value at `idx`; off the image it is 0 (never used: see VisitsInside). */
  function PixelAt(img: Grid<int>, idx: Index): int
  {
    if img.Valid() && img.region.IsInside(idx) then Pixel(img, idx) else 0
  }

  /** The image as the accumulation loops read it: the pixel accessor of the feature image. */
  function Accessor(img: Grid<int>): Index -> int
  {
    idx => PixelAt(img, idx)
  }

  /** The pairs of values (centre, neighbour) read at the visits, in order. */
  function Values(pixel: Index -> int, vs: seq<Visit>): (r: seq<(int, int)>)
    ensures |r| == |vs|
  {
    seq(|vs|, k requires 0 <= k < |vs| => (pixel(vs[k].0), pixel(vs[k].1)))
  }

  lemma ValuesAppend(pixel: Index -> int, vs: seq<Visit>, ws: seq<Visit>)
    ensures Values(pixel, vs + ws) == Values(pixel, vs) + Values(pixel, ws)
  {
  }

  // ---------------------------------------------------------------------
  // From pairs to the histogram

  predicate InRange(v: int, lo: int, hi: int) { lo <= v <= hi }

  /** What one read pair adds: both orders, when both values lie in [lo, hi] inclusive. */
  function PairCount(p: (int, int), lo: int, hi: int): Histogram
  {
    if InRange(p.0, lo, hi) && InRange(p.1, lo, hi) then multiset{p, (p.1, p.0)} else multiset{}
  }

  function HistOf(ps: seq<(int, int)>, lo: int, hi: int): Histogram
    decreases |ps|
  {
    if |ps| == 0 then multiset{} else HistOf(ps[..|ps| - 1], lo, hi) + PairCount(ps[|ps| - 1], lo, hi)
  }

  /** Number of read pairs whose two values both lie in [lo, hi]. */
  function InRangeCount(ps: seq<(int, int)>, lo: int, hi: int): nat
    decreases |ps|
  {
    if |ps| == 0 then 0
    else
      var p := ps[|ps| - 1];
      InRangeCount(ps[..|ps| - 1], lo, hi) + if InRange(p.0, lo, hi) && InRange(p.1, lo, hi) then 1 else 0
  }

  /** The co-occurrence histogram of a label object. */
  function Cooccurrence(img: Grid<int>, lines: seq<Line>, offsets: seq<Offset>, radius: seq<nat>,
                        lo: int, hi: int): Histogram
    requires img.Valid() && |radius| == img.region.Dim() > 0 && Conforms(offsets, |radius|)
    requires forall l :: 0 <= l < |lines| ==> |lines[l].index| == |radius|
  {
    HistOf(Values(Accessor(img), Visits(img.region, lines, offsets, radius)), lo, hi)
  }

  /** Accumulating two read sequences one after the other adds their histograms. */
  lemma {:induction false} HistOfAppend(ps: seq<(int, int)>, qs: seq<(int, int)>, lo: int, hi: int)
    ensures HistOf(ps + qs, lo, hi) == HistOf(ps, lo, hi) + HistOf(qs, lo, hi)
    decreases |qs|
  {
    if |qs| == 0 {
      assert ps + qs == ps;
    } else {
      var n := |qs| - 1;
      assert (ps + qs)[..|ps + qs| - 1] == ps + qs[..n];
      HistOfAppend(ps, qs[..n], lo, hi);
    }
  }

  /**
   * The count of bin (a, b) is the number of reads (a, b) plus the number of
   * reads (b, a) when both values are in range, and zero otherwise.
   */
  lemma {:induction false} HistOfBin(ps: seq<(int, int)>, lo: int, hi: int, a: int, b: int)
    ensures HistOf(ps, lo, hi)[(a, b)] ==
      if InRange(a, lo, hi) && InRange(b, lo, hi) then multiset(ps)[(a, b)] + multiset(ps)[(b, a)] else 0
    decreases |ps|
  {
    if |ps| > 0 {
      var n := |ps| - 1;
      HistOfBin(ps[..n], lo, hi, a, b);
      PairCountBin(ps[n], lo, hi, a, b);
      MultisetLast(ps, (a, b));
      MultisetLast(ps, (b, a));
      assert HistOf(ps, lo, hi)[(a, b)] == HistOf(ps[..n], lo, hi)[(a, b)] + PairCount(ps[n], lo, hi)[(a, b)];
    }
  }

  /** How often `q` occurs in `ps`: its occurrences before the last entry, plus the last entry. */
  lemma MultisetLast(ps: seq<(int, int)>, q: (int, int))
    requires |ps| > 0
    ensures multiset(ps)[q] == multiset(ps[..|ps| - 1])[q] + if ps[|ps| - 1] == q then 1 else 0
  {
    var n := |ps| - 1;
    assert ps == ps[..n] + [ps[n]];
    assert multiset(ps) == multiset(ps[..n]) + multiset{ps[n]};
  }

  /** The count one read pair adds to bin (a, b). */
  lemma PairCountBin(p: (int, int), lo: int, hi: int, a: int, b: int)
    ensures PairCount(p, lo, hi)[(a, b)] ==
      if InRange(a, lo, hi) && InRange(b, lo, hi) then (if p == (a, b) then 1 else 0) + (if p == (b, a) then 1 else 0) else 0
  {
  }

  /** The histogram is symmetric: bins (a, b) and (b, a) always hold the same count. */
  lemma HistOfSymmetric(ps: seq<(int, int)>, lo: int, hi: int, a: int, b: int)
    ensures HistOf(ps, lo, hi)[(a, b)] == HistOf(ps, lo, hi)[(b, a)]
  {
    HistOfBin(ps, lo, hi, a, b);
    HistOfBin(ps, lo, hi, b, a);
  }

  /** Only bins whose two values lie in [lo, hi] are ever counted. */
  lemma HistOfInRange(ps: seq<(int, int)>, lo: int, hi: int, a: int, b: int)
    requires (a, b) in HistOf(ps, lo, hi)
    ensures InRange(a, lo, hi) && InRange(b, lo, hi)
  {
    HistOfBin(ps, lo, hi, a, b);
  }

  /** The total count is twice the number of in-range reads. */
  lemma {:induction false} HistOfSize(ps: seq<(int, int)>, lo: int, hi: int)
    ensures |HistOf(ps, lo, hi)| == 2 * InRangeCount(ps, lo, hi)
    decreases |ps|
  {
    if |ps| > 0 {
      HistOfSize(ps[..|ps| - 1], lo, hi);
    }
  }

  // ---------------------------------------------------------------------
  // The accumulation loops

  lemma SampleValue(pixel: Index -> int, x: Index, offsets: seq<Offset>, j: nat)
    requires Conforms(offsets, |x|) && j < |offsets|
    ensures Values(pixel, SampleVisits(x, offsets))[j] == (pixel(x), pixel(Add(x, offsets[j])))
  {
  }

  /** The two increments of one in-range pair are the pair's contribution to the histogram. */
  lemma CountStep(h0: Histogram, acc: Histogram, p1: int, p2: int, lo: int, hi: int)
    ensures h0 + (acc + PairCount((p1, p2), lo, hi)) ==
      if lo <= p1 && lo <= p2 && p1 <= hi && p2 <= hi then h0 + acc + multiset{(p1, p2), (p2, p1)} else h0 + acc
  {
  }

  lemma AddAssoc(a: Histogram, b: Histogram, c: Histogram)
    ensures a + (b + c) == (a + b) + c
  {
  }

  /** One turn of the offset loop: the read at offset j adds its pair count to the histogram so far. */
  lemma SampleStep(h0: Histogram, here: seq<(int, int)>, j: nat, p1: int, p2: int, lo: int, hi: int)
    requires j < |here| && here[j] == (p1, p2)
    ensures h0 + HistOf(here[..j + 1], lo, hi) ==
      if lo <= p1 && lo <= p2 && p1 <= hi && p2 <= hi then h0 + HistOf(here[..j], lo, hi) + multiset{(p1, p2), (p2, p1)}
      else h0 + HistOf(here[..j], lo, hi)
  {
    assert here[..j + 1][..j] == here[..j];
    CountStep(h0, HistOf(here[..j], lo, hi), p1, p2, lo, hi);
  }

  /** The innermost loop: the offsets at one sample, counting each in-range pair in both orders. */
  method AccumulateSample(pixel: Index -> int, x: Index, offsets: seq<Offset>, lo: int, hi: int, h0: Histogram)
    returns (h: Histogram)
    requires Conforms(offsets, |x|)
    ensures h == h0 + HistOf(Values(pixel, SampleVisits(x, offsets)), lo, hi)
  {
    h := h0;
    var p1 := pixel(x);
    ghost var here := Values(pixel, SampleVisits(x, offsets));
    for j := 0 to |offsets|
      invariant h == h0 + HistOf(here[..j], lo, hi)
    {
      var p2 := pixel(Add(x, offsets[j]));
      SampleValue(pixel, x, offsets, j);
      SampleStep(h0, here, j, p1, p2, lo, hi);
      if lo <= p1 && lo <= p2 && p1 <= hi && p2 <= hi {
        // one increment of bin (p1, p2) and one of bin (p2, p1)
        h := h + multiset{(p1, p2), (p2, p1)};
      }
    }
    assert here[..|offsets|] == here;
  }

  /** The histogram of the reads over the first `i` samples of a run. */
  function RunHist(pixel: Index -> int, start: Index, i: nat, offsets: seq<Offset>, lo: int, hi: int): Histogram
    requires |start| > 0 && Conforms(offsets, |start|)
  {
    HistOf(Values(pixel, RunVisits(Line(start, i), offsets)), lo, hi)
  }

  /** One turn of the sample loop: the reads at sample i follow those of the samples before it. */
  lemma RunStep(pixel: Index -> int, start: Index, offsets: seq<Offset>, i: nat, lo: int, hi: int)
    requires |start| > 0 && Conforms(offsets, |start|)
    ensures RunHist(pixel, start, i + 1, offsets, lo, hi) ==
      RunHist(pixel, start, i, offsets, lo, hi) + HistOf(Values(pixel, SampleVisits(Step(start, i), offsets)), lo, hi)
  {
    var visited := RunVisits(Line(start, i), offsets);
    var here := SampleVisits(Step(start, i), offsets);
    assert RunVisits(Line(start, i + 1), offsets) == visited + here;
    ValuesAppend(pixel, visited, here);
    HistOfAppend(Values(pixel, visited), Values(pixel, here), lo, hi);
  }

  /** The loop over the samples of one trimmed run. */
  method AccumulateRun(pixel: Index -> int, run: Line, offsets: seq<Offset>, lo: int, hi: int, h0: Histogram)
    returns (h: Histogram)
    requires |run.index| > 0 && Conforms(offsets, |run.index|)
    ensures h == h0 + HistOf(Values(pixel, RunVisits(run, offsets)), lo, hi)
  {
    h := h0;
    var x := run.index;
    for i := 0 to run.length
      invariant x == Step(run.index, i)
      invariant h == h0 + RunHist(pixel, run.index, i, offsets, lo, hi)
    {
      RunStep(pixel, run.index, offsets, i, lo, hi);
      AddAssoc(h0, RunHist(pixel, run.index, i, offsets, lo, hi), HistOf(Values(pixel, SampleVisits(x, offsets)), lo, hi));
      h := AccumulateSample(pixel, x, offsets, lo, hi, h);
      StepNext(run.index, i);
      x := x[0 := x[0] + 1];
    }
  }

  lemma LinesVisitsStep(bb: Region, lines: seq<Line>, offsets: seq<Offset>, l: nat)
    requires bb.Valid() && bb.Dim() > 0 && Conforms(offsets, bb.Dim())
    requires forall l :: 0 <= l < |lines| ==> |lines[l].index| == bb.Dim()
    requires l < |lines|
    ensures LinesVisits(bb, lines[..l + 1], offsets) ==
      if TrimLine(lines[l], bb).None? then LinesVisits(bb, lines[..l], offsets)
      else LinesVisits(bb, lines[..l], offsets) + RunVisits(TrimLine(lines[l], bb).value, offsets)
  {
    assert lines[..l + 1][..l] == lines[..l];
  }

  /** The statements that trim a line in place before its samples are visited. */
  method TrimRun(line: Line, bb: Region) returns (r: Option<Line>)
    requires bb.Valid() && bb.Dim() > 0 && |line.index| == bb.Dim()
    ensures r == TrimLine(line, bb)
  {
    var idx := line.index;
    var length: int := line.length;
    if bb.index[0] > idx[0] {
      length := length - (bb.index[0] - idx[0]);
      idx := idx[0 := bb.index[0]];
    }
    if length <= 0 || !bb.IsInside(idx) {
      return None;
    }
    var last := bb.UpperIndex()[0];
    if idx[0] + length > last {
      length := last - idx[0] + 1;
    }
    return Some(Line(idx, length));
  }

  /**
   * ThreadedProcessLabelObject's accumulation: the loop over the lines of the
   * label object, each trimmed to the analysis domain before its samples are
   * visited.
   */
  method ComputeCooccurrence(img: Grid<int>, lines: seq<Line>, offsets: seq<Offset>, radius: seq<nat>,
                             lo: int, hi: int) returns (h: Histogram)
    requires img.Valid() && |radius| == img.region.Dim() > 0 && Conforms(offsets, |radius|)
    requires forall l :: 0 <= l < |lines| ==> |lines[l].index| == |radius|
    ensures h == Cooccurrence(img, lines, offsets, radius, lo, hi)
  {
    h := multiset{};
    var domain := ShrinkByRadius(img.region, radius);
    if domain.None? {
      return;
    }
    var bb := domain.value;
    var pixel := Accessor(img);
    for l := 0 to |lines|
      invariant h == HistOf(Values(pixel, LinesVisits(bb, lines[..l], offsets)), lo, hi)
    {
      LinesVisitsStep(bb, lines, offsets, l);
      var trimmed := TrimRun(lines[l], bb);
      if trimmed.None? {
        continue;
      }
      var run := trimmed.value;
      ghost var before := LinesVisits(bb, lines[..l], offsets);
      ValuesAppend(pixel, before, RunVisits(run, offsets));
      HistOfAppend(Values(pixel, before), Values(pixel, RunVisits(run, offsets)), lo, hi);
      h := AccumulateRun(pixel, run, offsets, lo, hi, h);
    }
    assert lines[..|lines|] == lines;
  }

  // ---------------------------------------------------------------------
  // The trimming and the domain as the source writes them

  const TwoTo64: int := 0x1_0000_0000_0000_0000

  /** Conversion to the unsigned 64-bit length type: arithmetic modulo 2^64. */
  function ToLength(v: int): (u: nat)
    ensures u < TwoTo64 && (0 <= v < TwoTo64 ==> u == v)
  {
    v % TwoTo64
  }

  /** Conversion of an unsigned 64-bit length to the signed 64-bit index value type. */
  function ToIndexValue(u: nat): (v: int)
    requires u < TwoTo64
    ensures u < TwoTo64 / 2 ==> v == u
    ensures u >= TwoTo64 / 2 ==> v < 0
  {
    if u < TwoTo64 / 2 then u else u - TwoTo64
  }

  /**
   * The trimming with the line length held in an unsigned 64-bit variable:
   * the shortening wraps around when the line ends before the domain's first
   * column, and only the start index is tested against the domain.
   */
  function TrimLineAsWritten(line: Line, bb: Region): Option<Line>
    requires bb.Valid() && bb.Dim() > 0 && |line.index| == bb.Dim() && line.length < TwoTo64
  {
    var first := bb.index[0];
    var start := if first > line.index[0] then line.index[0 := first] else line.index;
    var length := if first > line.index[0] then ToLength(line.length - (first - line.index[0])) else line.length;
    if !bb.IsInside(start) then None
    else
      var last := bb.index[0] + bb.size[0] - 1;
      Some(Line(start, if start[0] + ToIndexValue(length) > last then ToLength(last - start[0] + 1) else length))
  }

  /** Where nothing wraps around, the trimming as written and the corrected trimming agree. */
  lemma TrimLineAgrees(line: Line, bb: Region)
    requires bb.Valid() && bb.Dim() > 0 && |line.index| == bb.Dim()
    requires line.length < TwoTo64 / 2 && bb.size[0] < TwoTo64 / 2
    requires line.length > 0 && (bb.index[0] > line.index[0] ==> line.length > bb.index[0] - line.index[0])
    ensures TrimLineAsWritten(line, bb) == TrimLine(line, bb)
  {
    var first := bb.index[0];
    var start := if first > line.index[0] then line.index[0 := first] else line.index;
    var length := if first > line.index[0] then line.length - (first - line.index[0]) else line.length;
    assert 0 < length < TwoTo64 / 2;
    if bb.IsInside(start) {
      assert 0 < bb.index[0] + bb.size[0] - start[0] <= bb.size[0];
    }
  }

  /**
   * A line of one sample that ends two columns before the domain of a 5x5
   * image analysed with offset (2, 0): the window radius is (2, 1), the
   * domain starts at column 2, the shortened length wraps around to 2^64 - 1
   * and the run visited as written leaves the domain after one sample, while
   * the line has no sample in the domain at all.
   */
  lemma TrimLineUnderflow()
    ensures ShrinkByRadius(Region([0, 0], [5, 5]), [2, 1]) == Some(Region([2, 1], [1, 3]))
    ensures TrimLineAsWritten(Line([0, 2], 1), Region([2, 1], [1, 3])) == Some(Line([2, 2], TwoTo64 - 1))
    ensures !Region([2, 1], [1, 3]).IsInside(Step([2, 2], 1))
    ensures TrimLine(Line([0, 2], 1), Region([2, 1], [1, 3])).None?
  {
    var r := Region([0, 0], [5, 5]);
    var bb := ShrinkByRadius(r, [2, 1]).value;
    assert bb.index[0] == 2 && bb.index[1] == 1 && bb.size[0] == 1 && bb.size[1] == 3;
    assert bb.index == [2, 1] && bb.size == [1, 3];
    assert Region([2, 1], [1, 3]).IsInside([2, 2]);
    assert [0, 2][0 := 2] == [2, 2];
    assert ToLength(1 - 2) == TwoTo64 - 1;
    assert ToIndexValue(TwoTo64 - 1) == -1;
  }

  /** The domain as the source iterates it: the result of the failed shrink is ignored. */
  function DomainAsWritten(region: Region, radius: seq<nat>): Region
    requires region.Valid() && |radius| == region.Dim()
  {
    match ShrinkByRadius(region, radius)
    case None => region
    case Some(bb) => bb
  }

  function VisitsAsWritten(region: Region, lines: seq<Line>, offsets: seq<Offset>, radius: seq<nat>): seq<Visit>
    requires region.Valid() && |radius| == region.Dim() > 0 && Conforms(offsets, |radius|)
    requires forall l :: 0 <= l < |lines| ==> |lines[l].index| == |radius|
  {
    LinesVisits(DomainAsWritten(region, radius), lines, offsets)
  }

  /**
   * A 1x1 image analysed with offset (1, 0): the window radius (1, 1) does not
   * fit, the whole image is iterated anyway, and its only pixel is paired
   * with index (1, 0) outside the image. The corrected model visits nothing.
   */
  lemma ShrinkFailureReadsOutside()
    ensures ShrinkByRadius(Region([0, 0], [1, 1]), [1, 1]).None?
    ensures VisitsAsWritten(Region([0, 0], [1, 1]), [Line([0, 0], 1)], [[1, 0]], [1, 1]) == [([0, 0], [1, 0])]
    ensures !Region([0, 0], [1, 1]).IsInside([1, 0])
    ensures Visits(Region([0, 0], [1, 1]), [Line([0, 0], 1)], [[1, 0]], [1, 1]) == []
  {
    var r := Region([0, 0], [1, 1]);
    assert r.size[0] < 2 * [1, 1][0];
    assert r.IsInside([0, 0]);
    assert TrimLine(Line([0, 0], 1), r) == Some(Line([0, 0], 1));
    assert Step([0, 0], 0) == [0, 0];
    assert Add([0, 0], [1, 0]) == [1, 0];
    assert SampleVisits([0, 0], [[1, 0]]) == [([0, 0], [1, 0])];
    assert RunVisits(Line([0, 0], 1), [[1, 0]]) == [([0, 0], [1, 0])];
  }
}
