# Label-map attribute filters (ITK), modelled in Dafny

This project models the core of a set of ITK label-map filters. Each filter
takes a label map, walks every label object in it, and computes attributes of
the object's region. A region is given as run-length "lines": a start index
plus a length along axis 0. The filters modelled are:

- **GLCMLabelMapFilter**. It accumulates a grey-level co-occurrence histogram
  of a feature image over each object's lines and stores eight texture
  features on a `GLCMLabelObject`.
  - The window radius is derived from the offsets.
  - Min and Max are filled in automatically when the caller left them unset.
  - Each line is trimmed to the image domain shrunk by the radius.
  - Every in-range intensity pair is counted in both orders.
- **OrientedBoundingBoxLabelMapFilter**. It computes the oriented bounding
  box of each object in the frame of its principal axes and stores it on an
  `OrientedBoundingBoxLabelObject`.
  - The box is built from the line end points, a min/max scan and a
    half-voxel widening.
  - It stores the size, the direction and the 2^D vertices.
- **BoundingBoxImageLabelMapFilter**. It pads or shrinks each object's
  axis-aligned bounding box axis by axis, and crops it to the feature
  image's buffered region. It then attaches the feature pixels of that box
  to an `AttributeImageLabelObject`, or reports an error naming the label.
- **OrientedBoundingBoxImageLabelMapFilter**. It first computes the oriented
  box, then the resampling grid: size per axis, origin, direction and
  spacing. It attaches the feature image resampled on that grid.
- **The label-object attribute records**. These are the GLCM,
  oriented-bounding-box and attribute-image objects: their defaults, their
  setters and `CopyAttributesFrom`.

## How the model is built

Files and modules:

| File | Module | Contents |
|---|---|---|
| `wrappers.dfy` | `Wrappers` | `Option` and `Result` |
| `regions.dfy` | `Regions` | ITK's `ImageRegion` operations and a dense pixel grid |
| `linear_algebra.dfy` | `LinearAlgebra` | vectors and matrices over `real` |
| `label_object.dfy` | `LabelObjects` | the line type, the inherited shape attributes, and the `dynamic_cast` outcome |
| `glcm_label_object.dfy` | | the GLCM record |
| `obb_label_object.dfy` | | the oriented-bounding-box record |
| `attribute_image_label_object.dfy` | | the attribute-image record |
| `glcm_cooccurrence.dfy` | | the GLCM accumulation |
| `glcm_filter.dfy` | | the GLCM filter object |
| `glcm_histogram_shapes.dfy` | | histogram shapes for two special images |
| `obb_filter.dfy` | | the oriented-bounding-box filter |
| `bounding_box_image_filter.dfy` | | the axis-aligned crop filter |
| `obb_image_filter.dfy` | | the resampling-grid filter |

Filters and label objects are classes: their members are fields, and their
setters are methods with `modifies` clauses. Every loop of the source is a
method with loop invariants, proved equal to a specification function. The
properties are then proved about that function:

- the pixel-location loop;
- the min/max scan;
- the vertex enumeration;
- the radius loop;
- the min/max calculator;
- the line, sample and offset loops of the accumulation;
- the padding loop;
- the output-size loop.

**Modelling conventions:**

- **The histogram.** It is a multiset of value pairs, so the count of a bin is
  the multiplicity of its pair. The bin mapping of the statistics histogram
  is not modelled.
- **Images.** A feature image is a `Grid<int>`: a region plus a buffer with
  axis 0 varying fastest.
- **Outside calls.** Index-to-physical conversion, the local-to-physical
  vector conversion, the texture calculator and the resampler are parameters
  of the methods that use them.
- **Arithmetic.** Coordinates are `real`, with no IEEE rounding.
  `Math::Round` is `floor(x + 0.5)`.
- **`dynamic_cast`.** The source of `CopyAttributesFrom` is
  `Source<T> = SameType(obj) | OtherType(attributes)`. The second case is an
  object of another class, of which only the inherited attributes are seen.
- **`ImageRegion` semantics.** The library's region operations do not appear
  in the repository. They are modelled as ITK documents them:
  - `ShrinkByRadius` fails, leaving the region unchanged, when an axis is
    shorter than twice its radius;
  - `PadByRadius` grows every axis on both sides;
  - `Crop` fails when the regions are apart on some axis, and otherwise
    intersects them.
- **The oriented-bounding-box image filter.** Its source label object is both
  an oriented-bounding-box object and an attribute-image object. The model
  passes these two sides of the one object as two arguments.

## Model

| member | source | states |
|---|---|---|
| Regions.ShrinkByRadius | include/itkGLCMLabelMapFilter.hxx:149-151 | the analysis domain: every axis loses the radius on both sides. It fails exactly when some axis is shorter than twice its radius |
| Regions.PadByRadius | include/itkBoundingBoxImageLabelMapFilter.hxx:60-64 | every axis gains the radius on both sides |
| Regions.Crop | include/itkBoundingBoxImageLabelMapFilter.hxx:78 | fails exactly when the regions are apart on some axis; otherwise it returns a region of the same dimension |
| Regions.CropIsIntersection | include/itkBoundingBoxImageLabelMapFilter.hxx:78-88 | a successful crop contains an index exactly when both regions do |
| Regions.IndexAtInverse | include/itkBoundingBoxImageLabelMapFilter.hxx:84-90 | the index at buffer position k lies in the box, and its buffer position is k |
| Regions.LinearOffsetInverse | include/itkBoundingBoxImageLabelMapFilter.hxx:84-90 | an index in the box has a buffer position inside the buffer, and the index at that position is the index itself |
| GLCMCooccurrence.DomainCovers | include/itkGLCMLabelMapFilter.hxx:149-158 | when the shrink succeeds, every sample in the domain plus any offset within the radius lies in the image. No boundary condition is needed |
| GLCMCooccurrence.TrimLineExact | include/itkGLCMLabelMapFilter.hxx:168-183 | a sample is visited exactly when it is on the line and inside the domain |
| GLCMCooccurrence.TrimLineBounds | include/itkGLCMLabelMapFilter.hxx:168-183 | a kept run starts at max(idx0, lo0) and ends at min(idx0+len-1, hi0). It has at least one sample and the same other coordinates |
| GLCMCooccurrence.TrimLineInside | include/itkGLCMLabelMapFilter.hxx:175-183 | every sample of a kept run is inside the domain |
| GLCMCooccurrence.RunVisitsFrom | include/itkGLCMLabelMapFilter.hxx:189-216 | each (sample, neighbour) read along one run has its sample in the domain and its neighbour at the sample plus one of the offsets |
| GLCMCooccurrence.LinesVisitsFrom | include/itkGLCMLabelMapFilter.hxx:161-218 | the same for every read over all the object's lines |
| GLCMCooccurrence.VisitsInside | include/itkGLCMLabelMapFilter.hxx:149-158 | with offsets within the radius, every sample read and every neighbour read lies inside the image |
| GLCMCooccurrence.ValuesAppend | include/itkGLCMLabelMapFilter.hxx:161-218 | the values read over two read sequences in turn are the two value sequences concatenated |
| GLCMCooccurrence.HistOfAppend | include/itkGLCMLabelMapFilter.hxx:161-218 | accumulating two read sequences one after the other adds their histograms |
| GLCMCooccurrence.HistOfBin | include/itkGLCMLabelMapFilter.hxx:201-213 | bin (a,b) counts the reads of (a,b) plus the reads of (b,a) when both values lie in [Min, Max] inclusive, and is empty otherwise |
| GLCMCooccurrence.HistOfSymmetric | include/itkGLCMLabelMapFilter.hxx:206-212 | the histogram is symmetric: bin (a,b) equals bin (b,a) |
| GLCMCooccurrence.HistOfInRange | include/itkGLCMLabelMapFilter.hxx:201-204 | a non-empty bin has both values in [Min, Max] |
| GLCMCooccurrence.HistOfSize | include/itkGLCMLabelMapFilter.hxx:206-212 | the total count is twice the number of in-range reads |
| GLCMCooccurrence.SampleValue | include/itkGLCMLabelMapFilter.hxx:192-199 | the j-th read pair of a sample is (pixel at centre, pixel at centre + offset j) |
| GLCMCooccurrence.CountStep | include/itkGLCMLabelMapFilter.hxx:201-213 | one read adds bins (p1,p2) and (p2,p1) when both values are in range, and nothing otherwise |
| GLCMCooccurrence.AccumulateSample | include/itkGLCMLabelMapFilter.hxx:195-215 | the offset loop adds the histogram of the sample's reads |
| GLCMCooccurrence.AccumulateRun | include/itkGLCMLabelMapFilter.hxx:189-217 | the sample loop adds the histogram of the run's reads |
| GLCMCooccurrence.LinesVisitsStep | include/itkGLCMLabelMapFilter.hxx:161-218 | the visits of the first l+1 lines are those of the first l, followed by those of line l |
| GLCMCooccurrence.TrimRun | include/itkGLCMLabelMapFilter.hxx:165-183 | the in-place trimming of idx and length gives TrimLine's run, or skips the line exactly when TrimLine does |
| GLCMCooccurrence.ComputeCooccurrence | include/itkGLCMLabelMapFilter.hxx:146-218 | the line loop computes the co-occurrence histogram of the object |
| GLCMCooccurrence.ToLength | include/itkGLCMLabelMapFilter.hxx:166-171 | conversion to the unsigned 64-bit length wraps modulo 2^64 and keeps values already in range |
| GLCMCooccurrence.ToIndexValue | include/itkGLCMLabelMapFilter.hxx:180 | the cast of a length to the signed index type keeps lengths below 2^63 and makes larger ones negative |
| GLCMCooccurrence.TrimLineAgrees | include/itkGLCMLabelMapFilter.hxx:168-183 | the trimming as written equals the corrected trimming whenever no line ends to the left of the domain |
| GLCMCooccurrence.TrimLineUnderflow | include/itkGLCMLabelMapFilter.hxx:169-183 | a line ending left of the domain is kept as written, with length 2^64-1, and runs outside the domain. The corrected trimming skips it |
| GLCMCooccurrence.ShrinkFailureReadsOutside | include/itkGLCMLabelMapFilter.hxx:149-158 | on a 1x1 image with radius 1 the shrink fails. As written, the unshrunk domain is then scanned and reads outside the image; the corrected model reads nothing |
| GLCMFilter.Widen | include/itkGLCMLabelMapFilter.hxx:96-99 | one offset's step keeps the radius's length; WindowRadiusBounds and WindowRadiusAttained prove the values |
| GLCMFilter.WindowRadius | include/itkGLCMLabelMapFilter.hxx:93-101 | the radius after all offsets keeps the radius's length; WindowRadiusBounds and WindowRadiusAttained prove it is the maximum |
| GLCMFilter.WindowRadiusBounds | include/itkGLCMLabelMapFilter.hxx:93-101 | the radius never decreases, and it reaches every offset on every axis |
| GLCMFilter.WindowRadiusAttained | include/itkGLCMLabelMapFilter.hxx:93-101 | each axis of the radius is its previous value or some offset's absolute value: it is the maximum |
| GLCMFilter.ScanMinMaxExact | include/itkGLCMLabelMapFilter.hxx:83-89 | started from the type's sentinels, the calculator's result bounds every pixel, and each bound is attained by some pixel |
| GLCMFilter.ComputeMinimumMaximum | include/itkGLCMLabelMapFilter.hxx:83-89 | the calculator's loop computes the scanned minimum and maximum |
| GLCMFilter.GLCMLabelMapFilter.constructor | include/itkGLCMLabelMapFilter.hxx:30-42 | two required inputs, Min/Max at their sentinels, 64 bins, Normalize off, window radius 1 on every axis, no offsets |
| GLCMFilter.GLCMLabelMapFilter.SetFeatureImage | include/itkGLCMLabelMapFilter.h:100-104 | the feature image is stored in input slot 1 |
| GLCMFilter.GLCMLabelMapFilter.FeatureImage | include/itkGLCMLabelMapFilter.h:107-110 | the feature image is read from input slot 1 |
| GLCMFilter.GLCMLabelMapFilter.SetOffsets | include/itkGLCMLabelMapFilter.h:119-126 | replaces the whole list; marks the filter modified exactly when the list differs |
| GLCMFilter.GLCMLabelMapFilter.SetOffset | include/itkGLCMLabelMapFilter.hxx:48-54 | the list becomes [o] |
| GLCMFilter.GLCMLabelMapFilter.SetPixelValueMinMax | include/itkGLCMLabelMapFilter.hxx:60-66 | sets both bounds and always marks the filter modified |
| GLCMFilter.GLCMLabelMapFilter.SetNumberOfBinsPerAxis | include/itkGLCMLabelMapFilter.h:130 | sets the bin count; modified only on change |
| GLCMFilter.GLCMLabelMapFilter.SetNormalize | include/itkGLCMLabelMapFilter.h:146 | sets the flag; modified only on change |
| GLCMFilter.GLCMLabelMapFilter.NormalizeOn | include/itkGLCMLabelMapFilter.h:148 | sets the flag to true |
| GLCMFilter.GLCMLabelMapFilter.NormalizeOff | include/itkGLCMLabelMapFilter.h:148 | sets the flag to false |
| GLCMFilter.GLCMLabelMapFilter.BeforeThreadedGenerateData | include/itkGLCMLabelMapFilter.hxx:72-102 | when both Min and Max hold their sentinels they become the feature image's scanned minimum and maximum; otherwise both are kept. The radius becomes the fold of the offsets into the previous radius |
| GLCMFilter.GLCMLabelMapFilter.ThreadedProcessLabelObject | include/itkGLCMLabelMapFilter.hxx:107-235 | the eight stored features are the texture calculator's result on the object's co-occurrence histogram, Min, Max and the bin count |
| GLCMFilter.GLCMLabelMapFilter.StoreFeatures | include/itkGLCMLabelMapFilter.hxx:226-233 | the eight setter calls store exactly the given features |
| GLCMHistogramShapes.CountConstant | test/itkGLCMLabelMapFilterTest2.cxx:100-107 | a read sequence of one repeated pair holds that pair \|ps\| times and nothing else |
| GLCMHistogramShapes.CountTwo | test/itkGLCMLabelMapFilterTest2.cxx:140-142 | a read sequence of two pairs holds the two \|ps\| times together and nothing else |
| GLCMHistogramShapes.PixelAtInside | include/itkGLCMLabelMapFilter.hxx:192-199 | a pixel read inside the image is the buffer entry at its position |
| GLCMHistogramShapes.UniformImage | test/itkGLCMLabelMapFilterTest2.cxx:60-107 | on a uniform image of value v, the only non-empty bin is (v,v), with two counts per read when v is in range. Nothing is counted otherwise |
| GLCMHistogramShapes.UnitOffset | test/itkGLCMLabelMapFilterTest2.cxx:78 | the offset (1,0,...) has 1 on axis 0 and 0 elsewhere |
| GLCMHistogramShapes.AddUnitOffset | test/itkGLCMLabelMapFilterTest2.cxx:78 | adding that offset steps one sample along axis 0 |
| GLCMHistogramShapes.LinearOffsetStep | test/itkGLCMLabelMapFilterTest2.cxx:110-121 | one step along axis 0 is one buffer position further |
| GLCMHistogramShapes.VisitsReachOffsets | include/itkGLCMLabelMapFilter.hxx:195-199 | every read pairs its sample with the sample plus one of the offsets |
| GLCMHistogramShapes.AlternatingImage | test/itkGLCMLabelMapFilterTest2.cxx:110-142 | on a buffer alternating 1,0,1,... with offset (1,0), bins (0,1) and (1,0) each hold one count per read, and every other bin is empty |
| GLCMLabelObjects.GLCMLabelObject.constructor | include/itkGLCMLabelObject.h:198-208 | all eight features are 0 |
| GLCMLabelObjects.GLCMLabelObject.SetEnergy | include/itkGLCMLabelObject.h:93-96 | the feature is set; the other seven are untouched (modifies frame) |
| GLCMLabelObjects.GLCMLabelObject.SetEntropy | include/itkGLCMLabelObject.h:104-107 | likewise |
| GLCMLabelObjects.GLCMLabelObject.SetCorrelation | include/itkGLCMLabelObject.h:115-118 | likewise |
| GLCMLabelObjects.GLCMLabelObject.SetInverseDifferenceMoment | include/itkGLCMLabelObject.h:126-129 | likewise |
| GLCMLabelObjects.GLCMLabelObject.SetInertia | include/itkGLCMLabelObject.h:137-140 | likewise |
| GLCMLabelObjects.GLCMLabelObject.SetClusterShade | include/itkGLCMLabelObject.h:148-151 | likewise |
| GLCMLabelObjects.GLCMLabelObject.SetClusterProminence | include/itkGLCMLabelObject.h:159-162 | likewise |
| GLCMLabelObjects.GLCMLabelObject.SetHaralickCorrelation | include/itkGLCMLabelObject.h:170-173 | likewise |
| GLCMLabelObjects.GLCMLabelObject.CopyAttributesFrom | include/itkGLCMLabelObject.h:175-194 | the inherited attributes are always copied. The eight features are copied from another GLCM object and kept for self-copy or another type |
| OrientedBoundingBoxLabelObjects.OrientedBoundingBoxLabelObject.constructor | include/itkOrientedBoundingBoxLabelObject.h:117-120 | the box attributes are left unspecified; only their shape is fixed |
| OrientedBoundingBoxLabelObjects.OrientedBoundingBoxLabelObject.SetOrientedBoundingBoxOrigin | include/itkOrientedBoundingBoxLabelObject.h:60-71 | the origin is set; nothing else changes |
| OrientedBoundingBoxLabelObjects.OrientedBoundingBoxLabelObject.SetOrientedBoundingBoxDirection | include/itkOrientedBoundingBoxLabelObject.h:73-84 | the direction is set; nothing else changes |
| OrientedBoundingBoxLabelObjects.OrientedBoundingBoxLabelObject.SetOrientedBoundingBoxSize | include/itkOrientedBoundingBoxLabelObject.h:87-98 | the size is set; nothing else changes |
| OrientedBoundingBoxLabelObjects.OrientedBoundingBoxLabelObject.SetOrientedBoundingBoxVertices | include/itkOrientedBoundingBoxLabelMapFilter.hxx:149 | the vertices are set; nothing else changes |
| OrientedBoundingBoxLabelObjects.OrientedBoundingBoxLabelObject.CopyAttributesFrom | include/itkOrientedBoundingBoxLabelObject.h:101-114 | origin, direction and size are copied from another object of this class, and kept for self-copy or another type |
| AttributeImageLabelObjects.AttributeImageLabelObject.constructor | include/itkAttributeImageLabelObject.h:91 | a new object has no attribute image |
| AttributeImageLabelObjects.AttributeImageLabelObject.SetAttributeImage | include/itkAttributeImageLabelObject.h:62-73 | the stored reference is the given image |
| AttributeImageLabelObjects.AttributeImageLabelObject.CopyAttributesFrom | include/itkAttributeImageLabelObject.h:77-88 | the source's image reference is shared, not copied, from another object of this class. It is kept for self-copy or another type |
| OrientedBoundingBoxFilter.Points | include/itkOrientedBoundingBoxLabelMapFilter.hxx:48-69 | 2 x numLines points: point 2l is line l's start and point 2l+1 its start plus (length-1) on axis 0, both in physical space relative to the centroid |
| OrientedBoundingBoxFilter.PixelLocations | include/itkOrientedBoundingBoxLabelMapFilter.hxx:48-69 | the fill loop computes that point set |
| OrientedBoundingBoxFilter.Projected | include/itkOrientedBoundingBoxLabelMapFilter.hxx:73 | one projected point per point, each of dimension D; ScanBounds proves the bounds over them |
| OrientedBoundingBoxFilter.ScanBounds | include/itkOrientedBoundingBoxLabelMapFilter.hxx:77-88 | on each axis the scanned min and max bound every projected point and are each attained by some point |
| OrientedBoundingBoxFilter.ScanStep | include/itkOrientedBoundingBoxLabelMapFilter.hxx:80-88 | one column of the scan takes the running min and max with that column's value |
| OrientedBoundingBoxFilter.ProjectionBounds | include/itkOrientedBoundingBoxLabelMapFilter.hxx:76-88 | the scan loop, started from column 0, computes the per-axis minimum and maximum |
| OrientedBoundingBoxFilter.BitZero | include/itkOrientedBoundingBoxLabelMapFilter.hxx:128-145 | index 0 has no bit set |
| OrientedBoundingBoxFilter.BitAllOnes | include/itkOrientedBoundingBoxLabelMapFilter.hxx:128-145 | index 2^D-1 has each of the D bits set |
| OrientedBoundingBoxFilter.CornerExtremes | include/itkOrientedBoundingBoxLabelMapFilter.hxx:126-146 | corner 0 is the all-min corner and corner 2^D-1 the all-max corner |
| OrientedBoundingBoxFilter.HalfVoxelCorners | include/itkOrientedBoundingBoxLabelMapFilter.hxx:93-96 | the 2^D half-voxel corner vectors in physical space, each of dimension D; BoxHoldsVoxelCorners and the tightness lemmas use them |
| OrientedBoundingBoxFilter.BoxHoldsVoxelCorners | include/itkOrientedBoundingBoxLabelMapFilter.hxx:90-102 | every corner of every end-point voxel, projected, lies within the widened bounds |
| OrientedBoundingBoxFilter.BoxLowerTight | include/itkOrientedBoundingBoxLabelMapFilter.hxx:90-102 | each widened lower bound is attained by some voxel corner |
| OrientedBoundingBoxFilter.BoxUpperTight | include/itkOrientedBoundingBoxLabelMapFilter.hxx:90-102 | each widened upper bound is attained by some voxel corner |
| OrientedBoundingBoxFilter.BoxOrdered | include/itkOrientedBoundingBoxLabelMapFilter.hxx:98-108 | the widened bounds satisfy min <= max on every axis |
| OrientedBoundingBoxFilter.MatVecAdd | include/itkOrientedBoundingBoxLabelMapFilter.hxx:96 | projecting a sum is the sum of the projections |
| OrientedBoundingBoxFilter.ProjectSum | include/itkOrientedBoundingBoxLabelMapFilter.hxx:90-102 | a projected voxel corner is the projected point plus the projected corner offset |
| OrientedBoundingBoxFilter.AddInPlace | include/itkOrientedBoundingBoxLabelMapFilter.hxx:98-102 | the widening loop adds the projected offset (the corrected vector, see Findings) |
| OrientedBoundingBoxFilter.BoxSize | include/itkOrientedBoundingBoxLabelMapFilter.hxx:104-108 | every size component is >= 0, and it equals max - min where min <= max |
| OrientedBoundingBoxFilter.ComputeSize | include/itkOrientedBoundingBoxLabelMapFilter.hxx:104-108 | the size loop computes \|max - min\| per axis |
| OrientedBoundingBoxFilter.Vertices | include/itkOrientedBoundingBoxLabelMapFilter.hxx:126-146 | 2^D vertices of dimension D; VerticesAreBoxCorners proves what they are |
| OrientedBoundingBoxFilter.VerticesAreBoxCorners | include/itkOrientedBoundingBoxLabelMapFilter.hxx:113-146 | vertex k, seen from the centroid in the principal frame, is corner k of [min, max]. Axis j takes max when bit D-1-j of k is set |
| OrientedBoundingBoxFilter.BoxVertices | include/itkOrientedBoundingBoxLabelMapFilter.hxx:126-146 | the vertex loop computes the vertices |
| OrientedBoundingBoxFilter.BoxOrigin | test/OBB.cxx:133-138 | the box origin, of dimension D; BoxOriginIsVertexZero and BoxOriginIsMinCorner prove where it lies |
| OrientedBoundingBoxFilter.BoxOriginIsVertexZero | test/OBB.cxx:133-138 | the box origin is vertex 0 |
| OrientedBoundingBoxFilter.BoxOriginIsMinCorner | test/OBB.cxx:114-138 | seen from the centroid in the principal frame, the origin is the lower bound |
| OrientedBoundingBoxFilter.ThreadedProcessLabelObject | include/itkOrientedBoundingBoxLabelMapFilter.hxx:30-152 | stores vertices, size and direction = transpose of the principal axes, all computed from the object's lines, centroid and axes. It also stores the origin (corrected, see Findings) |
| OrientedBoundingBoxFilter.Rot345Orthonormal | include/itkOrientedBoundingBoxLabelMapFilter.hxx:41 | the rotation used in the findings is orthonormal |
| OrientedBoundingBoxFilter.WidenAsWrittenMissesCorner | include/itkOrientedBoundingBoxLabelMapFilter.hxx:93-102 | see Findings |
| OrientedBoundingBoxFilter.VerticesAsWrittenOffBox | include/itkOrientedBoundingBoxLabelMapFilter.hxx:117-146 | see Findings |
| OrientedBoundingBoxFilter.OriginAsWrittenOffBox | include/itkOrientedBoundingBoxLabelMapFilter.hxx:149-151 | see Findings |
| BoundingBoxImageFilter.AxisPadGrows | include/itkBoundingBoxImageLabelMapFilter.hxx:60-64 | a positive pad p moves the start back by p and the end forward by p |
| BoundingBoxImageFilter.AxisPadShrinks | include/itkBoundingBoxImageLabelMapFilter.hxx:65-70 | a negative pad on an axis of more than 2 samples removes min(-p, size/2-1) from both ends. The axis stays within its old extent and keeps at least 2 samples |
| BoundingBoxImageFilter.AxisPadKeeps | include/itkBoundingBoxImageLabelMapFilter.hxx:60-71 | a zero pad, or a negative pad on an axis of at most 2 samples, keeps the axis |
| BoundingBoxImageFilter.PaddedBoxAxis | include/itkBoundingBoxImageLabelMapFilter.hxx:57-71 | after the loop every axis has been padded by its own rule, independently of the others |
| BoundingBoxImageFilter.AxisRadius | include/itkBoundingBoxImageLabelMapFilter.hxx:59-67 | the radius with the pad on axis i and 0 elsewhere |
| BoundingBoxImageFilter.PadOneAxis | include/itkBoundingBoxImageLabelMapFilter.hxx:59-70 | one turn of the loop (PadByRadius or ShrinkByRadius on one axis) gives the padded axis |
| BoundingBoxImageFilter.RegionOfInterest | include/itkBoundingBoxImageLabelMapFilter.hxx:84-90 | the copy covers exactly the region of interest and has the source's pixel at every index in it |
| BoundingBoxImageFilter.PaddingReadsUninitialised | include/itkBoundingBoxImageLabelMapFilter.hxx:59-69 | see Findings |
| BoundingBoxImageFilter.BoundingBoxImageLabelMapFilter.constructor | include/itkBoundingBoxImageLabelMapFilter.hxx:29-32 | "FeatureImage" is a required input; the padding offset is left unspecified |
| BoundingBoxImageFilter.BoundingBoxImageLabelMapFilter.SetFeatureImage | include/itkBoundingBoxImageLabelMapFilter.h:69 | the feature image is stored |
| BoundingBoxImageFilter.BoundingBoxImageLabelMapFilter.SetPaddingOffset | include/itkBoundingBoxImageLabelMapFilter.h:76 | sets the vector; modified only on change |
| BoundingBoxImageFilter.BoundingBoxImageLabelMapFilter.SetPaddingOffsetAll | include/itkBoundingBoxImageLabelMapFilter.hxx:38-43 | every axis gets the same pad |
| BoundingBoxImageFilter.BoundingBoxImageLabelMapFilter.PadBox | include/itkBoundingBoxImageLabelMapFilter.hxx:55-71 | the per-axis loop on a local copy of the bounding box computes the padded box |
| BoundingBoxImageFilter.BoundingBoxImageLabelMapFilter.ThreadedProcessLabelObject | include/itkBoundingBoxImageLabelMapFilter.hxx:49-94 | if the padded box misses the buffered region: an error carrying the label and its bounding box, and the object is unchanged. Otherwise the new attribute image covers exactly the cropped box, has the feature pixels there and the feature geometry. The label's own bounding box is never written |
| OrientedBoundingBoxImageFilter.RoundNearest | include/itkOrientedBoundingBoxImageLabelMapFilter.hxx:81 | the rounding is within one half of its argument |
| OrientedBoundingBoxImageFilter.OutSizeAtLeastOne | include/itkOrientedBoundingBoxImageLabelMapFilter.hxx:73-83 | for size >= 0 and spacing > 0 every axis has at least one sample |
| OrientedBoundingBoxImageFilter.OutSizeSpansBox | include/itkOrientedBoundingBoxImageLabelMapFilter.hxx:79-82 | outside the degenerate case, (n-1) x spacing is within half a spacing of size + 2 x pad |
| OrientedBoundingBoxImageFilter.OutputSize | include/itkOrientedBoundingBoxImageLabelMapFilter.hxx:72-83 | one sample count per axis, each at least 1 |
| OrientedBoundingBoxImageFilter.OutputOrigin | include/itkOrientedBoundingBoxImageLabelMapFilter.hxx:86 | the output origin has dimension D; where it lies is proved in OutputOriginShift |
| OrientedBoundingBoxImageFilter.OutputOriginShift | include/itkOrientedBoundingBoxImageLabelMapFilter.hxx:65-66 | with the box direction the transpose of a rotation r, r maps (box origin - output origin) back to the padding vector: the grid starts pad before the box on every box axis |
| OrientedBoundingBoxImageFilter.OrientedBoundingBoxImageLabelMapFilter.constructor | include/itkOrientedBoundingBoxImageLabelMapFilter.hxx:30-40 | "FeatureImage" required, pad -0.5 and spacing 1.0 on every axis, a linear interpolator, default pixel value 0 |
| OrientedBoundingBoxImageFilter.OrientedBoundingBoxImageLabelMapFilter.SetFeatureImage | include/itkOrientedBoundingBoxImageLabelMapFilter.h:64 | the feature image is stored |
| OrientedBoundingBoxImageFilter.OrientedBoundingBoxImageLabelMapFilter.SetPaddingOffset | test/itkOrientedBoundingBoxImageLabelMapFilterTest1.cxx:57-62 | sets the vector; modified only on change |
| OrientedBoundingBoxImageFilter.OrientedBoundingBoxImageLabelMapFilter.SetPaddingOffsetAll | include/itkOrientedBoundingBoxImageLabelMapFilter.hxx:46-51 | every axis gets the same pad |
| OrientedBoundingBoxImageFilter.OrientedBoundingBoxImageLabelMapFilter.SetAttributeImageSpacing | test/itkOrientedBoundingBoxImageLabelMapFilterTest1.cxx:64-68 | sets the output spacing; modified only on change |
| OrientedBoundingBoxImageFilter.OrientedBoundingBoxImageLabelMapFilter.SetInterpolator | test/itkOrientedBoundingBoxImageLabelMapFilterTest1.cxx:70-73 | sets the interpolator; modified only on change |
| OrientedBoundingBoxImageFilter.OrientedBoundingBoxImageLabelMapFilter.SetDefaultPixelValue | test/itkOrientedBoundingBoxImageLabelMapFilterTest1.cxx:75-78 | sets the default value; modified only on change |
| OrientedBoundingBoxImageFilter.OrientedBoundingBoxImageLabelMapFilter.ComputeOutputSize | include/itkOrientedBoundingBoxImageLabelMapFilter.hxx:72-83 | the per-axis loop gives 1 when pad < 0 and size <= -2 x pad, and otherwise Round((size + 2 x pad)/spacing) + 1 |
| OrientedBoundingBoxImageFilter.OrientedBoundingBoxImageLabelMapFilter.ThreadedProcessLabelObject | include/itkOrientedBoundingBoxImageLabelMapFilter.hxx:56-97 | first the oriented box is stored as the parent filter computes it. Then a new attribute image is attached: the resampler's output on direction = box direction, origin = box origin - direction x pad, spacing = the configured spacing, size = the output size. Neither the interpolator nor the default value is passed |

## Left out

- **Texture features.** The reduction of the histogram to the eight features,
  done by the statistics library in floating point with logarithms, is a
  parameter of the GLCM filter's `ThreadedProcessLabelObject`. It is given
  the histogram, Min, Max and the bin count. Only the storing of the eight
  results is modelled.
- **Histogram bins.** The mapping from values to histogram bins is not
  modelled: the histogram counts value pairs. Normalisation is stored and set
  but never applied by the source, so it has no effect in the model either.
- **Resampling and region-of-interest extraction.** The resampling filter and
  the interpolators are a parameter of the image filter. The region-of-interest
  filter is modelled as a plain copy of a sub-grid.
- **Image geometry.** Index-to-physical conversion and the local-to-physical
  vector conversion are parameters. The centroid and principal axes are
  inputs: they come from the parent shape filter's processing, which is not
  part of this model. The same holds for the label object's bounding box and
  label.
- **Pipeline and threading.** Per-object threading, `SetNumberOfThreads(1)`,
  `Graft` shallow copies, `Update`, `PrintSelf` and the `Modified` bookkeeping
  of the pipeline's inputs are left out. Setter modifications are modelled as a
  counter, `modifiedTime`.
- **LabelShapeStatisticsImageFilter and the test drivers.** These are left
  out. They wrap a pipeline or do file I/O.
- **Floating point.** Coordinates are `real`. IEEE rounding and the
  conversion of a non-finite value to a size are not modelled.
- **Pixel type of the calculator.** The calculator's pixel type is the feature
  image's, and Min and Max are of the label map's pixel type. Both are
  modelled as `int`; the conversion between them is not modelled.
- **Reads off the image.** The pixel accessor answers 0 off the image. The
  model proves such reads never happen on the corrected domain.
- **The two histogram increments.** They are modelled as one multiset
  addition of the two pairs.
- **Persistent state across runs.** The GLCM window radius is never reset
  between runs, and automatically computed Min/Max stay in place for the
  next run. The model keeps both persistent, as the source does.
- **BoundingBoxImageFilter.BoundingBoxImageLabelMapFilter.constructor:**
  promises nothing about the padding offset, because the source never
  initialises it.
- **Placement of the cropped image.** The copied image keeps the box's own
  indices and the feature image's geometry. The library's region-of-interest
  filter re-indexes the region from zero and moves the origin; that is
  physically the same placement, and it is not modelled.
- **OrientedBoundingBoxImageFilter.OrientedBoundingBoxImageLabelMapFilter.ThreadedProcessLabelObject:**
  requires a positive output spacing. The source divides by it, and its
  conversion of a negative or infinite quotient to a size is undefined.
- **Setters missing from the header.** The `.h` of the oriented image filter
  declares none of the setters and members for padding, spacing,
  interpolator and default value. The model follows the `.hxx` and the test
  that uses them.
- **Vertices field missing from the header.** The oriented label object's
  header declares no vertices field or setter. The model gives it one,
  because the filter writes it (include/itkOrientedBoundingBoxLabelMapFilter.hxx:149).

## Findings

| source | as written | input that shows it | evidently intended | confidence | as-written member | corrected member |
|---|---|---|---|---|---|---|
| include/itkGLCMLabelMapFilter.hxx:169-183 | the length is unsigned. When a line ends left of the domain's first column, `length -= first - idx0` wraps around, and the line is kept because only its new start is tested | domain Region([2,1],[1,3]); line at [0,2] of length 1. The start becomes [2,2] with length 2^64-1, and the run leaves the domain | skip lines with nothing left inside the domain | not executed | GLCMCooccurrence.TrimLineAsWritten, GLCMCooccurrence.TrimLineUnderflow | GLCMCooccurrence.TrimLine, GLCMCooccurrence.TrimLineExact |
| include/itkGLCMLabelMapFilter.hxx:149-158 | the result of `ShrinkByRadius` is ignored. On an image smaller than twice the radius, the unshrunk region is scanned with boundary checks off | 1x1 image, radius 1, offset (1,0): the read at [1,0] is outside the image | no reads (or an error) when the domain is empty | not executed | GLCMCooccurrence.VisitsAsWritten, GLCMCooccurrence.ShrinkFailureReadsOutside | GLCMCooccurrence.Visits, GLCMCooccurrence.VisitsInside |
| include/itkOrientedBoundingBoxLabelMapFilter.hxx:117-146 | min and max are mapped back to physical space first, and the vertices then mix their physical components | the 3-4-5 rotation, box [0,5]x[0,5], centroid 0. As-written vertex 1 is (0,-1), which projects to (0.8,-0.6), not a box corner | map each box corner back: vertex k = R^T x corner k + centroid | not executed | OrientedBoundingBoxFilter.VerticesAsWritten, OrientedBoundingBoxFilter.VerticesAsWrittenOffBox | OrientedBoundingBoxFilter.Vertices, OrientedBoundingBoxFilter.VerticesAreBoxCorners |
| include/itkBoundingBoxImageLabelMapFilter.hxx:59-69 | the radius `SizeType o;` is uninitialised except for component i, and `bbOK` starts true and is or-ed, so the assert can never fire | pad 1 with leftover components [0,3]: PadByRadius also grows axis 1 by 3. Pad -1 with radius [1,3] on a 5x5 box: the shrink fails silently | a radius with 0 off axis i, and a failed shrink caught | not executed | BoundingBoxImageFilter.PadAxisAsWritten, BoundingBoxImageFilter.PaddingReadsUninitialised | BoundingBoxImageFilter.PadAxis, BoundingBoxImageFilter.PadOneAxis |
| include/itkOrientedBoundingBoxLabelMapFilter.hxx:93-102 | the bounds are widened by the projection of the single vector +half-spacing. Under a rotation that projection can be small or negative on an axis | 3-4-5 rotation, one point, spacing (1,1): the bounds become [0.1,-0.1] on axis 0, yet the voxel corner (0.5,-0.5) projects to 0.7 | widen by the extreme projections of all 2^D half-voxel corners, so that the box holds every voxel | not executed | OrientedBoundingBoxFilter.WidenAsWritten, OrientedBoundingBoxFilter.WidenAsWrittenMissesCorner | OrientedBoundingBoxFilter.BoxLower, OrientedBoundingBoxFilter.BoxHoldsVoxelCorners |
| include/itkOrientedBoundingBoxLabelMapFilter.hxx:149-151 | the box origin is never written, yet the image filter resamples from it (include/itkOrientedBoundingBoxImageLabelMapFilter.hxx:86) | identity frame, centroid (5,5), lower bound (0,0), origin still (0,0): the origin is (-5,-5) from the centroid instead of at the lower bound | origin = R^T x min + centroid, the min corner of the box whose size and vertices are stored. The prototype in test/OBB.cxx:115, 133-138 maps the lower bound back the same way, but takes it before the half-voxel widening; the model uses the widened bound, which the image filter's default padding of -0.5 moves half a unit inwards, onto the first voxel centre for unit spacing | not executed | OrientedBoundingBoxFilter.OriginAsWritten, OrientedBoundingBoxFilter.OriginAsWrittenOffBox | OrientedBoundingBoxFilter.BoxOrigin, OrientedBoundingBoxFilter.BoxOriginIsMinCorner |

The corrected definitions are the ones the filters use:

- `TrimLine` and `Visits` in the accumulation;
- `BoxLower`, `BoxUpper`, `Vertices` and `BoxOrigin` in the oriented box;
- `PadAxis` in the padding loop.
