/**
 * What every label object of the label map carries: its run-length lines and
 * the attributes its superclasses (LabelObject, ShapeLabelObject) keep.
 */
module LabelObjects {
  import opened Regions
  import opened LinearAlgebra

  /** A run of `length` pixels starting at `index` and going along axis 0. */
  datatype Line = Line(index: Index, length: nat)

  /**
   * The attributes a label object inherits: its label and the shape
   * attributes the filters read (centroid, principal axes, bounding box).
   * Superclass::CopyAttributesFrom is modelled as copying this value whole.
   */
  datatype Inherited = Inherited(labelValue: int, centroid: Vec, principalAxes: Matrix, boundingBox: Region)

  /**
   * The argument of CopyAttributesFrom after its dynamic_cast: an object of
   * the receiving class, or a label object of some other class, of which
   * only the inherited attributes are visible.
   */
  datatype Source<T> = SameType(obj: T) | OtherType(attributes: Inherited)
}
