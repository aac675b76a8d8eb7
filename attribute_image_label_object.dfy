/**
 * AttributeImageLabelObject: a shape label object that holds a reference to
 * an image (the attribute image) extracted for its region.
 */
module AttributeImageLabelObjects {
  import opened Regions
  import opened LinearAlgebra
  import opened LabelObjects

  /** Physical placement of an image's index grid. */
  datatype Geometry = Geometry(origin: Vec, spacing: Vec, direction: Matrix)

  /** An input image as a filter reads it: its pixels and their physical placement. */
  datatype Image = Image(grid: Grid<int>, geometry: Geometry)

  /** An image object, shared by reference between label objects. */
  class AttributeImage {
    var grid: Grid<int>
    var geometry: Geometry

    constructor (grid: Grid<int>, geometry: Geometry)
      ensures this.grid == grid && this.geometry == geometry
    {
      this.grid := grid;
      this.geometry := geometry;
    }
  }

  class AttributeImageLabelObject {
    var inherited: Inherited
    var lines: seq<Line>
    var attributeImage: AttributeImage?

    /** A new object has no attribute image (a null smart pointer). */
    constructor (inherited: Inherited, lines: seq<Line>)
      ensures this.inherited == inherited && this.lines == lines
      ensures attributeImage == null
    {
      this.inherited := inherited;
      this.lines := lines;
      attributeImage := null;
    }

    method SetAttributeImage(i: AttributeImage?)
      modifies this`attributeImage
      ensures attributeImage == i
    {
      attributeImage := i;
    }

    /**
     * The superclass copies the inherited attributes; the image reference is
     * then shared with a different object of this class (not deep-copied).
     */
    method CopyAttributesFrom(src: Source<AttributeImageLabelObject>)
      modifies this`inherited, this`attributeImage
      ensures inherited == if src.SameType? then old(src.obj.inherited) else src.attributes
      ensures attributeImage == if src.SameType? then old(src.obj.attributeImage) else old(attributeImage)
    {
      inherited := if src.SameType? then src.obj.inherited else src.attributes;
      if src.OtherType? || src.obj == this {
        return;
      }
      attributeImage := src.obj.attributeImage;
    }
  }
}
