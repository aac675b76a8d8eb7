/**
 * OrientedBoundingBoxLabelObject: a shape label object that also stores an
 * oriented bounding box (origin, direction, size) and its corner vertices.
 */
module OrientedBoundingBoxLabelObjects {
  import opened LinearAlgebra
  import opened LabelObjects

  class OrientedBoundingBoxLabelObject {
    const dimension: nat
    var inherited: Inherited
    var lines: seq<Line>
    var obbOrigin: Vec
    var obbDirection: Matrix
    var obbSize: Vec
    /** Written by the oriented-bounding-box filter; the header does not declare its setter. */
    var obbVertices: seq<Vec>

    /**
     * A new object. The constructor leaves the box attributes uninitialised,
     * so nothing is promised about their values, only their shape.
     */
    constructor (dimension: nat, inherited: Inherited, lines: seq<Line>)
      ensures this.dimension == dimension && this.inherited == inherited && this.lines == lines
      ensures |obbOrigin| == dimension && IsMatrix(obbDirection, dimension, dimension) && |obbSize| == dimension
    {
      this.dimension := dimension;
      this.inherited := inherited;
      this.lines := lines;
      var zero := seq(dimension, _ => 0.0);
      assert |zero| == dimension;
      var origin: Vec :| |origin| == dimension;
      var size: Vec :| |size| == dimension;
      var direction: Matrix :| IsMatrix(direction, dimension, dimension) by {
        assert IsMatrix(seq(dimension, _ => zero), dimension, dimension);
      }
      obbOrigin, obbSize, obbDirection := origin, size, direction;
    }

    method SetOrientedBoundingBoxOrigin(o: Vec)
      modifies this`obbOrigin
      ensures obbOrigin == o
    {
      obbOrigin := o;
    }

    method SetOrientedBoundingBoxDirection(d: Matrix)
      modifies this`obbDirection
      ensures obbDirection == d
    {
      obbDirection := d;
    }

    method SetOrientedBoundingBoxSize(s: Vec)
      modifies this`obbSize
      ensures obbSize == s
    {
      obbSize := s;
    }

    method SetOrientedBoundingBoxVertices(v: seq<Vec>)
      modifies this`obbVertices
      ensures obbVertices == v
    {
      obbVertices := v;
    }

    /**
     * The superclass copies the inherited attributes; origin, direction and
     * size are then copied only from a different object of this class.
     */
    method CopyAttributesFrom(src: Source<OrientedBoundingBoxLabelObject>)
      modifies this`inherited, this`obbOrigin, this`obbDirection, this`obbSize
      ensures inherited == if src.SameType? then old(src.obj.inherited) else src.attributes
      ensures src.SameType? && src.obj != this ==>
        obbOrigin == old(src.obj.obbOrigin) && obbDirection == old(src.obj.obbDirection) && obbSize == old(src.obj.obbSize)
      ensures src.OtherType? || src.obj == this ==>
        obbOrigin == old(obbOrigin) && obbDirection == old(obbDirection) && obbSize == old(obbSize)
    {
      inherited := if src.SameType? then src.obj.inherited else src.attributes;
      if src.OtherType? || src.obj == this {
        return;
      }
      obbOrigin, obbDirection, obbSize := src.obj.obbOrigin, src.obj.obbDirection, src.obj.obbSize;
    }
  }
}
