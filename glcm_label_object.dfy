/** GLCMLabelObject: a label object that stores eight Haralick texture features. */
module GLCMLabelObjects {
  import opened LabelObjects

  /** The eight texture features, in the order the object declares them. */
  datatype Texture = Texture(
    energy: real, entropy: real, correlation: real, inverseDifferenceMoment: real,
    inertia: real, clusterShade: real, clusterProminence: real, haralickCorrelation: real)

  const ZeroTexture := Texture(0.0, 0.0, 0.0, 0.0, 0.0, 0.0, 0.0, 0.0)

  class GLCMLabelObject {
    var inherited: Inherited
    var lines: seq<Line>
    var energy: real
    var entropy: real
    var correlation: real
    var inverseDifferenceMoment: real
    var inertia: real
    var clusterShade: real
    var clusterProminence: real
    var haralickCorrelation: real

    /** All eight features at once. */
    function Features(): Texture
      reads this
    {
      Texture(energy, entropy, correlation, inverseDifferenceMoment,
              inertia, clusterShade, clusterProminence, haralickCorrelation)
    }

    /** A new object: every feature starts at zero. */
    constructor (inherited: Inherited, lines: seq<Line>)
      ensures this.inherited == inherited && this.lines == lines
      ensures Features() == ZeroTexture
    {
      this.inherited := inherited;
      this.lines := lines;
      energy, entropy, correlation, inverseDifferenceMoment := 0.0, 0.0, 0.0, 0.0;
      inertia, clusterShade, clusterProminence, haralickCorrelation := 0.0, 0.0, 0.0, 0.0;
    }

    method SetEnergy(v: real)
      modifies this`energy
      ensures Features() == old(Features()).(energy := v)
    {
      energy := v;
    }

    method SetEntropy(v: real)
      modifies this`entropy
      ensures Features() == old(Features()).(entropy := v)
    {
      entropy := v;
    }

    method SetCorrelation(v: real)
      modifies this`correlation
      ensures Features() == old(Features()).(correlation := v)
    {
      correlation := v;
    }

    method SetInverseDifferenceMoment(v: real)
      modifies this`inverseDifferenceMoment
      ensures Features() == old(Features()).(inverseDifferenceMoment := v)
    {
      inverseDifferenceMoment := v;
    }

    method SetInertia(v: real)
      modifies this`inertia
      ensures Features() == old(Features()).(inertia := v)
    {
      inertia := v;
    }

    method SetClusterShade(v: real)
      modifies this`clusterShade
      ensures Features() == old(Features()).(clusterShade := v)
    {
      clusterShade := v;
    }

    method SetClusterProminence(v: real)
      modifies this`clusterProminence
      ensures Features() == old(Features()).(clusterProminence := v)
    {
      clusterProminence := v;
    }

    method SetHaralickCorrelation(v: real)
      modifies this`haralickCorrelation
      ensures Features() == old(Features()).(haralickCorrelation := v)
    {
      haralickCorrelation := v;
    }

    /**
     * The superclass copies the inherited attributes first; the features are
     * then copied only from a different object of this class.
     */
    method CopyAttributesFrom(src: Source<GLCMLabelObject>)
      modifies this`inherited, this`energy, this`entropy, this`correlation, this`inverseDifferenceMoment,
               this`inertia, this`clusterShade, this`clusterProminence, this`haralickCorrelation
      ensures inherited == if src.SameType? then old(src.obj.inherited) else src.attributes
      ensures Features() == if src.SameType? && src.obj != this then old(src.obj.Features()) else old(Features())
    {
      inherited := if src.SameType? then src.obj.inherited else src.attributes;
      if src.OtherType? || src.obj == this {
        return;
      }
      var o := src.obj;
      energy, entropy, correlation, inverseDifferenceMoment := o.energy, o.entropy, o.correlation, o.inverseDifferenceMoment;
      inertia, clusterShade, clusterProminence, haralickCorrelation := o.inertia, o.clusterShade, o.clusterProminence, o.haralickCorrelation;
    }
  }
}
