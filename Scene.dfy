/** Engine-side values and objects that the reveal-light and flashlight code read
    and write: world vectors, linear colours, spot light components and the
    shader-facing parameter collection. Floating-point values are modelled as
    reals, so float rounding is not modelled. */
module Scene {

  datatype Option<T> = None | Some(value: T)

  /** A world-space vector (FVector). */
  datatype Vec3 = Vec3(x: real, y: real, z: real)

  const ZeroVector := Vec3(0.0, 0.0, 0.0)

  /** The engine's forward axis (+X). */
  const ForwardVector := Vec3(1.0, 0.0, 0.0)

  /** Squared Euclidean distance (FVector::DistSquared): no square root is taken,
      since only the order of distances matters to the callers. */
  function DistSquared(a: Vec3, b: Vec3): (d: real) {
    var dx, dy, dz := a.x - b.x, a.y - b.y, a.z - b.z;
    dx * dx + dy * dy + dz * dz
  }

  /** An RGBA colour (FLinearColor); shader vector parameters are stored as these. */
  datatype LinearColor = LinearColor(r: real, g: real, b: real, a: real)
  {
    /** The same colour with its alpha channel replaced. */
    function WithAlpha(alpha: real): (c: LinearColor) {
      LinearColor(r, g, b, alpha)
    }
  }

  /** FLinearColor(const FVector&): the components become RGB, alpha is 1. */
  function FromVector(v: Vec3): (c: LinearColor) {
    LinearColor(v.x, v.y, v.z, 1.0)
  }

  /** The live state of a spot light component that this code reads or sets. */
  class SpotLightComponent {
    var location: Vec3
    var forward: Vec3
    var outerConeAngle: real      // degrees
    var attenuationRadius: real
    var visible: bool

    constructor (location: Vec3, forward: Vec3, outerConeAngle: real, attenuationRadius: real)
      ensures this.location == location && this.forward == forward
      ensures this.outerConeAngle == outerConeAngle && this.attenuationRadius == attenuationRadius
      ensures visible
    {
      this.location := location;
      this.forward := forward;
      this.outerConeAngle := outerConeAngle;
      this.attenuationRadius := attenuationRadius;
      visible := true;
    }

    /** SetVisibility: changes the visibility flag and nothing else. */
    method SetVisibility(newVisibility: bool)
      modifies this`visible
      ensures visible == newVisibility
    {
      visible := newVisibility;
    }
  }

  /** The world's instance of a material parameter collection: named vector and
      scalar parameters read by shaders. The maps hold every parameter the
      collection declares, with its current value. */
  class ParameterCollection {
    var vectors: map<string, LinearColor>
    var scalars: map<string, real>

    constructor (vectors: map<string, LinearColor>, scalars: map<string, real>)
      ensures this.vectors == vectors && this.scalars == scalars
    {
      this.vectors := vectors;
      this.scalars := scalars;
    }

    /** GetVectorParameterValue: the out-argument keeps its prior value `out`
        when the collection holds no parameter of that name. */
    method GetVectorParameterValue(name: string, out: LinearColor) returns (value: LinearColor)
      ensures name in vectors ==> value == vectors[name]
      ensures name !in vectors ==> value == out
    {
      value := if name in vectors then vectors[name] else out;
    }

    /** UKismetMaterialLibrary::SetVectorParameterValue. */
    method SetVectorParameterValue(name: string, value: LinearColor)
      modifies this
      ensures vectors == old(vectors)[name := value]
      ensures scalars == old(scalars)
    {
      vectors := vectors[name := value];
    }

    /** UKismetMaterialLibrary::SetScalarParameterValue. */
    method SetScalarParameterValue(name: string, value: real)
      modifies this
      ensures scalars == old(scalars)[name := value]
      ensures vectors == old(vectors)
    {
      scalars := scalars[name := value];
    }
  }
}
