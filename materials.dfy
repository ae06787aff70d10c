/**
 * src/primitives/Material.java: the shading coefficients of a geometry, in
 * public fields that the setters overwrite.
 */
module Materials {

  class Material {
    /** Diffuse attenuation. */
    var kD: real
    /** Specular attenuation. */
    var kS: real
    /** Shininess exponent. */
    var nShininess: int
    /** Reflection and transparency coefficients. The tracer reads them, but
      * the Material class they belong to does not declare them, so no
      * constructor or setter here gives them a value. */
    var kR: real
    var kT: real

    /** Material(kd, ks, shininess): stores its three arguments unchanged. */
    constructor (kd: real, ks: real, shininess: int)
      ensures kD == kd && kS == ks && nShininess == shininess
    {
      kD := kd;
      kS := ks;
      nShininess := shininess;
    }

    /** Material(): all three coefficients zero. */
    constructor Default()
      ensures kD == 0.0 && kS == 0.0 && nShininess == 0
    {
      kD := 0.0;
      kS := 0.0;
      nShininess := 0;
    }

    /** setKD takes an int, so only whole coefficients can be set this way;
      * only kD changes, and the same object is returned. */
    method SetKD(kd: int) returns (self: Material)
      modifies this
      ensures self == this
      ensures kD == kd as real
      ensures kS == old(kS) && nShininess == old(nShininess) && kR == old(kR) && kT == old(kT)
    {
      kD := kd as real;
      self := this;
    }

    /** setKS takes an int; only kS changes. */
    method SetKS(ks: int) returns (self: Material)
      modifies this
      ensures self == this
      ensures kS == ks as real
      ensures kD == old(kD) && nShininess == old(nShininess) && kR == old(kR) && kT == old(kT)
    {
      kS := ks as real;
      self := this;
    }

    /** setShininess: only nShininess changes. */
    method SetShininess(shininess: int) returns (self: Material)
      modifies this
      ensures self == this
      ensures nShininess == shininess
      ensures kD == old(kD) && kS == old(kS) && kR == old(kR) && kT == old(kT)
    {
      nShininess := shininess;
      self := this;
    }
  }
}
