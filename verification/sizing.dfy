/** Shipment sizing: the volumetric and chargeable weight of a shipment
    (class Shipment of TransportAndLogistics.java). */
module Sizing {

  /** The divisor turning a volume in cubic centimetres into kilograms. */
  const VolumetricDivisor: real := 5000.0

  /** A shipment as loaded from the shipment catalogue. `routeId` is a key into
      the route catalogue that need not resolve. */
  datatype Shipment = Shipment(
    shipmentId: string,
    actualWeightKg: real,
    lengthCm: real,
    widthCm: real,
    heightCm: real,
    routeId: string)

  /** The three physical dimensions, in the order length, width, height. */
  function Dimensions(s: Shipment): seq<real>
  {
    [s.lengthCm, s.widthCm, s.heightCm]
  }

  /** Volumetric weight: the weight a shipment of this volume is billed as. */
  function VolumetricWeight(s: Shipment): (r: real)
    ensures r * VolumetricDivisor == s.lengthCm * s.widthCm * s.heightCm
    ensures (s.lengthCm == 0.0 || s.widthCm == 0.0 || s.heightCm == 0.0) ==> r == 0.0
  {
    (s.lengthCm * s.widthCm * s.heightCm) / VolumetricDivisor
  }

  /** Chargeable weight: the billed weight, the larger of actual and
      volumetric weight. */
  function ChargeableWeight(s: Shipment): (r: real)
    ensures r >= s.actualWeightKg && r >= VolumetricWeight(s)
    ensures r == s.actualWeightKg || r == VolumetricWeight(s)
    ensures (s.lengthCm == 0.0 || s.widthCm == 0.0 || s.heightCm == 0.0) && s.actualWeightKg >= 0.0
            ==> r == s.actualWeightKg
  {
    var volumetric := VolumetricWeight(s);
    if s.actualWeightKg >= volumetric then s.actualWeightKg else volumetric
  }

  /** Chargeable weight is the least upper bound of the two weights: any
      bound on both actual and volumetric weight bounds it too. */
  lemma ChargeableWeightIsLeastBound(s: Shipment, bound: real)
    requires s.actualWeightKg <= bound && VolumetricWeight(s) <= bound
    ensures ChargeableWeight(s) <= bound
  {
  }
}
