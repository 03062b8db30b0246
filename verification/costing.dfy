/** The per-vehicle cost model: one vehicle tariff priced against one shipment
    over one distance (classes Vehicle and CostBreakdown of
    TransportAndLogistics.java). */
module Costing {
  import opened Sizing

  /** A vehicle type and its tariff. Percentages are fractions: 0.12 is 12%. */
  datatype Tariff = Tariff(
    name: string,
    capacityKg: real,
    ratePerKgPerKm: real,
    fuelSurchargePercent: real,
    handlingFeeFlat: real,
    oversizeThresholdCm: real,
    oversizeFee: real,
    minCharge: real)

  /** The priced result of one calculation. `total` is stored, as in the
      source, and is fixed when the breakdown is built. */
  datatype CostBreakdown = CostBreakdown(
    vehicleName: string,
    chargeableWeight: real,
    baseCost: real,
    fuelSurcharge: real,
    handlingFee: real,
    oversizeFee: real,
    total: real)

  /** Either a breakdown or the one failure the cost model defines: the
      shipment is too heavy for the vehicle. */
  datatype CostResult =
    | Priced(breakdown: CostBreakdown)
    | CapacityExceeded(vehicle: string, requiredKg: real, capacityKg: real)

  /** The invariant every breakdown keeps: its total is the sum of its four
      cost components. */
  predicate TotalIsSum(b: CostBreakdown)
  {
    b.total == b.baseCost + b.fuelSurcharge + b.handlingFee + b.oversizeFee
  }

  /** Builds a breakdown from its components, fixing the total. */
  function NewBreakdown(vehicleName: string, chargeableWeight: real, baseCost: real,
                        fuelSurcharge: real, handlingFee: real, oversizeFee: real): (b: CostBreakdown)
    ensures TotalIsSum(b)
    ensures b.vehicleName == vehicleName && b.chargeableWeight == chargeableWeight
    ensures b.baseCost == baseCost && b.fuelSurcharge == fuelSurcharge
    ensures b.handlingFee == handlingFee && b.oversizeFee == oversizeFee
  {
    CostBreakdown(vehicleName, chargeableWeight, baseCost, fuelSurcharge, handlingFee, oversizeFee,
                  baseCost + fuelSurcharge + handlingFee + oversizeFee)
  }

  /** Some dimension of the shipment lies strictly above the threshold. */
  predicate AnyDimensionOver(s: Shipment, thresholdCm: real)
  {
    exists i :: 0 <= i < |Dimensions(s)| && Dimensions(s)[i] > thresholdCm
  }

  /** The source's test for oversize, one comparison per dimension, holds
      exactly when some dimension exceeds the threshold. */
  lemma OversizeTestMatches(s: Shipment, thresholdCm: real)
    ensures AnyDimensionOver(s, thresholdCm)
            <==> (s.lengthCm > thresholdCm || s.widthCm > thresholdCm || s.heightCm > thresholdCm)
  {
    var d := Dimensions(s);
    if s.lengthCm > thresholdCm {
      assert d[0] > thresholdCm;
    } else if s.widthCm > thresholdCm {
      assert d[1] > thresholdCm;
    } else if s.heightCm > thresholdCm {
      assert d[2] > thresholdCm;
    }
  }

  /** The base cost before any minimum-charge correction. */
  function RawBase(t: Tariff, s: Shipment, distanceKm: real): real
  {
    t.ratePerKgPerKm * ChargeableWeight(s) * distanceKm
  }

  /** The oversize charge the tariff levies on the shipment: the fee once, or
      nothing. */
  function OversizeCharge(t: Tariff, s: Shipment): real
  {
    if AnyDimensionOver(s, t.oversizeThresholdCm) then t.oversizeFee else 0.0
  }

  /** The subtotal the minimum charge is compared with: raw base, its fuel
      surcharge, the handling fee and the oversize charge. */
  function PreliminarySubtotal(t: Tariff, s: Shipment, distanceKm: real): real
  {
    RawBase(t, s, distanceKm) + RawBase(t, s, distanceKm) * t.fuelSurchargePercent
      + t.handlingFeeFlat + OversizeCharge(t, s)
  }

  /** How far the preliminary subtotal falls short of the minimum charge;
      zero when it does not. */
  function Shortfall(t: Tariff, s: Shipment, distanceKm: real): (r: real)
    ensures r >= 0.0
    ensures r > 0.0 <==> PreliminarySubtotal(t, s, distanceKm) < t.minCharge
    ensures r > 0.0 ==> PreliminarySubtotal(t, s, distanceKm) + r == t.minCharge
  {
    var subtotal := PreliminarySubtotal(t, s, distanceKm);
    if subtotal < t.minCharge then t.minCharge - subtotal else 0.0
  }

  /** Prices a shipment on a vehicle over a distance, step by step as the
      source does: capacity check, base and fuel, handling and oversize,
      minimum-charge correction folded into the base, then fuel recomputed
      from the final base. */
  function CalculateCost(t: Tariff, s: Shipment, distanceKm: real): (r: CostResult)
    ensures r.CapacityExceeded? <==> ChargeableWeight(s) > t.capacityKg
    ensures r.CapacityExceeded? ==>
              r.vehicle == t.name && r.requiredKg == ChargeableWeight(s) && r.capacityKg == t.capacityKg
    ensures r.Priced? ==>
              && TotalIsSum(r.breakdown)
              && r.breakdown.vehicleName == t.name
              && r.breakdown.chargeableWeight == ChargeableWeight(s) <= t.capacityKg
              && r.breakdown.handlingFee == t.handlingFeeFlat
              && r.breakdown.oversizeFee == (if AnyDimensionOver(s, t.oversizeThresholdCm) then t.oversizeFee else 0.0)
              && r.breakdown.fuelSurcharge == r.breakdown.baseCost * t.fuelSurchargePercent
              && r.breakdown.baseCost == RawBase(t, s, distanceKm) + Shortfall(t, s, distanceKm)
  {
    var chw := ChargeableWeight(s);
    if chw > t.capacityKg then
      CapacityExceeded(t.name, chw, t.capacityKg)
    else
      var base := t.ratePerKgPerKm * chw * distanceKm;
      var fuel := base * t.fuelSurchargePercent;
      var handling := t.handlingFeeFlat;
      var oversize := s.lengthCm > t.oversizeThresholdCm
                      || s.widthCm > t.oversizeThresholdCm
                      || s.heightCm > t.oversizeThresholdCm;
      var oversizeCharge := if oversize then t.oversizeFee else 0.0;
      OversizeTestMatches(s, t.oversizeThresholdCm);
      var subtotal := base + fuel + handling + oversizeCharge;
      var finalBase := if subtotal < t.minCharge then base + (t.minCharge - subtotal) else base;
      var finalFuel := finalBase * t.fuelSurchargePercent;
      Priced(NewBreakdown(t.name, chw, finalBase, finalFuel, handling, oversizeCharge))
  }

  /** With no correction the breakdown is the uncorrected one: the raw base,
      and a total equal to the preliminary subtotal. */
  lemma NoCorrectionKeepsRawCost(t: Tariff, s: Shipment, distanceKm: real)
    requires CalculateCost(t, s, distanceKm).Priced?
    requires PreliminarySubtotal(t, s, distanceKm) >= t.minCharge
    ensures CalculateCost(t, s, distanceKm).breakdown.baseCost == RawBase(t, s, distanceKm)
    ensures CalculateCost(t, s, distanceKm).breakdown.total == PreliminarySubtotal(t, s, distanceKm)
  {
  }

  /** When the correction fires the total is the minimum charge plus the fuel
      surcharge on the shortfall. With a positive fuel fraction it overshoots
      the minimum charge; with a zero fraction it lands exactly on it. */
  lemma CorrectionOvershoot(t: Tariff, s: Shipment, distanceKm: real)
    requires CalculateCost(t, s, distanceKm).Priced?
    requires PreliminarySubtotal(t, s, distanceKm) < t.minCharge
    ensures CalculateCost(t, s, distanceKm).breakdown.total
            == t.minCharge + Shortfall(t, s, distanceKm) * t.fuelSurchargePercent
    ensures t.fuelSurchargePercent > 0.0 ==> CalculateCost(t, s, distanceKm).breakdown.total > t.minCharge
    ensures t.fuelSurchargePercent == 0.0 ==> CalculateCost(t, s, distanceKm).breakdown.total == t.minCharge
  {
    var raw, gap, pct := RawBase(t, s, distanceKm), Shortfall(t, s, distanceKm), t.fuelSurchargePercent;
    assert (raw + gap) * pct == raw * pct + gap * pct;
    assert gap > 0.0;
    if pct > 0.0 {
      assert gap * pct > 0.0;
    }
  }

  /** With a non-negative fuel fraction the minimum charge is a floor on the
      total of every priced breakdown. */
  lemma MinimumChargeFloor(t: Tariff, s: Shipment, distanceKm: real)
    requires CalculateCost(t, s, distanceKm).Priced?
    requires t.fuelSurchargePercent >= 0.0
    ensures CalculateCost(t, s, distanceKm).breakdown.total >= t.minCharge
  {
    if PreliminarySubtotal(t, s, distanceKm) < t.minCharge {
      CorrectionOvershoot(t, s, distanceKm);
      assert Shortfall(t, s, distanceKm) * t.fuelSurchargePercent >= 0.0;
    } else {
      NoCorrectionKeepsRawCost(t, s, distanceKm);
    }
  }

  /** Whether a vehicle can carry a shipment depends only on its capacity and
      the shipment, never on distance or on the other tariff parameters. */
  lemma FeasibilityIgnoresPricing(t: Tariff, u: Tariff, s: Shipment, d1: real, d2: real)
    requires t.capacityKg <= u.capacityKg
    requires CalculateCost(t, s, d1).Priced?
    ensures CalculateCost(u, s, d2).Priced?
  {
  }
}
