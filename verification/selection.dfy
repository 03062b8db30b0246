/** Best-option selection over a fleet: price a shipment on every vehicle,
    skip the ones that cannot carry it, and keep the cheapest, the first one
    winning a tie (the fleet scan inside `main` of TransportAndLogistics.java). */
module Selection {
  import opened Wrappers
  import opened Sizing
  import opened Costing

  /** The result of pricing the shipment on each vehicle, in fleet order. */
  function PriceFleet(fleet: seq<Tariff>, s: Shipment, distanceKm: real): (quotes: seq<CostResult>)
    ensures |quotes| == |fleet|
    ensures forall j :: 0 <= j < |fleet| ==> quotes[j] == CalculateCost(fleet[j], s, distanceKm)
  {
    seq(|fleet|, j requires 0 <= j < |fleet| => CalculateCost(fleet[j], s, distanceKm))
  }

  /** Quote `k` is priced, no priced quote is cheaper, and every priced quote
      before it is strictly dearer. */
  predicate IsEarliestCheapest(quotes: seq<CostResult>, k: int)
  {
    && 0 <= k < |quotes|
    && quotes[k].Priced?
    && (forall j :: 0 <= j < |quotes| && quotes[j].Priced? ==>
          quotes[k].breakdown.total <= quotes[j].breakdown.total)
    && (forall j :: 0 <= j < k && quotes[j].Priced? ==>
          quotes[k].breakdown.total < quotes[j].breakdown.total)
  }

  /** The position of the quote the scan keeps. The quotes are consumed in
      order, as the source's loop does: the last one replaces the best of the
      ones before it only when it is priced and strictly cheaper. */
  function BestIndex(quotes: seq<CostResult>): (r: Option<nat>)
    ensures r.None? <==> forall j :: 0 <= j < |quotes| ==> quotes[j].CapacityExceeded?
    ensures r.Some? ==> IsEarliestCheapest(quotes, r.value)
    decreases |quotes|
  {
    if |quotes| == 0 then None
    else
      var earlier := quotes[..|quotes| - 1];
      var last := |quotes| - 1;
      var prev := BestIndex(earlier);
      assert forall j :: 0 <= j < last ==> earlier[j] == quotes[j];
      if quotes[last].CapacityExceeded? then prev
      else if prev.None? || quotes[last].breakdown.total < quotes[prev.value].breakdown.total then Some(last)
      else prev
  }

  /** There is only one earliest cheapest quote, so the scan's choice is
      pinned down by the property alone. */
  lemma EarliestCheapestIsUnique(quotes: seq<CostResult>, k: int)
    requires IsEarliestCheapest(quotes, k)
    ensures BestIndex(quotes) == Some(k)
  {
    assert BestIndex(quotes).Some?;
  }

  /** The breakdown the scan keeps, or None when every quote failed. The
      kept breakdown is one of the quotes, no priced quote is cheaper, and
      it is the earliest of several equally cheap quotes. */
  function Cheapest(quotes: seq<CostResult>): (r: Option<CostBreakdown>)
    ensures r.None? <==> forall j :: 0 <= j < |quotes| ==> quotes[j].CapacityExceeded?
    ensures r.Some? ==> Priced(r.value) in quotes
    ensures r.Some? ==>
              forall j :: 0 <= j < |quotes| && quotes[j].Priced? ==> r.value.total <= quotes[j].breakdown.total
    ensures r.Some? ==> exists k :: IsEarliestCheapest(quotes, k) && quotes[k] == Priced(r.value)
  {
    match BestIndex(quotes)
    case None => None
    case Some(k) => Some(quotes[k].breakdown)
  }

  /** The breakdown reported for a shipment over the fleet, or None for "no
      suitable vehicle". */
  function SelectBest(fleet: seq<Tariff>, s: Shipment, distanceKm: real): Option<CostBreakdown>
  {
    Cheapest(PriceFleet(fleet, s, distanceKm))
  }

  /** "No suitable vehicle" is reported exactly when every vehicle's capacity
      is below the shipment's chargeable weight. */
  lemma NoSuitableVehicleIffAllTooSmall(fleet: seq<Tariff>, s: Shipment, distanceKm: real)
    ensures SelectBest(fleet, s, distanceKm).None? <==>
              forall j :: 0 <= j < |fleet| ==> ChargeableWeight(s) > fleet[j].capacityKg
  {
    var quotes := PriceFleet(fleet, s, distanceKm);
    assert forall j :: 0 <= j < |fleet| ==>
             (quotes[j].CapacityExceeded? <==> ChargeableWeight(s) > fleet[j].capacityKg);
  }

  /** A reported breakdown is the price of vehicle `k`, which can carry the
      shipment; no vehicle that can carry it is cheaper, and every earlier
      one that can is strictly dearer. */
  lemma SelectedIsEarliestCheapestVehicle(fleet: seq<Tariff>, s: Shipment, distanceKm: real, b: CostBreakdown)
    returns (k: nat)
    requires SelectBest(fleet, s, distanceKm) == Some(b)
    ensures k < |fleet| && CalculateCost(fleet[k], s, distanceKm) == Priced(b)
    ensures forall j :: 0 <= j < |fleet| && CalculateCost(fleet[j], s, distanceKm).Priced? ==>
              b.total <= CalculateCost(fleet[j], s, distanceKm).breakdown.total
    ensures forall j :: 0 <= j < k && CalculateCost(fleet[j], s, distanceKm).Priced? ==>
              b.total < CalculateCost(fleet[j], s, distanceKm).breakdown.total
  {
    var quotes := PriceFleet(fleet, s, distanceKm);
    k := BestIndex(quotes).value;
    assert IsEarliestCheapest(quotes, k) && quotes[k] == Priced(b);
    forall j | 0 <= j < |fleet| && CalculateCost(fleet[j], s, distanceKm).Priced?
      ensures b.total <= CalculateCost(fleet[j], s, distanceKm).breakdown.total
    {
      assert quotes[j] == CalculateCost(fleet[j], s, distanceKm);
    }
    forall j | 0 <= j < k && CalculateCost(fleet[j], s, distanceKm).Priced?
      ensures b.total < CalculateCost(fleet[j], s, distanceKm).breakdown.total
    {
      assert quotes[j] == CalculateCost(fleet[j], s, distanceKm);
    }
  }

  /** One step of the scan: the running best after also trying vehicle `v`. */
  function ScanStep(best: Option<CostBreakdown>, v: Tariff, s: Shipment, distanceKm: real): Option<CostBreakdown>
  {
    var c := CalculateCost(v, s, distanceKm);
    if c.Priced? && (best.None? || c.breakdown.total < best.value.total) then Some(c.breakdown)
    else best
  }

  /** The scan as a left fold of `ScanStep` over the fleet, in fleet order. */
  function Scan(fleet: seq<Tariff>, s: Shipment, distanceKm: real): Option<CostBreakdown>
    decreases |fleet|
  {
    if |fleet| == 0 then None
    else ScanStep(Scan(fleet[..|fleet| - 1], s, distanceKm), fleet[|fleet| - 1], s, distanceKm)
  }

  /** Appending one quote moves the cheapest breakdown by exactly one scan
      step: the new quote wins only when it is priced and strictly cheaper. */
  lemma CheapestExtend(quotes: seq<CostResult>)
    requires |quotes| > 0
    ensures var last := quotes[|quotes| - 1];
            var prev := Cheapest(quotes[..|quotes| - 1]);
            Cheapest(quotes)
            == if last.Priced? && (prev.None? || last.breakdown.total < prev.value.total) then Some(last.breakdown)
               else prev
  {
    var earlier := quotes[..|quotes| - 1];
    var prev := BestIndex(earlier);
    if prev.Some? {
      assert earlier[prev.value] == quotes[prev.value];
    }
  }

  /** The fold keeps the earliest cheapest feasible vehicle: it agrees with
      the selection on every fleet. */
  lemma {:induction false} ScanIsSelectBest(fleet: seq<Tariff>, s: Shipment, distanceKm: real)
    ensures Scan(fleet, s, distanceKm) == SelectBest(fleet, s, distanceKm)
    decreases |fleet|
  {
    if |fleet| > 0 {
      var earlier := fleet[..|fleet| - 1];
      ScanIsSelectBest(earlier, s, distanceKm);
      var quotes := PriceFleet(fleet, s, distanceKm);
      assert quotes[..|fleet| - 1] == PriceFleet(earlier, s, distanceKm);
      CheapestExtend(quotes);
    }
  }

  /** The scan as the source writes it: a loop over the fleet holding the
      best breakdown so far and replacing it only on a strictly smaller
      total. */
  method ChooseBest(fleet: seq<Tariff>, s: Shipment, distanceKm: real) returns (best: Option<CostBreakdown>)
    ensures best == SelectBest(fleet, s, distanceKm)
  {
    best := None;
    var i := 0;
    while i < |fleet|
      invariant 0 <= i <= |fleet|
      invariant best == Scan(fleet[..i], s, distanceKm)
    {
      var v := fleet[i];
      var c := CalculateCost(v, s, distanceKm);
      if c.Priced? && (best.None? || c.breakdown.total < best.value.total) {
        best := Some(c.breakdown);
      }
      assert fleet[..i + 1][..i] == fleet[..i];
      i := i + 1;
    }
    assert fleet[..|fleet|] == fleet;
    ScanIsSelectBest(fleet, s, distanceKm);
  }
}
