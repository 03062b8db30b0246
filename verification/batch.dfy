/** Batch evaluation of a shipment list: resolve each shipment's route, then
    run the fleet scan on it (the shipment loop inside `main` of
    TransportAndLogistics.java). */
module Batch {
  import opened Wrappers
  import opened Sizing
  import opened Costing
  import opened Selection

  /** A route of the route catalogue. */
  datatype Route = Route(routeId: string, source: string, destination: string, distanceKm: real)

  /** What the batch reports for one shipment. */
  datatype Outcome =
    | UnknownRoute(shipmentId: string, routeId: string)
    | NoSuitableVehicle(shipmentId: string, route: Route)
    | Best(shipmentId: string, route: Route, breakdown: CostBreakdown)

  /** The report for one shipment. A shipment whose route does not resolve is
      skipped before any vehicle is priced. */
  function EvaluateShipment(routes: map<string, Route>, fleet: seq<Tariff>, s: Shipment): (r: Outcome)
    ensures r.shipmentId == s.shipmentId
    ensures r.UnknownRoute? <==> s.routeId !in routes
    ensures r.UnknownRoute? ==> r.routeId == s.routeId
    ensures !r.UnknownRoute? ==> r.route == routes[s.routeId]
    ensures r.NoSuitableVehicle? <==>
              s.routeId in routes && forall j :: 0 <= j < |fleet| ==> ChargeableWeight(s) > fleet[j].capacityKg
    ensures r.Best? ==> SelectBest(fleet, s, routes[s.routeId].distanceKm) == Some(r.breakdown)
  {
    if s.routeId !in routes then UnknownRoute(s.shipmentId, s.routeId)
    else
      var route := routes[s.routeId];
      NoSuitableVehicleIffAllTooSmall(fleet, s, route.distanceKm);
      match SelectBest(fleet, s, route.distanceKm)
      case None => NoSuitableVehicle(s.shipmentId, route)
      case Some(b) => Best(s.shipmentId, route, b)
  }

  /** The reports for a shipment list, one per shipment and in order. */
  function EvaluateBatch(routes: map<string, Route>, fleet: seq<Tariff>, shipments: seq<Shipment>): (r: seq<Outcome>)
    ensures |r| == |shipments|
    ensures forall i :: 0 <= i < |shipments| ==> r[i] == EvaluateShipment(routes, fleet, shipments[i])
    decreases |shipments|
  {
    if |shipments| == 0 then []
    else [EvaluateShipment(routes, fleet, shipments[0])] + EvaluateBatch(routes, fleet, shipments[1..])
  }
}
