# Transport and logistics pricing engine — Dafny model

This project models the pricing engine of the TransportAndLogistics program.
The engine prices a shipment on every vehicle of a small fleet over a route, and
reports the cheapest vehicle for each shipment. It has three parts:

- **Shipment sizing** (module `Sizing`). Volumetric weight is length × width ×
  height / 5000. Chargeable weight is the larger of actual and volumetric weight.
- **Per-vehicle cost model** (module `Costing`). `CalculateCost` runs the
  source's steps in order:
  1. reject a shipment whose chargeable weight exceeds the vehicle's capacity
     (`CapacityExceeded`);
  2. compute base = rate × chargeable weight × distance, and fuel = base × fuel fraction;
  3. add the flat handling fee, plus the oversize fee once if any dimension is
     strictly above the threshold;
  4. if that subtotal is below the minimum charge, fold the whole shortfall
     into the base;
  5. recompute fuel from the final base, unconditionally.

  A `CostBreakdown` stores its total as the sum of its four components.
- **Best-option selection** (modules `Selection` and `Batch`). For each
  shipment, the route is looked up first. An unknown route skips the shipment.
  Otherwise every vehicle is priced, capacity failures are ignored, and the
  breakdown with the strictly smallest total is kept, so the first vehicle wins
  a tie. If no vehicle can carry the shipment, the report is "no suitable
  vehicle".

`Vehicle`, `GenericVehicle` and `VehicleFactory` are one `Tariff` datatype,
because no subclass adds behaviour. The fleet scan that sits inside `main` is
extracted into functions over a `seq<Tariff>`. It is also written once as a
`while` loop (`ChooseBest`) that mirrors the source's loop. All quantities
are Dafny `real`.

Sample shipment S1 (14 kg, 60 × 40 × 30 cm) is billed on its volumetric weight
of 14.4 kg. So on the truck over 448 km its total is 5435.9550464
(`Samples.TruckPricesS1`).

The minimum-charge correction is kept exactly as written. With a positive fuel
fraction the total does not land on the minimum charge when the correction
fires. It overshoots by the fuel fraction of the shortfall. With a zero fraction
it lands exactly on it (`Costing.CorrectionOvershoot`).

## Model

| member | source | states |
|---|---|---|
| Sizing.VolumetricWeight | GroupProject/src/TransportAndLogistics.java:25-36 | volumetric weight times the 5000 divisor is the shipment's volume; a zero dimension makes it 0 |
| Sizing.ChargeableWeight | GroupProject/src/TransportAndLogistics.java:37-39 | chargeable weight is at least the actual and at least the volumetric weight, and equals one of them; with a zero dimension and non-negative actual weight it equals the actual weight |
| Sizing.ChargeableWeightIsLeastBound | GroupProject/src/TransportAndLogistics.java:37-39 | any common upper bound of actual and volumetric weight bounds the chargeable weight, so together with its contract it is exactly their maximum |
| Costing.NewBreakdown | GroupProject/src/TransportAndLogistics.java:50-58 | a breakdown records each component as given, and its total is the sum of base, fuel, handling and oversize |
| Costing.OversizeTestMatches | GroupProject/src/TransportAndLogistics.java:92 | the three-way comparison on length, width and height holds exactly when some dimension is strictly above the threshold |
| Costing.Shortfall | GroupProject/src/TransportAndLogistics.java:94-96 | the shortfall is non-negative; it is positive exactly when the preliminary subtotal is below the minimum charge, and then it closes the gap exactly |
| Costing.CalculateCost | GroupProject/src/TransportAndLogistics.java:86-103 | fails exactly when chargeable weight exceeds capacity, reporting vehicle, weight and capacity; on success it records the vehicle name and the chargeable weight (within capacity), handling equals the flat fee, oversize is the fee once if any dimension is over the threshold and 0 otherwise, fuel is base × fuel fraction, base is the raw base plus the shortfall, and the total is the sum of the four components |
| Costing.NoCorrectionKeepsRawCost | GroupProject/src/TransportAndLogistics.java:89-101 | when the preliminary subtotal reaches the minimum charge, the base is rate × weight × distance unchanged and the total is that subtotal |
| Costing.CorrectionOvershoot | GroupProject/src/TransportAndLogistics.java:94-101 | when the correction fires, the total is the minimum charge plus shortfall × fuel fraction, so it is strictly above the minimum when the fraction is positive and exactly the minimum when the fraction is zero |
| Costing.MinimumChargeFloor | GroupProject/src/TransportAndLogistics.java:94-102 | with a non-negative fuel fraction every priced total is at least the minimum charge |
| Costing.FeasibilityIgnoresPricing | GroupProject/src/TransportAndLogistics.java:87-88 | a vehicle that carries a shipment over one distance carries it over any distance, and so does every vehicle with at least its capacity |
| Selection.PriceFleet | GroupProject/src/TransportAndLogistics.java:317-319 | every vehicle is priced, one quote per vehicle in fleet order, each the vehicle's own cost result |
| Selection.BestIndex | GroupProject/src/TransportAndLogistics.java:316-323 | the scan keeps nothing exactly when every quote is a capacity failure; otherwise it keeps a priced quote whose total is at most every priced total and strictly below every earlier priced total |
| Selection.EarliestCheapestIsUnique | GroupProject/src/TransportAndLogistics.java:316-323 | any earliest cheapest priced quote is the one the scan keeps, so that property determines the choice |
| Selection.Cheapest | GroupProject/src/TransportAndLogistics.java:316-325 | nothing ("no suitable vehicle") exactly when every quote failed; otherwise one of the priced quotes' breakdowns, with a total at most every priced total, and that of the earliest cheapest quote, so the first of equally cheap quotes wins |
| Selection.NoSuitableVehicleIffAllTooSmall | GroupProject/src/TransportAndLogistics.java:317-325 | over a fleet, "no suitable vehicle" is reported exactly when every vehicle's capacity is below the chargeable weight |
| Selection.SelectedIsEarliestCheapestVehicle | GroupProject/src/TransportAndLogistics.java:316-324 | a reported breakdown is the own price of a vehicle that can carry the shipment, no vehicle that can carry it is cheaper, and every earlier vehicle that can is strictly dearer (the first of equally cheap vehicles wins) |
| Selection.ScanIsSelectBest | GroupProject/src/TransportAndLogistics.java:316-323 | the fleet-order fold with a strict less-than comparison agrees with the earliest-cheapest selection on every fleet |
| Selection.ChooseBest | GroupProject/src/TransportAndLogistics.java:316-323 | the loop that keeps a breakdown only on a strictly smaller total returns the earliest cheapest feasible breakdown |
| Batch.EvaluateShipment | GroupProject/src/TransportAndLogistics.java:312-325 | a shipment is reported as an unknown route exactly when its route id is not in the catalogue; otherwise the report carries the resolved route; "no suitable vehicle" is reported exactly when the route resolves and every vehicle's capacity is below the chargeable weight; a best option is the breakdown the fleet selection reports |
| Batch.EvaluateBatch | GroupProject/src/TransportAndLogistics.java:312-326 | there is one report per shipment, in order, and each depends only on its own shipment, so an unknown route never stops the others |
| Samples.TruckPricesS1 | GroupProject/src/TransportAndLogistics.java:166-170 | sample shipment S1 bills 14.4 kg, and on the truck over 448 km its total overshoots the 5000 minimum to 5435.9550464 |
| Samples.VanOvershootsOnS2 | GroupProject/src/TransportAndLogistics.java:167-171 | sample shipment S2 on the van over 398 km falls 424.88 short of the minimum and totals 842.488 |
| Samples.BikeRejectsS3 | GroupProject/src/TransportAndLogistics.java:168-172 | the bike (30 kg capacity) rejects the 800 kg sample shipment S3 |
| Samples.VanIsBestForS1 | GroupProject/src/TransportAndLogistics.java:166-170 | over the sample fleet the van, at 1619.264, is the best option for S1 |
| Samples.UnknownRouteIsSkipped | GroupProject/src/TransportAndLogistics.java:313-314 | a shipment on a missing route is reported as such, and the shipment after it is still priced (the loop continues, it does not stop) |

## Left out

- The interactive menu, `Scanner` input and console printing in `main`. These are I/O. This includes menu option 3, which prices one user-chosen vehicle with the same `calculateCost`, and the printing of each successful breakdown during the scan.
- `CreateCSV.createSamplesIfMissing` and the CSV readers (`CsvUtils.readAll`, `readRoutes`, `readFleet`, `readShipments`). These are file I/O and `Double.parseDouble`. The sample rows appear only as constants in module `Samples`, and only routes R001 to R003 of the route table are included.
- `CostBreakdown.toString` and `DecimalFormat`: presentation only.
- IEEE-754 `double` rounding, NaN, infinities and signed zero. All quantities are exact reals. So `Math.max` is the real maximum, and every property is algebraic.
- The dead stores inside the minimum-charge branch, where fuel and subtotal are recomputed and then overwritten or discarded. Only the values that reach the breakdown are modelled.
- Idempotence of the cost model: every operation is a pure function, so equal inputs give equal results by construction.
