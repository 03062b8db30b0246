/** The sample catalogue the program writes when its input files are missing,
    and the prices the cost model gives for it. */
module Samples {
  import opened Wrappers
  import opened Sizing
  import opened Costing
  import opened Selection
  import opened Batch

  const Truck := Tariff("Truck", 10000.0, 0.12, 0.12, 500.0, 250.0, 2500.0, 5000.0)
  const Van := Tariff("Van", 1500.0, 0.20, 0.10, 200.0, 180.0, 1000.0, 800.0)
  const Bike := Tariff("Bike", 30.0, 0.80, 0.05, 50.0, 60.0, 200.0, 100.0)

  const SampleFleet := [Truck, Van, Bike]

  const S1 := Shipment("S1", 14.0, 60.0, 40.0, 30.0, "R001")
  const S2 := Shipment("S2", 2.0, 20.0, 15.0, 10.0, "R002")
  const S3 := Shipment("S3", 800.0, 200.0, 120.0, 150.0, "R003")

  /** The first three sample routes. */
  const SampleRoutes := map[
    "R001" := Route("R001", "Vijayawada", "Srikakulam", 448.0),
    "R002" := Route("R002", "Vijayawada", "Vizianagaram", 398.0),
    "R003" := Route("R003", "Vijayawada", "Visakhapatnam", 361.0)]

  /** S1 is billed on its volumetric weight, 60 x 40 x 30 / 5000 = 14.4 kg;
      on the truck the minimum charge fires and the total overshoots 5000 by
      12% of the shortfall. */
  lemma TruckPricesS1()
    ensures ChargeableWeight(S1) == 14.4
    ensures CalculateCost(Truck, S1, 448.0)
            == Priced(NewBreakdown("Truck", 14.4, 4407.10272, 528.8523264, 500.0, 0.0))
    ensures CalculateCost(Truck, S1, 448.0).breakdown.total == 5435.9550464
  {
  }

  /** On the van S2 falls 424.88 short of the 800 minimum; the corrected total
      is 800 plus 10% of that shortfall. */
  lemma VanOvershootsOnS2()
    ensures CalculateCost(Van, S2, 398.0)
            == Priced(NewBreakdown("Van", 2.0, 584.08, 58.408, 200.0, 0.0))
    ensures CalculateCost(Van, S2, 398.0).breakdown.total == 842.488
    ensures Shortfall(Van, S2, 398.0) == 424.88
  {
  }

  /** The bike cannot carry S3's 800 kg. */
  lemma BikeRejectsS3()
    ensures CalculateCost(Bike, S3, 361.0) == CapacityExceeded("Bike", 800.0, 30.0)
  {
  }

  /** Over the sample fleet the van is the cheapest option for S1. */
  lemma VanIsBestForS1()
    ensures SelectBest(SampleFleet, S1, 448.0)
            == Some(NewBreakdown("Van", 14.4, 1290.24, 129.024, 200.0, 0.0))
    ensures SelectBest(SampleFleet, S1, 448.0).value.total == 1619.264
  {
    assert CalculateCost(Van, S1, 448.0)
           == Priced(NewBreakdown("Van", 14.4, 1290.24, 129.024, 200.0, 0.0));
    assert CalculateCost(Bike, S1, 448.0)
           == Priced(NewBreakdown("Bike", 14.4, 5160.96, 258.048, 50.0, 0.0));
    TruckPricesS1();
    var quotes := PriceFleet(SampleFleet, S1, 448.0);
    assert IsEarliestCheapest(quotes, 1);
    EarliestCheapestIsUnique(quotes, 1);
  }

  /** A shipment on a route missing from the catalogue is reported as such,
      and the shipment after it is still priced. */
  lemma UnknownRouteIsSkipped()
    ensures var lost := Shipment("S9", 5.0, 10.0, 10.0, 10.0, "R999");
            var r := EvaluateBatch(SampleRoutes, SampleFleet, [lost, S1]);
            && r[0] == UnknownRoute("S9", "R999")
            && r[1] == Best("S1", SampleRoutes["R001"], NewBreakdown("Van", 14.4, 1290.24, 129.024, 200.0, 0.0))
  {
    VanIsBestForS1();
    assert "R999" !in SampleRoutes;
    assert EvaluateShipment(SampleRoutes, SampleFleet, S1)
           == Best("S1", SampleRoutes["R001"], NewBreakdown("Van", 14.4, 1290.24, 129.024, 200.0, 0.0));
  }
}
