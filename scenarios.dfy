/**
 * Worked histories for the classifier. Histories are given newest first,
 * as the platform returns them; amounts are in cents.
 */
module Scenarios {
  import opened Orders
  import opened PriceDrift

  const Jan2021: int := 1609459200000
  const Feb2021: int := 1612137600000
  const Feb2022: int := 1643673600000

  function Renewal(completed: bool, changed: int, currency: string, subtotal: int, tax: int): Order {
    Order(completed, changed, currency, subtotal + tax, tax, [Item("pro", subtotal, "SUB1")])
  }

  /** The same price three times over: nothing is reported. */
  lemma SteadyPriceIsClean()
    ensures Classify([Renewal(true, Feb2022, "USD", 1000, 0),
                      Renewal(true, Feb2021, "USD", 1000, 0),
                      Renewal(true, Jan2021, "USD", 1000, 0)]) == Clean
  {
    // The walk unfolds twice; some solver seeds need the steps spelled out.
    var p := [Renewal(true, Feb2022, "USD", 1000, 0),
              Renewal(true, Feb2021, "USD", 1000, 0),
              Renewal(true, Jan2021, "USD", 1000, 0)];
    var s0 := Scan(Snapshot(p[2]), NoIssues);
    assert Step(s0, p[1]) == Next(s0);
    assert Step(s0, p[0]) == Next(s0);
    assert Walk(p, 2, s0) == Next(s0);
  }

  /** A price rise from 10.00 to 15.00 after the 2022 cutoff is an
      overcharge of 5.00. */
  lemma RiseIn2022IsOvercharge()
    ensures Classify([Renewal(true, Feb2022, "USD", 1500, 0),
                      Renewal(true, Jan2021, "USD", 1000, 0)])
            == Flagged(Report("SUB1", "USD", 500, 0, 0, "USD", Some("SUB1")))
  {
    // The walk unfolds once; some solver seeds need the step spelled out.
    var p := [Renewal(true, Feb2022, "USD", 1500, 0),
              Renewal(true, Jan2021, "USD", 1000, 0)];
    var s0 := Scan(Snapshot(p[1]), NoIssues);
    assert Judge(s0.base, p[0]) == Anomaly(Overcharge2022, 500);
    assert Walk(p, 1, s0) == Next(Scan(s0.base, Tally(500, 0, 0, true)));
  }

  /** The old total of 12.10 is rebuilt by a new subtotal of 10.00 plus 2.10
      tax: the unit price became VAT inclusive, costing the vendor 2.10. */
  lemma VatFoldedIntoPrice()
    ensures Classify([Renewal(true, Feb2021, "EUR", 1000, 210),
                      Renewal(true, Jan2021, "EUR", 1210, 0)])
            == Flagged(Report("SUB1", "EUR", 0, 210, 0, "EUR", Some("SUB1")))
  {
    var p := [Renewal(true, Feb2021, "EUR", 1000, 210),
              Renewal(true, Jan2021, "EUR", 1210, 0)];
    var s0 := Scan(Snapshot(p[1]), NoIssues);
    assert Judge(s0.base, p[0]) == Anomaly(VatInclusive, 210);
    assert Walk(p, 1, s0) == Next(Scan(s0.base, Tally(0, 210, 0, true)));
  }

  /** A price change together with a currency change is a legitimate
      repricing. */
  lemma CurrencyChangeIsRepricing()
    ensures Classify([Renewal(true, Feb2022, "EUR", 900, 0),
                      Renewal(true, Jan2021, "USD", 1000, 0)]) == Clean
  {
    // The walk unfolds once; some solver seeds need the step spelled out.
    var p := [Renewal(true, Feb2022, "EUR", 900, 0),
              Renewal(true, Jan2021, "USD", 1000, 0)];
    var s0 := Scan(Snapshot(p[1]), NoIssues);
    assert "USD" != "EUR" by { assert "USD"[0] != "EUR"[0]; }
    assert Judge(s0.base, p[0]) == Rebase;
    assert Walk(p, 1, s0) == Next(Scan(Snapshot(p[0]), NoIssues));
  }

  /** A multi-item order anywhere abandons the subscription. */
  lemma MultiItemIsRejected()
    ensures Classify([Renewal(true, Feb2022, "USD", 1500, 0),
                      Order(true, Feb2021, "USD", 2000, 0, [Item("pro", 1000, "SUB1"), Item("addon", 1000, "SUB1")]),
                      Renewal(true, Jan2021, "USD", 1000, 0)]) == Rejected
  {
  }

  /** The "all" row takes the newest order's currency even when that order
      did not complete, while the category rows take the baseline's. */
  lemma NewestCurrencyTagsAllRow()
    ensures Classify([Renewal(false, Feb2022, "EUR", 800, 0),
                      Renewal(true, Feb2022, "USD", 1500, 0),
                      Renewal(true, Jan2021, "USD", 1000, 0)])
            == Flagged(Report("SUB1", "EUR", 500, 0, 0, "USD", Some("SUB1")))
  {
    var p := [Renewal(false, Feb2022, "EUR", 800, 0),
              Renewal(true, Feb2022, "USD", 1500, 0),
              Renewal(true, Jan2021, "USD", 1000, 0)];
    var s0 := Scan(Snapshot(p[2]), NoIssues);
    var s1 := Scan(s0.base, Tally(500, 0, 0, true));
    assert Judge(s0.base, p[1]) == Anomaly(Overcharge2022, 500);
    assert Step(s0, p[1]) == Next(s1);
    assert Step(s1, p[0]) == Next(s1);
    assert Walk(p, 1, s1) == Next(s1);
    assert Walk(p, 2, s0) == Next(s1);
  }
}
