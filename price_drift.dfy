/**
 * The unit-price drift classifier: the per-subscription callback of
 * checkfastspring.js.
 *
 * The platform returns a subscription's payments newest first. The oldest
 * payment sets the initial baseline; the others are then walked from the
 * oldest to the newest. A completed order with the baseline's currency and
 * SKU but a different item subtotal is an anomaly, attributed to exactly one
 * cause; any other completed order becomes the new baseline.
 *
 * `Step` and `Walk` are the specification of the walk; `ClassifySubscription`
 * is the loop of the source, proved equal to `Classify`.
 */
module PriceDrift {
  import opened Orders

  /** `new Date(2022,0,1).valueOf()`: midnight of 1 January 2022 in
      milliseconds, taken in UTC. */
  const Cutoff2022: int := 1640995200000

  datatype Cause = Overcharge2022 | VatInclusive | Unknown

  /** What one order contributes to the walk. `Skip`: the order did not
      complete. `Rebase`: the order is taken as correctly priced and becomes
      the baseline. `Anomaly`: the unit price drifted; `amount` goes to the
      accumulator of `cause`. */
  datatype Verdict = Skip | Rebase | Anomaly(cause: Cause, amount: int)

  /** The three accumulators and the issue flag of one subscription. */
  datatype Tally = Tally(overcharged: int, vatCost: int, unknownCost: int, issueFound: bool)

  const NoIssues: Tally := Tally(0, 0, 0, false)

  /** The state carried from one order to the next. */
  datatype Scan = Scan(base: Baseline, tally: Tally)

  /** Why a walk stopped early: an order with more than one item (the
      subscription is abandoned), or a completed order with no item at all
      (reading its first item throws). */
  datatype Halt = TooManyItems | MissingItem

  datatype Progress = Next(scan: Scan) | Stop(halt: Halt)

  /** What the callback produces for one subscription. `Crashed`: the
      callback throws; `Rejected`: abandoned for a multi-item order;
      `Clean`: no anomaly; `Flagged`: at least one anomaly, with the values
      the report rows are built from. */
  datatype Outcome = Crashed | Rejected | Clean | Flagged(report: Report)

  /** `ref` is the oldest order's subscription reference; `currency` is the
      newest order's currency; `baseCurrency` is the baseline's currency when
      the walk ends; `linkRef` is the subscription reference of the newest
      order's first item, absent when that order has no item. */
  datatype Report = Report(
    ref: string,
    currency: string,
    overcharged: int,
    vatCost: int,
    unknownCost: int,
    baseCurrency: string,
    linkRef: Option<string>)

  /** Same currency and SKU as the baseline, but a different item subtotal. */
  predicate IsAnomaly(b: Baseline, o: Order)
    requires |o.items| >= 1
  {
    b.currency == o.currency && b.sku == o.items[0].sku && b.itemCost != o.items[0].subtotal
  }

  /** The 2022 overcharge pattern: changed strictly after the cutoff and
      charged more than the baseline's total. */
  predicate OverchargeRule(b: Baseline, o: Order) {
    o.changed > Cutoff2022 && o.total > b.orderCost
  }

  /** The VAT-inclusive pattern: the new item subtotal plus tax rebuilds the
      baseline's total exactly. */
  predicate VatRule(b: Baseline, o: Order)
    requires |o.items| >= 1
  {
    o.items[0].subtotal + o.tax == b.orderCost
  }

  /** The verdict on a completed order with an item. */
  function Judge(b: Baseline, o: Order): (v: Verdict)
    requires |o.items| >= 1
    ensures !v.Skip?
    ensures v.Anomaly? <==> IsAnomaly(b, o)
    ensures v.Anomaly? && v.cause == Overcharge2022 <==> IsAnomaly(b, o) && OverchargeRule(b, o)
    ensures v.Anomaly? && v.cause == VatInclusive <==>
              IsAnomaly(b, o) && !OverchargeRule(b, o) && VatRule(b, o)
    ensures v.Anomaly? && v.cause == Unknown <==>
              IsAnomaly(b, o) && !OverchargeRule(b, o) && !VatRule(b, o)
    ensures v.Anomaly? && v.cause == Overcharge2022 ==> v.amount == o.total - b.orderCost > 0
    ensures v.Anomaly? && v.cause != Overcharge2022 ==> v.amount == b.itemCost - o.items[0].subtotal
  {
    if !IsAnomaly(b, o) then Rebase
    else if OverchargeRule(b, o) then Anomaly(Overcharge2022, o.total - b.orderCost)
    else if VatRule(b, o) then Anomaly(VatInclusive, b.itemCost - o.items[0].subtotal)
    else Anomaly(Unknown, b.itemCost - o.items[0].subtotal)
  }

  /** Adds an anomaly's amount to its cause's accumulator and raises the flag. */
  function Apply(t: Tally, v: Verdict): Tally {
    match v
    case Anomaly(Overcharge2022, a) => t.(overcharged := t.overcharged + a, issueFound := true)
    case Anomaly(VatInclusive, a) => t.(vatCost := t.vatCost + a, issueFound := true)
    case Anomaly(Unknown, a) => t.(unknownCost := t.unknownCost + a, issueFound := true)
    case _ => t
  }

  /** One iteration of the walk, on order `o`. */
  function Step(s: Scan, o: Order): (r: Progress)
    ensures r == Stop(TooManyItems) <==> |o.items| > 1
    ensures r == Stop(MissingItem) <==> o.completed && |o.items| == 0
    ensures r.Next? && !o.completed ==> r.scan == s
    ensures r.Next? && o.completed ==>
              if IsAnomaly(s.base, o) then r.scan.base == s.base && r.scan.tally.issueFound
              else r.scan.base == Snapshot(o) && r.scan.tally == s.tally
    ensures r.Next? ==> r.scan.tally.overcharged >= s.tally.overcharged
    ensures r.Next? ==> r.scan.tally.issueFound == (s.tally.issueFound || (o.completed && IsAnomaly(s.base, o)))
    // at most one accumulator moves
    ensures r.Next? ==>
              (r.scan.tally.vatCost == s.tally.vatCost && r.scan.tally.unknownCost == s.tally.unknownCost) ||
              (r.scan.tally.overcharged == s.tally.overcharged && r.scan.tally.unknownCost == s.tally.unknownCost) ||
              (r.scan.tally.overcharged == s.tally.overcharged && r.scan.tally.vatCost == s.tally.vatCost)
  {
    if |o.items| > 1 then Stop(TooManyItems)
    else if !o.completed then Next(s)
    else if |o.items| == 0 then Stop(MissingItem)
    else
      var v := Judge(s.base, o);
      Next(Scan(if v.Rebase? then Snapshot(o) else s.base, Apply(s.tally, v)))
  }

  /** Walks `p[k-1]`, `p[k-2]`, ..., `p[0]` (oldest to newest) from `s`. */
  function Walk(p: seq<Order>, k: nat, s: Scan): (r: Progress)
    requires k <= |p|
    decreases k
    ensures r.Next? ==> forall i :: 0 <= i < k ==> |p[i].items| <= 1
    ensures r == Stop(TooManyItems) ==> exists i :: 0 <= i < k && |p[i].items| > 1
    ensures r.Next? ==> r.scan.tally.overcharged >= s.tally.overcharged
    ensures r.Next? && s.tally.issueFound ==> r.scan.tally.issueFound
    ensures r.Next? && !r.scan.tally.issueFound ==> r.scan.tally == s.tally
  {
    if k == 0 then Next(s)
    else
      match Step(s, p[k - 1])
      case Stop(h) => Stop(h)
      case Next(s') => Walk(p, k - 1, s')
  }

  /** The outcome of the callback for a history `p` given newest first. */
  function Classify(p: seq<Order>): (r: Outcome)
    ensures r.Flagged? ==> |p| >= 2
    ensures r.Flagged? ==> r.report.overcharged >= 0
    ensures r.Flagged? ==> |p[|p| - 1].items| == 1 && r.report.ref == p[|p| - 1].items[0].subscription
    ensures r.Flagged? ==> r.report.currency == p[0].currency
    ensures r.Flagged? ==>
              r.report.linkRef == if |p[0].items| == 0 then None else Some(p[0].items[0].subscription)
    ensures r == Rejected ==> exists i :: 0 <= i < |p| && |p[i].items| > 1
    ensures (exists i :: 0 <= i < |p| && |p[i].items| > 1) ==> r == Rejected || r == Crashed
    ensures |p| == 0 ==> r == Crashed
  {
    if |p| == 0 then Crashed
    else
      var init := p[|p| - 1];
      if |init.items| == 0 then Crashed
      else if |init.items| > 1 then Rejected
      else
        match Walk(p, |p| - 1, Scan(Snapshot(init), NoIssues))
        case Stop(TooManyItems) => Rejected
        case Stop(MissingItem) => Crashed
        case Next(s) =>
          if !s.tally.issueFound then Clean
          else
            Flagged(Report(
                      init.items[0].subscription,
                      p[0].currency,
                      s.tally.overcharged,
                      s.tally.vatCost,
                      s.tally.unknownCost,
                      s.base.currency,
                      if |p[0].items| == 0 then None else Some(p[0].items[0].subscription)))
  }

  /** The callback's loop over the payments, with the baseline and the
      accumulators in local variables. */
  method ClassifySubscription(payments: seq<Order>) returns (out: Outcome)
    ensures out == Classify(payments)
  {
    if |payments| == 0 {
      return Crashed;
    }
    var init := payments[|payments| - 1];
    if |init.items| == 0 {
      return Crashed;
    }
    var ref := init.items[0].subscription;
    if |init.items| > 1 {
      return Rejected;
    }
    var prevCurrency, prevSku := init.currency, init.items[0].sku;
    var prevItemCost, prevOrderCost := init.items[0].subtotal, init.total;
    var overcharged, vatCost, unknownCost := 0, 0, 0;
    var issueFound := false;
    ghost var start := Scan(Snapshot(init), NoIssues);

    var index := |payments| - 2;
    while index >= 0
      invariant -1 <= index <= |payments| - 2
      invariant Walk(payments, |payments| - 1, start) ==
                Walk(payments, index + 1,
                     Scan(Baseline(prevCurrency, prevSku, prevItemCost, prevOrderCost),
                          Tally(overcharged, vatCost, unknownCost, issueFound)))
      decreases index
    {
      var order := payments[index];
      if |order.items| > 1 {
        return Rejected;
      }
      if order.completed {
        if |order.items| == 0 {
          return Crashed;
        }
        if prevCurrency == order.currency && prevSku == order.items[0].sku && prevItemCost != order.items[0].subtotal {
          issueFound := true;
          if order.changed > Cutoff2022 && order.total > prevOrderCost {
            overcharged := overcharged + order.total - prevOrderCost;
          } else if order.items[0].subtotal + order.tax == prevOrderCost {
            vatCost := vatCost + (prevItemCost - order.items[0].subtotal);
          } else {
            unknownCost := unknownCost + (prevItemCost - order.items[0].subtotal);
          }
        } else {
          prevCurrency := order.currency;
          prevSku := order.items[0].sku;
          prevItemCost := order.items[0].subtotal;
          prevOrderCost := order.total;
        }
      }
      index := index - 1;
    }
    if !issueFound {
      return Clean;
    }
    var newest := payments[0];
    var linkRef := if |newest.items| == 0 then None else Some(newest.items[0].subscription);
    out := Flagged(Report(ref, newest.currency, overcharged, vatCost, unknownCost, prevCurrency, linkRef));
  }
}
