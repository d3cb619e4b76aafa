/**
 * Aggregation of the classifier's outcomes across the whole run: three run
 * counters and three report streams ("all", "overcharge", "VAT inclusive"),
 * as the end of the per-subscription callback in checkfastspring.js updates
 * them.
 *
 * Rows are tuples of integers and strings; the CSV text, the two-decimal
 * formatting of amounts and the file streams are not modelled. A callback
 * that throws ends the process; `halted` records that, and nothing is
 * absorbed after it.
 */
module Reporting {
  import opened Orders
  import opened PriceDrift

  const AdminLinkPrefix: string := "https://app.fastspring.com/subscription/home.xml?mRef=Subscription%3A"

  /** The subscription's page in the platform's admin interface. */
  function AdminLink(ref: string): string {
    AdminLinkPrefix + ref
  }

  /** A row of all-subscriptions-with-unit-price-change.csv. */
  datatype AllRow = AllRow(
    number: nat,
    ref: string,
    currency: string,
    overcharged: int,
    vatCost: int,
    unknownCost: int,
    link: string)

  /** A row of subscriptions-with-overcharge-2022-issue.csv or of
      subscriptions-with-VAT-inclusive-issue.csv. */
  datatype CategoryRow = CategoryRow(number: nat, ref: string, amount: int, currency: string, link: string)

  /** The "all" row of a flagged subscription reported as number `n`. */
  function AllRowOf(n: nat, rep: Report): AllRow {
    AllRow(n, rep.ref, rep.currency, rep.overcharged, rep.vatCost, rep.unknownCost, AdminLink(rep.ref))
  }

  /** The row a category stream gets, numbered `n`, for a category amount
      `amount`: none when the amount is not positive, and none when the link
      cannot be built (the newest order has no item). */
  function CategoryRowsOf(n: nat, rep: Report, amount: int): seq<CategoryRow> {
    if amount > 0 && rep.linkRef.Some?
    then [CategoryRow(n, rep.ref, amount, rep.baseCurrency, AdminLink(rep.linkRef.value))]
    else []
  }

  /** Whether the VAT-inclusive step of the report is reached: building the
      overcharge row's link throws first when it is needed and missing. */
  predicate ReachesVat(rep: Report) {
    !(rep.overcharged > 0 && rep.linkRef.None?)
  }

  /** Rows of every stream are numbered 1, 2, 3, ...; the two row types
      differ, so the condition is stated once per type. */
  predicate AllNumbered(rows: seq<AllRow>) {
    forall i :: 0 <= i < |rows| ==> rows[i].number == i + 1
  }

  predicate CategoryNumbered(rows: seq<CategoryRow>) {
    forall i :: 0 <= i < |rows| ==> rows[i].number == i + 1
  }

  /** An outcome that makes the callback throw: the classifier itself
      crashed, or a category row needs the newest order's first item and
      that order has none. */
  predicate Fatal(out: Outcome) {
    out.Crashed? ||
    (out.Flagged? && out.report.linkRef.None? && (out.report.overcharged > 0 || out.report.vatCost > 0))
  }

  datatype Stream = AllStream | OverchargeStream | VatStream

  /** Whether a subscription with outcome `out` gets a row in stream `st`. */
  predicate Lands(out: Outcome, st: Stream) {
    out.Flagged? &&
    match st
    case AllStream => true
    case OverchargeStream => out.report.overcharged > 0
    case VatStream => out.report.vatCost > 0
  }

  /** How many of the histories `hs` get a row in stream `st`. */
  function Count(hs: seq<seq<Order>>, st: Stream): nat
  {
    if hs == [] then 0
    else Count(hs[..|hs| - 1], st) + (if Lands(Classify(hs[|hs| - 1]), st) then 1 else 0)
  }

  /** The amount a category stream reports for a flagged subscription. */
  function CategoryAmount(rep: Report, st: Stream): int
    requires st != AllStream
  {
    if st == OverchargeStream then rep.overcharged else rep.vatCost
  }

  /** The "all" stream `rows` after a subscription with outcome `out` is
      reported: a flagged one adds a row numbered on from the rows before it. */
  function AllRowsAfter(rows: seq<AllRow>, out: Outcome): seq<AllRow>
  {
    rows + (if out.Flagged? then [AllRowOf(|rows| + 1, out.report)] else [])
  }

  /** Category stream `st`'s `rows` after a subscription with outcome `out`
      is reported: a flagged one adds a row when its amount in that category
      is positive. */
  function CategoryRowsAfter(rows: seq<CategoryRow>, out: Outcome, st: Stream): seq<CategoryRow>
    requires st != AllStream
  {
    rows + (if out.Flagged? then CategoryRowsOf(|rows| + 1, out.report, CategoryAmount(out.report, st)) else [])
  }

  /** The rows of the "all" stream after the histories `hs` are reported in
      order. */
  function AllRows(hs: seq<seq<Order>>): seq<AllRow>
  {
    if hs == [] then [] else AllRowsAfter(AllRows(hs[..|hs| - 1]), Classify(hs[|hs| - 1]))
  }

  /** The rows of category stream `st` after the histories `hs` are reported
      in order. */
  function CategoryRows(hs: seq<seq<Order>>, st: Stream): seq<CategoryRow>
    requires st != AllStream
  {
    if hs == [] then [] else CategoryRowsAfter(CategoryRows(hs[..|hs| - 1], st), Classify(hs[|hs| - 1]), st)
  }

  /** Reporting one more history extends every stream by that history's
      rows. */
  lemma ReportOneMore(hs: seq<seq<Order>>, i: nat)
    requires i < |hs|
    ensures AllRows(hs[..i + 1]) == AllRowsAfter(AllRows(hs[..i]), Classify(hs[i]))
    ensures CategoryRows(hs[..i + 1], OverchargeStream) ==
              CategoryRowsAfter(CategoryRows(hs[..i], OverchargeStream), Classify(hs[i]), OverchargeStream)
    ensures CategoryRows(hs[..i + 1], VatStream) ==
              CategoryRowsAfter(CategoryRows(hs[..i], VatStream), Classify(hs[i]), VatStream)
    ensures forall st :: Count(hs[..i + 1], st) == Count(hs[..i], st) + (if Lands(Classify(hs[i]), st) then 1 else 0)
  {
    assert hs[..i + 1][..i] == hs[..i];
  }

  /** When no history is fatal, each stream holds one row per subscription
      that lands in it, every row numbered by its position. */
  lemma {:induction false} RowsMatchCounts(hs: seq<seq<Order>>)
    requires forall i :: 0 <= i < |hs| ==> !Fatal(Classify(hs[i]))
    ensures |AllRows(hs)| == Count(hs, AllStream) && AllNumbered(AllRows(hs))
    ensures |CategoryRows(hs, OverchargeStream)| == Count(hs, OverchargeStream)
    ensures |CategoryRows(hs, VatStream)| == Count(hs, VatStream)
    ensures CategoryNumbered(CategoryRows(hs, OverchargeStream)) && CategoryNumbered(CategoryRows(hs, VatStream))
  {
    if hs != [] {
      var pre := hs[..|hs| - 1];
      RowsMatchCounts(pre);
    }
  }

  /** A subscription lands in a category stream only if it lands in the
      "all" stream, so neither category counter passes the overall one. */
  lemma {:induction false} CountsBounded(hs: seq<seq<Order>>)
    ensures Count(hs, OverchargeStream) <= Count(hs, AllStream)
    ensures Count(hs, VatStream) <= Count(hs, AllStream)
  {
    if hs != [] {
      CountsBounded(hs[..|hs| - 1]);
    }
  }

  /** The run's counters and report streams. */
  class Aggregator {
    var counterAll: nat
    var counterOvercharged: nat
    var counterVatInclusive: nat
    var allRows: seq<AllRow>
    var overchargedRows: seq<CategoryRow>
    var vatRows: seq<CategoryRow>
    /** A callback threw: the process has ended. */
    var halted: bool

    /** Row numbers run 1, 2, 3, ... in every stream; each counter is the
        number of rows of its stream (a counter can be one ahead only once
        the process has ended, when the row's write threw); neither category
        counter passes the overall one. */
    ghost predicate Valid()
      reads this
    {
      && AllNumbered(allRows)
      && CategoryNumbered(overchargedRows)
      && CategoryNumbered(vatRows)
      && counterAll == |allRows|
      && |overchargedRows| <= counterOvercharged <= counterAll
      && |vatRows| <= counterVatInclusive <= counterAll
      && (!halted ==> counterOvercharged == |overchargedRows| && counterVatInclusive == |vatRows|)
    }

    constructor ()
      ensures Valid() && !halted
      ensures counterAll == 0 && counterOvercharged == 0 && counterVatInclusive == 0
      ensures allRows == [] && overchargedRows == [] && vatRows == []
    {
      counterAll, counterOvercharged, counterVatInclusive := 0, 0, 0;
      allRows, overchargedRows, vatRows := [], [], [];
      halted := false;
    }

    /** Reports a flagged subscription: always a row in "all"; a row in
        "overcharge" when its overcharge is positive; a row in "VAT
        inclusive" when its VAT cost is positive. The category rows carry the
        baseline currency and link to the newest order's subscription; when
        that order has no item, building the link throws after the counter
        was raised. */
    method Record(rep: Report)
      requires Valid() && !halted
      modifies this
      ensures Valid()
      ensures counterAll == old(counterAll) + 1
      ensures allRows == old(allRows) + [AllRowOf(counterAll, rep)]
      ensures counterOvercharged == old(counterOvercharged) + (if rep.overcharged > 0 then 1 else 0)
      ensures overchargedRows == old(overchargedRows) + CategoryRowsOf(counterOvercharged, rep, rep.overcharged)
      ensures counterVatInclusive ==
                old(counterVatInclusive) + (if ReachesVat(rep) && rep.vatCost > 0 then 1 else 0)
      ensures vatRows == old(vatRows) + (if ReachesVat(rep) then CategoryRowsOf(counterVatInclusive, rep, rep.vatCost) else [])
      ensures halted <==> rep.linkRef.None? && (rep.overcharged > 0 || rep.vatCost > 0)
    {
      counterAll := counterAll + 1;
      allRows := allRows + [AllRowOf(counterAll, rep)];
      if rep.overcharged > 0 {
        counterOvercharged := counterOvercharged + 1;
        if rep.linkRef.None? {
          halted := true;
          return;
        }
        overchargedRows := overchargedRows + CategoryRowsOf(counterOvercharged, rep, rep.overcharged);
      }
      if rep.vatCost > 0 {
        counterVatInclusive := counterVatInclusive + 1;
        if rep.linkRef.None? {
          halted := true;
          return;
        }
        vatRows := vatRows + CategoryRowsOf(counterVatInclusive, rep, rep.vatCost);
      }
    }

    /** Takes in one subscription's outcome: a crash ends the process, a
        rejected or clean subscription leaves everything as it was, a flagged
        one is recorded. */
    method Absorb(out: Outcome)
      requires Valid() && !halted
      modifies this
      ensures Valid()
      ensures halted <==> Fatal(out)
      ensures !out.Flagged? ==>
                && counterAll == old(counterAll)
                && counterOvercharged == old(counterOvercharged)
                && counterVatInclusive == old(counterVatInclusive)
                && allRows == old(allRows)
                && overchargedRows == old(overchargedRows)
                && vatRows == old(vatRows)
      ensures out.Flagged? ==>
                var rep := out.report;
                && counterAll == old(counterAll) + 1
                && allRows == old(allRows) + [AllRowOf(counterAll, rep)]
                && counterOvercharged == old(counterOvercharged) + (if rep.overcharged > 0 then 1 else 0)
                && overchargedRows == old(overchargedRows) + CategoryRowsOf(counterOvercharged, rep, rep.overcharged)
                && counterVatInclusive ==
                     old(counterVatInclusive) + (if ReachesVat(rep) && rep.vatCost > 0 then 1 else 0)
                && vatRows == old(vatRows) +
                     (if ReachesVat(rep) then CategoryRowsOf(counterVatInclusive, rep, rep.vatCost) else [])
      ensures !halted ==>
                && allRows == AllRowsAfter(old(allRows), out)
                && overchargedRows == CategoryRowsAfter(old(overchargedRows), out, OverchargeStream)
                && vatRows == CategoryRowsAfter(old(vatRows), out, VatStream)
    {
      match out
      case Crashed => halted := true;
      case Rejected =>
      case Clean =>
      case Flagged(rep) => Record(rep);
    }
  }

  /** The run: each history is classified and its outcome absorbed, in the
      order in which the platform's responses complete, until a callback
      throws. When none throws, each counter is the number of subscriptions
      that land in its stream. */
  method Audit(histories: seq<seq<Order>>) returns (agg: Aggregator)
    ensures fresh(agg) && agg.Valid()
    ensures agg.halted <==> exists i :: 0 <= i < |histories| && Fatal(Classify(histories[i]))
    ensures !agg.halted ==>
              && agg.counterAll == Count(histories, AllStream)
              && agg.counterOvercharged == Count(histories, OverchargeStream)
              && agg.counterVatInclusive == Count(histories, VatStream)
              && agg.allRows == AllRows(histories)
              && agg.overchargedRows == CategoryRows(histories, OverchargeStream)
              && agg.vatRows == CategoryRows(histories, VatStream)
  {
    agg := new Aggregator();
    var i := 0;
    while i < |histories| && !agg.halted
      invariant 0 <= i <= |histories|
      invariant agg.Valid()
      invariant agg.halted <==> exists j :: 0 <= j < i && Fatal(Classify(histories[j]))
      invariant !agg.halted ==>
                  && agg.counterAll == Count(histories[..i], AllStream)
                  && agg.counterOvercharged == Count(histories[..i], OverchargeStream)
                  && agg.counterVatInclusive == Count(histories[..i], VatStream)
                  && agg.allRows == AllRows(histories[..i])
                  && agg.overchargedRows == CategoryRows(histories[..i], OverchargeStream)
                  && agg.vatRows == CategoryRows(histories[..i], VatStream)
    {
      var out := ClassifySubscription(histories[i]);
      agg.Absorb(out);
      ReportOneMore(histories, i);
      i := i + 1;
    }
    if !agg.halted {
      assert histories[..i] == histories;
    }
  }
}
