/**
 * Properties of the price-drift classifier.
 *
 * The walk of `PriceDrift` threads the baseline and the accumulators
 * together. `Replay` is a second definition that threads the baseline alone
 * and lists each order's verdict; the accumulators are then plain sums over
 * that list. `WalkIsReplay` proves the two agree, which is where "each
 * anomaly adds to exactly one accumulator", "the flag is raised exactly when
 * some order is an anomaly" and "the accumulators never steer the baseline"
 * come from.
 */
module DriftProperties {
  import opened Orders
  import opened PriceDrift

  /** The verdict the walk gives an order judged against baseline `b`. */
  function VerdictOn(b: Baseline, o: Order): Verdict
    requires Shaped(o)
  {
    if !o.completed then Skip else Judge(b, o)
  }

  /** The verdicts of a walk, oldest order first, and its final baseline. */
  datatype Trace = Trace(verdicts: seq<Verdict>, base: Baseline)

  /** The walk of `p[k-1]` down to `p[0]` from baseline `b`, keeping only the
      baseline: a `Rebase` verdict moves it, every other verdict leaves it. */
  function Replay(p: seq<Order>, k: nat, b: Baseline): (t: Trace)
    requires k <= |p|
    requires forall i :: 0 <= i < k ==> Shaped(p[i])
    decreases k
    ensures |t.verdicts| == k
  {
    if k == 0 then Trace([], b)
    else
      var v := VerdictOn(b, p[k - 1]);
      var t := Replay(p, k - 1, if v.Rebase? then Snapshot(p[k - 1]) else b);
      Trace([v] + t.verdicts, t.base)
  }

  /** The sum of the amounts of the anomalies attributed to `c`. */
  function Total(vs: seq<Verdict>, c: Cause): int
  {
    if vs == [] then 0
    else (if vs[0].Anomaly? && vs[0].cause == c then vs[0].amount else 0) + Total(vs[1..], c)
  }

  predicate AnyAnomaly(vs: seq<Verdict>) {
    exists i :: 0 <= i < |vs| && vs[i].Anomaly?
  }

  /** The accumulators `init` plus what the verdicts `vs` add to them. */
  function Summed(vs: seq<Verdict>, init: Tally): Tally {
    Tally(init.overcharged + Total(vs, Overcharge2022),
          init.vatCost + Total(vs, VatInclusive),
          init.unknownCost + Total(vs, Unknown),
          init.issueFound || AnyAnomaly(vs))
  }

  /** Every overcharge verdict of a replay charges a positive amount, so the
      overcharge total is never negative. */
  lemma {:induction false} OverchargeTotalNonNegative(p: seq<Order>, k: nat, b: Baseline)
    requires k <= |p|
    requires forall i :: 0 <= i < k ==> Shaped(p[i])
    ensures Total(Replay(p, k, b).verdicts, Overcharge2022) >= 0
  {
    if k > 0 {
      var v := VerdictOn(b, p[k - 1]);
      var b' := if v.Rebase? then Snapshot(p[k - 1]) else b;
      OverchargeTotalNonNegative(p, k - 1, b');
      var t := Replay(p, k - 1, b');
      assert ([v] + t.verdicts)[1..] == t.verdicts;
    }
  }

  /** The walk is the replay with the accumulators summed per cause. */
  lemma {:induction false} WalkIsReplay(p: seq<Order>, k: nat, s: Scan)
    requires k <= |p|
    requires forall i :: 0 <= i < k ==> Shaped(p[i])
    ensures var t := Replay(p, k, s.base);
            Walk(p, k, s) == Next(Scan(t.base, Summed(t.verdicts, s.tally)))
  {
    if k > 0 {
      var o := p[k - 1];
      var v := VerdictOn(s.base, o);
      var b' := if v.Rebase? then Snapshot(o) else s.base;
      var s' := Scan(b', Apply(s.tally, v));
      assert Step(s, o) == Next(s');
      WalkIsReplay(p, k - 1, s');
      var t := Replay(p, k - 1, b');
      var vs := [v] + t.verdicts;
      assert vs[1..] == t.verdicts;
      assert AnyAnomaly(vs) <==> v.Anomaly? || AnyAnomaly(t.verdicts) by {
        assert vs[0] == v;
        if AnyAnomaly(t.verdicts) {
          var i :| 0 <= i < |t.verdicts| && t.verdicts[i].Anomaly?;
          assert vs[i + 1] == t.verdicts[i];
        }
        if AnyAnomaly(vs) && !v.Anomaly? {
          var i :| 0 <= i < |vs| && vs[i].Anomaly?;
          assert i > 0 && vs[i] == t.verdicts[i - 1];
        }
      }
    }
  }

  /** For an analyzable history, the callback's outcome is read off the
      replay from the oldest order: flagged exactly when some order is an
      anomaly, with each accumulator the sum of the anomalies of its cause,
      and the baseline currency the one the replay ends on. */
  lemma ClassifyIsReplay(p: seq<Order>)
    requires |p| >= 1 && |p[|p| - 1].items| == 1
    requires forall i :: 0 <= i < |p| - 1 ==> Shaped(p[i])
    ensures var t := Replay(p, |p| - 1, Snapshot(p[|p| - 1]));
            var r := Classify(p);
            && (r.Flagged? <==> AnyAnomaly(t.verdicts))
            && (r == Clean <==> !AnyAnomaly(t.verdicts))
            && (r.Flagged? ==>
                  && r.report.overcharged == Total(t.verdicts, Overcharge2022)
                  && r.report.vatCost == Total(t.verdicts, VatInclusive)
                  && r.report.unknownCost == Total(t.verdicts, Unknown)
                  && r.report.baseCurrency == t.base.currency)
  {
    WalkIsReplay(p, |p| - 1, Scan(Snapshot(p[|p| - 1]), NoIssues));
  }

  /** With no order judged `Rebase`, the replay ends on the baseline it
      started from: skipped orders and anomalies never move it. */
  lemma {:induction false} ReplayKeepsBase(p: seq<Order>, k: nat, b: Baseline)
    requires k <= |p|
    requires forall i :: 0 <= i < k ==> Shaped(p[i])
    requires forall i :: 0 <= i < k ==> !Replay(p, k, b).verdicts[i].Rebase?
    ensures Replay(p, k, b).base == b
  {
    if k > 0 {
      var t := Replay(p, k, b);
      assert !t.verdicts[0].Rebase?;
      var t' := Replay(p, k - 1, b);
      assert t.verdicts == [t.verdicts[0]] + t'.verdicts;
      forall i | 0 <= i < k - 1 ensures !t'.verdicts[i].Rebase? {
        assert t.verdicts[i + 1] == t'.verdicts[i];
      }
      ReplayKeepsBase(p, k - 1, b);
    }
  }

  /** The replay ends on the snapshot of the newest order judged `Rebase`
      (`verdicts[j]` is the verdict on `p[k-1-j]`). */
  lemma {:induction false} ReplayBaseIsLastRebase(p: seq<Order>, k: nat, b: Baseline, j: nat)
    requires k <= |p|
    requires forall i :: 0 <= i < k ==> Shaped(p[i])
    requires j < k && Replay(p, k, b).verdicts[j].Rebase?
    requires NoRebaseAfter(Replay(p, k, b).verdicts, j)
    ensures |p[k - 1 - j].items| == 1 && Replay(p, k, b).base == Snapshot(p[k - 1 - j])
  {
    var v := VerdictOn(b, p[k - 1]);
    var b' := if v.Rebase? then Snapshot(p[k - 1]) else b;
    var t' := Replay(p, k - 1, b');
    var t := Replay(p, k, b);
    assert t == Trace([v] + t'.verdicts, t'.base);
    if j == 0 {
      forall i | 0 <= i < k - 1 ensures !t'.verdicts[i].Rebase? {
        assert t.verdicts[i + 1] == t'.verdicts[i];
      }
      ReplayKeepsBase(p, k - 1, b');
    } else {
      assert t'.verdicts[j - 1] == t.verdicts[j];
      forall i | j - 1 < i < k - 1 ensures !t'.verdicts[i].Rebase? {
        assert t.verdicts[i + 1] == t'.verdicts[i];
      }
      ReplayBaseIsLastRebase(p, k - 1, b', j - 1);
    }
  }

  /** No verdict after the `j`-th is a `Rebase`. */
  predicate NoRebaseAfter(vs: seq<Verdict>, j: nat) {
    forall i :: j < i < |vs| ==> !vs[i].Rebase?
  }

  /** When every completed order has an item, the walk never crashes, and
      it stops for a multi-item order exactly when there is one. */
  lemma {:induction false} WalkRejects(p: seq<Order>, k: nat, s: Scan)
    requires k <= |p|
    requires forall i :: 0 <= i < k ==> p[i].completed ==> |p[i].items| >= 1
    ensures Walk(p, k, s) != Stop(MissingItem)
    ensures Walk(p, k, s) == Stop(TooManyItems) <==> exists i :: 0 <= i < k && |p[i].items| > 1
  {
    if k > 0 {
      match Step(s, p[k - 1])
      case Stop(h) =>
      case Next(s') =>
        WalkRejects(p, k - 1, s');
        if exists i :: 0 <= i < k && |p[i].items| > 1 {
          var i :| 0 <= i < k && |p[i].items| > 1;
          assert i < k - 1;
        }
    }
  }

  /** A subscription is abandoned exactly when one of its orders, the oldest
      included, has more than one item; with the oldest order and every
      completed order carrying an item, the callback crashes only on an
      empty history. */
  lemma RejectedIffMultiItem(p: seq<Order>)
    requires |p| > 0 ==> |p[|p| - 1].items| >= 1
    requires forall i :: 0 <= i < |p| ==> p[i].completed ==> |p[i].items| >= 1
    ensures Classify(p) == Rejected <==> exists i :: 0 <= i < |p| && |p[i].items| > 1
    ensures Classify(p) == Crashed <==> |p| == 0
  {
    if |p| > 0 {
      var init := p[|p| - 1];
      WalkRejects(p, |p| - 1, Scan(Snapshot(init), NoIssues));
      if |init.items| <= 1 && exists i :: 0 <= i < |p| && |p[i].items| > 1 {
        var i :| 0 <= i < |p| && |p[i].items| > 1;
        assert i < |p| - 1;
      }
    }
  }

  /** Two histories that agree on their first `k` orders walk alike. */
  lemma {:induction false} WalkPrefix(p: seq<Order>, q: seq<Order>, k: nat, s: Scan)
    requires k <= |p| && k <= |q|
    requires forall i :: 0 <= i < k ==> p[i] == q[i]
    ensures Walk(p, k, s) == Walk(q, k, s)
  {
    if k > 0 {
      match Step(s, p[k - 1])
      case Stop(_) =>
      case Next(s') => WalkPrefix(p, q, k - 1, s');
    }
  }

  /** An order that did not complete (and has at most one item) can be
      dropped from the walk without changing anything. */
  lemma {:induction false} WalkIgnoresIncomplete(p: seq<Order>, k: nat, j: nat, s: Scan)
    requires j < k <= |p|
    requires !p[j].completed && |p[j].items| <= 1
    ensures Walk(p, k, s) == Walk(p[..j] + p[j + 1..], k - 1, s)
  {
    var q := p[..j] + p[j + 1..];
    if k - 1 == j {
      assert Step(s, p[j]) == Next(s);
      WalkPrefix(p, q, j, s);
    } else {
      assert q[k - 2] == p[k - 1];
      match Step(s, p[k - 1])
      case Stop(_) =>
      case Next(s') =>
        WalkIgnoresIncomplete(p, k - 1, j, s');
    }
  }

  /** Between the oldest and the newest payment, an order that did not
      complete leaves the callback's outcome unchanged. */
  lemma IncompleteOrderIsInert(p: seq<Order>, j: nat)
    requires 0 < j < |p| - 1
    requires !p[j].completed && |p[j].items| <= 1
    ensures Classify(p) == Classify(p[..j] + p[j + 1..])
  {
    var q := p[..j] + p[j + 1..];
    assert q[|q| - 1] == p[|p| - 1] && q[0] == p[0];
    var init := p[|p| - 1];
    if |init.items| == 1 {
      WalkIgnoresIncomplete(p, |p| - 1, j, Scan(Snapshot(init), NoIssues));
    }
  }
}
