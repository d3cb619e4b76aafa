/**
 * Page arithmetic of the pagination driver: subscriptions are listed 50 to
 * a page, and the pages are visited from the last (oldest subscriptions) to
 * the first.
 */
module Paging {

  /** `Math.ceil(total / 50)`: the number of pages `total` subscriptions fill. */
  function PageCount(total: nat): (n: nat)
    ensures n * 50 >= total
    ensures n > 0 ==> (n - 1) * 50 < total
  {
    (total + 49) / 50
  }

  /** The pages the driver fetches when started on page `n`: `n`, `n-1`, ...,
      down to 1, each once. With no page at all it still fetches page 0. */
  function PagesVisited(n: nat): (pages: seq<nat>)
    decreases n
    ensures |pages| == if n == 0 then 1 else n
    ensures forall i :: 0 <= i < |pages| ==> pages[i] + i == n
  {
    if n <= 1 then [n] else [n] + PagesVisited(n - 1)
  }

  /** Every subscription, counted from the oldest, lies on a page the driver
      visits. */
  lemma EveryPageVisited(total: nat, t: nat)
    requires t < total
    ensures 1 <= t / 50 + 1 <= PageCount(total)
    ensures t / 50 + 1 in PagesVisited(PageCount(total))
  {
    var n := PageCount(total);
    var page := t / 50 + 1;
    assert page <= n;
    var pages := PagesVisited(n);
    assert pages[n - page] == page;
  }
}
