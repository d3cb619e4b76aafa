/**
 * The data the price-drift audit reads from the commerce platform: a
 * subscription's billing history, one order per payment.
 *
 * Monetary amounts are integers in minor units (cents) and timestamps are
 * integers in milliseconds since the Unix epoch.
 */
module Orders {

  datatype Option<T> = None | Some(value: T)

  /** One line item of an order: the product, its price before tax, and
      the subscription the item renews. */
  datatype Item = Item(sku: string, subtotal: int, subscription: string)

  /** One billing event of a subscription. `changed` is the time the order
      was last changed; `total` is what was charged, tax included. */
  datatype Order = Order(
    completed: bool,
    changed: int,
    currency: string,
    total: int,
    tax: int,
    items: seq<Item>)

  /** The "last known correct" pricing an order is compared with: currency,
      SKU, item subtotal and order total. */
  datatype Baseline = Baseline(currency: string, sku: string, itemCost: int, orderCost: int)

  /** The baseline an order establishes when it is taken as correctly priced. */
  function Snapshot(o: Order): Baseline
    requires |o.items| >= 1
  {
    Baseline(o.currency, o.items[0].sku, o.items[0].subtotal, o.total)
  }

  /** The shape of order the classifier can judge: exactly one item, or no
      item at all on an order that did not complete (such an order is
      skipped before its item is looked at). */
  predicate Shaped(o: Order) {
    |o.items| == 1 || (|o.items| == 0 && !o.completed)
  }
}
