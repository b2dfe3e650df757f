/** The entities the checkout reads and builds: baskets and catalog records on
    the way in, orders and their items on the way out. Money is in integer
    cents (the source uses `decimal`); timestamps are opaque. */
module Entities {

  /** A `DateTimeOffset`; the checkout only copies it, so it stays opaque. */
  datatype Instant = Instant(ticks: int)

  /** A shipping address, a value type this core never inspects. */
  datatype Address = Address(street: string, city: string, state: string, country: string, zipCode: string)

  /** One basket line: which catalog item, at what unit price, how many. */
  datatype BasketItem = BasketItem(catalogItemId: int, unitPrice: int, quantity: int)

  /** A buyer's basket with its lines, in the order they were added. */
  datatype Basket = Basket(id: int, buyerId: string, items: seq<BasketItem>)

  /** A catalog record; `pictureUri` is relative until a URI composer expands it. */
  datatype CatalogItem = CatalogItem(id: int, name: string, pictureUri: string)

  /** The snapshot of a catalog record an order line keeps. */
  datatype CatalogItemOrdered = CatalogItemOrdered(catalogItemId: int, productName: string, pictureUri: string)

  /** A price-locked order line. */
  datatype OrderItem = OrderItem(itemOrdered: CatalogItemOrdered, unitPrice: int, units: int)

  /** A finished order; `orderDate` is the clock reading taken when it is built. */
  datatype Order = Order(buyerId: string, shipToAddress: Address, orderDate: Instant, orderItems: seq<OrderItem>)

  /** `Order.Total()`: the sum of unit price times units over the lines. */
  function Total(items: seq<OrderItem>): int
  {
    if |items| == 0 then 0
    else items[0].unitPrice * items[0].units + Total(items[1..])
  }

  /** What the basket lines are worth: the sum of unit price times quantity. */
  function BasketTotal(items: seq<BasketItem>): int
  {
    if |items| == 0 then 0
    else items[0].unitPrice * items[0].quantity + BasketTotal(items[1..])
  }

  /** Order lines that carry the basket lines' prices and quantities, one for
      one, are worth what the basket is worth. */
  lemma {:induction false} TotalMatchesBasketTotal(lines: seq<OrderItem>, basket: seq<BasketItem>)
    requires |lines| == |basket|
    requires forall i :: 0 <= i < |lines| ==>
      lines[i].unitPrice == basket[i].unitPrice && lines[i].units == basket[i].quantity
    ensures Total(lines) == BasketTotal(basket)
  {
    if |lines| > 0 {
      TotalMatchesBasketTotal(lines[1..], basket[1..]);
    }
  }
}
