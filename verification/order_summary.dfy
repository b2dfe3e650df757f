/** The notification payload class `OrderSummary`. Its properties are declared
    nullable in the source; the constructor fills all four. */
module OrderSummaries {
  import opened Outcomes
  import opened Entities

  datatype OrderSummary = OrderSummary(
    id: Option<Instant>,
    shipToAddress: Option<Address>,
    orderItems: Option<seq<OrderItem>>,
    total: int)

  /** The four-argument constructor: a plain projection of its arguments. */
  function NewOrderSummary(id: Instant, shipToAddress: Address, orderItems: seq<OrderItem>, total: int): OrderSummary
  {
    OrderSummary(Some(id), Some(shipToAddress), Some(orderItems), total)
  }
}
