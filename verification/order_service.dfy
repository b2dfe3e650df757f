/** `OrderService`: turning a basket into an order, telling the item reserver
    which items to reserve, and storing the order.

    The repositories become sequences (`Repositories`), and the collaborators
    this core cannot see become function inputs (`Services`): the URI
    composer, whether the service-bus send completes, whether the order
    repository's add completes. The clock reading the `Order` constructor takes
    is an input as well. */
module OrderService {
  import opened Outcomes
  import opened Linq
  import opened Entities
  import opened OrderSummaries

  /** The exceptions a checkout can end with. */
  datatype CheckoutError =
    | BasketNotFound(basketId: int)          // Guard.Against.Null on the basket
    | EmptyBasket                            // Guard.Against.EmptyBasketOnCheckout
    | CatalogItemMissing(catalogItemId: int) // Enumerable.First found no catalog record
    | OrderItemsNull                         // the summary's or the reducer's null check
    | NotificationFailed                     // QueueClient.SendAsync threw
    | PersistenceFailed                      // IRepository<Order>.AddAsync threw

  /** What the repositories hold: baskets, catalog records and stored orders. */
  datatype Repositories = Repositories(baskets: seq<Basket>, catalog: seq<CatalogItem>, orders: seq<Order>)

  /** The collaborators a checkout calls out to. */
  datatype Services = Services(
    composePicUri: string -> string,               // IUriComposer.ComposePicUri
    send: seq<ReducedOrderSummary> -> bool,        // true when SendAsync completes
    add: Order -> bool)                            // true when AddAsync completes

  /** One `{ItemId, Quantity}` entry of the payload sent to the reserver. */
  datatype ReducedOrderSummary = ReducedOrderSummary(itemId: int, quantity: int)

  /** The externally visible steps of a checkout, in the order they happen. */
  datatype Event =
    | Notify(payload: seq<ReducedOrderSummary>)   // a SendAsync call with this payload
    | Persist(order: Order)                       // an AddAsync call with this order

  /** The notification step: the calls it made and whether it threw. */
  datatype Sent = Sent(trace: seq<Event>, status: Result<(), CheckoutError>)

  /** A whole checkout: the calls it made, whether it threw, and the
      repositories afterwards. */
  datatype Checkout = Checkout(trace: seq<Event>, status: Result<(), CheckoutError>, repos: Repositories)

  const ReserverLinkVariable := "OrderItemsReserverFunctionAppLink"
  const DefaultReserverUri := "https://orderitemreserver.azurewebsites.net"
  const FunctionAppCallFailed := "Function App call failed!"

  /** `string.IsNullOrEmpty`. */
  predicate IsNullOrEmpty(s: Option<string>)
  {
    s.None? || s.value == ""
  }

  /** `Environment.GetEnvironmentVariable` over a snapshot of the environment. */
  function GetEnvironmentVariable(env: map<string, string>, name: string): Option<string>
  {
    if name in env then Some(env[name]) else None
  }

  // ---------------------------------------------------------------------
  // Endpoint choice and the HTTP response text

  /** The reserver function's URI: the environment override when it is set
      and non-empty, the built-in default otherwise. */
  function FunctionAppRequestUri(env: map<string, string>): (uri: string)
    ensures uri != ""
    ensures ReserverLinkVariable in env && env[ReserverLinkVariable] != "" ==>
      uri == env[ReserverLinkVariable]
    ensures ReserverLinkVariable !in env || env[ReserverLinkVariable] == "" ==> uri == DefaultReserverUri
  {
    var link := GetEnvironmentVariable(env, ReserverLinkVariable);
    if !IsNullOrEmpty(link) then link.value else DefaultReserverUri
  }

  /** The text `PostJson` returns as its code reads: `ReadFromJsonAsync<dynamic>()`
      is not awaited, so `.ToString()` renders the `Task` object itself, that
      is, its runtime type name (`taskTypeName`, never empty). The response
      body plays no part in the result. */
  function PostJsonAsWritten(taskTypeName: string, body: Option<string>): (text: string)
    requires taskTypeName != ""
    ensures text == taskTypeName
  {
    var responseResults := taskTypeName;
    if !IsNullOrEmpty(Some(responseResults)) then responseResults else FunctionAppCallFailed
  }

  /** The text `PostJson` is meant to return: the response body's text when it
      is non-empty, the fixed failure message otherwise. */
  function PostJsonResponse(body: Option<string>): (text: string)
    ensures text != ""
    ensures !IsNullOrEmpty(body) ==> text == body.value
    ensures IsNullOrEmpty(body) ==> text == FunctionAppCallFailed
  {
    var responseResults := body;
    if !IsNullOrEmpty(responseResults) then responseResults.value else FunctionAppCallFailed
  }

  // ---------------------------------------------------------------------
  // Reduction of order lines to the reserver's payload

  function ReduceItem(item: OrderItem): ReducedOrderSummary
  {
    ReducedOrderSummary(item.itemOrdered.catalogItemId, item.units)
  }

  /** The reserver payload for a list of order lines, built line by line. */
  function ReduceAll(items: seq<OrderItem>): (r: seq<ReducedOrderSummary>)
    ensures |r| == |items|
    ensures forall i :: 0 <= i < |items| ==>
      r[i].itemId == items[i].itemOrdered.catalogItemId && r[i].quantity == items[i].units
  {
    if |items| == 0 then [] else [ReduceItem(items[0])] + ReduceAll(items[1..])
  }

  /** `OrderSummaryReduce`: rejects a null collection, otherwise copies each
      line's catalog id and units into a payload entry, index by index. */
  method OrderSummaryReduce(orderItems: Option<seq<OrderItem>>)
    returns (r: Result<seq<ReducedOrderSummary>, CheckoutError>)
    ensures orderItems.None? <==> r == Err(OrderItemsNull)
    ensures orderItems.Some? ==> r.Ok? && r.value == ReduceAll(orderItems.value)
    ensures orderItems.Some? ==> |r.value| == |orderItems.value|
    ensures orderItems.Some? ==>
      forall i :: 0 <= i < |orderItems.value| ==>
        r.value[i].itemId == orderItems.value[i].itemOrdered.catalogItemId &&
        r.value[i].quantity == orderItems.value[i].units
  {
    if orderItems.None? {
      return Err(OrderItemsNull);
    }
    var items := orderItems.value;
    var collection: seq<ReducedOrderSummary> := [];
    var orderCount := |items|;
    var i := 0;
    while i < orderCount
      invariant 0 <= i <= orderCount
      invariant |collection| == i
      invariant forall j :: 0 <= j < i ==> collection[j] == ReduceItem(items[j])
    {
      var reduced := ReducedOrderSummary(items[i].itemOrdered.catalogItemId, items[i].units);
      collection := collection + [reduced];
      i := i + 1;
    }
    return Ok(collection);
  }

  // ---------------------------------------------------------------------
  // Order assembly

  function BasketIdIs(basketId: int): Basket -> bool
  {
    (b: Basket) => b.id == basketId
  }

  function CatalogIdIs(catalogItemId: int): CatalogItem -> bool
  {
    (c: CatalogItem) => c.id == catalogItemId
  }

  function CatalogIdIn(ids: seq<int>): CatalogItem -> bool
  {
    (c: CatalogItem) => c.id in ids
  }

  /** `FirstOrDefaultAsync(new BasketWithItemsSpecification(basketId))`. */
  function FindBasket(baskets: seq<Basket>, basketId: int): Option<Basket>
  {
    First(baskets, BasketIdIs(basketId))
  }

  /** `First(c => c.Id == catalogItemId)` over a list of catalog records. */
  function FindCatalogItem(catalog: seq<CatalogItem>, catalogItemId: int): Option<CatalogItem>
  {
    First(catalog, CatalogIdIs(catalogItemId))
  }

  /** The catalog ids a basket refers to, one per line. */
  function CatalogIds(items: seq<BasketItem>): (ids: seq<int>)
    ensures |ids| == |items|
    ensures forall i :: 0 <= i < |items| ==> ids[i] == items[i].catalogItemId
  {
    if |items| == 0 then [] else [items[0].catalogItemId] + CatalogIds(items[1..])
  }

  /** `ListAsync(new CatalogItemsSpecification(ids))`: the catalog records
      whose id is among `ids`, in repository order. */
  function ListCatalogItems(catalog: seq<CatalogItem>, ids: seq<int>): seq<CatalogItem>
  {
    Where(catalog, CatalogIdIn(ids))
  }

  /** The order line built from a basket line and its catalog record. */
  function OrderItemFor(line: BasketItem, record: CatalogItem, composePicUri: string -> string): OrderItem
  {
    OrderItem(CatalogItemOrdered(record.id, record.name, composePicUri(record.pictureUri)),
              line.unitPrice, line.quantity)
  }

  /** `basket.Items.Select(...).ToList()`: one order line per basket line, in
      basket order; the first line whose catalog record is missing makes
      `First` throw, and no later line is looked at. */
  function SelectOrderItems(lines: seq<BasketItem>, listed: seq<CatalogItem>, composePicUri: string -> string)
    : (r: Result<seq<OrderItem>, CheckoutError>)
    ensures r.Ok? <==> forall i :: 0 <= i < |lines| ==> FindCatalogItem(listed, lines[i].catalogItemId).Some?
    ensures r.Ok? ==> |r.value| == |lines|
    ensures r.Ok? ==>
      forall i :: 0 <= i < |lines| ==>
        r.value[i] == OrderItemFor(lines[i], FindCatalogItem(listed, lines[i].catalogItemId).value, composePicUri)
    ensures r.Err? ==>
      exists k :: 0 <= k < |lines| && r.error == CatalogItemMissing(lines[k].catalogItemId) &&
        FindCatalogItem(listed, lines[k].catalogItemId).None? &&
        forall j :: 0 <= j < k ==> FindCatalogItem(listed, lines[j].catalogItemId).Some?
  {
    if |lines| == 0 then Ok([])
    else
      match FindCatalogItem(listed, lines[0].catalogItemId)
      case None => Err(CatalogItemMissing(lines[0].catalogItemId))
      case Some(record) =>
        match SelectOrderItems(lines[1..], listed, composePicUri)
        case Err(e) =>
          assert forall k :: 0 < k < |lines| ==> lines[1..][k - 1] == lines[k];
          Err(e)
        case Ok(rest) => Ok([OrderItemFor(lines[0], record, composePicUri)] + rest)
  }

  /** Lines 56-73 of `CreateOrderAsync`: fetch the basket, guard against a
      missing or empty one, fetch the catalog records it refers to, and build
      the order stamped with the clock reading `now`. */
  function AssembleOrder(repos: Repositories, composePicUri: string -> string, now: Instant,
                         basketId: int, shippingAddress: Address): Result<Order, CheckoutError>
  {
    match FindBasket(repos.baskets, basketId)
    case None => Err(BasketNotFound(basketId))
    case Some(basket) =>
      if |basket.items| == 0 then Err(EmptyBasket)
      else
        var catalogItems := ListCatalogItems(repos.catalog, CatalogIds(basket.items));
        var items :- SelectOrderItems(basket.items, catalogItems, composePicUri);
        Ok(Order(basket.buyerId, shippingAddress, now, items))
  }

  /** Line 75: the summary handed to the notifier. */
  function SummaryOf(order: Order): OrderSummary
  {
    NewOrderSummary(order.orderDate, order.shipToAddress, order.orderItems, Total(order.orderItems))
  }

  /** `PostJsonViaServiceBus`: reject a summary without items, reduce them and
      send the payload to the reserver queue once; a failed send throws. */
  function PostJsonViaServiceBus(summary: OrderSummary, send: seq<ReducedOrderSummary> -> bool): (r: Sent)
    ensures summary.orderItems.None? ==> r.trace == [] && r.status == Err(OrderItemsNull)
    ensures summary.orderItems.Some? ==>
      r.trace == [Notify(ReduceAll(summary.orderItems.value))] &&
      (r.status.Ok? <==> send(ReduceAll(summary.orderItems.value))) &&
      (r.status.Err? ==> r.status.error == NotificationFailed)
  {
    if summary.orderItems.None? then Sent([], Err(OrderItemsNull))
    else
      var payload := ReduceAll(summary.orderItems.value);
      if send(payload) then Sent([Notify(payload)], Ok(()))
      else Sent([Notify(payload)], Err(NotificationFailed))
  }

  /** The shapes a checkout's trace can take: nothing, a notification alone,
      or a notification followed by one persist. */
  predicate WellOrderedTrace(trace: seq<Event>)
  {
    || trace == []
    || (|trace| == 1 && trace[0].Notify?)
    || (|trace| == 2 && trace[0].Notify? && trace[1].Persist?)
  }

  /** `CreateOrderAsync`: assemble, summarise, notify, then persist. Each step
      runs only if the one before it did not throw. */
  function CreateOrder(repos: Repositories, services: Services, now: Instant,
                       basketId: int, shippingAddress: Address): (c: Checkout)
    ensures WellOrderedTrace(c.trace)
    ensures c.repos.baskets == repos.baskets && c.repos.catalog == repos.catalog
    ensures c.status.Ok? <==> |c.trace| == 2 && services.add(c.trace[1].order)
    ensures c.status.Ok? ==> c.repos.orders == repos.orders + [c.trace[1].order]
    ensures c.status.Err? ==> c.repos == repos
  {
    match AssembleOrder(repos, services.composePicUri, now, basketId, shippingAddress)
    case Err(e) => Checkout([], Err(e), repos)
    case Ok(order) =>
      var sent := PostJsonViaServiceBus(SummaryOf(order), services.send);
      if sent.status.Err? then Checkout(sent.trace, Err(sent.status.error), repos)
      else
        var trace := sent.trace + [Persist(order)];
        if services.add(order) then Checkout(trace, Ok(()), repos.(orders := repos.orders + [order]))
        else Checkout(trace, Err(PersistenceFailed), repos)
  }
}
