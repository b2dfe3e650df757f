# Checkout in eShopOnWeb's `OrderService`, modelled in Dafny

This project models the checkout path of the eShopOnWeb application core.
`CreateOrderAsync` turns a buyer's basket into an `Order`. It then sends the
item reserver a reduced `{ItemId, Quantity}` list over the service bus, and
finally stores the order. The model also covers the `OrderSummary`
projection, the `OrderSummaryReduce` loop, the endpoint choice for the
reserver function, and the return-value rule of `PostJson`.

Everything is an immutable datatype or a pure function:

- The repositories are sequences (`OrderService.Repositories`): baskets, catalog records and a log of stored orders.
- The LINQ operators the code uses (`Where`, `First`, `FirstOrDefault`) are in module `Linq`.
- The collaborators this core cannot see are function inputs (`OrderService.Services`): the URI composer, whether `QueueClient.SendAsync` completes, and whether `IRepository<Order>.AddAsync` completes.
- The clock reading the `Order` constructor takes is an input (`now`).
- A thrown exception is an `Err` of `OrderService.CheckoutError`. A C# `null` is `None`.
- A checkout yields a trace of the calls it made to the outside: `Notify(payload)` for a send and `Persist(order)` for an add.

Money is in integer cents, where the source uses `decimal`. Dates are opaque.

Files:

- `outcomes.dfy`: the `Option` and `Result` types.
- `linq.dfy`: the LINQ operators.
- `entities.dfy`: baskets, catalog records, orders and totals.
- `order_summary.dfy`: `OrderSummary`.
- `order_service.dfy`: the service.
- `checkout_properties.dfy`: the properties of a whole checkout.

A failed send is not best-effort in this code. The exception from
`PostJsonViaServiceBus` at src/ApplicationCore/Services/OrderService.cs:78
propagates, so `AddAsync` on line 79 never runs and the order is not stored.
A reader who expects notification to be best-effort should note this. The model follows the code
(`CheckoutProperties.NotificationFailureBlocksPersistence`,
`CheckoutProperties.FailingNotifierStoresNothing`).

## Model

| member | source | states |
|---|---|---|
| Linq.First | src/ApplicationCore/Services/OrderService.cs:57 | `FirstOrDefault`/`First` finds nothing exactly when no element matches; otherwise it returns a matching element with no match before it |
| Linq.Where | src/ApplicationCore/Services/OrderService.cs:62-63 | a specification's filter keeps only elements of the input that match, keeps every element that matches, and never grows the sequence |
| Linq.WhereAppend | src/ApplicationCore/Services/OrderService.cs:62-63 | the filter keeps order and multiplicity: filtering a concatenation concatenates the filtered parts |
| Linq.WhereSingleton | src/ApplicationCore/Services/OrderService.cs:62-63 | a one-element sequence is kept exactly when its element matches; with `WhereAppend` this fixes the result on every sequence |
| Linq.FirstOfWhere | src/ApplicationCore/Services/OrderService.cs:62-67 | searching the filtered listing for an id the filter keeps finds the same record as searching the whole sequence |
| Entities.TotalMatchesBasketTotal | src/ApplicationCore/Services/OrderService.cs:65-75 | order lines carrying the basket lines' prices and quantities one for one have `Total()` equal to the sum of price times quantity over the basket |
| OrderService.FunctionAppRequestUri | src/ApplicationCore/Services/OrderService.cs:27-41 | the endpoint is never empty; a non-empty `OrderItemsReserverFunctionAppLink` override is used verbatim; a missing or empty one gives `https://orderitemreserver.azurewebsites.net` |
| OrderService.PostJsonAsWritten | src/ApplicationCore/Services/OrderService.cs:104-114 | as written, the returned text is the `Task`'s type name whatever the response body is (see Findings) |
| OrderService.PostJsonResponse | src/ApplicationCore/Services/OrderService.cs:112-113 | the intended rule: a non-empty body is returned as is; a null or empty body gives `Function App call failed!`; the result is never empty |
| OrderService.ReduceAll | src/ApplicationCore/Services/OrderService.cs:128-136 | the reduced payload has one entry per order line, in order, with that line's catalog id and units |
| OrderService.OrderSummaryReduce | src/ApplicationCore/Services/OrderService.cs:116-139 | the index-by-index loop rejects a null collection with an error and otherwise preserves length, order, catalog ids and units, agreeing with the line-by-line definition |
| OrderService.CatalogIds | src/ApplicationCore/Services/OrderService.cs:62 | the ids passed to the catalog query are the basket lines' catalog ids, one per line, in order |
| OrderService.SelectOrderItems | src/ApplicationCore/Services/OrderService.cs:65-71 | succeeds exactly when every basket line's record is in the listing; then it builds one order line per basket line, in order, from that record and the line's price and quantity; otherwise it fails naming the first line without a record |
| OrderService.PostJsonViaServiceBus | src/ApplicationCore/Services/OrderService.cs:82-102 | a summary without items fails before any send; otherwise exactly one send of the reduced items is made, and the step fails exactly when the send fails |
| OrderService.CreateOrder | src/ApplicationCore/Services/OrderService.cs:54-80 | every trace is empty, a lone notification, or a notification then a persist; baskets and catalog are never written; the checkout succeeds exactly when the persist was reached and completed, which appends that order to the store; a failed checkout leaves every repository as it was |
| CheckoutProperties.FindBasketAt | src/ApplicationCore/Services/OrderService.cs:56-57 | the basket fetched for an id is the first basket in the repository with that id |
| CheckoutProperties.FindCatalogItemSome | src/ApplicationCore/Services/OrderService.cs:67 | `First` by id finds a record exactly when some record has that id, and what it finds is a catalog record with that id |
| CheckoutProperties.ListingPreservesLookup | src/ApplicationCore/Services/OrderService.cs:62-67 | for every basket line, the record found in the fetched listing is the record found in the whole catalog |
| CheckoutProperties.ListingResolvesIffInCatalog | src/ApplicationCore/Services/OrderService.cs:62-67 | a basket line resolves in the listing exactly when the catalog holds a record with its id |
| CheckoutProperties.MissingBasketFailsCheckout | src/ApplicationCore/Services/OrderService.cs:56-59 | no basket with the id: the checkout fails with `BasketNotFound`, with no notification, no persist and nothing stored |
| CheckoutProperties.EmptyBasketFailsCheckout | src/ApplicationCore/Services/OrderService.cs:60 | a basket without lines fails with `EmptyBasket` whatever the catalog holds, with no notification, no persist and nothing stored |
| CheckoutProperties.AssemblySucceedsIffAllResolve | src/ApplicationCore/Services/OrderService.cs:59-73 | for a found basket, assembly succeeds exactly when the basket has lines and every line's catalog id has a record |
| CheckoutProperties.MissingCatalogItemFailsCheckout | src/ApplicationCore/Services/OrderService.cs:62-67 | a line without a catalog record fails the checkout; the error names the first unresolved line, which is no later than that line; there is no notification and nothing is stored |
| CheckoutProperties.AssembledOrderMirrorsBasket | src/ApplicationCore/Services/OrderService.cs:65-73 | a found, non-empty basket whose lines all have catalog records is assembled into an order. The order has the basket's buyer, the given address and the clock reading, and one line per basket line in basket order. Each line has the catalog record's id (equal to the line's catalog id), the record's name, the composed picture URI, and the basket line's unit price and quantity |
| CheckoutProperties.OrderTotalIsBasketTotal | src/ApplicationCore/Services/OrderService.cs:65-75 | such a basket assembles, and the order's total is the sum of unit price times quantity over the basket |
| CheckoutProperties.SummaryOfProjectsOrder | src/ApplicationCore/Entities/OrderAggregate/OrderSummary.cs:12-18 | the summary built at line 75 has the order's date as `id`, the order's address and lines, and a total equal to its own lines' total; the notifier's null check never fires on it |
| CheckoutProperties.SuccessfulCheckoutNotifiesThenPersists | src/ApplicationCore/Services/OrderService.cs:75-79 | when all steps complete, the trace is exactly one notification of the reduced lines followed by exactly one persist of the order, and the store gains that order |
| CheckoutProperties.NotificationFailureBlocksPersistence | src/ApplicationCore/Services/OrderService.cs:78-79 | a failed send ends the checkout with `NotificationFailed` after the attempted send; there is no persist and nothing is stored |
| CheckoutProperties.CheckoutNotifiesAssembledLines | src/ApplicationCore/Services/OrderService.cs:73-78 | a checkout makes no calls exactly when assembly fails; otherwise its first call sends the assembled order's reduced lines |
| CheckoutProperties.NotifiedPayloadMatchesBasket | src/ApplicationCore/Services/OrderService.cs:62-78 | for such a basket a notification is always sent, whatever happens after it; it has one entry per basket line, in basket order, carrying that line's catalog id and quantity |
| CheckoutProperties.SingleLineAssembly | src/ApplicationCore/Services/OrderService.cs:56-73 | a single-line basket whose record exists assembles to a one-line order built from that record |
| CheckoutProperties.WidgetCheckout | src/ApplicationCore/Services/OrderService.cs:54-80 | four widgets at 3.50: one order line worth 14.00, payload `[{5, 4}]`, then the order is stored |
| CheckoutProperties.FailingNotifierStoresNothing | src/ApplicationCore/Services/OrderService.cs:78-79 | two of item 7 with a failing notifier: the send is attempted with `[{7, 2}]`, the checkout fails, and no order is stored |
| CheckoutProperties.PostJsonAsWrittenLosesBody | src/ApplicationCore/Services/OrderService.cs:112-113 | for every runtime type name, some non-empty body is not passed on by the code as written, and an empty body does not yield the failure message |

## Left out

- The Azure Service Bus client is not modelled. This covers `QueueClient` construction, the connection string and queue name, `Message`, UTF-8 encoding and `CloseAsync`. The send is a single yes/no input. A `CloseAsync` failure is not modelled, and nor is the fact that the connection is left open when `SendAsync` throws.
- JSON serialisation (Newtonsoft) is a foreign library and is not modelled. The payload is the reduced sequence itself.
- `PostJson`'s HTTP exchange (`HttpClient`, request construction, transport failures) is not modelled. Only the rule that picks its return text is. The call site at line 76 is commented out, so no checkout uses `PostJson` or `FunctionAppRequestUri`.
- The repository calls and the specification classes are modelled only by their effect. `BasketWithItemsSpecification` is the first basket with the id. `CatalogItemsSpecification` is assumed to keep the records whose id is among the given ids, in repository order; its source is not part of this model.
- `IUriComposer.ComposePicUri` is an uninterpreted function input.
- Reading the environment is modelled as a lookup in a map from variable names to values.
- `Order`, `OrderItem`, `CatalogItemOrdered`, `Order.Total()` and the `EmptyBasketOnCheckout` guard are not part of this model as source. They are modelled by the shapes this code uses: `Total` is the sum of unit price times units, and the guard rejects a collection without elements.
- `async`/`Task` scheduling is not modelled: the steps of one checkout run in sequence.
- `decimal` and 32-bit `int` limits are not modelled: amounts are unbounded integer cents. The code only copies ids and quantities, so nothing overflows there. `Total()` could in principle exceed `decimal`'s range.
- The `Order` constructor reads the clock. This is modelled as the input `now`.
- The order's database id and basket deletion after checkout are not modelled; neither is done in this code.

## Findings

| source | as written | input that shows it | evidently intended | confidence | as-written member | corrected member |
|---|---|---|---|---|---|---|
| src/ApplicationCore/Services/OrderService.cs:112-113 | `ReadFromJsonAsync<dynamic>()` is not awaited, so `.ToString()` renders the `Task` object: the text is its runtime type name, never empty, so the body is never returned and the fallback is unreachable | any response, for instance a body `{"reserved":true}` (not returned) or an empty body (no `Function App call failed!`) | return the awaited body's text when it is non-empty, otherwise `Function App call failed!` | high; not executed | OrderService.PostJsonAsWritten, CheckoutProperties.PostJsonAsWrittenLosesBody | OrderService.PostJsonResponse |
