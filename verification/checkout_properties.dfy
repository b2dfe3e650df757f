/** What a checkout promises, stated over the basket and catalog data rather
    than over the steps that compute it. */
module CheckoutProperties {
  import opened Outcomes
  import opened Linq
  import opened Entities
  import opened OrderService

  /** The basket the repository hands back for `basketId` is the one at
      index `k`: the first with that id. */
  predicate BasketAt(baskets: seq<Basket>, basketId: int, k: int)
  {
    && 0 <= k < |baskets|
    && baskets[k].id == basketId
    && forall j :: 0 <= j < k ==> baskets[j].id != basketId
  }

  /** Some catalog record carries id `catalogItemId`. */
  predicate InCatalog(catalog: seq<CatalogItem>, catalogItemId: int)
  {
    exists j :: 0 <= j < |catalog| && catalog[j].id == catalogItemId
  }

  /** Every line of the basket at `k` has a catalog record. */
  predicate AllLinesInCatalog(repos: Repositories, k: int)
    requires 0 <= k < |repos.baskets|
  {
    forall i :: 0 <= i < |repos.baskets[k].items| ==>
      InCatalog(repos.catalog, repos.baskets[k].items[i].catalogItemId)
  }

  lemma FindBasketAt(baskets: seq<Basket>, basketId: int, k: int)
    requires BasketAt(baskets, basketId, k)
    ensures FindBasket(baskets, basketId) == Some(baskets[k])
  {
    var r := FindBasket(baskets, basketId);
    assert BasketIdIs(basketId)(baskets[k]);
    var m :| 0 <= m < |baskets| && baskets[m] == r.value && BasketIdIs(basketId)(baskets[m]) &&
      forall j :: 0 <= j < m ==> !BasketIdIs(basketId)(baskets[j]);
    assert !(m < k) && !(k < m);
  }

  lemma FindCatalogItemSome(catalog: seq<CatalogItem>, catalogItemId: int)
    ensures FindCatalogItem(catalog, catalogItemId).Some? <==> InCatalog(catalog, catalogItemId)
    ensures FindCatalogItem(catalog, catalogItemId).Some? ==>
      FindCatalogItem(catalog, catalogItemId).value in catalog &&
      FindCatalogItem(catalog, catalogItemId).value.id == catalogItemId
  {
    if InCatalog(catalog, catalogItemId) {
      var j :| 0 <= j < |catalog| && catalog[j].id == catalogItemId;
      assert CatalogIdIs(catalogItemId)(catalog[j]);
    }
  }

  /** Looking a basket line's record up in the listing fetched for the basket
      gives the same record as looking it up in the whole catalog. */
  lemma ListingPreservesLookup(catalog: seq<CatalogItem>, lines: seq<BasketItem>)
    ensures forall i :: 0 <= i < |lines| ==>
      FindCatalogItem(ListCatalogItems(catalog, CatalogIds(lines)), lines[i].catalogItemId) ==
      FindCatalogItem(catalog, lines[i].catalogItemId)
  {
    var ids := CatalogIds(lines);
    forall i | 0 <= i < |lines|
      ensures FindCatalogItem(ListCatalogItems(catalog, ids), lines[i].catalogItemId) ==
              FindCatalogItem(catalog, lines[i].catalogItemId)
    {
      var id := lines[i].catalogItemId;
      assert ids[i] == id;
      FirstOfWhere(catalog, CatalogIdIn(ids), CatalogIdIs(id));
    }
  }

  /** A basket line resolves in the listing fetched for its basket exactly
      when some catalog record has its id. */
  lemma ListingResolvesIffInCatalog(catalog: seq<CatalogItem>, lines: seq<BasketItem>)
    ensures forall i :: 0 <= i < |lines| ==>
      (FindCatalogItem(ListCatalogItems(catalog, CatalogIds(lines)), lines[i].catalogItemId).Some? <==>
       InCatalog(catalog, lines[i].catalogItemId))
  {
    ListingPreservesLookup(catalog, lines);
    forall i | 0 <= i < |lines| {
      FindCatalogItemSome(catalog, lines[i].catalogItemId);
    }
  }

  /** A basket found at `k` with lines is assembled from the listing fetched
      for its lines. */
  lemma AssembleOrderFromListing(repos: Repositories, composePicUri: string -> string, now: Instant,
                                 basketId: int, address: Address, k: int)
    requires BasketAt(repos.baskets, basketId, k)
    requires |repos.baskets[k].items| > 0
    ensures var lines := repos.baskets[k].items;
      var selected := SelectOrderItems(lines, ListCatalogItems(repos.catalog, CatalogIds(lines)), composePicUri);
      AssembleOrder(repos, composePicUri, now, basketId, address) ==
        if selected.Err? then Err(selected.error)
        else Ok(Order(repos.baskets[k].buyerId, address, now, selected.value))
  {
    FindBasketAt(repos.baskets, basketId, k);
  }

  /** No basket with the id: the checkout fails with `BasketNotFound`, calls
      neither the notifier nor the order repository, and stores nothing. */
  lemma MissingBasketFailsCheckout(repos: Repositories, services: Services, now: Instant,
                                   basketId: int, address: Address)
    requires forall j :: 0 <= j < |repos.baskets| ==> repos.baskets[j].id != basketId
    ensures CreateOrder(repos, services, now, basketId, address) ==
      Checkout([], Err(BasketNotFound(basketId)), repos)
  {
    assert FindBasket(repos.baskets, basketId).None?;
  }

  /** A basket without lines: the checkout fails with `EmptyBasket` whatever
      the catalog holds, with no notification and nothing stored. */
  lemma EmptyBasketFailsCheckout(repos: Repositories, services: Services, now: Instant,
                                 basketId: int, address: Address, k: int)
    requires BasketAt(repos.baskets, basketId, k)
    requires |repos.baskets[k].items| == 0
    ensures CreateOrder(repos, services, now, basketId, address) == Checkout([], Err(EmptyBasket), repos)
  {
    FindBasketAt(repos.baskets, basketId, k);
  }

  /** Assembly succeeds exactly when the basket exists, has lines, and every
      line's catalog id has a catalog record. */
  lemma AssemblySucceedsIffAllResolve(repos: Repositories, composePicUri: string -> string, now: Instant,
                                      basketId: int, address: Address, k: int)
    requires BasketAt(repos.baskets, basketId, k)
    ensures AssembleOrder(repos, composePicUri, now, basketId, address).Ok? <==>
      |repos.baskets[k].items| > 0 && AllLinesInCatalog(repos, k)
  {
    var lines := repos.baskets[k].items;
    FindBasketAt(repos.baskets, basketId, k);
    ListingPreservesLookup(repos.catalog, lines);
    forall i | 0 <= i < |lines| {
      FindCatalogItemSome(repos.catalog, lines[i].catalogItemId);
    }
  }

  /** A basket line with no catalog record fails the checkout: the error names
      the first such line (lines are not skipped), nothing is sent and nothing
      is stored. */
  lemma MissingCatalogItemFailsCheckout(repos: Repositories, services: Services, now: Instant,
                                        basketId: int, address: Address, k: int, i: int)
    requires BasketAt(repos.baskets, basketId, k)
    requires 0 <= i < |repos.baskets[k].items|
    requires !InCatalog(repos.catalog, repos.baskets[k].items[i].catalogItemId)
    ensures var c := CreateOrder(repos, services, now, basketId, address);
      c.trace == [] && c.repos == repos && c.status.Err? &&
      exists m :: 0 <= m <= i &&
        c.status.error == CatalogItemMissing(repos.baskets[k].items[m].catalogItemId) &&
        !InCatalog(repos.catalog, repos.baskets[k].items[m].catalogItemId) &&
        forall j :: 0 <= j < m ==> InCatalog(repos.catalog, repos.baskets[k].items[j].catalogItemId)
  {
    var lines := repos.baskets[k].items;
    var listed := ListCatalogItems(repos.catalog, CatalogIds(lines));
    AssembleOrderFromListing(repos, services.composePicUri, now, basketId, address, k);
    ListingResolvesIffInCatalog(repos.catalog, lines);
    var r := SelectOrderItems(lines, listed, services.composePicUri);
    assert FindCatalogItem(listed, lines[i].catalogItemId).None?;
    assert r.Err?;
    var m :| 0 <= m < |lines| && r.error == CatalogItemMissing(lines[m].catalogItemId) &&
      FindCatalogItem(listed, lines[m].catalogItemId).None? &&
      forall j :: 0 <= j < m ==> FindCatalogItem(listed, lines[j].catalogItemId).Some?;
    assert m <= i;
  }

  /** A basket that is found, has lines, and whose lines all have catalog
      records is assembled into an order that belongs to the basket's buyer, ships to
      the given address, carries the clock reading, and has one line per
      basket line in basket order, each with the catalog record's id and name,
      the composed picture URI, and the basket line's price and quantity. */
  lemma AssembledOrderMirrorsBasket(repos: Repositories, composePicUri: string -> string, now: Instant,
                                    basketId: int, address: Address, k: int)
    requires BasketAt(repos.baskets, basketId, k)
    requires |repos.baskets[k].items| > 0
    requires AllLinesInCatalog(repos, k)
    ensures AssembleOrder(repos, composePicUri, now, basketId, address).Ok?
    ensures var order := AssembleOrder(repos, composePicUri, now, basketId, address).value;
      var lines := repos.baskets[k].items;
      && order.buyerId == repos.baskets[k].buyerId
      && order.shipToAddress == address
      && order.orderDate == now
      && |order.orderItems| == |lines|
      && forall i :: 0 <= i < |lines| ==>
        var record := FindCatalogItem(repos.catalog, lines[i].catalogItemId).value;
        && record in repos.catalog
        && order.orderItems[i].itemOrdered.catalogItemId == record.id == lines[i].catalogItemId
        && order.orderItems[i].itemOrdered.productName == record.name
        && order.orderItems[i].itemOrdered.pictureUri == composePicUri(record.pictureUri)
        && order.orderItems[i].unitPrice == lines[i].unitPrice
        && order.orderItems[i].units == lines[i].quantity
  {
    var lines := repos.baskets[k].items;
    FindBasketAt(repos.baskets, basketId, k);
    ListingPreservesLookup(repos.catalog, lines);
    AssemblySucceedsIffAllResolve(repos, composePicUri, now, basketId, address, k);
    forall i | 0 <= i < |lines| {
      FindCatalogItemSome(repos.catalog, lines[i].catalogItemId);
    }
  }

  /** Such a basket's order is worth what the basket is worth. */
  lemma OrderTotalIsBasketTotal(repos: Repositories, composePicUri: string -> string, now: Instant,
                                basketId: int, address: Address, k: int)
    requires BasketAt(repos.baskets, basketId, k)
    requires |repos.baskets[k].items| > 0
    requires AllLinesInCatalog(repos, k)
    ensures AssembleOrder(repos, composePicUri, now, basketId, address).Ok?
    ensures Total(AssembleOrder(repos, composePicUri, now, basketId, address).value.orderItems) ==
      BasketTotal(repos.baskets[k].items)
  {
    AssembledOrderMirrorsBasket(repos, composePicUri, now, basketId, address, k);
    TotalMatchesBasketTotal(AssembleOrder(repos, composePicUri, now, basketId, address).value.orderItems,
                            repos.baskets[k].items);
  }

  /** The summary handed to the notifier copies the order's date, address and
      lines, and its total agrees with its own lines; so the notifier's null
      check never fires on it. */
  lemma SummaryOfProjectsOrder(order: Order, send: seq<ReducedOrderSummary> -> bool)
    ensures SummaryOf(order).id == Some(order.orderDate)
    ensures SummaryOf(order).shipToAddress == Some(order.shipToAddress)
    ensures SummaryOf(order).orderItems == Some(order.orderItems)
    ensures SummaryOf(order).total == Total(SummaryOf(order).orderItems.value)
    ensures PostJsonViaServiceBus(SummaryOf(order), send).status != Err(OrderItemsNull)
  {
  }

  /** When every step completes, the checkout makes exactly one notification
      carrying the reduced order lines, then exactly one persist of the
      assembled order, and the order repository gains that order. */
  lemma SuccessfulCheckoutNotifiesThenPersists(repos: Repositories, services: Services, now: Instant,
                                               basketId: int, address: Address, order: Order)
    requires AssembleOrder(repos, services.composePicUri, now, basketId, address) == Ok(order)
    requires services.send(ReduceAll(order.orderItems))
    requires services.add(order)
    ensures CreateOrder(repos, services, now, basketId, address) ==
      Checkout([Notify(ReduceAll(order.orderItems)), Persist(order)], Ok(()),
               repos.(orders := repos.orders + [order]))
  {
  }

  /** As the code is written, a failed send aborts the checkout: the send was
      attempted, but the order repository is never called and nothing is
      stored, whatever the repository would have done. */
  lemma NotificationFailureBlocksPersistence(repos: Repositories, services: Services, now: Instant,
                                             basketId: int, address: Address, order: Order)
    requires AssembleOrder(repos, services.composePicUri, now, basketId, address) == Ok(order)
    requires !services.send(ReduceAll(order.orderItems))
    ensures var c := CreateOrder(repos, services, now, basketId, address);
      && c.trace == [Notify(ReduceAll(order.orderItems))]
      && (forall e :: e in c.trace ==> !e.Persist?)
      && c.status == Err(NotificationFailed)
      && c.repos == repos
  {
  }

  /** A checkout that gets past assembly starts by notifying the reduced
      lines of the assembled order; one that does not makes no calls. */
  lemma CheckoutNotifiesAssembledLines(repos: Repositories, services: Services, now: Instant,
                                       basketId: int, address: Address)
    ensures var assembled := AssembleOrder(repos, services.composePicUri, now, basketId, address);
      var c := CreateOrder(repos, services, now, basketId, address);
      && (assembled.Err? <==> c.trace == [])
      && (assembled.Ok? ==> c.trace[0] == Notify(ReduceAll(assembled.value.orderItems)))
  {
  }

  /** A checkout of a found basket whose lines all have catalog records
      always sends a notification, whatever the later outcome, and it carries
      one entry per basket line, in basket order, with that line's catalog id
      and quantity. */
  lemma NotifiedPayloadMatchesBasket(repos: Repositories, services: Services, now: Instant,
                                                        basketId: int, address: Address, k: int)
    requires BasketAt(repos.baskets, basketId, k)
    requires |repos.baskets[k].items| > 0
    requires AllLinesInCatalog(repos, k)
    ensures var c := CreateOrder(repos, services, now, basketId, address);
      var lines := repos.baskets[k].items;
      && c.trace != []
      && c.trace[0].Notify?
      && |c.trace[0].payload| == |lines|
      && forall i :: 0 <= i < |lines| ==>
        c.trace[0].payload[i] == ReducedOrderSummary(lines[i].catalogItemId, lines[i].quantity)
  {
    var assembled := AssembleOrder(repos, services.composePicUri, now, basketId, address);
    CheckoutNotifiesAssembledLines(repos, services, now, basketId, address);
    AssembledOrderMirrorsBasket(repos, services.composePicUri, now, basketId, address, k);
    var lines := repos.baskets[k].items;
    var payload := ReduceAll(assembled.value.orderItems);
    forall i | 0 <= i < |lines|
      ensures payload[i] == ReducedOrderSummary(lines[i].catalogItemId, lines[i].quantity)
    {
      assert assembled.value.orderItems[i].itemOrdered.catalogItemId == lines[i].catalogItemId;
    }
  }

  /** One basket line of four widgets at 3.50 against a catalog that has the
      widget, with a notifier and an order repository that both complete: the
      order holds one line for 14.00, the reserver is told to reserve four of
      item 5, and the order is stored. */
  lemma WidgetCheckout(services: Services, now: Instant, address: Address)
    requires services.send([ReducedOrderSummary(5, 4)])
    requires services.add(Order("b1", address, now,
      [OrderItem(CatalogItemOrdered(5, "Widget", services.composePicUri("widget.png")), 350, 4)]))
    ensures var repos := Repositories([Basket(1, "b1", [BasketItem(5, 350, 4)])],
                                      [CatalogItem(5, "Widget", "widget.png")], []);
      var order := Order("b1", address, now,
                         [OrderItem(CatalogItemOrdered(5, "Widget", services.composePicUri("widget.png")), 350, 4)]);
      && CreateOrder(repos, services, now, 1, address) ==
           Checkout([Notify([ReducedOrderSummary(5, 4)]), Persist(order)], Ok(()), repos.(orders := [order]))
      && Total(order.orderItems) == 1400
  {
    var repos := Repositories([Basket(1, "b1", [BasketItem(5, 350, 4)])],
                              [CatalogItem(5, "Widget", "widget.png")], []);
    var order := Order("b1", address, now,
                       [OrderItem(CatalogItemOrdered(5, "Widget", services.composePicUri("widget.png")), 350, 4)]);
    SingleLineAssembly(repos, services.composePicUri, now, address);
    assert ReduceAll(order.orderItems) == [ReducedOrderSummary(5, 4)];
    SuccessfulCheckoutNotifiesThenPersists(repos, services, now, 1, address, order);
  }

  /** Two units of item 7 at 10.00 with a notifier that fails: the send is
      attempted with the right payload, but no order is stored. */
  lemma FailingNotifierStoresNothing(services: Services, now: Instant, address: Address)
    requires !services.send([ReducedOrderSummary(7, 2)])
    ensures var repos := Repositories([Basket(1, "b1", [BasketItem(7, 1000, 2)])],
                                      [CatalogItem(7, "Mug", "mug.png")], []);
      var c := CreateOrder(repos, services, now, 1, address);
      && c.trace == [Notify([ReducedOrderSummary(7, 2)])]
      && c.status == Err(NotificationFailed)
      && c.repos.orders == []
  {
    var repos := Repositories([Basket(1, "b1", [BasketItem(7, 1000, 2)])],
                              [CatalogItem(7, "Mug", "mug.png")], []);
    var order := Order("b1", address, now,
                       [OrderItem(CatalogItemOrdered(7, "Mug", services.composePicUri("mug.png")), 1000, 2)]);
    SingleLineAssembly(repos, services.composePicUri, now, address);
    assert ReduceAll(order.orderItems) == [ReducedOrderSummary(7, 2)];
    NotificationFailureBlocksPersistence(repos, services, now, 1, address, order);
  }

  /** Assembly of basket 1 when it is the only basket, has a single line, and
      the catalog holds exactly the record that line refers to. */
  lemma SingleLineAssembly(repos: Repositories, composePicUri: string -> string, now: Instant, address: Address)
    requires |repos.baskets| == 1 && repos.baskets[0].id == 1 && |repos.baskets[0].items| == 1
    requires |repos.catalog| == 1 && repos.catalog[0].id == repos.baskets[0].items[0].catalogItemId
    ensures var line := repos.baskets[0].items[0];
      var record := repos.catalog[0];
      AssembleOrder(repos, composePicUri, now, 1, address) ==
        Ok(Order(repos.baskets[0].buyerId, address, now,
                 [OrderItem(CatalogItemOrdered(record.id, record.name, composePicUri(record.pictureUri)),
                            line.unitPrice, line.quantity)]))
  {
    var lines := repos.baskets[0].items;
    assert BasketAt(repos.baskets, 1, 0);
    AssembleOrderFromListing(repos, composePicUri, now, 1, address, 0);
    var listed := ListCatalogItems(repos.catalog, CatalogIds(lines));
    ListingPreservesLookup(repos.catalog, lines);
    assert CatalogIdIs(lines[0].catalogItemId)(repos.catalog[0]);
    assert FindCatalogItem(repos.catalog, lines[0].catalogItemId) == Some(repos.catalog[0]);
    var selected := SelectOrderItems(lines, listed, composePicUri);
    assert selected.Ok?;
    assert selected.value[0] == OrderItemFor(lines[0], repos.catalog[0], composePicUri);
    assert selected.value == [OrderItemFor(lines[0], repos.catalog[0], composePicUri)];
  }

  /** `PostJson` as written never returns the response body: for every
      runtime type name there is a non-empty body it fails to pass on, and
      an empty body does not produce the failure message. */
  lemma PostJsonAsWrittenLosesBody(taskTypeName: string)
    requires taskTypeName != ""
    ensures exists body :: !IsNullOrEmpty(body) && PostJsonAsWritten(taskTypeName, body) != PostJsonResponse(body)
    ensures taskTypeName != FunctionAppCallFailed ==>
      PostJsonAsWritten(taskTypeName, None) != PostJsonResponse(None)
  {
    var body := Some(taskTypeName + "!");
    assert |body.value| > |taskTypeName|;
    assert PostJsonAsWritten(taskTypeName, body) != PostJsonResponse(body);
  }
}
