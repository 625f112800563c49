/** The order endpoints (app/api/orders/route.ts): listing orders and placing one. */
module OrdersRoute {
  import opened Wrappers
  import opened Seqs
  import opened Types
  import opened DataStore

  datatype ListOutcome = ListUnauthorized | Listed(orders: seq<Order>)

  /** `GET`: a driver sees every order, anyone else only their own. */
  function ListOrders(store: Store, session: Session): (r: ListOutcome)
    reads store
    ensures r.ListUnauthorized? <==> !SignedIn(session)
    ensures r.Listed? && session.value.role == "driver" ==> r.orders == store.orders
    ensures r.Listed? && session.value.role != "driver" ==>
              (forall i :: 0 <= i < |r.orders| ==> r.orders[i].userId == session.value.id && r.orders[i] in store.orders)
              && (forall j :: 0 <= j < |store.orders| && store.orders[j].userId == session.value.id ==> store.orders[j] in r.orders)
    ensures r.Listed? && session.value.role != "driver" ==>
              r.orders == Filter(store.orders, (o: Order) => o.userId == session.value.id)
  {
    if !SignedIn(session) then ListUnauthorized
    else if session.value.role == "driver" then Listed(store.GetOrders(None))
    else Listed(store.GetOrders(Some(session.value.id)))
  }

  /** One requested line: `{ productId, quantity, farmId }`. */
  datatype RequestItem = RequestItem(productId: string, quantity: real, farmId: string)

  /** The request body: not JSON at all, JSON of the wrong shape, or the expected object. */
  datatype RequestBody =
    | NotJson(message: string)
    | WrongShape
    | Body(items: seq<RequestItem>, subscriptionId: string)

  /** `createOrderSchema.parse`: the shape, and every quantity at least 1. */
  predicate SchemaAccepts(body: RequestBody)
  {
    body.Body? && forall i :: 0 <= i < |body.items| ==> body.items[i].quantity >= 1.0
  }

  datatype PlaceOutcome =
    | PlaceUnauthorized
    | InvalidInput
    | InvalidSubscription
    | PlaceFailed(message: string)
    | Placed(order: Order)
  {
    function Status(): nat
    {
      match this
      case PlaceUnauthorized => 401
      case InvalidInput => 400
      case InvalidSubscription => 400
      case PlaceFailed(_) => 500
      case Placed(_) => 200
    }
  }

  /** The ordered line for one requested item, or the error the source throws for it. */
  function PriceItem(products: seq<Product>, it: RequestItem): (r: Result<OrderItem>)
    ensures r.Ok? ==> r.value.productId == it.productId && r.value.quantity == it.quantity
                      && r.value.farmId == it.farmId && r.value.status == Some(Created)
  {
    match Find(products, (p: Product) => p.id == it.productId)
    case None => Err("Product " + it.productId + " not found")
    case Some(p) =>
      if p.farmId != it.farmId then
        Err("Product " + it.productId + " does not belong to farm " + it.farmId)
      else if !p.available || p.quantity < it.quantity then
        Err("Product " + it.productId + " is not available in sufficient quantity")
      else
        Ok(OrderItem(it.productId, it.quantity, p.price, it.farmId, Some(Created)))
  }

  /** An item is accepted exactly when the first product with its id exists, belongs to the
      requested farm, is available and has at least the requested quantity in stock; the line
      then carries that product's price. */
  lemma PriceItemAccepts(products: seq<Product>, it: RequestItem)
    ensures PriceItem(products, it).Ok? <==>
              exists j :: 0 <= j < |products| && products[j].id == it.productId
                          && (forall k :: 0 <= k < j ==> products[k].id != it.productId)
                          && products[j].farmId == it.farmId && products[j].available
                          && products[j].quantity >= it.quantity
    ensures PriceItem(products, it).Ok? ==>
              exists j :: 0 <= j < |products| && products[j].id == it.productId
                          && PriceItem(products, it).value.price == products[j].price
  {
    var found := Find(products, (p: Product) => p.id == it.productId);
    if found.Some? {
      var j :| 0 <= j < |products| && products[j] == found.value
               && forall k :: 0 <= k < j ==> products[k].id != it.productId;
    }
  }

  /** What `items.map` produces: every line priced in order, or the first item's error. */
  function PriceItems(products: seq<Product>, items: seq<RequestItem>): (r: Result<seq<OrderItem>>)
    ensures r.Ok? ==> |r.value| == |items| && forall i :: 0 <= i < |items| ==> PriceItem(products, items[i]) == Ok(r.value[i])
    ensures r.Err? ==> exists i :: 0 <= i < |items| && PriceItem(products, items[i]) == Err(r.message)
                                   && forall k :: 0 <= k < i ==> PriceItem(products, items[k]).Ok?
  {
    if items == [] then Ok([])
    else
      var front := items[..|items| - 1];
      var last := items[|items| - 1];
      assert forall i :: 0 <= i < |front| ==> front[i] == items[i];
      match PriceItems(products, front)
      case Err(m) => Err(m)
      case Ok(lines) =>
        match PriceItem(products, last)
        case Err(m) => Err(m)
        case Ok(line) => Ok(lines + [line])
  }

  function LineTotal(it: OrderItem): real
  {
    it.price * it.quantity
  }

  /** The outcome of `POST` for the tables as they are when the request arrives. */
  function PlaceOutcomeFor(products: seq<Product>, sub: Option<Subscription>, session: Session,
                           body: RequestBody, id: string, now: string): PlaceOutcome
  {
    if !SignedIn(session) then PlaceUnauthorized
    else if body.NotJson? then PlaceFailed(body.message)
    else if !SchemaAccepts(body) then InvalidInput
    else if sub.None? || sub.value.id != body.subscriptionId then InvalidSubscription
    else match PriceItems(products, body.items)
      case Err(m) => PlaceFailed(m)
      case Ok(lines) =>
        Placed(OrderFromDraft(OrderDraft(session.value.id, body.subscriptionId, Created, None,
                                         lines, Sum(lines, LineTotal), None, None, None), id, now))
  }

  /** The `items.map` loop with its running `total += price * quantity`. */
  method PriceAll(products: seq<Product>, items: seq<RequestItem>) returns (res: Result<seq<OrderItem>>, total: real)
    ensures res == PriceItems(products, items)
    ensures res.Ok? ==> total == Sum(res.value, LineTotal)
  {
    total := 0.0;
    var lines: seq<OrderItem> := [];
    var i := 0;
    while i < |items|
      invariant 0 <= i <= |items|
      invariant PriceItems(products, items[..i]) == Ok(lines)
      invariant total == Sum(lines, LineTotal)
    {
      assert items[..i + 1][..i] == items[..i];
      var line := PriceItem(products, items[i]);
      if line.Err? {
        PriceItemsFailsAtPrefix(products, items, i + 1);
        return Err(line.message), total;
      }
      SumSnoc(lines, line.value, LineTotal);
      total := total + line.value.price * line.value.quantity;
      lines := lines + [line.value];
      i := i + 1;
    }
    assert items[..i] == items;
    res := Ok(lines);
  }

  /** `POST`: checks the session, the body and the subscription, prices every item against the
      product table and appends an order with status created; the stock is left as it is.
      `id` and `now` stand for `order-${Date.now()}` and the ISO creation time. */
  method PlaceOrder(store: Store, session: Session, body: RequestBody, id: string, now: string)
    returns (r: PlaceOutcome)
    modifies store`orders
    ensures r == PlaceOutcomeFor(old(store.products),
                                 if SignedIn(session) then old(store.SubscriptionByUserId(session.value.id)) else None,
                                 session, body, id, now)
    ensures store.products == old(store.products)
    ensures r.Placed? ==> store.orders == old(store.orders) + [r.order]
    ensures !r.Placed? ==> store.orders == old(store.orders)
  {
    if !SignedIn(session) {
      return PlaceUnauthorized;
    }
    if body.NotJson? {
      return PlaceFailed(body.message);
    }
    if !SchemaAccepts(body) {
      return InvalidInput;
    }
    var userId := session.value.id;
    var sub := store.SubscriptionByUserId(userId);
    if sub.None? || sub.value.id != body.subscriptionId {
      return InvalidSubscription;
    }
    var lines, total := PriceAll(store.products, body.items);
    if lines.Err? {
      return PlaceFailed(lines.message);
    }
    var order := store.CreateOrder(OrderDraft(userId, body.subscriptionId, Created, None, lines.value, total, None, None, None), id, now);
    r := Placed(order);
  }

  /** Who is answered what: 401 exactly without a signed-in user, 400 for a body the schema
      refuses or a subscription that is not the caller's, and an order only when every item prices. */
  lemma PlaceOutcomeCases(products: seq<Product>, sub: Option<Subscription>, session: Session,
                          body: RequestBody, id: string, now: string)
    ensures var r := PlaceOutcomeFor(products, sub, session, body, id, now);
            (r.PlaceUnauthorized? <==> !SignedIn(session))
            && (r.InvalidInput? <==> SignedIn(session) && !body.NotJson? && !SchemaAccepts(body))
            && (r.Placed? <==> SignedIn(session) && SchemaAccepts(body) && sub.Some?
                               && sub.value.id == body.subscriptionId && PriceItems(products, body.items).Ok?)
            && (r.Placed? ==> r.order.userId == session.value.id && r.order.status == Created
                              && r.order.id == id && r.order.total == Sum(r.order.items, LineTotal)
                              && forall i :: 0 <= i < |body.items| ==> r.order.items[i].quantity >= 1.0)
  {
    var r := PlaceOutcomeFor(products, sub, session, body, id, now);
    if r.Placed? {
      var lines := PriceItems(products, body.items).value;
      assert r.order.items == lines;
      forall i | 0 <= i < |body.items|
        ensures r.order.items[i].quantity >= 1.0
      {
        assert PriceItem(products, body.items[i]) == Ok(lines[i]);
      }
    }
  }

  /** Once a prefix of the items fails, the whole list fails with the same error. */
  lemma {:induction false} PriceItemsFailsAtPrefix(products: seq<Product>, items: seq<RequestItem>, n: nat)
    requires n <= |items| && PriceItems(products, items[..n]).Err?
    ensures PriceItems(products, items) == PriceItems(products, items[..n])
    decreases |items| - n
  {
    if n < |items| {
      assert items[..n + 1][..n] == items[..n];
      PriceItemsFailsAtPrefix(products, items, n + 1);
    } else {
      assert items[..n] == items;
    }
  }

  /** A placed order is priced from the catalogue: every line names an existing product of the
      requested farm with enough stock and carries its price. */
  lemma PlacedOrderIsPriced(products: seq<Product>, items: seq<RequestItem>)
    requires PriceItems(products, items).Ok?
    ensures var lines := PriceItems(products, items).value;
            |lines| == |items|
            && (forall i :: 0 <= i < |lines| ==>
                  (lines[i].status == Some(Created)
                   && exists j :: 0 <= j < |products| && products[j].id == lines[i].productId
                                  && products[j].farmId == lines[i].farmId && products[j].price == lines[i].price
                                  && products[j].available && products[j].quantity >= lines[i].quantity))
  {
    var lines := PriceItems(products, items).value;
    forall i | 0 <= i < |lines|
      ensures lines[i].status == Some(Created)
      ensures exists j :: 0 <= j < |products| && products[j].id == lines[i].productId
                          && products[j].farmId == lines[i].farmId && products[j].price == lines[i].price
                          && products[j].available && products[j].quantity >= lines[i].quantity
    {
      PriceItemAccepts(products, items[i]);
    }
  }
}
