/** The driver dashboard: the pending deliveries, the route built from a fixed visiting sequence,
    the polyline drawn from the driver's depot through the stops, and the status badges. */
module DriverDashboard {
  import opened Wrappers
  import opened Seqs
  import opened Types

  /** `order.deliveryAddress?.lat && order.deliveryAddress?.lng`: both present and non-zero. */
  predicate HasCoordinates(o: Order)
  {
    o.deliveryAddress.Some?
    && o.deliveryAddress.value.lat.Some? && o.deliveryAddress.value.lat.value != 0.0
    && o.deliveryAddress.value.lng.Some? && o.deliveryAddress.value.lng.value != 0.0
  }

  predicate IsPending(o: Order)
  {
    o.status != Delivered && HasCoordinates(o)
  }

  /** The orders the dashboard lists and routes. */
  function PendingOrders(orders: seq<Order>): (r: seq<Order>)
    ensures forall o :: o in r <==> o in orders && o.status != Delivered && HasCoordinates(o)
  {
    Filter(orders, IsPending)
  }

  // ---------------------------------------------------------------- the orders by id

  /** `ordersMap` after `orders.forEach(order => ordersMap.set(order.id, order))`. */
  function ById(orders: seq<Order>): map<string, Order>
  {
    if orders == [] then map[]
    else ById(orders[..|orders| - 1])[orders[|orders| - 1].id := orders[|orders| - 1]]
  }

  /** The map knows every order's id, and under each id the last order carrying it. */
  lemma {:induction false} ById_IsLastWithId(orders: seq<Order>)
    ensures forall id :: id in ById(orders) <==> exists i :: 0 <= i < |orders| && orders[i].id == id
    ensures forall id :: id in ById(orders) ==>
              exists i :: 0 <= i < |orders| && ById(orders)[id] == orders[i] && orders[i].id == id
                          && forall j :: i < j < |orders| ==> orders[j].id != id
  {
    if orders != [] {
      var p := orders[..|orders| - 1];
      ById_IsLastWithId(p);
      assert forall i :: 0 <= i < |p| ==> p[i] == orders[i];
    }
  }

  /** Every order is stored under its own id. */
  predicate KeyedById(ordersMap: map<string, Order>)
  {
    forall id :: id in ordersMap ==> ordersMap[id].id == id
  }

  lemma {:induction false} ById_IsKeyedById(orders: seq<Order>)
    ensures KeyedById(ById(orders))
  {
    if orders != [] {
      ById_IsKeyedById(orders[..|orders| - 1]);
    }
  }

  /** The `forEach` that fills `ordersMap`. */
  method BuildOrdersMap(orders: seq<Order>) returns (ordersMap: map<string, Order>)
    ensures ordersMap == ById(orders)
  {
    ordersMap := map[];
    var i := 0;
    while i < |orders|
      invariant 0 <= i <= |orders|
      invariant ordersMap == ById(orders[..i])
    {
      assert orders[..i + 1][..i] == orders[..i];
      ordersMap := ordersMap[orders[i].id := orders[i]];
      i := i + 1;
    }
    assert orders[..i] == orders;
  }

  // ---------------------------------------------------------------- the route

  const RouteOrderIds: seq<string> := ["order-3", "order-8", "order-2", "order-6", "order-7", "order-4", "order-5"]

  datatype RoutePoint = RoutePoint(orderId: string, lat: real, lng: real, address: string, order: Order)

  /** "street, city, state". */
  function AddressLine(a: Address): string
  {
    a.street + ", " + a.city + ", " + a.state
  }

  /** The stop for one id of the sequence, if an order with coordinates has it. */
  function StopFor(ordersMap: map<string, Order>, orderId: string): (r: Option<RoutePoint>)
    ensures r.Some? <==> orderId in ordersMap && HasCoordinates(ordersMap[orderId])
    ensures r.Some? ==> var o := ordersMap[orderId];
      r.value.order == o && r.value.orderId == o.id
      && r.value.lat == o.deliveryAddress.value.lat.value && r.value.lng == o.deliveryAddress.value.lng.value
      && r.value.address == AddressLine(o.deliveryAddress.value)
  {
    if orderId in ordersMap && HasCoordinates(ordersMap[orderId]) then
      var o := ordersMap[orderId];
      Some(RoutePoint(o.id, o.deliveryAddress.value.lat.value, o.deliveryAddress.value.lng.value,
                      AddressLine(o.deliveryAddress.value), o))
    else None
  }

  /** `ids.map(id => stop or null).filter(point => point !== null)`. */
  function Stops(ordersMap: map<string, Order>, ids: seq<string>): (r: seq<RoutePoint>)
    ensures |r| <= |ids|
  {
    if ids == [] then []
    else
      match StopFor(ordersMap, ids[0])
      case Some(p) => [p] + Stops(ordersMap, ids[1..])
      case None => Stops(ordersMap, ids[1..])
  }

  /** `optimizeRoute`: nothing happens without orders; otherwise the route is rebuilt. */
  function OptimizeRoute(route: seq<RoutePoint>, orders: seq<Order>): (r: seq<RoutePoint>)
    ensures orders == [] ==> r == route
    ensures orders != [] ==> |r| <= 7
  {
    if orders == [] then route else Stops(ById(orders), RouteOrderIds)
  }

  function StopIds(route: seq<RoutePoint>): (r: seq<string>)
    ensures |r| == |route| && forall i :: 0 <= i < |route| ==> r[i] == route[i].orderId
  {
    seq(|route|, i requires 0 <= i < |route| => route[i].orderId)
  }

  /** `a` is `b` with some elements left out. */
  predicate Subsequence(a: seq<string>, b: seq<string>)
    decreases |b|
  {
    a == [] || (b != [] && if a[0] == b[0] then Subsequence(a[1..], b[1..]) else Subsequence(a, b[1..]))
  }

  /** The stops follow the sequence: their ids are the sequence's ids that have an order with
      coordinates, in the sequence's order, and each stop carries the order stored under its id. */
  lemma {:induction false} StopsFollowSequence(ordersMap: map<string, Order>, ids: seq<string>)
    requires KeyedById(ordersMap)
    ensures Subsequence(StopIds(Stops(ordersMap, ids)), ids)
    ensures forall id :: id in StopIds(Stops(ordersMap, ids)) <==> id in ids && StopFor(ordersMap, id).Some?
    ensures forall i :: 0 <= i < |Stops(ordersMap, ids)| ==>
              StopFor(ordersMap, Stops(ordersMap, ids)[i].orderId) == Some(Stops(ordersMap, ids)[i])
  {
    if ids != [] {
      var rest := Stops(ordersMap, ids[1..]);
      StopsFollowSequence(ordersMap, ids[1..]);
      assert ids == [ids[0]] + ids[1..];
      match StopFor(ordersMap, ids[0])
      case Some(p) =>
        assert StopIds([p] + rest) == [ids[0]] + StopIds(rest);
      case None =>
    }
  }

  /** Distinct ids give distinct stops. */
  lemma {:induction false} StopsAreDistinct(ordersMap: map<string, Order>, ids: seq<string>)
    requires KeyedById(ordersMap) && Distinct(ids)
    ensures Distinct(StopIds(Stops(ordersMap, ids)))
  {
    if ids != [] {
      StopsAreDistinct(ordersMap, ids[1..]);
      StopsFollowSequence(ordersMap, ids[1..]);
      var rest := Stops(ordersMap, ids[1..]);
      match StopFor(ordersMap, ids[0])
      case Some(p) =>
        assert ids[0] !in ids[1..];
        var s := StopIds([p] + rest);
        assert s == [ids[0]] + StopIds(rest);
        assert forall i, j :: 0 <= i < j < |s| ==> s[i] != s[j] by {
          forall i, j | 0 <= i < j < |s|
            ensures s[i] != s[j]
          {
            if i == 0 {
              assert s[j] in StopIds(rest);
            } else {
              assert s[i] == StopIds(rest)[i - 1] && s[j] == StopIds(rest)[j - 1];
            }
          }
        }
      case None =>
    }
  }

  lemma RouteOrderIdsAreDistinct()
    ensures Distinct(RouteOrderIds)
  {
    var d := ['3', '8', '2', '6', '7', '4', '5'];
    assert forall i :: 0 <= i < 7 ==> RouteOrderIds[i][6] == d[i];
  }

  /** The route has at most seven stops, none twice, in the fixed visiting order, each copying its
      order's coordinates and address; with pending orders the ids are those of the sequence
      found among them. */
  lemma RouteIsFixedSequence(route: seq<RoutePoint>, orders: seq<Order>)
    requires orders != []
    ensures var r := OptimizeRoute(route, orders);
      |r| <= 7 && Distinct(StopIds(r)) && Subsequence(StopIds(r), RouteOrderIds)
      && (forall i :: 0 <= i < |r| ==> StopFor(ById(orders), r[i].orderId) == Some(r[i]))
    ensures (forall o :: o in orders ==> HasCoordinates(o)) ==>
              forall id :: id in StopIds(OptimizeRoute(route, orders)) <==>
                id in RouteOrderIds && exists i :: 0 <= i < |orders| && orders[i].id == id
  {
    var m := ById(orders);
    ById_IsKeyedById(orders);
    StopsFollowSequence(m, RouteOrderIds);
    RouteOrderIdsAreDistinct();
    StopsAreDistinct(m, RouteOrderIds);
    ById_IsLastWithId(orders);
  }

  // ---------------------------------------------------------------- the map polyline

  datatype LatLng = LatLng(lat: real, lng: real)

  /** The depot the driver starts from. */
  const DriverLocation := LatLng(44.6488, -63.5752)

  /** `routePath`: empty for no route, else the depot followed by the stops. */
  function RoutePath(route: seq<RoutePoint>): (r: seq<LatLng>)
    ensures route == [] ==> r == []
    ensures route != [] ==> |r| == |route| + 1 && r[0] == DriverLocation
    ensures route != [] ==> forall i :: 0 <= i < |route| ==> r[i + 1] == LatLng(route[i].lat, route[i].lng)
  {
    if route == [] then []
    else [DriverLocation] + seq(|route|, i requires 0 <= i < |route| => LatLng(route[i].lat, route[i].lng))
  }

  /** The estimate shown under the route, in kilometres. */
  function EstimatedDistance(route: seq<RoutePoint>): (r: real)
    ensures r >= 0.0 && (r <= 17.5 <==> |route| <= 7)
    ensures r == 0.0 <==> route == []
  {
    |route| as real * 2.5
  }

  /** Each further stop adds 2.5 km to the estimate. */
  lemma EachStopAddsDistance(route: seq<RoutePoint>, p: RoutePoint)
    ensures EstimatedDistance(route + [p]) == EstimatedDistance(route) + 2.5
  {
  }

  // ---------------------------------------------------------------- status badges

  /** `getStatusLabel`: the four statuses get fixed text, any other string is shown as it is. */
  function StatusLabel(status: string): (r: string)
    ensures status == StatusName(Created) ==> r == "Created"
    ensures status == StatusName(Preparing) ==> r == "Preparing"
    ensures status == StatusName(OutForDelivery) ==> r == "Out for Delivery"
    ensures status == StatusName(Delivered) ==> r == "Delivered"
    ensures (forall s :: status != StatusName(s)) ==> r == status
  {
    if status == StatusName(Created) then "Created"
    else if status == StatusName(Preparing) then "Preparing"
    else if status == StatusName(OutForDelivery) then "Out for Delivery"
    else if status == StatusName(Delivered) then "Delivered"
    else status
  }

  /** `getStatusColor`: one colour per status, grey for anything else. */
  function StatusColor(status: string): (r: string)
    ensures (forall s :: status != StatusName(s)) <==> r == "bg-gray-500"
  {
    if status == StatusName(Created) then "bg-blue-500"
    else if status == StatusName(Preparing) then "bg-yellow-500"
    else if status == StatusName(OutForDelivery) then "bg-orange-500"
    else if status == StatusName(Delivered) then "bg-green-500"
    else "bg-gray-500"
  }

  /** Each known status has a label and a colour of its own. */
  lemma StatusBadgesAreDistinct(a: OrderStatus, b: OrderStatus)
    requires a != b
    ensures StatusLabel(StatusName(a)) != StatusLabel(StatusName(b))
    ensures StatusColor(StatusName(a)) != StatusColor(StatusName(b))
  {
  }
}
