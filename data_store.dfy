/** The application's in-memory tables (lib/data-store.ts): module-level arrays seeded from
    JSON files and changed in place by the update, create and delete operations. */
module DataStore {
  import opened Wrappers
  import opened Seqs
  import opened Types

  /** `undefined` and the empty string are both falsy: an optional filter given as either is off. */
  predicate Given(key: Option<string>)
  {
    key.Some? && key.value != ""
  }

  /** `Partial<User>`: each present field replaces the record's one. */
  datatype UserPatch = UserPatch(
    id: Option<string>, email: Option<string>, password: Option<string>, name: Option<string>,
    role: Option<Role>, farmId: Option<string>, plan: Option<Plan>)

  datatype FarmPatch = FarmPatch(
    id: Option<string>, name: Option<string>, cityId: Option<string>, bio: Option<string>,
    bannerImage: Option<string>, videoUrl: Option<string>, images: Option<seq<string>>,
    available: Option<bool>)

  datatype ProductPatch = ProductPatch(
    id: Option<string>, farmId: Option<string>, name: Option<string>, description: Option<string>,
    unit: Option<string>, price: Option<real>, quantity: Option<real>, available: Option<bool>,
    nutrition: Option<Nutrition>, image: Option<string>)

  datatype SubscriptionPatch = SubscriptionPatch(
    id: Option<string>, userId: Option<string>, plan: Option<Plan>, status: Option<SubscriptionStatus>,
    startDate: Option<string>, cityId: Option<string>)

  datatype OrderPatch = OrderPatch(
    id: Option<string>, userId: Option<string>, subscriptionId: Option<string>,
    status: Option<OrderStatus>, createdAt: Option<string>, deliveredAt: Option<string>,
    items: Option<seq<OrderItem>>, total: Option<real>, deliveryDate: Option<string>,
    deliveryWindow: Option<string>, deliveryAddress: Option<Address>)

  function Pick<T>(update: Option<T>, current: T): T
  {
    if update.Some? then update.value else current
  }

  function PickOpt<T>(update: Option<T>, current: Option<T>): Option<T>
  {
    if update.Some? then update else current
  }

  /** `{ ...record, ...updates }` for a user. */
  function MergeUser(u: User, p: UserPatch): User
  {
    User(Pick(p.id, u.id), Pick(p.email, u.email), Pick(p.password, u.password), Pick(p.name, u.name),
         Pick(p.role, u.role), PickOpt(p.farmId, u.farmId), PickOpt(p.plan, u.plan))
  }

  function MergeFarm(f: Farm, p: FarmPatch): Farm
  {
    Farm(Pick(p.id, f.id), Pick(p.name, f.name), Pick(p.cityId, f.cityId), Pick(p.bio, f.bio),
         Pick(p.bannerImage, f.bannerImage), Pick(p.videoUrl, f.videoUrl), Pick(p.images, f.images),
         Pick(p.available, f.available))
  }

  function MergeProduct(x: Product, p: ProductPatch): Product
  {
    Product(Pick(p.id, x.id), Pick(p.farmId, x.farmId), Pick(p.name, x.name),
            Pick(p.description, x.description), Pick(p.unit, x.unit), Pick(p.price, x.price),
            Pick(p.quantity, x.quantity), Pick(p.available, x.available),
            Pick(p.nutrition, x.nutrition), Pick(p.image, x.image))
  }

  function MergeSubscription(s: Subscription, p: SubscriptionPatch): Subscription
  {
    Subscription(Pick(p.id, s.id), Pick(p.userId, s.userId), Pick(p.plan, s.plan),
                 Pick(p.status, s.status), Pick(p.startDate, s.startDate), Pick(p.cityId, s.cityId))
  }

  function MergeOrder(o: Order, p: OrderPatch): Order
  {
    Order(Pick(p.id, o.id), Pick(p.userId, o.userId), Pick(p.subscriptionId, o.subscriptionId),
          Pick(p.status, o.status), Pick(p.createdAt, o.createdAt), PickOpt(p.deliveredAt, o.deliveredAt),
          Pick(p.items, o.items), Pick(p.total, o.total), PickOpt(p.deliveryDate, o.deliveryDate),
          PickOpt(p.deliveryWindow, o.deliveryWindow), PickOpt(p.deliveryAddress, o.deliveryAddress))
  }

  /** A merge applies every field of the patch and keeps every other field of the record;
      applying the same patch twice is the same as applying it once. */
  lemma MergeProductFieldwise(x: Product, p: ProductPatch)
    ensures p.price.Some? ==> MergeProduct(x, p).price == p.price.value
    ensures p.price.None? ==> MergeProduct(x, p).price == x.price
    ensures p.quantity.Some? ==> MergeProduct(x, p).quantity == p.quantity.value
    ensures p.quantity.None? ==> MergeProduct(x, p).quantity == x.quantity
    ensures p.id.None? ==> MergeProduct(x, p).id == x.id
    ensures MergeProduct(MergeProduct(x, p), p) == MergeProduct(x, p)
  {
  }

  /** The fields of `Omit<Product, 'id'>`, as `createProduct` receives them. */
  datatype ProductDraft = ProductDraft(
    farmId: string, name: string, description: string, unit: string,
    price: real, quantity: real, available: bool, nutrition: Nutrition, image: string)

  function ProductFromDraft(d: ProductDraft, id: string): Product
  {
    Product(id, d.farmId, d.name, d.description, d.unit, d.price, d.quantity, d.available, d.nutrition, d.image)
  }

  /** The fields of `Omit<Order, 'id' | 'createdAt'>`, as `createOrder` receives them. */
  datatype OrderDraft = OrderDraft(
    userId: string, subscriptionId: string, status: OrderStatus, deliveredAt: Option<string>,
    items: seq<OrderItem>, total: real, deliveryDate: Option<string>, deliveryWindow: Option<string>,
    deliveryAddress: Option<Address>)

  function OrderFromDraft(d: OrderDraft, id: string, createdAt: string): Order
  {
    Order(id, d.userId, d.subscriptionId, d.status, createdAt, d.deliveredAt, d.items, d.total,
          d.deliveryDate, d.deliveryWindow, d.deliveryAddress)
  }

  /** How far an item (or order) has progressed; an item without a status has not started. */
  function Rank(s: Option<OrderStatus>): nat
  {
    match s
    case None => 0
    case Some(Created) => 0
    case Some(Preparing) => 1
    case Some(OutForDelivery) => 2
    case Some(Delivered) => 3
  }

  function StatusOfRank(k: nat): OrderStatus
    requires 1 <= k <= 3
  {
    if k == 1 then Preparing else if k == 2 then OutForDelivery else Delivered
  }

  predicate AllAtLeast(items: seq<OrderItem>, k: nat)
  {
    forall i :: 0 <= i < |items| ==> Rank(items[i].status) >= k
  }

  /** The least advanced item's rank (3 for no items). */
  function MinRank(items: seq<OrderItem>): (r: nat)
    ensures r <= 3
    ensures forall i :: 0 <= i < |items| ==> r <= Rank(items[i].status)
    ensures |items| > 0 ==> exists i :: 0 <= i < |items| && r == Rank(items[i].status)
  {
    if items == [] then 3
    else
      var rest := MinRank(items[1..]);
      assert forall i :: 1 <= i < |items| ==> items[i] == items[1..][i - 1];
      if Rank(items[0].status) <= rest then Rank(items[0].status) else rest
  }

  /** The order status `updateOrderItemStatus` derives once an item has changed:
      all delivered, else all out for delivery or delivered, else all at least preparing,
      else the current status is kept. */
  function DeriveOrderStatus(items: seq<OrderItem>, current: OrderStatus): OrderStatus
  {
    if AllAtLeast(items, 3) then Delivered
    else if AllAtLeast(items, 2) then OutForDelivery
    else if AllAtLeast(items, 1) then Preparing
    else current
  }

  /** The derived status is the least advanced item's status whenever every item has at least
      started preparing, and the current status otherwise; so it never falls back to created. */
  lemma DeriveIsLeastAdvanced(items: seq<OrderItem>, current: OrderStatus)
    ensures MinRank(items) >= 1 ==> DeriveOrderStatus(items, current) == StatusOfRank(MinRank(items))
    ensures MinRank(items) == 0 ==> DeriveOrderStatus(items, current) == current
    ensures current != Created ==> DeriveOrderStatus(items, current) != Created
  {
    var m := MinRank(items);
    assert AllAtLeast(items, m);
    if |items| > 0 {
      var i :| 0 <= i < |items| && m == Rank(items[i].status);
      assert !AllAtLeast(items, m + 1);
    }
  }

  /** The item positions matching a (productId, farmId) pair. */
  predicate ItemMatches(it: OrderItem, productId: string, farmId: string)
  {
    it.productId == productId && it.farmId == farmId
  }

  /** The order after its first (productId, farmId) item is set to `status`, with its status
      re-derived and `deliveredAt` stamped with `now` when everything is delivered; `None`
      when there is no such item. */
  function WithItemStatus(o: Order, productId: string, farmId: string, status: OrderStatus, now: string): (r: Option<Order>)
    ensures r.None? <==> forall j :: 0 <= j < |o.items| ==> !ItemMatches(o.items[j], productId, farmId)
    ensures r.Some? ==> |r.value.items| == |o.items| && r.value.id == o.id && r.value.total == o.total
    ensures r.Some? ==> exists k :: 0 <= k < |o.items| && ItemMatches(o.items[k], productId, farmId)
                          && (forall j :: 0 <= j < k ==> !ItemMatches(o.items[j], productId, farmId))
                          && r.value.items == o.items[k := o.items[k].(status := Some(status))]
    ensures r.Some? ==> r.value.status == DeriveOrderStatus(r.value.items, o.status)
    ensures r.Some? ==> r.value.deliveredAt == if AllAtLeast(r.value.items, 3) then Some(now) else o.deliveredAt
    ensures r.Some? ==> r.value == o.(items := r.value.items, status := r.value.status, deliveredAt := r.value.deliveredAt)
  {
    match FirstIndex(o.items, (it: OrderItem) => ItemMatches(it, productId, farmId))
    case None => None
    case Some(k) =>
      var items := o.items[k := o.items[k].(status := Some(status))];
      if AllAtLeast(items, 3) then Some(o.(items := items, status := Delivered, deliveredAt := Some(now)))
      else Some(o.(items := items, status := DeriveOrderStatus(items, o.status)))
  }

  /** The store: one sequence per table. The whole-table getters (`getCities`, `getUsers`,
      `getTestimonials`, `getSubscriptions`, `getRAGDocuments`) are reads of these fields. */
  class Store {
    var cities: seq<City>
    var users: seq<User>
    var farms: seq<Farm>
    var products: seq<Product>
    var testimonials: seq<Testimonial>
    var subscriptions: seq<Subscription>
    var orders: seq<Order>
    var growthTimelines: seq<GrowthTimeline>
    var ragDocuments: seq<RagDocument>

    /** The tables as loaded from the seed files. */
    constructor (cities: seq<City>, users: seq<User>, farms: seq<Farm>, products: seq<Product>,
                 testimonials: seq<Testimonial>, subscriptions: seq<Subscription>, orders: seq<Order>,
                 growthTimelines: seq<GrowthTimeline>, ragDocuments: seq<RagDocument>)
      ensures this.cities == cities && this.users == users && this.farms == farms
      ensures this.products == products && this.testimonials == testimonials
      ensures this.subscriptions == subscriptions && this.orders == orders
      ensures this.growthTimelines == growthTimelines && this.ragDocuments == ragDocuments
    {
      this.cities, this.users, this.farms, this.products := cities, users, farms, products;
      this.testimonials, this.subscriptions, this.orders := testimonials, subscriptions, orders;
      this.growthTimelines, this.ragDocuments := growthTimelines, ragDocuments;
    }

    // ---- lookups ------------------------------------------------------------

    function CityById(id: string): (r: Option<City>)
      reads this
      ensures r.None? <==> forall j :: 0 <= j < |cities| ==> cities[j].id != id
      ensures r.Some? ==> exists i :: 0 <= i < |cities| && cities[i] == r.value && r.value.id == id
                                        && forall j :: 0 <= j < i ==> cities[j].id != id
    {
      Find(cities, (c: City) => c.id == id)
    }

    function UserByEmail(email: string): (r: Option<User>)
      reads this
      ensures r.None? <==> forall j :: 0 <= j < |users| ==> users[j].email != email
      ensures r.Some? ==> exists i :: 0 <= i < |users| && users[i] == r.value && r.value.email == email
                                        && forall j :: 0 <= j < i ==> users[j].email != email
    {
      Find(users, (u: User) => u.email == email)
    }

    function UserIndex(id: string): (r: Option<nat>)
      reads this
      ensures r.None? <==> forall j :: 0 <= j < |users| ==> users[j].id != id
      ensures r.Some? ==> r.value < |users| && users[r.value].id == id
                          && forall j :: 0 <= j < r.value ==> users[j].id != id
    {
      FirstIndex(users, (u: User) => u.id == id)
    }

    function UserById(id: string): (r: Option<User>)
      reads this
      ensures r.None? <==> forall j :: 0 <= j < |users| ==> users[j].id != id
      ensures r.Some? ==> exists i :: 0 <= i < |users| && users[i] == r.value && r.value.id == id
                                        && forall j :: 0 <= j < i ==> users[j].id != id
    {
      Find(users, (u: User) => u.id == id)
    }

    /** `getFarms`: the whole table without a city, else the city's farms in table order. */
    function GetFarms(cityId: Option<string>): (r: seq<Farm>)
      reads this
      ensures !Given(cityId) ==> r == farms
      ensures Given(cityId) ==> r == Filter(farms, (f: Farm) => f.cityId == cityId.value)
      ensures Given(cityId) ==> (forall i :: 0 <= i < |r| ==> r[i].cityId == cityId.value && r[i] in farms)
                                && (forall j :: 0 <= j < |farms| && farms[j].cityId == cityId.value ==> farms[j] in r)
    {
      if !Given(cityId) then farms else Filter(farms, (f: Farm) => f.cityId == cityId.value)
    }

    function FarmIndex(id: string): (r: Option<nat>)
      reads this
      ensures r.None? <==> forall j :: 0 <= j < |farms| ==> farms[j].id != id
      ensures r.Some? ==> r.value < |farms| && farms[r.value].id == id
                          && forall j :: 0 <= j < r.value ==> farms[j].id != id
    {
      FirstIndex(farms, (f: Farm) => f.id == id)
    }

    function FarmById(id: string): (r: Option<Farm>)
      reads this
      ensures r.None? <==> forall j :: 0 <= j < |farms| ==> farms[j].id != id
      ensures r.Some? ==> exists i :: 0 <= i < |farms| && farms[i] == r.value && r.value.id == id
                                        && forall j :: 0 <= j < i ==> farms[j].id != id
    {
      Find(farms, (f: Farm) => f.id == id)
    }

    /** `getProducts(farmId, cityId)`: a filter by farm, then a filter by the ids of the city's farms. */
    function GetProducts(farmId: Option<string>, cityId: Option<string>): (r: seq<Product>)
      reads this
      ensures r == SelectedProducts(products, farms, farmId, cityId)
    {
      SelectionInTwoSteps(products, farms, farmId, cityId);
      ProductsByFarmThenCity(products, farms, farmId, cityId)
    }

    function ProductIndex(id: string): (r: Option<nat>)
      reads this
      ensures r.None? <==> forall j :: 0 <= j < |products| ==> products[j].id != id
      ensures r.Some? ==> r.value < |products| && products[r.value].id == id
                          && forall j :: 0 <= j < r.value ==> products[j].id != id
    {
      FirstIndex(products, (p: Product) => p.id == id)
    }

    function ProductById(id: string): (r: Option<Product>)
      reads this
      ensures r.None? <==> forall j :: 0 <= j < |products| ==> products[j].id != id
      ensures r.Some? ==> exists i :: 0 <= i < |products| && products[i] == r.value && r.value.id == id
                                        && forall j :: 0 <= j < i ==> products[j].id != id
    {
      Find(products, (p: Product) => p.id == id)
    }

    function SubscriptionByUserId(userId: string): (r: Option<Subscription>)
      reads this
      ensures r.None? <==> forall j :: 0 <= j < |subscriptions| ==> subscriptions[j].userId != userId
      ensures r.Some? ==> exists i :: 0 <= i < |subscriptions| && subscriptions[i] == r.value
                                        && r.value.userId == userId
                                        && forall j :: 0 <= j < i ==> subscriptions[j].userId != userId
    {
      Find(subscriptions, (s: Subscription) => s.userId == userId)
    }

    function SubscriptionIndex(id: string): (r: Option<nat>)
      reads this
      ensures r.None? <==> forall j :: 0 <= j < |subscriptions| ==> subscriptions[j].id != id
      ensures r.Some? ==> r.value < |subscriptions| && subscriptions[r.value].id == id
                          && forall j :: 0 <= j < r.value ==> subscriptions[j].id != id
    {
      FirstIndex(subscriptions, (s: Subscription) => s.id == id)
    }

    /** `getOrders`: every order without a user id, else that user's orders in table order. */
    function GetOrders(userId: Option<string>): (r: seq<Order>)
      reads this
      ensures !Given(userId) ==> r == orders
      ensures Given(userId) ==> r == Filter(orders, (o: Order) => o.userId == userId.value)
      ensures Given(userId) ==> (forall i :: 0 <= i < |r| ==> r[i].userId == userId.value && r[i] in orders)
                                && (forall j :: 0 <= j < |orders| && orders[j].userId == userId.value ==> orders[j] in r)
    {
      if !Given(userId) then orders else Filter(orders, (o: Order) => o.userId == userId.value)
    }

    function OrderIndex(id: string): (r: Option<nat>)
      reads this
      ensures r.None? <==> forall j :: 0 <= j < |orders| ==> orders[j].id != id
      ensures r.Some? ==> r.value < |orders| && orders[r.value].id == id
                          && forall j :: 0 <= j < r.value ==> orders[j].id != id
    {
      FirstIndex(orders, (o: Order) => o.id == id)
    }

    function OrderById(id: string): (r: Option<Order>)
      reads this
      ensures r.None? <==> forall j :: 0 <= j < |orders| ==> orders[j].id != id
      ensures r.Some? ==> exists i :: 0 <= i < |orders| && orders[i] == r.value && r.value.id == id
                                        && forall j :: 0 <= j < i ==> orders[j].id != id
    {
      Find(orders, (o: Order) => o.id == id)
    }

    function TimelineIndex(productId: string): (r: Option<nat>)
      reads this
      ensures r.None? <==> forall j :: 0 <= j < |growthTimelines| ==> growthTimelines[j].productId != productId
      ensures r.Some? ==> r.value < |growthTimelines| && growthTimelines[r.value].productId == productId
                          && forall j :: 0 <= j < r.value ==> growthTimelines[j].productId != productId
    {
      FirstIndex(growthTimelines, (t: GrowthTimeline) => t.productId == productId)
    }

    function GrowthTimelineByProductId(productId: string): (r: Option<GrowthTimeline>)
      reads this
      ensures r.None? <==> forall j :: 0 <= j < |growthTimelines| ==> growthTimelines[j].productId != productId
      ensures r.Some? ==> exists i :: 0 <= i < |growthTimelines| && growthTimelines[i] == r.value
                                        && r.value.productId == productId
                                        && forall j :: 0 <= j < i ==> growthTimelines[j].productId != productId
    {
      Find(growthTimelines, (t: GrowthTimeline) => t.productId == productId)
    }

    // ---- updates --------------------------------------------------------------

    method UpdateUser(id: string, updates: UserPatch) returns (r: Option<User>)
      modifies this`users
      ensures old(UserIndex(id)).None? ==> r.None? && users == old(users)
      ensures old(UserIndex(id)).Some? ==>
                var i := old(UserIndex(id)).value;
                users == old(users)[i := MergeUser(old(users)[i], updates)] && r == Some(users[i])
    {
      var index := UserIndex(id);
      if index.None? {
        return None;
      }
      var i := index.value;
      users := users[i := MergeUser(users[i], updates)];
      r := Some(users[i]);
    }

    method UpdateFarm(id: string, updates: FarmPatch) returns (r: Option<Farm>)
      modifies this`farms
      ensures old(FarmIndex(id)).None? ==> r.None? && farms == old(farms)
      ensures old(FarmIndex(id)).Some? ==>
                var i := old(FarmIndex(id)).value;
                farms == old(farms)[i := MergeFarm(old(farms)[i], updates)] && r == Some(farms[i])
    {
      var index := FarmIndex(id);
      if index.None? {
        return None;
      }
      var i := index.value;
      farms := farms[i := MergeFarm(farms[i], updates)];
      r := Some(farms[i]);
    }

    method UpdateProduct(id: string, updates: ProductPatch) returns (r: Option<Product>)
      modifies this`products
      ensures old(ProductIndex(id)).None? ==> r.None? && products == old(products)
      ensures old(ProductIndex(id)).Some? ==>
                var i := old(ProductIndex(id)).value;
                products == old(products)[i := MergeProduct(old(products)[i], updates)] && r == Some(products[i])
    {
      var index := ProductIndex(id);
      if index.None? {
        return None;
      }
      var i := index.value;
      products := products[i := MergeProduct(products[i], updates)];
      r := Some(products[i]);
    }

    /** `createProduct`: appends the draft under the new id (`prod-<timestamp>` in the source). */
    method CreateProduct(draft: ProductDraft, id: string) returns (p: Product)
      modifies this`products
      ensures p == ProductFromDraft(draft, id) && products == old(products) + [p]
    {
      p := ProductFromDraft(draft, id);
      products := products + [p];
    }

    /** `decrementProductQuantity`: refuses a missing product or insufficient stock; otherwise
        lowers the first match's quantity by `amount`. */
    method DecrementProductQuantity(id: string, amount: real) returns (ok: bool)
      modifies this`products
      ensures ok == (old(ProductIndex(id)).Some? && old(products)[old(ProductIndex(id)).value].quantity >= amount)
      ensures !ok ==> products == old(products)
      ensures ok ==> var i := old(ProductIndex(id)).value;
                     products == old(products)[i := old(products)[i].(quantity := old(products)[i].quantity - amount)]
      ensures amount >= 0.0 && old(StockNonNegative()) ==> StockNonNegative()
    {
      var index := ProductIndex(id);
      if index.None? || products[index.value].quantity < amount {
        return false;
      }
      var i := index.value;
      products := products[i := products[i].(quantity := products[i].quantity - amount)];
      ok := true;
    }

    predicate StockNonNegative()
      reads this
    {
      forall i :: 0 <= i < |products| ==> products[i].quantity >= 0.0
    }

    /** `deleteProduct`: removes the first product with the id. */
    method DeleteProduct(id: string) returns (ok: bool)
      modifies this`products
      ensures ok == old(ProductIndex(id)).Some?
      ensures !ok ==> products == old(products)
      ensures ok ==> var i := old(ProductIndex(id)).value;
                     products == old(products)[..i] + old(products)[i + 1..]
    {
      var index := ProductIndex(id);
      if index.None? {
        return false;
      }
      var i := index.value;
      products := products[..i] + products[i + 1..];
      ok := true;
    }

    method UpdateSubscription(id: string, updates: SubscriptionPatch) returns (r: Option<Subscription>)
      modifies this`subscriptions
      ensures old(SubscriptionIndex(id)).None? ==> r.None? && subscriptions == old(subscriptions)
      ensures old(SubscriptionIndex(id)).Some? ==>
                var i := old(SubscriptionIndex(id)).value;
                subscriptions == old(subscriptions)[i := MergeSubscription(old(subscriptions)[i], updates)]
                && r == Some(subscriptions[i])
    {
      var index := SubscriptionIndex(id);
      if index.None? {
        return None;
      }
      var i := index.value;
      subscriptions := subscriptions[i := MergeSubscription(subscriptions[i], updates)];
      r := Some(subscriptions[i]);
    }

    /** `createOrder`: appends the draft under the new id and creation time. */
    method CreateOrder(draft: OrderDraft, id: string, createdAt: string) returns (o: Order)
      modifies this`orders
      ensures o == OrderFromDraft(draft, id, createdAt) && orders == old(orders) + [o]
    {
      o := OrderFromDraft(draft, id, createdAt);
      orders := orders + [o];
    }

    method UpdateOrder(id: string, updates: OrderPatch) returns (r: Option<Order>)
      modifies this`orders
      ensures old(OrderIndex(id)).None? ==> r.None? && orders == old(orders)
      ensures old(OrderIndex(id)).Some? ==>
                var i := old(OrderIndex(id)).value;
                orders == old(orders)[i := MergeOrder(old(orders)[i], updates)] && r == Some(orders[i])
    {
      var index := OrderIndex(id);
      if index.None? {
        return None;
      }
      var i := index.value;
      orders := orders[i := MergeOrder(orders[i], updates)];
      r := Some(orders[i]);
    }

    /** `updateOrderItemStatus`: sets the status of the first matching item of the first order
        with the id and re-derives the order status; false when either is missing. */
    method UpdateOrderItemStatus(orderId: string, productId: string, farmId: string, status: OrderStatus, now: string)
      returns (ok: bool)
      modifies this`orders
      ensures var oi := old(OrderIndex(orderId));
              ok == (oi.Some? && WithItemStatus(old(orders)[oi.value], productId, farmId, status, now).Some?)
      ensures !ok ==> orders == old(orders)
      ensures ok ==> var i := old(OrderIndex(orderId)).value;
                     orders == old(orders)[i := WithItemStatus(old(orders)[i], productId, farmId, status, now).value]
    {
      var index := OrderIndex(orderId);
      if index.None? {
        return false;
      }
      var i := index.value;
      var updated := WithItemStatus(orders[i], productId, farmId, status, now);
      if updated.None? {
        return false;
      }
      orders := orders[i := updated.value];
      ok := true;
    }

    /** `updateGrowthTimeline`: replaces the entries of the product's timeline, or appends a new
        timeline (with the given id) when the product has none. */
    method UpdateGrowthTimeline(productId: string, entries: seq<GrowthEntry>, newId: string) returns (t: GrowthTimeline)
      modifies this`growthTimelines
      ensures old(TimelineIndex(productId)).Some? ==>
                var i := old(TimelineIndex(productId)).value;
                t == old(growthTimelines)[i].(entries := entries)
                && growthTimelines == old(growthTimelines)[i := t]
      ensures old(TimelineIndex(productId)).None? ==>
                t == GrowthTimeline(newId, productId, entries) && growthTimelines == old(growthTimelines) + [t]
    {
      var index := TimelineIndex(productId);
      if index.Some? {
        var i := index.value;
        t := growthTimelines[i].(entries := entries);
        growthTimelines := growthTimelines[i := t];
        return;
      }
      t := GrowthTimeline(newId, productId, entries);
      growthTimelines := growthTimelines + [t];
    }

    /** `updateRAGEmbeddings`: replaces the knowledge corpus. */
    method UpdateRagEmbeddings(docs: seq<RagDocument>)
      modifies this`ragDocuments
      ensures ragDocuments == docs
    {
      ragDocuments := docs;
    }
  }

  /** What `getProducts(farmId, cityId)` keeps: the farm filter when a farm id is given, and,
      when a city is given, products owned by some farm of that city. */
  predicate ProductSelected(p: Product, farmId: Option<string>, cityId: Option<string>, farms: seq<Farm>)
  {
    (Given(farmId) ==> p.farmId == farmId.value)
    && (Given(cityId) ==> exists j :: 0 <= j < |farms| && farms[j].cityId == cityId.value && farms[j].id == p.farmId)
  }

  /** The products `ProductSelected` keeps, in table order. */
  function SelectedProducts(products: seq<Product>, farms: seq<Farm>, farmId: Option<string>, cityId: Option<string>): (r: seq<Product>)
    ensures forall i :: 0 <= i < |r| ==> ProductSelected(r[i], farmId, cityId, farms) && r[i] in products
    ensures forall j :: 0 <= j < |products| && ProductSelected(products[j], farmId, cityId, farms) ==> products[j] in r
  {
    Filter(products, (p: Product) => ProductSelected(p, farmId, cityId, farms))
  }

  /** The id list of the city's farms contains exactly the ids of farms in that city. */
  lemma CityFarmIds(farms: seq<Farm>, city: string, x: string)
    ensures x in Map(Filter(farms, (f: Farm) => f.cityId == city), (f: Farm) => f.id)
            <==> exists j :: 0 <= j < |farms| && farms[j].cityId == city && farms[j].id == x
  {
    var inCity := Filter(farms, (f: Farm) => f.cityId == city);
    var ids := Map(inCity, (f: Farm) => f.id);
    if x in ids {
      var k :| 0 <= k < |ids| && ids[k] == x;
      assert inCity[k] in farms;
    }
    if exists j :: 0 <= j < |farms| && farms[j].cityId == city && farms[j].id == x {
      var j :| 0 <= j < |farms| && farms[j].cityId == city && farms[j].id == x;
      assert farms[j] in inCity;
      var k :| 0 <= k < |inCity| && inCity[k] == farms[j];
      assert ids[k] == x;
    }
  }

  /** `getProducts`' two steps: the farm filter, then membership in the city's farm ids. */
  function ProductsByFarmThenCity(products: seq<Product>, farms: seq<Farm>, farmId: Option<string>, cityId: Option<string>): seq<Product>
  {
    var byFarm := if Given(farmId) then Filter(products, (p: Product) => p.farmId == farmId.value) else products;
    if Given(cityId) then
      var farmIds := Map(Filter(farms, (f: Farm) => f.cityId == cityId.value), (f: Farm) => f.id);
      Filter(byFarm, (p: Product) => p.farmId in farmIds)
    else byFarm
  }

  /** The two successive filters of `getProducts` select exactly the products of `ProductSelected`. */
  lemma SelectionInTwoSteps(products: seq<Product>, farms: seq<Farm>, farmId: Option<string>, cityId: Option<string>)
    ensures ProductsByFarmThenCity(products, farms, farmId, cityId) == SelectedProducts(products, farms, farmId, cityId)
  {
    var sel := (p: Product) => ProductSelected(p, farmId, cityId, farms);
    if Given(cityId) {
      var ids := Map(Filter(farms, (f: Farm) => f.cityId == cityId.value), (f: Farm) => f.id);
      var inCity := (p: Product) => p.farmId in ids;
      forall i | 0 <= i < |products| {
        CityFarmIds(farms, cityId.value, products[i].farmId);
      }
      if Given(farmId) {
        FilterFilter(products, (p: Product) => p.farmId == farmId.value, inCity, sel);
      } else {
        FilterCongruent(products, inCity, sel);
      }
    } else if Given(farmId) {
      FilterCongruent(products, (p: Product) => p.farmId == farmId.value, sel);
    } else {
      FilterAll(products, sel);
    }
  }
}
