/** The customer dashboard's own logic: the build-your-box cart (add, change quantity, remove,
    total), the tally of this week's premium order items into weekly items, and the nutrition
    bar's classification against a weekly goal. */
module CustomerDashboard {
  import opened Wrappers
  import opened Seqs
  import opened Types

  // ---------------------------------------------------------------- the cart

  /** A cart line; quantities are whole numbers, since the buttons only add and subtract one. */
  datatype CartItem = CartItem(productId: string, farmId: string, name: string, quantity: int, unit: string, price: real)

  type Cart = seq<CartItem>

  predicate InCart(cart: Cart, productId: string)
  {
    exists i :: 0 <= i < |cart| && cart[i].productId == productId
  }

  /** No two lines are for the same product. */
  predicate DistinctIds(cart: Cart)
  {
    forall i, j :: 0 <= i < j < |cart| ==> cart[i].productId != cart[j].productId
  }

  /** Every line has at least one unit. */
  predicate Positive(cart: Cart)
  {
    forall i :: 0 <= i < |cart| ==> cart[i].quantity >= 1
  }

  /** The line `addToCart` appends for a product not yet in the cart. */
  function NewLine(product: Product): (r: CartItem)
    ensures r.productId == product.id && r.quantity == 1 && r.price == product.price
  {
    CartItem(product.id, product.farmId, product.name, 1, product.unit, product.price)
  }

  /** `cart.map(item => item.productId === productId ? { ...item, quantity } : item)`. */
  function SetQuantity(cart: Cart, productId: string, quantity: int): (r: Cart)
    ensures |r| == |cart|
    ensures forall i :: 0 <= i < |cart| && cart[i].productId != productId ==> r[i] == cart[i]
    ensures forall i :: 0 <= i < |cart| && cart[i].productId == productId ==> r[i] == cart[i].(quantity := quantity)
  {
    seq(|cart|, i requires 0 <= i < |cart| =>
      if cart[i].productId == productId then cart[i].(quantity := quantity) else cart[i])
  }

  /** `cart.filter(item => item.productId !== productId)`. */
  function Without(cart: Cart, productId: string): (r: Cart)
    ensures |r| <= |cart|
    ensures forall i :: 0 <= i < |r| ==> r[i].productId != productId
  {
    if cart == [] then []
    else
      var rest := Without(cart[..|cart| - 1], productId);
      assert cart == cart[..|cart| - 1] + [cart[|cart| - 1]];
      if cart[|cart| - 1].productId == productId then rest else rest + [cart[|cart| - 1]]
  }

  /** `addToCart`: one more unit on the product's line, or a new line with one unit at the end. */
  function AddToCart(cart: Cart, product: Product): (r: Cart)
    ensures InCart(cart, product.id) ==>
              |r| == |cart|
              && (forall i :: 0 <= i < |cart| && cart[i].productId != product.id ==> r[i] == cart[i])
              && (forall i :: 0 <= i < |cart| && cart[i].productId == product.id ==>
                    r[i] == cart[i].(quantity := cart[i].quantity + 1))
    ensures !InCart(cart, product.id) ==> r == cart + [NewLine(product)]
  {
    if InCart(cart, product.id) then
      seq(|cart|, i requires 0 <= i < |cart| =>
        if cart[i].productId == product.id then cart[i].(quantity := cart[i].quantity + 1) else cart[i])
    else cart + [NewLine(product)]
  }

  /** `updateQuantity`: a quantity of zero or less removes the line, any other sets it. */
  function UpdateQuantity(cart: Cart, productId: string, quantity: int): (r: Cart)
    ensures quantity <= 0 ==> !InCart(r, productId) && |r| <= |cart|
    ensures quantity > 0 ==> |r| == |cart|
    ensures quantity > 0 ==> forall i :: 0 <= i < |cart| ==>
              r[i] == (if cart[i].productId == productId then cart[i].(quantity := quantity) else cart[i])
  {
    if quantity <= 0 then Without(cart, productId) else SetQuantity(cart, productId, quantity)
  }

  /** `removeFromCart`. */
  function RemoveFromCart(cart: Cart, productId: string): (r: Cart)
    ensures !InCart(r, productId) && |r| <= |cart|
  {
    Without(cart, productId)
  }

  /** The lines kept are exactly those for other products. */
  lemma {:induction false} WithoutKeepsOthers(cart: Cart, productId: string)
    ensures forall x :: x in Without(cart, productId) <==> x in cart && x.productId != productId
  {
    if cart != [] {
      var p := cart[..|cart| - 1];
      WithoutKeepsOthers(p, productId);
      assert cart == p + [cart[|cart| - 1]];
    }
  }

  /** Removing a product's line from a cart with distinct lines leaves the others in order. */
  lemma {:induction false} WithoutDropsTheLine(cart: Cart, k: nat)
    requires DistinctIds(cart) && k < |cart|
    ensures Without(cart, cart[k].productId) == cart[..k] + cart[k + 1..]
    decreases |cart|
  {
    var id := cart[k].productId;
    var p, x := cart[..|cart| - 1], cart[|cart| - 1];
    if k == |cart| - 1 {
      WithoutAbsent(p, id);
      assert cart[..k] + cart[k + 1..] == p;
    } else {
      WithoutDropsTheLine(p, k);
      assert x.productId != id;
      assert cart[..k] + cart[k + 1..] == p[..k] + p[k + 1..] + [x];
    }
  }

  /** Filtering out a product that has no line changes nothing. */
  lemma {:induction false} WithoutAbsent(cart: Cart, productId: string)
    requires forall i :: 0 <= i < |cart| ==> cart[i].productId != productId
    ensures Without(cart, productId) == cart
  {
    if cart != [] {
      WithoutAbsent(cart[..|cart| - 1], productId);
      assert cart == cart[..|cart| - 1] + [cart[|cart| - 1]];
    }
  }

  /** `removeFromCart` drops exactly the product's line and keeps the order of the rest. */
  lemma RemoveKeepsOrder(cart: Cart, k: nat)
    requires DistinctIds(cart) && k < |cart|
    ensures RemoveFromCart(cart, cart[k].productId) == cart[..k] + cart[k + 1..]
  {
    WithoutDropsTheLine(cart, k);
  }

  lemma {:induction false} WithoutKeepsDistinct(cart: Cart, productId: string)
    requires DistinctIds(cart)
    ensures DistinctIds(Without(cart, productId)) && (Positive(cart) ==> Positive(Without(cart, productId)))
  {
    if cart != [] {
      var p, x := cart[..|cart| - 1], cart[|cart| - 1];
      WithoutKeepsDistinct(p, productId);
      WithoutKeepsOthers(p, productId);
      var rest := Without(p, productId);
      if x.productId != productId {
        forall i | 0 <= i < |rest|
          ensures rest[i].productId != x.productId && (Positive(cart) ==> rest[i].quantity >= 1)
        {
          assert rest[i] in p;
        }
      } else if Positive(cart) {
        forall i | 0 <= i < |rest|
          ensures rest[i].quantity >= 1
        {
          assert rest[i] in p;
        }
      }
    }
  }

  /** Adding, updating and removing keep one line per product. */
  lemma CartOpsKeepDistinct(cart: Cart, product: Product, productId: string, quantity: int)
    requires DistinctIds(cart)
    ensures DistinctIds(AddToCart(cart, product))
    ensures DistinctIds(UpdateQuantity(cart, productId, quantity))
    ensures DistinctIds(RemoveFromCart(cart, productId))
  {
    WithoutKeepsDistinct(cart, productId);
  }

  /** The actions the dashboard's buttons issue: add a product, the +, - and Remove buttons of a
      line (which pass that line's own quantity plus or minus one). */
  datatype CartAction =
    | AddProduct(product: Product)
    | Increase(line: nat)
    | Decrease(line: nat)
    | RemoveLine(line: nat)

  /** One action; a button of a line that does not exist is not there to press. */
  function Apply(cart: Cart, a: CartAction): Cart
  {
    match a
    case AddProduct(p) => AddToCart(cart, p)
    case Increase(i) => if i < |cart| then UpdateQuantity(cart, cart[i].productId, cart[i].quantity + 1) else cart
    case Decrease(i) => if i < |cart| then UpdateQuantity(cart, cart[i].productId, cart[i].quantity - 1) else cart
    case RemoveLine(i) => if i < |cart| then RemoveFromCart(cart, cart[i].productId) else cart
  }

  /** The cart after a sequence of actions from an empty one. */
  function Replay(actions: seq<CartAction>): Cart
  {
    if actions == [] then [] else Apply(Replay(actions[..|actions| - 1]), actions[|actions| - 1])
  }

  lemma ApplyKeepsInvariant(cart: Cart, a: CartAction)
    requires DistinctIds(cart) && Positive(cart)
    ensures DistinctIds(Apply(cart, a)) && Positive(Apply(cart, a))
  {
    match a
    case AddProduct(p) =>
    case Increase(i) =>
      if i < |cart| {
        assert forall j :: 0 <= j < |cart| && cart[j].productId == cart[i].productId ==> j == i;
      }
    case Decrease(i) =>
      if i < |cart| {
        WithoutKeepsDistinct(cart, cart[i].productId);
        assert forall j :: 0 <= j < |cart| && cart[j].productId == cart[i].productId ==> j == i;
      }
    case RemoveLine(i) =>
      if i < |cart| {
        WithoutKeepsDistinct(cart, cart[i].productId);
      }
  }

  /** Whatever the buttons do, every line keeps at least one unit and no product has two lines. */
  lemma {:induction false} ReachableCartsArePositive(actions: seq<CartAction>)
    ensures DistinctIds(Replay(actions)) && Positive(Replay(actions))
  {
    if actions != [] {
      ReachableCartsArePositive(actions[..|actions| - 1]);
      ApplyKeepsInvariant(Replay(actions[..|actions| - 1]), actions[|actions| - 1]);
    }
  }

  function LineTotal(item: CartItem): real
  {
    item.price * item.quantity as real
  }

  /** `cart.reduce((sum, item) => sum + item.price * item.quantity, 0)`. */
  function Total(cart: Cart): real
  {
    Sum(cart, LineTotal)
  }

  /** Adding a product raises the total by one unit's price: the line's own price when the product
      is already in the cart, the product's price for a new line. */
  lemma AddRaisesTotal(cart: Cart, product: Product)
    requires DistinctIds(cart)
    ensures !InCart(cart, product.id) ==> Total(AddToCart(cart, product)) == Total(cart) + product.price
    ensures forall k :: 0 <= k < |cart| && cart[k].productId == product.id ==>
              Total(AddToCart(cart, product)) == Total(cart) + cart[k].price
  {
    if InCart(cart, product.id) {
      forall k | 0 <= k < |cart| && cart[k].productId == product.id
        ensures Total(AddToCart(cart, product)) == Total(cart) + cart[k].price
      {
        AddRaisesLine(cart, product, k);
      }
    } else {
      SumSnoc(cart, NewLine(product), LineTotal);
    }
  }

  lemma AddRaisesLine(cart: Cart, product: Product, k: nat)
    requires DistinctIds(cart) && k < |cart| && cart[k].productId == product.id
    ensures Total(AddToCart(cart, product)) == Total(cart) + cart[k].price
  {
    var x := cart[k].(quantity := cart[k].quantity + 1);
    AddBumpsLine(cart, product, k);
    SumUpdate(cart, k, x, LineTotal);
    OneMoreUnit(cart[k]);
  }

  lemma AddBumpsLine(cart: Cart, product: Product, k: nat)
    requires DistinctIds(cart) && k < |cart| && cart[k].productId == product.id
    ensures AddToCart(cart, product) == cart[k := cart[k].(quantity := cart[k].quantity + 1)]
  {
    var r := AddToCart(cart, product);
    assert forall i :: 0 <= i < |cart| && i != k ==> r[i] == cart[i];
  }

  lemma OneMoreUnit(item: CartItem)
    ensures LineTotal(item.(quantity := item.quantity + 1)) == LineTotal(item) + item.price
  {
    var p := item.price;
    var q := item.quantity as real;
    assert (item.quantity + 1) as real == q + 1.0;
    assert p * (q + 1.0) == p * q + p;
  }

  /** Removing a product's line lowers the total by that line's amount. */
  lemma RemoveLowersTotal(cart: Cart, k: nat)
    requires DistinctIds(cart) && k < |cart|
    ensures Total(RemoveFromCart(cart, cart[k].productId)) == Total(cart) - LineTotal(cart[k])
  {
    WithoutDropsTheLine(cart, k);
    assert cart == cart[..k] + [cart[k]] + cart[k + 1..];
    SumAppend(cart[..k] + [cart[k]], cart[k + 1..], LineTotal);
    SumAppend(cart[..k], cart[k + 1..], LineTotal);
    SumSnoc(cart[..k], cart[k], LineTotal);
  }

  // ---------------------------------------------------------------- premium weekly items

  /** The order items of the week's orders, order by order. */
  function AllItems(orders: seq<Order>): seq<OrderItem>
  {
    if orders == [] then [] else AllItems(orders[..|orders| - 1]) + orders[|orders| - 1].items
  }

  function Ids(m: seq<WeeklyItem>): (r: seq<string>)
    ensures |r| == |m| && forall i :: 0 <= i < |m| ==> r[i] == m[i].id
  {
    seq(|m|, i requires 0 <= i < |m| => m[i].id)
  }

  /** `itemsMap.get(id)`'s position, as the insertion-ordered map keeps its keys. */
  function Position(m: seq<WeeklyItem>, id: string): (r: Option<nat>)
    ensures r.Some? ==> r.value < |m| && m[r.value].id == id
    ensures r.None? ==> id !in Ids(m)
  {
    if m == [] then None
    else if m[|m| - 1].id == id then Some(|m| - 1)
    else
      var r := Position(m[..|m| - 1], id);
      assert Ids(m) == Ids(m[..|m| - 1]) + [m[|m| - 1].id];
      r
  }

  /** `itemsMap.set(id, (itemsMap.get(id) || 0) + item.quantity)`: an existing key keeps its place. */
  function Record(m: seq<WeeklyItem>, item: OrderItem): seq<WeeklyItem>
  {
    match Position(m, item.productId)
    case Some(k) => m[k := WeeklyItem(item.productId, m[k].quantity + item.quantity)]
    case None => m + [WeeklyItem(item.productId, item.quantity)]
  }

  /** The map's entries after recording the items in turn. */
  function Tally(items: seq<OrderItem>): seq<WeeklyItem>
  {
    if items == [] then [] else Record(Tally(items[..|items| - 1]), items[|items| - 1])
  }

  lemma TallySnoc(items: seq<OrderItem>, x: OrderItem)
    ensures Tally(items + [x]) == Record(Tally(items), x)
  {
    assert (items + [x])[..|items|] == items;
  }

  lemma TallyStep(before: seq<OrderItem>, items: seq<OrderItem>, j: nat)
    requires j < |items|
    ensures Tally(before + items[..j + 1]) == Record(Tally(before + items[..j]), items[j])
  {
    assert before + items[..j + 1] == (before + items[..j]) + [items[j]];
    TallySnoc(before + items[..j], items[j]);
  }

  /** The nested `forEach` over the orders and their items, then `Array.from(itemsMap.entries())`. */
  method PremiumWeeklyItems(orders: seq<Order>) returns (weekly: seq<WeeklyItem>)
    ensures weekly == Tally(AllItems(orders))
  {
    weekly := [];
    var i := 0;
    while i < |orders|
      invariant 0 <= i <= |orders|
      invariant weekly == Tally(AllItems(orders[..i]))
    {
      weekly := RecordItems(weekly, AllItems(orders[..i]), orders[i].items);
      OrdersStep(orders, i);
      i := i + 1;
    }
    assert orders[..i] == orders;
  }

  /** The inner `forEach` over one order's items, on the entries the earlier items gave. */
  method RecordItems(m: seq<WeeklyItem>, ghost before: seq<OrderItem>, items: seq<OrderItem>) returns (r: seq<WeeklyItem>)
    requires m == Tally(before)
    ensures r == Tally(before + items)
  {
    r := m;
    assert before + items[..0] == before;
    var j := 0;
    while j < |items|
      invariant 0 <= j <= |items|
      invariant r == Tally(before + items[..j])
    {
      r := RecordItem(r, items[j]);
      TallyStep(before, items, j);
      j := j + 1;
    }
    assert items[..j] == items;
  }

  /** One `itemsMap.set`: the item's quantity is added to its product's entry, or a new entry is
      appended. */
  method RecordItem(m: seq<WeeklyItem>, item: OrderItem) returns (r: seq<WeeklyItem>)
    ensures r == Record(m, item)
  {
    var k := Position(m, item.productId);
    if k.Some? {
      r := m[k.value := WeeklyItem(item.productId, m[k.value].quantity + item.quantity)];
    } else {
      r := m + [WeeklyItem(item.productId, item.quantity)];
    }
  }

  lemma OrdersStep(orders: seq<Order>, i: nat)
    requires i < |orders|
    ensures AllItems(orders[..i + 1]) == AllItems(orders[..i]) + orders[i].items
  {
    assert orders[..i + 1][..i] == orders[..i];
  }

  /** The product ids in the order of their first appearance. */
  function FirstSeen(ids: seq<string>): seq<string>
  {
    if ids == [] then []
    else
      var f := FirstSeen(ids[..|ids| - 1]);
      if ids[|ids| - 1] in f then f else f + [ids[|ids| - 1]]
  }

  function ProductIds(items: seq<OrderItem>): (r: seq<string>)
    ensures |r| == |items| && forall i :: 0 <= i < |items| ==> r[i] == items[i].productId
  {
    seq(|items|, i requires 0 <= i < |items| => items[i].productId)
  }

  /** The summed quantity of the items for one product. */
  function QuantityOf(items: seq<OrderItem>, id: string): real
  {
    if items == [] then 0.0
    else QuantityOf(items[..|items| - 1], id) + (if items[|items| - 1].productId == id then items[|items| - 1].quantity else 0.0)
  }

  function EntryQuantity(w: WeeklyItem): real
  {
    w.quantity
  }

  function ItemQuantity(item: OrderItem): real
  {
    item.quantity
  }

  /** The tally has one entry per product, in the order of first appearance. */
  lemma {:induction false} TallyInFirstSeenOrder(items: seq<OrderItem>)
    ensures Ids(Tally(items)) == FirstSeen(ProductIds(items))
  {
    if items != [] {
      var p, x := items[..|items| - 1], items[|items| - 1];
      TallyInFirstSeenOrder(p);
      var m := Tally(p);
      assert ProductIds(items) == ProductIds(p) + [x.productId];
      match Position(m, x.productId)
      case Some(k) =>
        assert Ids(m[k := WeeklyItem(x.productId, m[k].quantity + x.quantity)]) == Ids(m);
      case None =>
        assert Ids(m + [WeeklyItem(x.productId, x.quantity)]) == Ids(m) + [x.productId];
    }
  }

  /** Each entry holds its product's summed quantity, and a product without entry has none. */
  lemma {:induction false} TallySumsPerProduct(items: seq<OrderItem>)
    ensures forall k :: 0 <= k < |Tally(items)| ==> Tally(items)[k].quantity == QuantityOf(items, Tally(items)[k].id)
    ensures forall id :: id !in Ids(Tally(items)) ==> QuantityOf(items, id) == 0.0
  {
    if items != [] {
      var p, x := items[..|items| - 1], items[|items| - 1];
      TallySumsPerProduct(p);
      TallyInFirstSeenOrder(p);
      FirstSeenIsDistinct(ProductIds(p));
      var m := Tally(p);
      match Position(m, x.productId)
      case Some(k) =>
        var m' := m[k := WeeklyItem(x.productId, m[k].quantity + x.quantity)];
        assert Ids(m') == Ids(m);
      case None =>
        var m' := m + [WeeklyItem(x.productId, x.quantity)];
        assert Ids(m') == Ids(m) + [x.productId];
    }
  }

  /** The entries' quantities add up to the quantities of all items. */
  lemma {:induction false} TallyKeepsGrandTotal(items: seq<OrderItem>)
    ensures Sum(Tally(items), EntryQuantity) == Sum(items, ItemQuantity)
  {
    if items != [] {
      var p, x := items[..|items| - 1], items[|items| - 1];
      TallyKeepsGrandTotal(p);
      var m := Tally(p);
      match Position(m, x.productId)
      case Some(k) =>
        SumUpdate(m, k, WeeklyItem(x.productId, m[k].quantity + x.quantity), EntryQuantity);
      case None =>
        SumSnoc(m, WeeklyItem(x.productId, x.quantity), EntryQuantity);
    }
  }

  /** First-seen order lists each id once, and exactly the ids that occur. */
  lemma {:induction false} FirstSeenIsDistinct(ids: seq<string>)
    ensures Distinct(FirstSeen(ids))
    ensures forall id :: id in FirstSeen(ids) <==> id in ids
  {
    if ids != [] {
      var p := ids[..|ids| - 1];
      FirstSeenIsDistinct(p);
      assert ids == p + [ids[|ids| - 1]];
    }
  }

  // ---------------------------------------------------------------- nutrition bar

  datatype Level = Low | Good | High

  /** `Math.min((current / recommended) * 100, 100)`; the goals are positive constants. */
  function Percentage(current: real, recommended: real): (r: real)
    requires recommended > 0.0
    ensures r <= 100.0
    ensures r == 100.0 <==> current >= recommended
  {
    var p := current / recommended * 100.0;
    if p < 100.0 then p else 100.0
  }

  /** `isLow`, `isGood`, `isHigh`: exactly one holds for any percentage. */
  function Classify(percentage: real): (r: Level)
    ensures r == Low <==> percentage < 70.0
    ensures r == Good <==> 70.0 <= percentage < 100.0
    ensures r == High <==> percentage >= 100.0
  {
    if percentage < 70.0 then Low else if percentage < 100.0 then Good else High
  }

  lemma ScaleKeepsOrder(a: real, b: real, c: real)
    requires c > 0.0
    ensures a < b <==> a * c < b * c
  {
    if a < b {
      assert (b - a) * c > 0.0;
    } else {
      assert (a - b) * c >= 0.0;
    }
  }

  /** The bar is low exactly below 70% of the goal. */
  lemma LowBelowSeventyPercent(current: real, recommended: real)
    requires recommended > 0.0
    ensures Percentage(current, recommended) < 70.0 <==> current < recommended * 0.7
  {
    var q := current / recommended;
    QuotientScale(current, recommended);
    ScaleKeepsOrder(q, 0.7, recommended);
    assert q * recommended == current;
    assert 0.7 * recommended == recommended * 0.7;
  }

  /** The goal is met exactly when the week's amount reaches it, and the bar is low exactly below
      70% of it. */
  lemma BarLevels(current: real, recommended: real)
    requires recommended > 0.0
    ensures Classify(Percentage(current, recommended)) == High <==> current >= recommended
    ensures Classify(Percentage(current, recommended)) == Low <==> current < recommended * 0.7
  {
    LowBelowSeventyPercent(current, recommended);
  }

  lemma QuotientScale(a: real, c: real)
    requires c > 0.0
    ensures (a / c) * c == a
  {
  }

}
