/** What the two nutrition routes (advice and recipe) share: the request body `{ weeklyItems,
    allergies? }`, the product lookup of each item, and the `map(item => text or null)
    .filter(Boolean)` that describes the items whose product exists. */
module WeeklyBox {
  import opened Wrappers
  import opened Types

  /** The request body: not JSON at all (`request.json()` throws), JSON the schema refuses, or
      `{ weeklyItems: [{ id, quantity }], allergies? }`. */
  datatype WeeklyBody =
    | NotJson
    | WrongShape
    | WeeklyRequest(weeklyItems: seq<WeeklyItem>, allergies: Option<string>)

  /** `getProductById`: the first product with the id. */
  function Lookup(products: seq<Product>, id: string): (r: Option<Product>)
    ensures r.Some? ==> r.value.id == id
  {
    if products == [] then None
    else if products[0].id == id then Some(products[0])
    else Lookup(products[1..], id)
  }

  /** The lookup finds the first product with the id, and finds none only when no product has it. */
  lemma {:induction false} LookupFindsFirst(products: seq<Product>, id: string)
    ensures Lookup(products, id).None? <==> forall j :: 0 <= j < |products| ==> products[j].id != id
    ensures Lookup(products, id).Some? ==>
              exists i :: 0 <= i < |products| && products[i] == Lookup(products, id).value
                          && forall j :: 0 <= j < i ==> products[j].id != id
  {
    if products != [] && products[0].id != id {
      LookupFindsFirst(products[1..], id);
      if Lookup(products, id).Some? {
        var i :| 0 <= i < |products[1..]| && products[1..][i] == Lookup(products, id).value
                 && forall j :: 0 <= j < i ==> products[1..][j].id != id;
        assert products[i + 1] == Lookup(products, id).value;
      }
    }
  }

  predicate IsKnown(products: seq<Product>, item: WeeklyItem)
  {
    Lookup(products, item.id).Some?
  }

  /** The items whose product exists, in request order. */
  function Known(products: seq<Product>, items: seq<WeeklyItem>): (r: seq<WeeklyItem>)
    ensures |r| <= |items|
  {
    if items == [] then []
    else
      var last := items[|items| - 1];
      Known(products, items[..|items| - 1]) + if IsKnown(products, last) then [last] else []
  }

  lemma KnownSnoc(products: seq<Product>, items: seq<WeeklyItem>, x: WeeklyItem)
    ensures Known(products, items + [x]) == Known(products, items) + (if IsKnown(products, x) then [x] else [])
  {
    assert (items + [x])[..|items + [x]| - 1] == items;
  }

  /** `validated.allergies || 'None'`. */
  function AllergiesAndNotes(allergies: Option<string>): (r: string)
    ensures allergies.Some? && allergies.value != "" ==> r == allergies.value
    ensures allergies.None? || allergies.value == "" ==> r == "None"
  {
    if allergies.Some? && allergies.value != "" then allergies.value else "None"
  }

  // ---------------------------------------------------------------- describing the items

  /** The text a route makes of an item from its product and the requested quantity. */
  type Describe = (Product, real) -> string

  /** What one item contributes: nothing when its product is unknown. */
  function Description(products: seq<Product>, item: WeeklyItem, describe: Describe): seq<string>
  {
    match Lookup(products, item.id)
    case None => []
    case Some(p) => [describe(p, item.quantity)]
  }

  /** `map(item => text or null).filter(Boolean)`. */
  function Described(products: seq<Product>, items: seq<WeeklyItem>, describe: Describe): seq<string>
  {
    if items == [] then []
    else Described(products, items[..|items| - 1], describe) + Description(products, items[|items| - 1], describe)
  }

  /** Items whose product is unknown leave no text behind. */
  lemma {:induction false} UnknownItemsAreSkipped(products: seq<Product>, items: seq<WeeklyItem>, describe: Describe)
    ensures Described(products, items, describe) == Described(products, Known(products, items), describe)
  {
    if items != [] {
      var p := items[..|items| - 1];
      var x := items[|items| - 1];
      UnknownItemsAreSkipped(products, p, describe);
      var k := Known(products, p);
      assert Known(products, items) == k + if IsKnown(products, x) then [x] else [];
      assert Described(products, items, describe) == Described(products, k, describe) + Description(products, x, describe);
      if IsKnown(products, x) {
        var kx := k + [x];
        assert kx[..|kx| - 1] == k && kx[|kx| - 1] == x;
        assert Known(products, items) == kx;
        assert Described(products, kx, describe) == Described(products, k, describe) + Description(products, x, describe);
      } else {
        assert Known(products, items) == k + [] == k;
        assert Description(products, x, describe) == [];
        assert Described(products, k, describe) + [] == Described(products, k, describe);
      }
    }
  }

  /** One text per known item, in request order, made from its product and the requested quantity. */
  lemma {:induction false} OneTextPerKnownItem(products: seq<Product>, items: seq<WeeklyItem>, describe: Describe)
    ensures var texts := Described(products, items, describe); var k := Known(products, items);
      |texts| == |k|
      && forall i :: 0 <= i < |k| ==>
           Lookup(products, k[i].id).Some? && texts[i] == describe(Lookup(products, k[i].id).value, k[i].quantity)
  {
    if items != [] {
      var p := items[..|items| - 1];
      var x := items[|items| - 1];
      assert items == p + [x];
      OneTextPerKnownItem(products, p, describe);
      KnownSnoc(products, p, x);
      assert Described(products, items, describe) == Described(products, p, describe) + Description(products, x, describe);
    }
  }
}
