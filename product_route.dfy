/** `POST`, `PUT` and `DELETE /api/product`: a farmer creates, updates and deletes products in the
    store. Every handler answers 401 to anyone but a farmer; a body the schema refuses is
    answered 400 and any other thrown error 500. */
module ProductRoute {
  import opened Wrappers
  import opened Types
  import opened DataStore

  /** The payloads: 401, 400 `Invalid input`, 400 `Product ID is required`, 404, 500, the created
      or updated product with its message, and the deletion message. */
  datatype ProductResponse =
    | Unauthorized
    | InvalidInput
    | IdRequired
    | NotFound
    | InternalError
    | CreatedProduct(product: Product)
    | UpdatedProduct(product: Product)
    | Deleted
  {
    function Status(): nat
    {
      match this
      case Unauthorized => 401
      case InvalidInput => 400
      case IdRequired => 400
      case NotFound => 404
      case InternalError => 500
      case CreatedProduct(_) => 200
      case UpdatedProduct(_) => 200
      case Deleted => 200
    }

    /** The `message` of each success payload. */
    function Message(): string
    {
      match this
      case CreatedProduct(_) => "Product created. Changes saved to memory."
      case UpdatedProduct(_) => "Product updated. Changes saved to memory."
      case Deleted => "Product deleted successfully"
      case _ => ""
    }
  }

  /** `session && session.user?.role === 'farmer'`. */
  predicate IsFarmer(session: Session)
  {
    session.Some? && session.value.role == "farmer"
  }

  // ---------------------------------------------------------------- POST

  /** The create body: not JSON (`request.json()` throws, not a schema error), of the wrong
      shape, or the fields of `createSchema` with `available` and `nutrition` optional. */
  datatype CreateBody =
    | CreateNotJson
    | CreateWrongShape
    | CreateRequest(farmId: string, name: string, description: string, unit: string, price: real,
                    quantity: real, available: Option<bool>, image: string, nutrition: Option<Nutrition>)

  /** `createSchema.parse` accepts the shape with a price and a quantity of at least 0. */
  predicate CreateAccepted(body: CreateBody)
  {
    body.CreateRequest? && body.price >= 0.0 && body.quantity >= 0.0
  }

  /** `{ ...validated, nutrition }`: `available` defaults to true and a missing nutrition to zeros. */
  function Draft(body: CreateBody): (d: ProductDraft)
    requires body.CreateRequest?
    ensures d.farmId == body.farmId && d.name == body.name && d.description == body.description
    ensures d.unit == body.unit && d.price == body.price && d.quantity == body.quantity && d.image == body.image
    ensures d.available == (body.available.None? || body.available.value)
    ensures d.nutrition == (if body.nutrition.Some? then body.nutrition.value else NoNutrition)
  {
    ProductDraft(body.farmId, body.name, body.description, body.unit, body.price, body.quantity,
                 body.available.GetOr(true), body.nutrition.GetOr(NoNutrition), body.image)
  }

  /** What `POST` answers; `id` stands for `prod-${Date.now()}`. */
  function CreateOutcome(session: Session, body: CreateBody, id: string): ProductResponse
  {
    if !IsFarmer(session) then Unauthorized
    else if body.CreateNotJson? then InternalError
    else if !CreateAccepted(body) then InvalidInput
    else CreatedProduct(ProductFromDraft(Draft(body), id))
  }

  method Post(store: Store, session: Session, body: CreateBody, id: string) returns (r: ProductResponse)
    modifies store`products
    ensures r == CreateOutcome(session, body, id)
    ensures r.CreatedProduct? ==> store.products == old(store.products) + [r.product]
    ensures !r.CreatedProduct? ==> store.products == old(store.products)
  {
    if !IsFarmer(session) {
      return Unauthorized;
    }
    if body.CreateNotJson? {
      return InternalError;
    }
    if !CreateAccepted(body) {
      return InvalidInput;
    }
    var product := store.CreateProduct(Draft(body), id);
    r := CreatedProduct(product);
  }

  // ---------------------------------------------------------------- PUT

  /** The update body: `productId` and the optional fields of `updateSchema`; the schema has no
      `farmId`, so a farm id in the body is dropped by the parse. */
  datatype UpdateBody =
    | UpdateNotJson
    | UpdateWrongShape
    | UpdateRequest(productId: string, name: Option<string>, description: Option<string>, unit: Option<string>,
                    price: Option<real>, quantity: Option<real>, available: Option<bool>, image: Option<string>,
                    nutrition: Option<Nutrition>)

  /** `updateSchema.parse` accepts the shape with a price and a quantity, where given, of at least 0. */
  predicate UpdateAccepted(body: UpdateBody)
  {
    body.UpdateRequest?
    && (body.price.None? || body.price.value >= 0.0)
    && (body.quantity.None? || body.quantity.value >= 0.0)
  }

  /** `const { productId, ...updates } = validated`. */
  function Updates(body: UpdateBody): (p: ProductPatch)
    requires body.UpdateRequest?
    ensures p.id.None? && p.farmId.None?
    ensures p.name == body.name && p.description == body.description && p.unit == body.unit
    ensures p.price == body.price && p.quantity == body.quantity && p.available == body.available
    ensures p.image == body.image && p.nutrition == body.nutrition
  {
    ProductPatch(None, None, body.name, body.description, body.unit, body.price, body.quantity,
                 body.available, body.nutrition, body.image)
  }

  /** What `PUT` answers, for the product table as the request finds it. */
  function UpdateOutcome(store: Store, session: Session, body: UpdateBody): ProductResponse
    reads store
  {
    if !IsFarmer(session) then Unauthorized
    else if body.UpdateNotJson? then InternalError
    else if !UpdateAccepted(body) then InvalidInput
    else match store.ProductIndex(body.productId)
      case None => NotFound
      case Some(i) => UpdatedProduct(MergeProduct(store.products[i], Updates(body)))
  }

  method Put(store: Store, session: Session, body: UpdateBody) returns (r: ProductResponse)
    modifies store`products
    ensures r == old(UpdateOutcome(store, session, body))
    ensures r.UpdatedProduct? ==> var i := old(store.ProductIndex(body.productId)).value;
                                  store.products == old(store.products)[i := r.product]
    ensures !r.UpdatedProduct? ==> store.products == old(store.products)
  {
    if !IsFarmer(session) {
      return Unauthorized;
    }
    if body.UpdateNotJson? {
      return InternalError;
    }
    if !UpdateAccepted(body) {
      return InvalidInput;
    }
    var product := store.UpdateProduct(body.productId, Updates(body));
    if product.None? {
      return NotFound;
    }
    r := UpdatedProduct(product.value);
  }

  // ---------------------------------------------------------------- DELETE

  /** What `DELETE` answers for the `productId` search parameter (`null` when absent). */
  function DeleteOutcome(store: Store, session: Session, productId: Option<string>): ProductResponse
    reads store
  {
    if !IsFarmer(session) then Unauthorized
    else if !Given(productId) then IdRequired
    else if store.ProductIndex(productId.value).None? then NotFound
    else Deleted
  }

  method Delete(store: Store, session: Session, productId: Option<string>) returns (r: ProductResponse)
    modifies store`products
    ensures r == old(DeleteOutcome(store, session, productId))
    ensures r.Deleted? ==> var i := old(store.ProductIndex(productId.value)).value;
                           store.products == old(store.products)[..i] + old(store.products)[i + 1..]
    ensures !r.Deleted? ==> store.products == old(store.products)
  {
    if !IsFarmer(session) {
      return Unauthorized;
    }
    if !Given(productId) {
      return IdRequired;
    }
    var ok := store.DeleteProduct(productId.value);
    if !ok {
      return NotFound;
    }
    r := Deleted;
  }

  // ---------------------------------------------------------------- properties

  /** 401 exactly for a caller who is not a farmer; a farmer gets 500 for a body that is not JSON,
      400 for one the schema refuses, and otherwise the new product: the body's fields under the
      new id, available unless the body says otherwise, with zero nutrients when none are given. */
  lemma CreateCases(session: Session, body: CreateBody, id: string)
    ensures var r := CreateOutcome(session, body, id);
      (r.Status() == 401 <==> !IsFarmer(session))
      && (r.Status() == 500 <==> IsFarmer(session) && body.CreateNotJson?)
      && (r.Status() == 400 <==> IsFarmer(session) && !body.CreateNotJson? && !CreateAccepted(body))
      && (r.Status() == 200 <==> IsFarmer(session) && CreateAccepted(body))
      && (r.CreatedProduct? ==>
            r.product.id == id && r.product.farmId == body.farmId && r.product.name == body.name
            && r.product.price == body.price && r.product.quantity == body.quantity
            && r.product.price >= 0.0 && r.product.quantity >= 0.0
            && (body.available.None? ==> r.product.available)
            && (body.nutrition.None? ==> r.product.nutrition == NoNutrition))
  {
  }

  /** 401 exactly for a non-farmer; a farmer gets 500 for a body that is not JSON, 400 for one the
      schema refuses, 404 exactly when no product has the id, and otherwise the first product with
      the id, merged with the given fields, keeping its id and its farm. */
  lemma UpdateCases(store: Store, session: Session, body: UpdateBody)
    ensures var r := UpdateOutcome(store, session, body);
      (r.Status() == 401 <==> !IsFarmer(session))
      && (r.Status() == 500 <==> IsFarmer(session) && body.UpdateNotJson?)
      && (r.Status() == 400 <==> IsFarmer(session) && !body.UpdateNotJson? && !UpdateAccepted(body))
      && (r.Status() == 404 <==>
            IsFarmer(session) && UpdateAccepted(body)
            && forall j :: 0 <= j < |store.products| ==> store.products[j].id != body.productId)
      && (r.UpdatedProduct? ==>
            var i := store.ProductIndex(body.productId).value;
            r.product == MergeProduct(store.products[i], Updates(body))
            && r.product.id == body.productId && r.product.farmId == store.products[i].farmId)
  {
  }

  /** A field the body leaves out keeps the product's value, and one it gives replaces it. */
  lemma UpdateAppliesGivenFields(x: Product, body: UpdateBody)
    requires body.UpdateRequest?
    ensures var y := MergeProduct(x, Updates(body));
      y.id == x.id && y.farmId == x.farmId
      && y.name == body.name.GetOr(x.name) && y.description == body.description.GetOr(x.description)
      && y.unit == body.unit.GetOr(x.unit) && y.price == body.price.GetOr(x.price)
      && y.quantity == body.quantity.GetOr(x.quantity) && y.available == body.available.GetOr(x.available)
      && y.image == body.image.GetOr(x.image) && y.nutrition == body.nutrition.GetOr(x.nutrition)
  {
  }

  /** 401 exactly for a non-farmer; a farmer gets 400 without a (non-empty) product id, 404
      exactly when no product has it, and otherwise the deletion. */
  lemma DeleteCases(store: Store, session: Session, productId: Option<string>)
    ensures var r := DeleteOutcome(store, session, productId);
      (r.Status() == 401 <==> !IsFarmer(session))
      && (r.Status() == 400 <==> IsFarmer(session) && (productId.None? || productId.value == ""))
      && (r.Status() == 404 <==>
            IsFarmer(session) && Given(productId)
            && forall j :: 0 <= j < |store.products| ==> store.products[j].id != productId.value)
      && (r.Status() == 200 <==>
            IsFarmer(session) && Given(productId)
            && exists j :: 0 <= j < |store.products| && store.products[j].id == productId.value)
  {
  }
}
