/**
 * `POST` of app/api/products/add/route.ts: two guards on the decoded body and
 * one product creation in the database, whose outcome is an input.
 */
module ProductsAdd {
  import opened Wrappers
  import opened Js
  import opened CheckoutRequest

  const FieldsRequiredMessage := "All fields are required"
  const PriceInvalidMessage := "Price must be a positive number"
  const CreateFailedMessage := "Failed to create product"

  /** The destructured `{ name, description, price, imageUrl }`, each any JSON value. */
  datatype ProductBody = ProductBody(name: JsValue, description: JsValue, price: JsValue, imageUrl: JsValue)

  /** A stored product: the database id and the four fields as given. */
  datatype StoredProduct = StoredProduct(id: int, name: JsValue, description: JsValue, price: JsValue, imageUrl: JsValue)

  /** `!name || !description || !price || !imageUrl`. */
  predicate FieldMissing(b: ProductBody)
  {
    !Truthy(b.name) || !Truthy(b.description) || !Truthy(b.price) || !Truthy(b.imageUrl)
  }

  /** `typeof price !== 'number' || price <= 0`. */
  predicate PriceInvalid(b: ProductBody)
  {
    !b.price.Number? || b.price.n <= 0
  }

  /**
   * The route. `request` is `None` when `request.json()` throws; `createdId` is
   * the id the database assigns, or `None` when `prisma.product.create` throws.
   * The one outbound call, when made, is the create with the body's four fields.
   */
  function AddProductPost(request: Option<ProductBody>, createdId: Option<int>): (r: Exchange<ProductBody, StoredProduct>)
    ensures r.reply.Accepted? ==> r.reply.status == 201
    ensures r.calls != [] ==> request.Some? && r.calls == [request.value]
    ensures r.calls != [] <==> request.Some? && !FieldMissing(request.value) && !PriceInvalid(request.value)
    ensures r.reply.Accepted? <==> r.calls != [] && createdId.Some?
    ensures request.None? ==> r.reply == Refused(500, CreateFailedMessage)
    ensures request.Some? && FieldMissing(request.value) ==> r.reply == Refused(400, FieldsRequiredMessage)
    ensures request.Some? && !FieldMissing(request.value) && PriceInvalid(request.value) ==>
      r.reply == Refused(400, PriceInvalidMessage)
    ensures r.calls != [] && createdId.None? ==> r.reply == Refused(500, CreateFailedMessage)
  {
    match request
    case None => Exchange([], Refused(500, CreateFailedMessage))
    case Some(b) =>
      if FieldMissing(b) then Exchange([], Refused(400, FieldsRequiredMessage))
      else if PriceInvalid(b) then Exchange([], Refused(400, PriceInvalidMessage))
      else match createdId
        case None => Exchange([b], Refused(500, CreateFailedMessage))
        case Some(id) => Exchange([b], Accepted(201, StoredProduct(id, b.name, b.description, b.price, b.imageUrl)))
  }

  /** A stored product carries exactly the submitted fields, with a positive numeric price. */
  lemma StoredAsGiven(b: ProductBody, id: int)
    requires AddProductPost(Some(b), Some(id)).reply.Accepted?
    ensures var p := AddProductPost(Some(b), Some(id)).reply.body;
      && p == StoredProduct(id, b.name, b.description, b.price, b.imageUrl)
      && p.price.Number? && p.price.n > 0
  {
  }

  /** A falsy price (0, "", missing) fails the first check, not the numeric one. */
  lemma ZeroPriceIsMissingField(b: ProductBody, id: Option<int>)
    requires Truthy(b.name) && Truthy(b.description) && Truthy(b.imageUrl)
    requires b.price in {Number(0), Str(""), Undefined, Null}
    ensures AddProductPost(Some(b), id).reply == Refused(400, FieldsRequiredMessage)
  {
  }

  /** The field check precedes the type check: "" reports a missing field, while "5" and -3 report a bad price. */
  lemma FieldCheckFirst(name: JsValue, description: JsValue, imageUrl: JsValue, id: Option<int>)
    requires Truthy(name) && Truthy(description) && Truthy(imageUrl)
    ensures AddProductPost(Some(ProductBody(name, description, Str(""), imageUrl)), id).reply
         == Refused(400, FieldsRequiredMessage)
    ensures AddProductPost(Some(ProductBody(name, description, Str("5"), imageUrl)), id).reply
         == Refused(400, PriceInvalidMessage)
    ensures AddProductPost(Some(ProductBody(name, description, Number(-3), imageUrl)), id).reply
         == Refused(400, PriceInvalidMessage)
  {
  }

  /** A 400 refusal leaves the database untouched: no create call is made. */
  lemma RefusalWritesNothing(request: Option<ProductBody>, createdId: Option<int>)
    requires AddProductPost(request, createdId).reply.Refused?
    requires AddProductPost(request, createdId).reply.status == 400
    ensures AddProductPost(request, createdId).calls == []
  {
  }
}
