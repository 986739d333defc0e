/**
 * The HTTP handlers of server/routes.ts as functions from the store before a
 * request to the store after it and the response sent.
 *
 * A handler parses its body with a Zod schema, calls the store, and turns
 * what happens into a status: a `ZodError` becomes 400, any other thrown
 * error 500, a delete 204, and a result 200 with the result as JSON. A route
 * id is what `parseInt` made of the path segment; `None` stands for `NaN`,
 * which equals no key.
 */
module RouteSpec {
  import opened Wrappers
  import opened Schema
  import opened OrderedKeys
  import opened StoreSpec

  /** A cart line as GET /api/cart sends it: the line's fields and its product, if one was found. */
  datatype EnrichedCartItem = EnrichedCartItem(id: int, productId: int, quantity: real, product: Option<Product>)

  /** The JSON a handler sends. */
  datatype Payload =
    | ProductsJson(products: seq<Product>)
    | ProductJson(product: Product)
    | CartItemJson(item: CartItem)
    | CartJson(entries: seq<EnrichedCartItem>)
    | ValidationErrors     // { message: error.errors }
    | InternalServerError  // { message: "Internal server error" }
    | NoContent            // `res.status(204).end()`

  datatype Response = Response(status: int, payload: Payload)

  const BadRequest := Response(400, ValidationErrors)
  const ServerError := Response(500, InternalServerError)
  const Deleted := Response(204, NoContent)

  /** The body of PATCH /api/cart/:id; `None` when `quantity` is absent or not a number. */
  datatype PatchBody = PatchBody(quantity: Option<real>)

  // ---------------------------------------------------------------------------
  // The GET /api/cart join

  /** `products.find(p => p.id === productId)`: the first product with that id. */
  function FindProduct(ps: seq<Product>, productId: int): (r: Option<Product>)
    ensures r.Some? ==> exists i :: 0 <= i < |ps| && ps[i] == r.value && r.value.id == productId
                                    && forall j :: 0 <= j < i ==> ps[j].id != productId
    ensures r.None? ==> forall i :: 0 <= i < |ps| ==> ps[i].id != productId
  {
    if ps == [] then None
    else if ps[0].id == productId then Some(ps[0])
    else
      var r := FindProduct(ps[1..], productId);
      assert r.Some? ==> exists i :: 0 <= i < |ps| && ps[i] == r.value && r.value.id == productId
                                     && forall j :: 0 <= j < i ==> ps[j].id != productId by {
        if r.Some? {
          var i :| 0 <= i < |ps[1..]| && ps[1..][i] == r.value && r.value.id == productId
                   && forall j :: 0 <= j < i ==> ps[1..][j].id != productId;
          assert ps[i + 1] == r.value;
          assert forall j :: 0 <= j < i + 1 ==> ps[j].id != productId by {
            forall j | 0 <= j < i + 1 ensures ps[j].id != productId {
              if j > 0 {
                assert ps[j] == ps[1..][j - 1];
              }
            }
          }
        }
      }
      assert r.None? ==> forall i :: 0 <= i < |ps| ==> ps[i].id != productId by {
        if r.None? {
          forall i | 0 <= i < |ps| ensures ps[i].id != productId {
            if i > 0 {
              assert ps[i] == ps[1..][i - 1];
            }
          }
        }
      }
      r
  }

  /** `{ ...item, product }` */
  function EnrichOne(item: CartItem, ps: seq<Product>): EnrichedCartItem {
    EnrichedCartItem(item.id, item.productId, item.quantity, FindProduct(ps, item.productId))
  }

  /** `cartItems.map(item => ({ ...item, product: products.find(...) }))`. */
  function Enrich(items: seq<CartItem>, ps: seq<Product>): (r: seq<EnrichedCartItem>)
    ensures |r| == |items|
    ensures forall i :: 0 <= i < |items| ==>
      r[i].id == items[i].id && r[i].productId == items[i].productId && r[i].quantity == items[i].quantity
    ensures forall i :: 0 <= i < |items| ==> r[i].product == FindProduct(ps, items[i].productId)
  {
    if items == [] then [] else [EnrichOne(items[0], ps)] + Enrich(items[1..], ps)
  }

  /**
   * Looking a product up by id in the `getProducts` list finds the stored
   * product under that id, and nothing for an id that is not stored.
   */
  lemma FindProductInCatalog(s: Store, productId: int)
    requires Inv(s)
    ensures FindProduct(ProductList(s), productId) ==
      if productId in s.products then Some(s.products[productId]) else None
  {
    var ps := ProductList(s);
    ProductListComplete(s);
    var r := FindProduct(ps, productId);
    if r.Some? {
      var i :| 0 <= i < |ps| && ps[i] == r.value && r.value.id == productId;
      assert ps[i] in ps;
    }
  }

  // ---------------------------------------------------------------------------
  // Handlers

  /** GET /api/products */
  function GetProducts(s: Store): Response
    requires forall k :: k in s.productOrder ==> k in s.products
  {
    Response(200, ProductsJson(ProductList(s)))
  }

  /** POST /api/products */
  function PostProducts(s: Store, body: ProductBody, isUrl: string -> bool): (Store, Response) {
    match ParseProduct(body, isUrl)
    case ZodError => (s, BadRequest)
    case Parsed(p) =>
      var (t, created) := CreateProduct(s, p);
      (t, Response(200, ProductJson(created)))
  }

  /** DELETE /api/products/:id */
  function DeleteProductRoute(s: Store, id: Option<int>): (Store, Response) {
    match id
    case None => (s, Deleted)
    case Some(i) => (DeleteProduct(s, i), Deleted)
  }

  /** GET /api/cart: every line with its product attached. */
  function GetCart(s: Store): Response
    requires forall k :: k in s.productOrder ==> k in s.products
    requires forall k :: k in s.cartOrder ==> k in s.cartItems
  {
    Response(200, CartJson(Enrich(CartList(s), ProductList(s))))
  }

  /** POST /api/cart */
  function PostCart(s: Store, body: CartItemBody): (Store, Response) {
    match ParseCartItem(body)
    case ZodError => (s, BadRequest)
    case Parsed(item) =>
      var (t, r) := AddToCart(s, item);
      match r
      case Err(_) => (t, ServerError)
      case Ok(line) => (t, Response(200, CartItemJson(line)))
  }

  /** DELETE /api/cart/:id */
  function DeleteCartRoute(s: Store, id: Option<int>): (Store, Response) {
    match id
    case None => (s, Deleted)
    case Some(i) => (RemoveFromCart(s, i), Deleted)
  }

  /**
   * `z.object({ quantity: z.number().min(1) }).parse(req.body)`: only a lower
   * bound, so every quantity the POST schema accepts passes, and so do
   * fractions and numbers above 100 (`PatchWeakerThanPost`).
   */
  function ParsePatch(body: PatchBody): (r: Parse<real>)
    ensures body.quantity.Some? && ValidCartQuantity(body.quantity.value) ==> r == Parsed(body.quantity.value)
    ensures body.quantity.Some? && body.quantity.value > 100.0 ==> r == Parsed(body.quantity.value)
    ensures r.Parsed? <==> body.quantity.Some? && body.quantity.value >= 1.0
    ensures r.Parsed? ==> r.value == body.quantity.value
  {
    if body.quantity.Some? && body.quantity.value >= 1.0 then Parsed(body.quantity.value) else ZodError
  }

  /**
   * PATCH /api/cart/:id. The body is parsed first; a `NaN` id then reaches
   * `updateCartItemQuantity`, which finds no line and throws.
   */
  function PatchCart(s: Store, id: Option<int>, body: PatchBody): (Store, Response) {
    match ParsePatch(body)
    case ZodError => (s, BadRequest)
    case Parsed(q) =>
      if id.None? then (s, ServerError)
      else
        var (t, r) := UpdateCartItemQuantity(s, id.value, q);
        match r
        case Err(_) => (t, ServerError)
        case Ok(line) => (t, Response(200, CartItemJson(line)))
  }

  // ---------------------------------------------------------------------------
  // Properties

  /** GET /api/products answers 200 with every stored product, once each, in ascending id order. */
  lemma GetProductsListsCatalog(s: Store)
    requires Inv(s)
    ensures GetProducts(s).status == 200
    ensures var ps := GetProducts(s).payload.products;
      && |ps| == |s.products|
      && (forall k :: k in s.products ==> s.products[k] in ps)
      && (forall p :: p in ps ==> p.id in s.products && s.products[p.id] == p)
      && (forall i, j :: 0 <= i < j < |ps| ==> ps[i].id < ps[j].id)
  {
    ProductListComplete(s);
    EnumerationSize(s.productOrder, s.products.Keys);
  }

  /**
   * GET /api/cart answers 200 with one entry per line, in cart order, each
   * carrying the line's fields and the stored product the line names: the
   * invariant guarantees `find` never comes back empty.
   */
  lemma GetCartJoin(s: Store)
    requires Inv(s)
    ensures GetCart(s).status == 200
    ensures var entries := GetCart(s).payload.entries;
      && |entries| == |s.cartOrder|
      && forall i :: 0 <= i < |entries| ==>
           && s.cartOrder[i] in s.cartItems
           && var line := s.cartItems[s.cartOrder[i]];
           && entries[i] == EnrichedCartItem(line.id, line.productId, line.quantity, Some(s.products[line.productId]))
  {
    var lines := CartList(s);
    var entries := GetCart(s).payload.entries;
    forall i | 0 <= i < |entries|
      ensures s.cartOrder[i] in s.cartItems
      ensures var line := s.cartItems[s.cartOrder[i]];
        entries[i] == EnrichedCartItem(line.id, line.productId, line.quantity, Some(s.products[line.productId]))
    {
      FindProductInCatalog(s, lines[i].productId);
    }
  }

  /** POST /api/products answers 400 and changes nothing on a rejected body, else 200 with the created product; never 500. */
  lemma PostProductsOutcome(s: Store, body: ProductBody, isUrl: string -> bool)
    requires Inv(s)
    ensures var (t, res) := PostProducts(s, body, isUrl);
      && (res.status == 200 || res.status == 400)
      && (res.status == 400 <==> ParseProduct(body, isUrl).ZodError?)
      && (res.status == 400 ==> t == s && res == BadRequest)
      && (res.status == 200 ==>
            var p := ParseProduct(body, isUrl).value;
            && res.payload == ProductJson(Product(s.currentProductId, p.name, p.price, p.image))
            && t == CreateProduct(s, p).0)
      && Inv(t)
  {
    var parsed := ParseProduct(body, isUrl);
    if parsed.Parsed? {
      CreateProductFresh(s, parsed.value);
    }
  }

  /**
   * POST /api/cart answers 400 and changes nothing on a rejected body, 500
   * and changes nothing for an unknown product, and otherwise 200 with the
   * stored line.
   */
  lemma PostCartOutcome(s: Store, body: CartItemBody)
    requires Inv(s)
    ensures var (t, res) := PostCart(s, body);
      && (res == BadRequest <==> ParseCartItem(body).ZodError?)
      && (res == ServerError <==> ParseCartItem(body).Parsed? && body.productId.value !in s.products)
      && (res.status == 400 || res.status == 500 ==> t == s)
      && (res.status == 200 ==>
            && res.payload.CartItemJson?
            && var line := res.payload.item;
            && line.productId == body.productId.value
            && line.id in t.cartItems && t.cartItems[line.id] == line)
      && (res.status == 200 || res.status == 400 || res.status == 500)
      && Inv(t)
  {
    var parsed := ParseCartItem(body);
    if parsed.Parsed? {
      AddToCartKeepsInv(s, parsed.value);
      var item := parsed.value;
      if item.productId in s.products {
        var f := FindLine(s.cartItems, s.cartOrder, item.productId);
        if f.Some? {
          AddToCartMerges(s, item, f.value);
        } else {
          AddToCartAppends(s, item);
        }
      }
    }
  }

  /**
   * The 1..100 bound is checked on each request's quantity, not on the line:
   * two accepted POSTs of 100 for a product without a line leave a line of 200.
   */
  lemma CapIsPerRequest(s: Store, productId: int)
    requires Inv(s) && productId in s.products
    requires forall k :: k in s.cartItems ==> s.cartItems[k].productId != productId
    ensures var body := CartItemBody(Some(productId), Some(100.0));
      var (t1, res1) := PostCart(s, body);
      var (t2, res2) := PostCart(t1, body);
      var id := s.currentCartItemId;
      && res1 == Response(200, CartItemJson(CartItem(id, productId, 100.0)))
      && res2 == Response(200, CartItemJson(CartItem(id, productId, 200.0)))
      && t2.cartItems[id].quantity == 200.0 > 100.0
  {
    var item := InsertCartItem(productId, 100.0);
    AddToCartAppends(s, item);
    var t1 := AddToCart(s, item).0;
    AddToCartKeepsInv(s, item);
    AddToCartMerges(t1, item, s.currentCartItemId);
  }

  /** PATCH accepts any number from 1 up, so it lets through quantities POST refuses. */
  lemma PatchWeakerThanPost(q: real)
    ensures ValidCartQuantity(q) ==> ParsePatch(PatchBody(Some(q))).Parsed?
    ensures ParsePatch(PatchBody(Some(2.5))).Parsed? && !ValidCartQuantity(2.5)
    ensures ParsePatch(PatchBody(Some(1000.0))).Parsed? && !ValidCartQuantity(1000.0)
  {
    assert (2.5).Floor == 2;
  }

  /**
   * PATCH answers 400 and changes nothing on a rejected body, 500 and changes
   * nothing when no line has that id, and otherwise 200 with the line holding
   * exactly the requested quantity.
   */
  lemma PatchCartOutcome(s: Store, id: Option<int>, body: PatchBody)
    requires Inv(s)
    ensures var (t, res) := PatchCart(s, id, body);
      && (res == BadRequest <==> !(body.quantity.Some? && body.quantity.value >= 1.0))
      && (res == ServerError <==> body.quantity.Some? && body.quantity.value >= 1.0 && (id.None? || id.value !in s.cartItems))
      && (res.status == 400 || res.status == 500 ==> t == s)
      && (res.status == 200 ==>
            && res.payload == CartItemJson(CartItem(id.value, s.cartItems[id.value].productId, body.quantity.value))
            && t == s.(cartItems := s.cartItems[id.value := res.payload.item]))
      && (res.status == 200 || res.status == 400 || res.status == 500)
      && Inv(t)
  {
    if id.Some? && body.quantity.Some? {
      UpdateQuantityEffect(s, id.value, body.quantity.value);
    }
  }

  /** Under the invariant, deleting a product that is not stored changes nothing. */
  lemma DeleteUnknownProduct(s: Store, id: int)
    requires Inv(s) && id !in s.products
    ensures DeleteProduct(s, id) == s
  {
    var u := DeleteProduct(s, id);
    assert u.cartItems == s.cartItems && u.cartOrder == s.cartOrder by {
      forall k | k in s.cartItems ensures s.cartItems[k].productId != id {
      }
      assert LinesOf(s.cartItems, id) == {};
    }
    assert u.productOrder == s.productOrder by {
      assert id !in s.productOrder;
    }
    assert u.products == s.products;
  }

  /**
   * DELETE /api/products/:id answers 204 whatever the id, keeps the
   * invariant, and changes nothing for an id that is not stored (or `NaN`).
   */
  lemma DeleteProductAnswersNoContent(s: Store, id: Option<int>)
    requires Inv(s)
    ensures var (t, res) := DeleteProductRoute(s, id);
      && res == Deleted && Inv(t)
      && (id.None? || id.value !in s.products ==> t == s)
  {
    if id.Some? {
      DeleteProductCascade(s, id.value);
      if id.value !in s.products {
        DeleteUnknownProduct(s, id.value);
      }
    }
  }

  /**
   * DELETE /api/cart/:id answers 204 whatever the id, keeps the invariant,
   * and changes nothing for an id that is not stored (or `NaN`).
   */
  lemma DeleteCartAnswersNoContent(s: Store, id: Option<int>)
    requires Inv(s)
    ensures var (t, res) := DeleteCartRoute(s, id);
      && res == Deleted && Inv(t)
      && (id.None? || id.value !in s.cartItems ==> t == s)
  {
    if id.Some? {
      RemoveFromCartEffect(s, id.value);
    }
  }

  /** Every cart line holds at least one unit. */
  ghost predicate QuantitiesAtLeastOne(s: Store) {
    forall k :: k in s.cartItems ==> s.cartItems[k].quantity >= 1.0
  }

  /** `addToCart` with a quantity of at least one keeps every line at one unit or more. */
  lemma AddToCartKeepsQuantities(s: Store, item: InsertCartItem)
    requires QuantitiesAtLeastOne(s) && item.quantity >= 1.0
    ensures QuantitiesAtLeastOne(AddToCart(s, item).0)
  {
    if item.productId in s.products {
      var f := FindLine(s.cartItems, s.cartOrder, item.productId);
      if f.Some? {
        var k := f.value;
        assert k in s.cartItems;
        assert s.cartItems[k].quantity >= 1.0;
      }
    }
  }

  /**
   * Through the routes a line never drops below one unit: POST only admits
   * 1..100 and adds it, PATCH only admits numbers from 1 up. (The store alone
   * does not promise this: `addToCart` with a negative quantity stores it.)
   */
  lemma RoutesKeepQuantities(s: Store, id: Option<int>, productBody: ProductBody, isUrl: string -> bool,
                             cartBody: CartItemBody, patchBody: PatchBody)
    requires QuantitiesAtLeastOne(s)
    ensures QuantitiesAtLeastOne(PostProducts(s, productBody, isUrl).0)
    ensures QuantitiesAtLeastOne(DeleteProductRoute(s, id).0)
    ensures QuantitiesAtLeastOne(PostCart(s, cartBody).0)
    ensures QuantitiesAtLeastOne(DeleteCartRoute(s, id).0)
    ensures QuantitiesAtLeastOne(PatchCart(s, id, patchBody).0)
  {
    assert PostProducts(s, productBody, isUrl).0.cartItems == s.cartItems;
    assert DeleteProductRoute(s, id).0.cartItems.Keys <= s.cartItems.Keys;
    assert DeleteCartRoute(s, id).0.cartItems.Keys <= s.cartItems.Keys;
    var parsed := ParseCartItem(cartBody);
    if parsed.Parsed? {
      AddToCartKeepsQuantities(s, parsed.value);
    }
    var patched := ParsePatch(patchBody);
    if patched.Parsed? && id.Some? && id.value in s.cartItems {
      assert PatchCart(s, id, patchBody).0.cartItems == s.cartItems[id.value := s.cartItems[id.value].(quantity := patched.value)];
    }
  }

  /** The store as constructed satisfies both invariants. */
  lemma InitialQuantities()
    ensures Inv(Initial()) && QuantitiesAtLeastOne(Initial())
  {
    InitialState();
  }
}
