/**
 * The handlers of `registerRoutes` (server/routes.ts) as methods that run
 * against the shared `MemStorage` object. Each is proved to leave the store
 * and send the response that the matching RouteSpec function describes; what
 * the responses mean is proved there.
 *
 * A `try`/`catch` becomes an early return: a rejected body answers 400 before
 * the store is touched, and an error result from the store answers 500.
 * A `NaN` route id (`None`) matches no key, so the store call it would make
 * changes nothing and is not made.
 */
module Routes {
  import opened Wrappers
  import opened Schema
  import opened RouteSpec
  import StoreSpec
  import Storage

  /** GET /api/products */
  method GetProducts(storage: Storage.MemStorage) returns (res: Response)
    requires storage.Valid()
    ensures res == RouteSpec.GetProducts(storage.State())
  {
    var products := storage.GetProducts();
    res := Response(200, ProductsJson(products));
  }

  /** POST /api/products */
  method PostProducts(storage: Storage.MemStorage, body: ProductBody, isUrl: string -> bool) returns (res: Response)
    requires storage.Valid()
    modifies storage
    ensures storage.Valid()
    ensures (storage.State(), res) == RouteSpec.PostProducts(old(storage.State()), body, isUrl)
  {
    var product := ParseProduct(body, isUrl);
    if product.ZodError? {
      return BadRequest;
    }
    var created := storage.CreateProduct(product.value);
    res := Response(200, ProductJson(created));
  }

  /** DELETE /api/products/:id */
  method DeleteProduct(storage: Storage.MemStorage, id: Option<int>) returns (res: Response)
    requires storage.Valid()
    modifies storage
    ensures storage.Valid()
    ensures (storage.State(), res) == RouteSpec.DeleteProductRoute(old(storage.State()), id)
  {
    if id.Some? {
      storage.DeleteProduct(id.value);
    }
    res := Deleted;
  }

  /** GET /api/cart: reads the lines, then the products, and attaches to each line its product. */
  method GetCart(storage: Storage.MemStorage) returns (res: Response)
    requires storage.Valid()
    ensures res == RouteSpec.GetCart(storage.State())
  {
    var cartItems := storage.GetCartItems();
    var products := storage.GetProducts();
    var enrichedItems := Enrich(cartItems, products);
    res := Response(200, CartJson(enrichedItems));
  }

  /** POST /api/cart */
  method PostCart(storage: Storage.MemStorage, body: CartItemBody) returns (res: Response)
    requires storage.Valid()
    modifies storage
    ensures storage.Valid()
    ensures (storage.State(), res) == RouteSpec.PostCart(old(storage.State()), body)
  {
    var item := ParseCartItem(body);
    if item.ZodError? {
      return BadRequest;
    }
    var created := storage.AddToCart(item.value);
    if created.Err? {
      return ServerError;
    }
    res := Response(200, CartItemJson(created.value));
  }

  /** DELETE /api/cart/:id */
  method DeleteCart(storage: Storage.MemStorage, id: Option<int>) returns (res: Response)
    requires storage.Valid()
    modifies storage
    ensures storage.Valid()
    ensures (storage.State(), res) == RouteSpec.DeleteCartRoute(old(storage.State()), id)
  {
    if id.Some? {
      storage.RemoveFromCart(id.value);
    }
    res := Deleted;
  }

  /** PATCH /api/cart/:id */
  method PatchCart(storage: Storage.MemStorage, id: Option<int>, body: PatchBody) returns (res: Response)
    requires storage.Valid()
    modifies storage
    ensures storage.Valid()
    ensures (storage.State(), res) == RouteSpec.PatchCart(old(storage.State()), id, body)
  {
    var parsed := ParsePatch(body);
    if parsed.ZodError? {
      return BadRequest;
    }
    if id.None? {
      return ServerError;
    }
    var updated := storage.UpdateCartItemQuantity(id.value, parsed.value);
    if updated.Err? {
      return ServerError;
    }
    res := Response(200, CartItemJson(updated.value));
  }
}
