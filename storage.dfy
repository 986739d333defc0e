/**
 * `MemStorage` of server/storage.ts: two JavaScript `Map`s updated in place
 * and two id counters that are post-incremented.
 *
 * Each `Map` is a `map` field together with a field holding its key order.
 * Every method is proved to move the object from `old(State())` to the
 * state the matching StoreSpec function computes; the properties of those
 * functions are proved in StoreSpec. The source's `async` methods are
 * synchronous here: nothing runs between their steps.
 */
module Storage {
  import opened Wrappers
  import opened Schema
  import opened OrderedKeys
  import StoreSpec

  /**
   * The state of a `forEach` over `ids` that deletes each key from the cart
   * `lines`: the keys in `done` have been deleted, those in `rest` are still
   * to come.
   */
  ghost predicate CascadeProgress(items: map<int, CartItem>, order: seq<int>, lines: map<int, CartItem>,
                                  ids: seq<int>, rest: seq<int>, done: set<int>)
  {
    && (forall k :: k in ids ==> k in done || k in rest)
    && (forall k :: k in rest ==> k in ids)
    && (forall k :: k in done ==> k in ids)
    && (forall k :: k in items <==> k in lines && k !in done)
    && (forall k :: k in items ==> items[k] == lines[k])
    && Enumerates(order, items.Keys)
  }

  /** Deleting the next key keeps the `forEach` on track. */
  lemma CascadeStep(items: map<int, CartItem>, order: seq<int>, lines: map<int, CartItem>,
                    ids: seq<int>, rest: seq<int>, done: set<int>)
    requires rest != [] && CascadeProgress(items, order, lines, ids, rest, done)
    ensures CascadeProgress(items - {rest[0]}, DeleteOrder(order, rest[0]), lines, ids, rest[1..], done + {rest[0]})
  {
    assert forall k :: k in rest ==> k == rest[0] || k in rest[1..];
  }

  class MemStorage {
    var products: map<int, Product>
    var productOrder: seq<int>
    var cartItems: map<int, CartItem>
    var cartOrder: seq<int>
    var currentProductId: int
    var currentCartItemId: int

    /** The object's fields as a StoreSpec value. */
    function State(): StoreSpec.Store
      reads this
    {
      StoreSpec.Store(products, productOrder, cartItems, cartOrder, currentProductId, currentCartItemId)
    }

    ghost predicate Valid()
      reads this
    {
      StoreSpec.Inv(State())
    }

    /** Starts empty with both counters at 1, then creates the four sample products. */
    constructor ()
      ensures Valid() && State() == StoreSpec.Initial()
    {
      products, productOrder := map[], [];
      cartItems, cartOrder := map[], [];
      currentProductId, currentCartItemId := 1, 1;
      new;
      var samples := StoreSpec.SampleProducts();
      for i := 0 to |samples|
        invariant Valid() && State() == StoreSpec.Seeded(samples[..i])
      {
        var created := CreateProduct(samples[i]);
        assert samples[..i + 1][..i] == samples[..i];
      }
      assert samples[..|samples|] == samples;
    }

    /** Every stored product, in the `Map`'s iteration order. */
    method GetProducts() returns (ps: seq<Product>)
      requires Valid()
      ensures ps == StoreSpec.ProductList(State())
    {
      ps := [];
      for i := 0 to |productOrder|
        invariant |ps| == i
        invariant forall j :: 0 <= j < i ==> productOrder[j] in products && ps[j] == products[productOrder[j]]
      {
        assert productOrder[i] in productOrder;
        ps := ps + [products[productOrder[i]]];
      }
    }

    method CreateProduct(product: InsertProduct) returns (created: Product)
      requires Valid()
      modifies this
      ensures Valid()
      ensures (State(), created) == StoreSpec.CreateProduct(old(State()), product)
    {
      var id := currentProductId;
      currentProductId := currentProductId + 1;
      created := Product(id, product.name, product.price, product.image);
      productOrder := SetOrder(productOrder, products.Keys, id);
      products := products[id := created];
      StoreSpec.CreateProductFresh(old(State()), product);
    }

    /** Deletes the product, then collects the lines that hold it and deletes them one by one. */
    method DeleteProduct(id: int)
      requires Valid()
      modifies this
      ensures Valid()
      ensures State() == StoreSpec.DeleteProduct(old(State()), id)
    {
      ghost var s0 := State();
      products := products - {id};
      productOrder := DeleteOrder(productOrder, id);
      var lines := cartItems;
      var doomed := Filter(cartOrder, k => k in lines && lines[k].productId == id);
      DeleteCartLines(doomed);
      StoreSpec.DeleteProductMatches(s0, id, doomed, State());
    }

    /** `ids.forEach(id => this.cartItems.delete(id))`. */
    method DeleteCartLines(ids: seq<int>)
      requires Enumerates(cartOrder, cartItems.Keys)
      modifies this
      ensures forall k :: k in cartItems <==> k in old(cartItems) && k !in ids
      ensures forall k :: k in cartItems ==> cartItems[k] == old(cartItems)[k]
      ensures Enumerates(cartOrder, cartItems.Keys)
      ensures products == old(products) && productOrder == old(productOrder)
      ensures currentProductId == old(currentProductId) && currentCartItemId == old(currentCartItemId)
    {
      var rest := ids;
      ghost var done: set<int> := {};
      while rest != []
        invariant CascadeProgress(cartItems, cartOrder, old(cartItems), ids, rest, done)
        invariant products == old(products) && productOrder == old(productOrder)
        invariant currentProductId == old(currentProductId) && currentCartItemId == old(currentCartItemId)
      {
        var d := rest[0];
        CascadeStep(cartItems, cartOrder, old(cartItems), ids, rest, done);
        cartItems := cartItems - {d};
        cartOrder := DeleteOrder(cartOrder, d);
        rest := rest[1..];
        done := done + {d};
      }
    }

    /** Every cart line, in the `Map`'s iteration order. */
    method GetCartItems() returns (items: seq<CartItem>)
      requires Valid()
      ensures items == StoreSpec.CartList(State())
    {
      items := [];
      for i := 0 to |cartOrder|
        invariant |items| == i
        invariant forall j :: 0 <= j < i ==> cartOrder[j] in cartItems && items[j] == cartItems[cartOrder[j]]
      {
        assert cartOrder[i] in cartOrder;
        items := items + [cartItems[cartOrder[i]]];
      }
    }

    /**
     * `Array.from(this.cartItems.values()).find(cartItem => cartItem.productId === productId)`:
     * the first line in iteration order that holds the product, or none if no line does.
     */
    method FindLineOf(productId: int) returns (existing: Option<CartItem>)
      requires forall k :: k in cartOrder ==> k in cartItems
      requires forall k :: k in cartItems ==> cartItems[k].id == k
      ensures existing.None? ==> forall j :: 0 <= j < |cartOrder| ==>
        cartOrder[j] in cartItems && cartItems[cartOrder[j]].productId != productId
      ensures existing.Some? ==>
        existing.value.id in cartItems && cartItems[existing.value.id] == existing.value
        && existing.value.productId == productId
    {
      existing := None;
      var i := 0;
      while i < |cartOrder| && existing.None?
        invariant 0 <= i <= |cartOrder|
        invariant forall k :: k in cartOrder ==> k in cartItems
        invariant forall k :: k in cartItems ==> cartItems[k].id == k
        invariant existing.None? ==> forall j :: 0 <= j < i ==> cartOrder[j] in cartItems && cartItems[cartOrder[j]].productId != productId
        invariant existing.Some? ==>
          existing.value.id in cartItems && cartItems[existing.value.id] == existing.value
          && existing.value.productId == productId
      {
        assert cartOrder[i] in cartOrder;
        var line := cartItems[cartOrder[i]];
        if line.productId == productId {
          existing := Some(line);
        }
        i := i + 1;
      }
    }

    /**
     * Throws for an unknown product; otherwise searches the cart for a line of
     * the same product and either raises its quantity or opens a new line.
     */
    method AddToCart(item: InsertCartItem) returns (r: Result<CartItem, StoreSpec.StorageError>)
      requires Valid()
      modifies this
      ensures Valid()
      ensures (State(), r) == StoreSpec.AddToCart(old(State()), item)
    {
      ghost var s0 := State();
      if item.productId !in products {
        return Err(StoreSpec.ProductNotFound);
      }
      var existing := FindLineOf(item.productId);
      StoreSpec.ScanFindsLine(s0, item.productId, existing);
      if existing.Some? {
        r := RaiseLine(item, existing.value);
      } else {
        var line := AppendLine(item);
        r := Ok(line);
      }
    }

    /** The branch of `addToCart` that finds line `e` of the product: its quantity grows by the quantity added, 1 if none was given. */
    method RaiseLine(item: InsertCartItem, e: CartItem) returns (r: Result<CartItem, StoreSpec.StorageError>)
      requires Valid() && item.productId in products
      requires e.id in cartItems && cartItems[e.id] == e
      requires StoreSpec.FindLine(cartItems, cartOrder, item.productId) == Some(e.id)
      modifies this
      ensures Valid()
      ensures (State(), r) == StoreSpec.AddToCart(old(State()), item)
    {
      ghost var s0 := State();
      assert StoreSpec.AddToCart(s0, item) == StoreSpec.UpdateCartItemQuantity(s0, e.id, e.quantity + StoreSpec.OrOne(item.quantity));
      r := UpdateCartItemQuantity(e.id, e.quantity + StoreSpec.OrOne(item.quantity));
    }

    /** The branch of `addToCart` that finds no line of the product: a new line under the next id, with quantity 1 if none was given. */
    method AppendLine(item: InsertCartItem) returns (line: CartItem)
      requires Valid() && item.productId in products
      requires StoreSpec.FindLine(cartItems, cartOrder, item.productId).None?
      modifies this
      ensures Valid()
      ensures (State(), Ok(line)) == StoreSpec.AddToCart(old(State()), item)
    {
      ghost var s0 := State();
      var id := currentCartItemId;
      currentCartItemId := currentCartItemId + 1;
      line := CartItem(id, item.productId, StoreSpec.OrOne(item.quantity));
      cartOrder := SetOrder(cartOrder, cartItems.Keys, id);
      cartItems := cartItems[id := line];
      StoreSpec.AddToCartKeepsInv(s0, item);
    }

    method RemoveFromCart(id: int)
      requires Valid()
      modifies this
      ensures Valid()
      ensures State() == StoreSpec.RemoveFromCart(old(State()), id)
    {
      cartItems := cartItems - {id};
      cartOrder := DeleteOrder(cartOrder, id);
      StoreSpec.RemoveFromCartEffect(old(State()), id);
    }

    method UpdateCartItemQuantity(id: int, quantity: real) returns (r: Result<CartItem, StoreSpec.StorageError>)
      requires Valid()
      modifies this
      ensures Valid()
      ensures (State(), r) == StoreSpec.UpdateCartItemQuantity(old(State()), id, quantity)
    {
      if id !in cartItems {
        return Err(StoreSpec.CartItemNotFound);
      }
      var updated := cartItems[id].(quantity := quantity);
      cartOrder := SetOrder(cartOrder, cartItems.Keys, id);
      cartItems := cartItems[id := updated];
      r := Ok(updated);
      StoreSpec.UpdateQuantityEffect(old(State()), id, quantity);
    }
  }
}
