/**
 * The four cart handlers. The carts collection is a map from user id to that
 * user's line items; `findOne` loads a fresh in-memory document, the handlers
 * change the document, and `save` writes it back. The caller is the payload
 * the bearer gate put on the request, and the catalog is the set of product
 * ids that exist. A reply is the status code and, on success, the cart's
 * lines.
 */
module CartController {
  import opened Wrappers
  import opened CartLines
  import UserModel

  type UserId = string

  /** The decoded token payload: the user's id and role. */
  datatype Identity = Identity(id: UserId, role: string)

  datatype Reply = Reply(status: int, cart: Option<seq<LineItem>>)

  /** A cart document loaded into memory. */
  class CartDocument {
    const user: UserId
    var products: seq<LineItem>

    constructor (user: UserId, products: seq<LineItem>)
      ensures this.user == user && this.products == products
    {
      this.user := user;
      this.products := products;
    }

    /**
     * The `forEach` loop of addProductToCart: each requested item is added
     * to the quantity of the first line for its product, or pushed as a new
     * line.
     */
    method AddProducts(items: seq<LineItem>)
      modifies this
      ensures products == Merge(old(products), items)
    {
      var k := 0;
      while k < |items|
        invariant 0 <= k <= |items|
        invariant products == Merge(old(products), items[..k])
      {
        var item := items[k];
        MergePrefix(old(products), items, k);
        ghost var merged := MergeOne(products, item);
        var i := FindIndex(products, item.product);
        if i > -1 {
          products := products[i := LineItem(products[i].product, products[i].quantity + item.quantity)];
        } else {
          products := products + [LineItem(item.product, item.quantity)];
        }
        assert products == merged;
        k := k + 1;
      }
      assert items[..|items|] == items;
    }

    /** `cart.products[i].quantity = q`. */
    method SetQuantityAt(i: nat, q: int)
      requires i < |products|
      modifies this
      ensures products == old(products)[i := LineItem(old(products)[i].product, q)]
    {
      products := products[i := LineItem(products[i].product, q)];
    }
  }

  class CartStore {
    /** The carts collection: at most one cart per user. */
    var carts: map<UserId, seq<LineItem>>

    constructor ()
      ensures carts == map[]
    {
      carts := map[];
    }

    /** Every stored cart has at most one line per product. */
    ghost predicate Valid()
      reads this
    {
      forall u | u in carts :: UniqueProducts(carts[u])
    }

    /** `Cart.findOne({user})`: a fresh copy of the user's cart, or null. */
    method FindOne(user: UserId) returns (doc: CartDocument?)
      ensures (doc == null) == (user !in carts)
      ensures doc != null ==> fresh(doc) && doc.user == user && doc.products == carts[user]
    {
      if user in carts {
        doc := new CartDocument(user, carts[user]);
      } else {
        doc := null;
      }
    }

    /** `Cart.create({user, products: []})`: stores an empty cart for the user. */
    method Create(user: UserId) returns (doc: CartDocument)
      modifies this
      ensures carts == old(carts)[user := []]
      ensures fresh(doc) && doc.user == user && doc.products == []
    {
      doc := new CartDocument(user, []);
      carts := carts[user := []];
    }

    /** `cart.save()`: writes the document back. */
    method Save(doc: CartDocument)
      modifies this
      ensures carts == old(carts)[doc.user := doc.products]
    {
      carts := carts[doc.user := doc.products];
    }

    /**
     * createOrGetCart. A caller who is not a buyer gets 403 and the store is
     * not touched. A buyer with a cart gets 200 and that cart. For a buyer
     * without one, the empty cart is created and stored, and then the
     * assignment to the `const` binding throws, so the reply is 500.
     */
    method CreateOrGetCart(caller: Identity) returns (reply: Reply)
      modifies this
      ensures caller.role != UserModel.Buyer ==> reply == Reply(403, None) && carts == old(carts)
      ensures caller.role == UserModel.Buyer && caller.id in old(carts) ==>
                reply == Reply(200, Some(old(carts)[caller.id])) && carts == old(carts)
      ensures caller.role == UserModel.Buyer && caller.id !in old(carts) ==>
                reply == Reply(500, None) && carts == old(carts)[caller.id := []]
      ensures old(Valid()) ==> Valid()
    {
      if caller.role != UserModel.Buyer {
        return Reply(403, None);
      }
      var cart := FindOne(caller.id);
      if cart == null {
        var created := Create(caller.id);
        return Reply(500, None);
      }
      return Reply(200, Some(cart.products));
    }

    /**
     * addProductToCart. After the role gate: a body without a `products`
     * array fails with 500; a request where the catalog lookup finds fewer
     * products than ids were sent gets 404 and nothing changes; a buyer
     * without a cart gets an empty cart stored and a 500 (the `const`
     * reassignment); otherwise the request is merged into the cart, saved,
     * and returned with 200.
     */
    method AddProductToCart(caller: Identity, body: Option<seq<LineItem>>, catalog: set<ProductId>)
      returns (reply: Reply)
      modifies this
      ensures caller.role != UserModel.Buyer ==> reply == Reply(403, None) && carts == old(carts)
      ensures caller.role == UserModel.Buyer && body.None? ==>
                reply == Reply(500, None) && carts == old(carts)
      ensures caller.role == UserModel.Buyer && body.Some? && !AllFound(body.value, catalog) ==>
                reply == Reply(404, None) && carts == old(carts)
      ensures caller.role == UserModel.Buyer && body.Some? && AllFound(body.value, catalog)
              && caller.id !in old(carts) ==>
                reply == Reply(500, None) && carts == old(carts)[caller.id := []]
      ensures caller.role == UserModel.Buyer && body.Some? && AllFound(body.value, catalog)
              && caller.id in old(carts) ==>
                var merged := Merge(old(carts)[caller.id], body.value);
                reply == Reply(200, Some(merged)) && carts == old(carts)[caller.id := merged]
      ensures old(Valid()) ==> Valid()
    {
      if caller.role != UserModel.Buyer {
        return Reply(403, None);
      }
      if body.None? {
        return Reply(500, None);
      }
      var items := body.value;
      if !AllFound(items, catalog) {
        return Reply(404, None);
      }
      var cart := FindOne(caller.id);
      if cart == null {
        var created := Create(caller.id);
        return Reply(500, None);
      }
      cart.AddProducts(items);
      if Valid() {
        MergeUnique(old(carts)[caller.id], items);
      }
      Save(cart);
      return Reply(200, Some(cart.products));
    }

    /**
     * updateProductQuantity. After the role gate: no cart, or no line for
     * the product, gets 404 and nothing changes; otherwise that line's
     * quantity becomes `quantity` outright and the cart is saved and
     * returned with 200.
     */
    method UpdateProductQuantity(caller: Identity, productId: ProductId, quantity: int)
      returns (reply: Reply)
      modifies this
      ensures caller.role != UserModel.Buyer ==> reply == Reply(403, None) && carts == old(carts)
      ensures caller.role == UserModel.Buyer && caller.id !in old(carts) ==>
                reply == Reply(404, None) && carts == old(carts)
      ensures caller.role == UserModel.Buyer && caller.id in old(carts)
              && productId !in ProductSet(old(carts)[caller.id]) ==>
                reply == Reply(404, None) && carts == old(carts)
      ensures caller.role == UserModel.Buyer && caller.id in old(carts)
              && productId in ProductSet(old(carts)[caller.id]) ==>
                var updated := Overwrite(old(carts)[caller.id], productId, quantity);
                reply == Reply(200, Some(updated)) && carts == old(carts)[caller.id := updated]
      ensures old(Valid()) ==> Valid()
    {
      if caller.role != UserModel.Buyer {
        return Reply(403, None);
      }
      var cart := FindOne(caller.id);
      if cart == null {
        return Reply(404, None);
      }
      var i := FindIndex(cart.products, productId);
      if i > -1 {
        cart.SetQuantityAt(i, quantity);
        if Valid() {
          OverwriteSetsQuantity(old(carts)[caller.id], productId, quantity);
        }
        Save(cart);
        return Reply(200, Some(cart.products));
      } else {
        return Reply(404, None);
      }
    }

    /**
     * removeProductFromCart, which has no role gate. No cart gets 404;
     * otherwise every line for the product is filtered out, and the cart is
     * saved and returned with 200, also when there was no such line.
     */
    method RemoveProductFromCart(caller: Identity, productId: ProductId) returns (reply: Reply)
      modifies this
      ensures caller.id !in old(carts) ==> reply == Reply(404, None) && carts == old(carts)
      ensures caller.id in old(carts) ==>
                var remaining := Without(old(carts)[caller.id], productId);
                reply == Reply(200, Some(remaining)) && carts == old(carts)[caller.id := remaining]
      ensures caller.id in old(carts) && productId !in ProductSet(old(carts)[caller.id]) ==>
                reply == Reply(200, Some(old(carts)[caller.id])) && carts == old(carts)
      ensures old(Valid()) ==> Valid()
    {
      var cart := FindOne(caller.id);
      if cart == null {
        return Reply(404, None);
      }
      if productId !in ProductSet(cart.products) {
        WithoutAbsent(cart.products, productId);
      }
      if Valid() {
        WithoutUnique(cart.products, productId);
      }
      cart.products := Without(cart.products, productId);
      Save(cart);
      return Reply(200, Some(cart.products));
    }
  }

  /**
   * A buyer's first cart request answers 500 but leaves an empty cart
   * behind, so the second answers 200; two additions of the same product
   * then leave one line holding the sum.
   */
  method FirstVisitScenario(catalog: set<ProductId>, p: ProductId)
    requires p in catalog
  {
    var store := new CartStore();
    var buyer := Identity("u1", UserModel.Buyer);
    var first := store.CreateOrGetCart(buyer);
    assert first.status == 500;
    var second := store.CreateOrGetCart(buyer);
    assert second == Reply(200, Some([]));
    AllFoundIff([LineItem(p, 2)], catalog);
    AllFoundIff([LineItem(p, 3)], catalog);
    SingleItemMerges(p);
    var added := store.AddProductToCart(buyer, Some([LineItem(p, 2)]), catalog);
    assert added == Reply(200, Some([LineItem(p, 2)]));
    added := store.AddProductToCart(buyer, Some([LineItem(p, 3)]), catalog);
    assert added == Reply(200, Some([LineItem(p, 5)]));
    var seller := Identity("u2", UserModel.Seller);
    var refused := store.AddProductToCart(seller, Some([LineItem(p, 1)]), catalog);
    assert refused.status == 403 && store.carts["u1"] == [LineItem(p, 5)];
  }

  /** The two merges of the scenario: into an empty cart, and into a cart holding the product. */
  lemma SingleItemMerges(p: ProductId)
    ensures Merge([], [LineItem(p, 2)]) == [LineItem(p, 2)]
    ensures Merge([LineItem(p, 2)], [LineItem(p, 3)]) == [LineItem(p, 5)]
  {
    assert [LineItem(p, 2)][..0] == [] && [LineItem(p, 3)][..0] == [];
    assert FindIndex([LineItem(p, 2)], p) == 0;
  }
}
