/**
 * The cart and order routes of the pharmacy web application, over an in-memory
 * picture of its database (the products, Orders and OrderItems tables) and of one
 * customer's session cart. A storage error is an explicit argument: the routes
 * catch `mysql.connector.Error`, and the model says where it is raised.
 */
module Store {
  import opened Optional
  import opened CartOps
  import opened Catalog
  import opened Orders

  datatype AddOutcome = Added | OutOfStock | AddFailed
  datatype RemoveOutcome = Removed | NotInCart | CartEmpty
  datatype ConfirmOutcome = Confirmed(orderId: int) | EmptyCart | ConfirmFailed
  datatype DeleteOutcome = Deleted | ReferencedByOrders | DeleteFailed

  class Pharmacy {
    /** The products table: price and stock per product id. */
    var products: Products
    /** The Orders table, in insertion order. */
    var orders: seq<Order>
    /** The OrderItems table, in insertion order. */
    var items: seq<OrderItem>
    /** The next value of the Orders table's auto-increment id. */
    var nextOrderId: int
    /** The session's `cart` entry: `None` while the session has none. */
    var cart: Option<seq<ProductId>>

    /** The tables are consistent; the session cart is not part of it. */
    ghost predicate Valid()
      reads this`products, this`orders, this`items, this`nextOrderId
    {
      Consistent(products, orders, items, nextOrderId)
    }

    /** A store over the given catalog, with no orders yet and a session without a cart. */
    constructor (catalog: Products)
      ensures Valid()
      ensures products == catalog && orders == [] && items == [] && nextOrderId == 1 && cart == None
    {
      products := catalog;
      orders := [];
      items := [];
      nextOrderId := 1;
      cart := None;
    }

    /**
     * `add_to_cart`: an advisory stock check, then one more entry at the end of
     * the cart, creating the cart if the session has none. Nothing is reserved.
     * `fault` is a storage error on the stock lookup.
     */
    method AddToCart(productId: ProductId, fault: bool) returns (outcome: AddOutcome)
      requires fault || productId in products
      modifies this`cart
      ensures fault ==> outcome == AddFailed && cart == old(cart)
      ensures !fault && products[productId].stock < 1 ==> outcome == OutOfStock && cart == old(cart)
      ensures !fault && products[productId].stock >= 1 ==>
        outcome == Added && cart == Some(old(cart).GetOr([]) + [productId])
    {
      if fault {
        return AddFailed;
      }
      if products[productId].stock < 1 {
        return OutOfStock;
      }
      if cart.None? {
        cart := Some([]);
      }
      cart := Some(cart.value + [productId]);
      outcome := Added;
    }

    /**
     * `remove_from_cart`: takes out the first occurrence of the id; reports an id
     * that is not in the cart, and a session that has no cart.
     */
    method RemoveFromCart(productId: ProductId) returns (outcome: RemoveOutcome)
      modifies this`cart
      ensures old(cart).None? ==> outcome == CartEmpty && cart == old(cart)
      ensures old(cart).Some? && productId !in old(cart).value ==> outcome == NotInCart && cart == old(cart)
      ensures old(cart).Some? && productId in old(cart).value ==>
        outcome == Removed && cart == Some(RemoveFirst(old(cart).value, productId))
    {
      if cart.None? {
        return CartEmpty;
      }
      if productId !in cart.value {
        return NotInCart;
      }
      cart := Some(RemoveFirst(cart.value, productId));
      outcome := Removed;
    }

    /**
     * The loop of `view_cart`: each entry's product as it is now, and the total of
     * their current prices, one unit per entry.
     */
    method Quote(entries: seq<ProductId>) returns (lines: seq<Product>, total: int)
      requires InCatalog(products, entries)
      ensures |lines| == |entries|
      ensures forall i | 0 <= i < |entries| :: lines[i] == products[entries[i]]
      ensures total == SumPrices(products, entries)
    {
      lines := [];
      total := 0;
      for i := 0 to |entries|
        invariant |lines| == i
        invariant forall k | 0 <= k < i :: lines[k] == products[entries[k]]
        invariant total == SumPrices(products, entries[..i])
      {
        assert entries[..i + 1][..i] == entries[..i];
        lines := lines + [products[entries[i]]];
        total := total + products[entries[i]].price;
      }
      assert entries[..|entries|] == entries;
    }

    /** `view_cart`: creates an empty cart if the session has none, then quotes it. */
    method ViewCart() returns (lines: seq<Product>, total: int)
      requires cart.Some? ==> InCatalog(products, cart.value)
      modifies this`cart
      ensures cart == Some(old(cart).GetOr([]))
      ensures |lines| == |cart.value|
      ensures forall i | 0 <= i < |cart.value| :: lines[i] == products[cart.value[i]]
      ensures total == SumPrices(products, cart.value)
    {
      if cart.None? {
        cart := Some([]);
      }
      lines, total := Quote(cart.value);
    }

    /**
     * `confirm_order`: refuses a missing or empty cart; otherwise reads the total,
     * then in one transaction inserts the order and, per cart entry, an item of
     * quantity 1 at the product's price and a stock decrement, and clears the cart
     * on commit. `fault == Some(k)` is a storage error raised after `k` entries
     * were written (at COMMIT when `k` reaches the cart's length); the rollback
     * then restores the tables and the cart is kept.
     */
    method ConfirmOrder(customerId: int, fault: Option<nat>) returns (outcome: ConfirmOutcome)
      requires Valid()
      requires cart.Some? ==> InCatalog(products, cart.value)
      modifies this
      ensures Valid()
      ensures old(cart) == None || old(cart) == Some([]) ==>
        && outcome == EmptyCart && cart == old(cart)
        && products == old(products) && orders == old(orders) && items == old(items)
        && nextOrderId == old(nextOrderId)
      ensures old(cart).Some? && old(cart).value != [] && fault.Some? ==>
        && outcome == ConfirmFailed && cart == old(cart)
        && products == old(products) && orders == old(orders) && items == old(items)
        && nextOrderId == old(nextOrderId)
      ensures old(cart).Some? && old(cart).value != [] && fault.None? ==>
        && outcome == Confirmed(old(nextOrderId))
        && orders == old(orders) + [Order(old(nextOrderId), customerId, SumPrices(old(products), old(cart).value))]
        && items == old(items) + OrderLines(old(nextOrderId), old(products), old(cart).value)
        && products == Deplete(old(products), old(cart).value)
        && nextOrderId == old(nextOrderId) + 1
        && cart == Some([])
    {
      if cart.None? || cart.value == [] {
        return EmptyCart;
      }
      var entries := cart.value;

      var total := 0;
      for i := 0 to |entries|
        invariant total == SumPrices(products, entries[..i])
      {
        assert entries[..i + 1][..i] == entries[..i];
        total := total + products[entries[i]].price;
      }
      assert entries[..|entries|] == entries;

      // START TRANSACTION: what a rollback returns to.
      var products0, orders0, items0, next0 := products, orders, items, nextOrderId;
      var orderId := nextOrderId;
      orders := orders + [Order(orderId, customerId, total)];
      nextOrderId := nextOrderId + 1;
      var i := 0;
      while i < |entries|
        invariant 0 <= i <= |entries|
        invariant InCatalog(products0, entries[..i])
        invariant items == items0 + OrderLines(orderId, products0, entries[..i])
        invariant products == Deplete(products0, entries[..i])
        invariant orders == orders0 + [Order(orderId, customerId, total)]
        invariant nextOrderId == orderId + 1
        invariant cart == old(cart)
      {
        if fault == Some(i) {
          break;
        }
        var productId := entries[i];
        assert entries[..i + 1][..i] == entries[..i];
        DepleteStock(products0, entries[..i], productId);
        var price := products[productId].price;
        items := items + [OrderItem(orderId, productId, 1, price)];
        products := products[productId := products[productId].(stock := products[productId].stock - 1)];
        i := i + 1;
      }

      if fault.Some? {
        // ROLLBACK
        products, orders, items, nextOrderId := products0, orders0, items0, next0;
        return ConfirmFailed;
      }
      assert entries[..i] == entries;
      CommitKeepsConsistent(products0, orders0, items0, orderId, customerId, entries);
      cart := Some([]);
      outcome := Confirmed(orderId);
    }

    /**
     * `delete_product`: refused while any order item names the product; otherwise
     * the product row goes and nothing else changes. `fault` is a storage error,
     * after which the catalog is as it was.
     */
    method DeleteProduct(productId: ProductId, fault: bool) returns (outcome: DeleteOutcome)
      requires Valid()
      modifies this`products
      ensures Valid()
      ensures outcome == DeleteFailed <==> fault
      ensures fault ==> products == old(products)
      ensures !fault ==>
        (outcome == ReferencedByOrders <==> exists i | 0 <= i < |items| :: items[i].productId == productId)
      ensures outcome == ReferencedByOrders ==> products == old(products)
      ensures outcome == Deleted ==> products == old(products) - {productId}
    {
      if fault {
        return DeleteFailed;
      }
      ReferenceCountPositive(items, productId);
      var count := ReferenceCount(items, productId);
      if count > 0 {
        return ReferencedByOrders;
      }
      DeleteKeepsConsistent(products, orders, items, nextOrderId, productId);
      products := products - {productId};
      outcome := Deleted;
    }
  }

  /**
   * Two units of one product and one of another, bought by customer 7:
   * 2 x 10.00 + 25.00 = 45.00, and the stocks drop from 5 and 1 to 3 and 0.
   */
  method CheckoutScenario() returns (outcome: ConfirmOutcome, total: int, stock1: int, stock2: int)
    ensures outcome == Confirmed(1) && total == 4500 && stock1 == 3 && stock2 == 0
  {
    var catalog := map[1 := Product(1000, 5), 2 := Product(2500, 1)];
    var store := new Pharmacy(catalog);
    var added := store.AddToCart(1, false);
    added := store.AddToCart(1, false);
    added := store.AddToCart(2, false);
    assert store.products == catalog && store.Valid();
    assert store.cart.value == [1, 1, 2];
    outcome := store.ConfirmOrder(7, None);
    total := store.orders[0].total;
    assert total == 4500 by {
      assert [1, 1, 2][..2] == [1, 1] && [1, 1][..1] == [1] && [1][..0] == [];
    }
    assert multiset([1, 1, 2]) == multiset{1, 1, 2};
    stock1 := store.products[1].stock;
    assert stock1 == 3 by {
      DepleteStock(catalog, [1, 1, 2], 1);
    }
    stock2 := store.products[2].stock;
    assert stock2 == 0 by {
      DepleteStock(catalog, [1, 1, 2], 2);
    }
  }

  /**
   * The stock check in `add_to_cart` is advisory and the commit decrements
   * unconditionally: two units of the last item in stock are both accepted into
   * the cart, the order is confirmed, and the stock ends at -1.
   */
  method LastUnitTwiceScenario() returns (first: AddOutcome, second: AddOutcome, outcome: ConfirmOutcome, stock: int)
    ensures first == Added && second == Added && outcome == Confirmed(1) && stock == -1
  {
    var catalog := map[3 := Product(1200, 1)];
    var store := new Pharmacy(catalog);
    first := store.AddToCart(3, false);
    second := store.AddToCart(3, false);
    assert store.products == catalog && store.Valid();
    assert store.cart.value == [3, 3];
    outcome := store.ConfirmOrder(7, None);
    stock := store.products[3].stock;
    assert stock == -1 by {
      DepleteStock(catalog, [3, 3], 3);
      assert multiset([3, 3]) == multiset{3, 3};
    }
  }
}
