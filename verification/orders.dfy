/**
 * The Orders and OrderItems tables, and the consistency the order code keeps
 * between them and the catalog.
 */
module Orders {
  import opened Catalog

  /** A row of Orders: the new row's id comes from the table's auto-increment counter. */
  datatype Order = Order(id: int, customerId: int, total: int)

  /** A row of OrderItems: one unit of one product, at the price captured at commit. */
  datatype OrderItem = OrderItem(orderId: int, productId: ProductId, quantity: int, price: int)

  /** The item rows that confirming `cart` as order `orderId` inserts, in cart order. */
  function OrderLines(orderId: int, products: Products, cart: seq<ProductId>): (lines: seq<OrderItem>)
    requires InCatalog(products, cart)
    ensures |lines| == |cart|
    ensures forall i | 0 <= i < |lines| :: lines[i].orderId == orderId && lines[i].quantity == 1
    decreases |cart|
  {
    if cart == [] then []
    else
      var p := cart[|cart| - 1];
      OrderLines(orderId, products, cart[..|cart| - 1]) + [OrderItem(orderId, p, 1, products[p].price)]
  }

  /** One item per cart entry, in cart order, each of quantity 1 at the product's current price. */
  lemma {:induction false} OrderLinesAt(orderId: int, products: Products, cart: seq<ProductId>)
    requires InCatalog(products, cart)
    ensures |OrderLines(orderId, products, cart)| == |cart|
    ensures forall i | 0 <= i < |cart| ::
      OrderLines(orderId, products, cart)[i] == OrderItem(orderId, cart[i], 1, products[cart[i]].price)
    decreases |cart|
  {
    if cart != [] {
      OrderLinesAt(orderId, products, cart[..|cart| - 1]);
    }
  }

  /** The sum of the captured prices of some item rows. */
  function ItemsTotal(items: seq<OrderItem>): int
    decreases |items|
  {
    if items == [] then 0 else ItemsTotal(items[..|items| - 1]) + items[|items| - 1].price
  }

  lemma {:induction false} ItemsTotalAppend(a: seq<OrderItem>, b: seq<OrderItem>)
    ensures ItemsTotal(a + b) == ItemsTotal(a) + ItemsTotal(b)
    decreases |b|
  {
    if b == [] {
      assert a + b == a;
    } else {
      assert (a + b)[..|a + b| - 1] == a + b[..|b| - 1];
      ItemsTotalAppend(a, b[..|b| - 1]);
    }
  }

  /** The items of a freshly confirmed order add up to the quote of the cart it came from. */
  lemma {:induction false} OrderLinesTotal(orderId: int, products: Products, cart: seq<ProductId>)
    requires InCatalog(products, cart)
    ensures ItemsTotal(OrderLines(orderId, products, cart)) == SumPrices(products, cart)
    decreases |cart|
  {
    if cart != [] {
      var c' := cart[..|cart| - 1];
      var p := cart[|cart| - 1];
      OrderLinesTotal(orderId, products, c');
      ItemsTotalAppend(OrderLines(orderId, products, c'), [OrderItem(orderId, p, 1, products[p].price)]);
      assert ItemsTotal([OrderItem(orderId, p, 1, products[p].price)]) == products[p].price by {
        assert [OrderItem(orderId, p, 1, products[p].price)][..0] == [];
      }
    }
  }

  /** The item rows that belong to order `orderId`, in table order. */
  function LinesOf(items: seq<OrderItem>, orderId: int): (r: seq<OrderItem>)
    ensures forall i | 0 <= i < |r| :: r[i].orderId == orderId && r[i] in items
    decreases |items|
  {
    if items == [] then []
    else
      var rest := LinesOf(items[..|items| - 1], orderId);
      var last := items[|items| - 1];
      if last.orderId == orderId then rest + [last] else rest
  }

  lemma {:induction false} LinesOfAppend(a: seq<OrderItem>, b: seq<OrderItem>, orderId: int)
    ensures LinesOf(a + b, orderId) == LinesOf(a, orderId) + LinesOf(b, orderId)
    decreases |b|
  {
    if b == [] {
      assert a + b == a;
    } else {
      assert (a + b)[..|a + b| - 1] == a + b[..|b| - 1];
      LinesOfAppend(a, b[..|b| - 1], orderId);
    }
  }

  /** Rows of order `orderId` are all there is when every row belongs to it, and none when none does. */
  lemma {:induction false} LinesOfUniform(items: seq<OrderItem>, orderId: int)
    ensures (forall i | 0 <= i < |items| :: items[i].orderId == orderId) ==> LinesOf(items, orderId) == items
    ensures (forall i | 0 <= i < |items| :: items[i].orderId != orderId) ==> LinesOf(items, orderId) == []
    decreases |items|
  {
    if items != [] {
      LinesOfUniform(items[..|items| - 1], orderId);
    }
  }

  /** The delete guard's count of the item rows that name the product. */
  function ReferenceCount(items: seq<OrderItem>, productId: ProductId): (count: nat)
    ensures count <= |items|
    decreases |items|
  {
    if items == [] then 0
    else ReferenceCount(items[..|items| - 1], productId) + (if items[|items| - 1].productId == productId then 1 else 0)
  }

  /** The count is positive exactly when some item row names the product. */
  lemma {:induction false} ReferenceCountPositive(items: seq<OrderItem>, productId: ProductId)
    ensures ReferenceCount(items, productId) > 0 <==> exists i | 0 <= i < |items| :: items[i].productId == productId
    decreases |items|
  {
    if items != [] {
      var n := |items| - 1;
      ReferenceCountPositive(items[..n], productId);
      if ReferenceCount(items[..n], productId) > 0 {
        var i :| 0 <= i < n && items[..n][i].productId == productId;
        assert items[i].productId == productId;
      }
      if exists i | 0 <= i < |items| :: items[i].productId == productId {
        var i :| 0 <= i < |items| && items[i].productId == productId;
        if i < n { assert items[..n][i].productId == productId; }
      }
    }
  }

  /**
   * Order ids increase along the table, so no two orders share one, and order
   * and item ids are below the next value of the auto-increment counter.
   */
  ghost predicate IdsBelow(orders: seq<Order>, items: seq<OrderItem>, nextOrderId: int) {
    && (forall i, j | 0 <= i < j < |orders| :: orders[i].id < orders[j].id)
    && (forall i | 0 <= i < |orders| :: orders[i].id < nextOrderId)
    && (forall i | 0 <= i < |items| :: items[i].orderId < nextOrderId)
  }

  /** Every item row names a product that is still in the catalog. */
  ghost predicate ItemsInCatalog(products: Products, items: seq<OrderItem>) {
    forall i | 0 <= i < |items| :: items[i].productId in products
  }

  /** Every order's total equals the sum of the prices of its item rows. */
  ghost predicate TotalsMatch(orders: seq<Order>, items: seq<OrderItem>) {
    forall i | 0 <= i < |orders| :: orders[i].total == ItemsTotal(LinesOf(items, orders[i].id))
  }

  /** What holds of the tables between requests. */
  ghost predicate Consistent(products: Products, orders: seq<Order>, items: seq<OrderItem>, nextOrderId: int) {
    IdsBelow(orders, items, nextOrderId) && ItemsInCatalog(products, items) && TotalsMatch(orders, items)
  }

  /**
   * Appending a new order whose total is the sum of its rows, under an id no
   * existing row uses, keeps every order's total equal to the sum of its rows.
   */
  lemma {:induction false} AppendOrderKeepsTotals(orders: seq<Order>, items: seq<OrderItem>, nextOrderId: int,
                               order: Order, lines: seq<OrderItem>)
    requires IdsBelow(orders, items, nextOrderId) && TotalsMatch(orders, items)
    requires order.id == nextOrderId && order.total == ItemsTotal(lines)
    requires forall i | 0 <= i < |lines| :: lines[i].orderId == nextOrderId
    ensures TotalsMatch(orders + [order], items + lines)
  {
    LinesOfUniform(lines, nextOrderId);
    assert LinesOf(lines, nextOrderId) == lines;
    LinesOfUniform(items, nextOrderId);
    assert LinesOf(items, nextOrderId) == [];
    LinesOfAppend(items, lines, nextOrderId);
    assert LinesOf(items + lines, nextOrderId) == lines;
    forall i | 0 <= i < |orders| ensures orders[i].total == ItemsTotal(LinesOf(items + lines, orders[i].id)) {
      OtherOrderUnaffected(items, lines, orders[i].id, nextOrderId);
    }
    assert TotalsMatch(orders, items + lines);
    TotalsMatchSnoc(orders, items + lines, order);
  }

  lemma {:induction false} TotalsMatchSnoc(orders: seq<Order>, items: seq<OrderItem>, order: Order)
    requires TotalsMatch(orders, items)
    requires order.total == ItemsTotal(LinesOf(items, order.id))
    ensures TotalsMatch(orders + [order], items)
  {
  }

  /** Rows appended under a fresh order id do not change the rows of an older order. */
  lemma {:induction false} OtherOrderUnaffected(items: seq<OrderItem>, lines: seq<OrderItem>, orderId: int, nextOrderId: int)
    requires orderId != nextOrderId
    requires forall i | 0 <= i < |lines| :: lines[i].orderId == nextOrderId
    ensures LinesOf(items + lines, orderId) == LinesOf(items, orderId)
  {
    LinesOfUniform(lines, orderId);
    LinesOfAppend(items, lines, orderId);
    assert LinesOf(items, orderId) + [] == LinesOf(items, orderId);
  }

  /**
   * Committing a cart (one new order under the next id, with the cart's quote as
   * its total, its item rows, and the depleted catalog) keeps the tables consistent.
   */
  lemma {:induction false} CommitKeepsConsistent(products: Products, orders: seq<Order>, items: seq<OrderItem>,
                              nextOrderId: int, customerId: int, cart: seq<ProductId>)
    requires Consistent(products, orders, items, nextOrderId)
    requires InCatalog(products, cart)
    ensures Consistent(Deplete(products, cart),
                       orders + [Order(nextOrderId, customerId, SumPrices(products, cart))],
                       items + OrderLines(nextOrderId, products, cart),
                       nextOrderId + 1)
  {
    var lines := OrderLines(nextOrderId, products, cart);
    OrderLinesAt(nextOrderId, products, cart);
    OrderLinesTotal(nextOrderId, products, cart);
    AppendOrderKeepsTotals(orders, items, nextOrderId, Order(nextOrderId, customerId, SumPrices(products, cart)), lines);
    var items' := items + lines;
    forall i | 0 <= i < |items'| ensures items'[i].productId in Deplete(products, cart) {
      if i >= |items| { assert items'[i] == lines[i - |items|]; }
    }
    forall i | 0 <= i < |items'| ensures items'[i].orderId < nextOrderId + 1 {
      if i >= |items| { assert items'[i] == lines[i - |items|]; }
    }
  }

  /** Deleting a product that no item row names keeps the tables consistent. */
  lemma {:induction false} DeleteKeepsConsistent(products: Products, orders: seq<Order>, items: seq<OrderItem>,
                              nextOrderId: int, productId: ProductId)
    requires Consistent(products, orders, items, nextOrderId)
    requires ReferenceCount(items, productId) == 0
    ensures Consistent(products - {productId}, orders, items, nextOrderId)
  {
    ReferenceCountPositive(items, productId);
  }
}
