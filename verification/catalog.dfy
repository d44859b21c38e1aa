/**
 * The product catalog as the cart and order code see it: each product id maps to
 * its current unit price, in integer cents (the database holds fixed-point
 * decimals), and its stock quantity. Stock is an `int`: nothing at commit
 * time keeps it from going below zero.
 */
module Catalog {
  import opened CartOps

  type ProductId = int

  datatype Product = Product(price: int, stock: int)

  type Products = map<ProductId, Product>

  /** Every cart entry names a product of the catalog (the code dereferences each lookup). */
  predicate InCatalog(products: Products, cart: seq<ProductId>) {
    forall i | 0 <= i < |cart| :: cart[i] in products
  }

  /** No product of the catalog has a negative price. */
  predicate NonNegativePrices(products: Products) {
    forall p | p in products :: products[p].price >= 0
  }

  /**
   * The quote total: the current price of every cart entry, duplicates counted
   * once per entry. It is never negative while no price is.
   */
  function SumPrices(products: Products, cart: seq<ProductId>): (total: int)
    requires InCatalog(products, cart)
    ensures NonNegativePrices(products) ==> total >= 0
    decreases |cart|
  {
    if cart == [] then 0
    else
      var last := cart[|cart| - 1];
      assert NonNegativePrices(products) ==> products[last].price >= 0;
      SumPrices(products, cart[..|cart| - 1]) + products[last].price
  }

  /** The quote of two carts laid end to end is the sum of their quotes. */
  lemma {:induction false} SumPricesAppend(products: Products, a: seq<ProductId>, b: seq<ProductId>)
    requires InCatalog(products, a) && InCatalog(products, b)
    ensures InCatalog(products, a + b)
    ensures SumPrices(products, a + b) == SumPrices(products, a) + SumPrices(products, b)
    decreases |b|
  {
    assert InCatalog(products, a + b) by {
      forall i | 0 <= i < |a + b| ensures (a + b)[i] in products {
        if i >= |a| { assert (a + b)[i] == b[i - |a|]; }
      }
    }
    if b != [] {
      var b' := b[..|b| - 1];
      assert (a + b)[..|a + b| - 1] == a + b';
      SumPricesAppend(products, a, b');
    } else {
      assert a + b == a;
    }
  }

  /** Taking the entry at `i` out of a cart lowers its quote by that product's price. */
  lemma {:induction false} SumPricesRemoveAt(products: Products, cart: seq<ProductId>, i: nat)
    requires InCatalog(products, cart) && i < |cart|
    ensures InCatalog(products, cart[..i] + cart[i + 1..])
    ensures SumPrices(products, cart) == SumPrices(products, cart[..i] + cart[i + 1..]) + products[cart[i]].price
  {
    assert cart == cart[..i] + ([cart[i]] + cart[i + 1..]);
    SumPricesAppend(products, [cart[i]], cart[i + 1..]);
    assert SumPrices(products, [cart[i]]) == products[cart[i]].price by {
      assert [cart[i]][..0] == [];
    }
    SumPricesAppend(products, cart[..i], [cart[i]] + cart[i + 1..]);
    SumPricesAppend(products, cart[..i], cart[i + 1..]);
  }

  /**
   * The quote depends only on how many units of each product the cart holds,
   * not on the order in which they were added.
   */
  lemma {:induction false} SumPricesPermutation(products: Products, a: seq<ProductId>, b: seq<ProductId>)
    requires InCatalog(products, a) && InCatalog(products, b)
    requires multiset(a) == multiset(b)
    ensures SumPrices(products, a) == SumPrices(products, b)
    decreases |a|
  {
    if a != [] {
      var n := |a| - 1;
      var x := a[n];
      assert x in multiset(b);
      var i := FirstIndex(b, x);
      MultisetWithout(a, n);
      assert a[..n] + a[n + 1..] == a[..n];
      MultisetWithout(b, i);
      SumPricesRemoveAt(products, b, i);
      SumPricesPermutation(products, a[..n], b[..i] + b[i + 1..]);
    } else {
      assert |b| == |multiset(b)| == 0;
    }
  }

  /** Taking the entry at `i` out of a sequence takes one copy of it out of its multiset. */
  lemma {:induction false} MultisetWithout(s: seq<ProductId>, i: nat)
    requires i < |s|
    ensures multiset(s[..i] + s[i + 1..]) == multiset(s) - multiset{s[i]}
  {
    assert s == s[..i] + [s[i]] + s[i + 1..];
  }

  /** Adding one unit of a product to the cart raises its quote by that product's price. */
  lemma {:induction false} AddRaisesQuote(products: Products, cart: seq<ProductId>, p: ProductId)
    requires InCatalog(products, cart) && p in products
    ensures InCatalog(products, cart + [p])
    ensures SumPrices(products, cart + [p]) == SumPrices(products, cart) + products[p].price
  {
    assert (cart + [p])[..|cart|] == cart;
  }

  /** Removing one unit of a product from the cart lowers its quote by that product's price. */
  lemma {:induction false} RemoveLowersQuote(products: Products, cart: seq<ProductId>, p: ProductId)
    requires InCatalog(products, cart) && p in cart
    ensures InCatalog(products, RemoveFirst(cart, p))
    ensures SumPrices(products, RemoveFirst(cart, p)) == SumPrices(products, cart) - products[p].price
  {
    SumPricesRemoveAt(products, cart, FirstIndex(cart, p));
  }

  /**
   * The catalog after the commit loop has taken one unit of stock per cart entry,
   * in cart order. Prices are left as they are.
   */
  function Deplete(products: Products, cart: seq<ProductId>): (r: Products)
    requires InCatalog(products, cart)
    ensures r.Keys == products.Keys
    decreases |cart|
  {
    if cart == [] then products
    else
      var before := Deplete(products, cart[..|cart| - 1]);
      var p := cart[|cart| - 1];
      before[p := before[p].(stock := before[p].stock - 1)]
  }

  /**
   * Depletion lowers each product's stock by exactly its number of entries in the
   * cart; a product not in the cart keeps its stock, and no price changes.
   */
  lemma {:induction false} DepleteStock(products: Products, cart: seq<ProductId>, p: ProductId)
    requires InCatalog(products, cart) && p in products
    ensures Deplete(products, cart)[p] == products[p].(stock := products[p].stock - multiset(cart)[p])
    decreases |cart|
  {
    if cart != [] {
      var c' := cart[..|cart| - 1];
      assert cart == c' + [cart[|cart| - 1]];
      DepleteStock(products, c', p);
    }
  }
}
