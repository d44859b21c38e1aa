# Pharmacy cart-to-order workflow, modelled in Dafny

This project models the cart and order routes of a Flask/MySQL pharmacy
management application (`app.py`). A customer collects product ids in a session
cart. The cart is quoted at current prices. Confirming the cart turns it into one
order row plus one order-item row per cart entry, and takes one unit of stock per
entry, all inside one database transaction. An admin may delete a product only
while no order item names it. The role gate on the routes and the home-page
dispatch by role are modelled too.

The database is pictured in memory. The products table is a
`map<ProductId, Product>` of integer-cent prices and integer stock. The Orders
and OrderItems tables are sequences of rows. The next order id is a counter that
stands for MySQL's auto-increment. The session cart is an
`Option<seq<ProductId>>`, where `None` means the session has no `cart` entry.
Duplicate ids stand for quantity.

Files, one module each:

- `optional.dfy`: `Option`.
- `access.dfy`: `role_required` and `dashboard`.
- `cart.dfy`: Python's `list.remove` on the cart.
- `catalog.dfy`: products, the quote total `SumPrices` and the stock depletion `Deplete`.
- `orders.dfy`: order and item rows, the rows a commit inserts, the delete guard's
  count, and the table invariant `Consistent`.
- `store.dfy`: the class `Pharmacy`, whose methods are the routes, and two
  worked checkouts.

`Pharmacy.Valid()` is the table invariant. It says three things:

- order ids increase along the Orders table, so no two orders share one, and
  order and item ids are below the auto-increment counter;
- every item names a product still in the catalog (the delete guard is what keeps this);
- every order's total equals the sum of its items' prices.

`ConfirmOrder` and `DeleteProduct` preserve it.

What the code does at its edges:

- The code has no insufficient-stock error: the commit decrements stock
  unconditionally (app.py:485). So stock is an `int`, and "stock never goes
  below zero" is not an invariant of this model. `Store.LastUnitTwiceScenario`
  shows a confirmed order that leaves a product at -1. The only stock check is
  the advisory one in `add_to_cart` (app.py:404).
- That -1 takes the stock column to accept negative values. The table schema
  is not part of this model; an `UNSIGNED` or `CHECK` column would instead make
  line 485 raise `mysql.connector.Error`, which the model covers as a storage
  error (`fault`) and rolls back.
- The check and the decrement are not one atomic step. The model is sequential,
  so that race is not visible here.
- A storage error inside the `try` rolls back every write of the commit
  (app.py:493-497). A storage error while the total is read (app.py:464-468)
  happens outside the `try` and is not caught.

## Model

| member | source | states |
|---|---|---|
| Access.RoleRequired | app.py:23 | the gate admits a session only when it has a user id and a role, and never when its role is a different one; `Access.RoleRequiredExclusive` adds that it admits one role at most |
| Access.RoleRequiredExclusive | app.py:23-25 | a session passes `role_required` only when logged in with a role, and for at most one role |
| Access.Dashboard | app.py:101-112 | no login goes to the login page; the landing page is a role's dashboard exactly when that role's gate admits the session; a missing or unknown role gets the invalid-role page |
| CartOps.FirstIndex | app.py:425 | the index `list.remove` acts on holds the id, and no earlier entry does |
| CartOps.RemoveFirst | app.py:423-430 | an absent id leaves the cart as it is; otherwise exactly the first occurrence is cut out, the rest keep their order, and the multiset loses one copy of the id |
| CartOps.RemoveFirstQuantities | app.py:425 | removing takes one unit of that product away and leaves every other product's quantity as it was |
| Catalog.SumPrices | app.py:444-449 | the quote total of the view and confirm loops (also app.py:464-468); it is never negative while no catalog price is, and `Catalog.SumPricesAppend` and `Catalog.SumPricesPermutation` give it its meaning as a sum over entries |
| Catalog.SumPricesAppend | app.py:444-449 | the quote of two carts laid end to end is the sum of their quotes |
| Catalog.SumPricesRemoveAt | app.py:444-449 | taking out the entry at any position lowers the quote by that product's price |
| Catalog.SumPricesPermutation | app.py:444-449 | the quote depends only on each product's quantity in the cart, not on the order of the entries |
| Catalog.AddRaisesQuote | app.py:407-409 | appending a product to the cart raises the quote by its current price |
| Catalog.RemoveLowersQuote | app.py:425 | removing a product from the cart lowers the quote by its current price |
| Catalog.Deplete | app.py:480-485 | the stock-decrement loop keeps the set of products |
| Catalog.DepleteStock | app.py:480-485 | after the commit loop, each product's stock has dropped by exactly its number of cart entries; products not in the cart and all prices are unchanged |
| Orders.OrderLines | app.py:480-484 | the item rows one commit inserts: one per cart entry, each under the new order's id with quantity 1; `Orders.OrderLinesAt` fixes each row's product and price and `Orders.OrderLinesTotal` their sum |
| Orders.OrderLinesAt | app.py:480-484 | a commit inserts one item per cart entry, in cart order, each with the new order's id, quantity 1 and the product's current price |
| Orders.OrderLinesTotal | app.py:464-484 | the prices of a new order's items add up to the cart's quote, which is the total stored on the order |
| Orders.ReferenceCount | app.py:374-375 | the delete guard's count of item rows naming the product, never more than the number of rows; `Orders.ReferenceCountPositive` ties it to the existence of such a row |
| Orders.ReferenceCountPositive | app.py:374-377 | the delete guard's count is positive exactly when some order item names the product |
| Orders.AppendOrderKeepsTotals | app.py:475-484 | appending an order under a fresh id, with its items, keeps every order's total equal to the sum of its items' prices |
| Orders.CommitKeepsConsistent | app.py:472-488 | a committed order keeps the tables consistent: increasing, unique order ids below the counter, every item naming a catalog product, every order's total matching its items |
| Orders.DeleteKeepsConsistent | app.py:377-381 | deleting an unreferenced product keeps the tables consistent, so no item is left naming a missing product |
| Store.Pharmacy.AddToCart | app.py:400-413 | a storage error or stock below 1 leaves the cart unchanged; otherwise the id is appended at the end, creating the cart if the session had none; the catalog is not touched |
| Store.Pharmacy.RemoveFromCart | app.py:422-430 | with no cart, or an id not in the cart, the cart is unchanged and the matching outcome is reported; otherwise the first occurrence is removed |
| Store.Pharmacy.Quote | app.py:444-449 | the quote lists each entry's product as it is now, and its total is the sum of their current prices, one unit per entry |
| Store.Pharmacy.ViewCart | app.py:437-452 | the cart is created empty only if it was missing and is otherwise unchanged; the quote is that of the cart |
| Store.Pharmacy.ConfirmOrder | app.py:456-500 | a missing or empty cart changes nothing; a storage error anywhere in the transaction leaves the tables as before and keeps the cart; a commit appends one order with the quote as its total, appends its items in cart order, depletes stock by each product's multiplicity, and empties the cart; the table invariant is preserved |
| Store.Pharmacy.DeleteProduct | app.py:368-386 | the product is refused exactly when an order item names it; a refusal or storage error leaves the catalog unchanged; otherwise only that product is removed; orders, items and cart never change |
| Store.CheckoutScenario | app.py:456-490 | buying two units at 10.00 and one at 25.00 gives an order of 45.00, and the stocks drop from 5 and 1 to 3 and 0 |
| Store.LastUnitTwiceScenario | app.py:404-485 | both units of a product whose stock is 1 are admitted to the cart, the order is confirmed, and the stock ends at -1 |

## Left out

- Flask routing, templates, `flash` messages and redirects. The outcome datatypes
  stand for the flash messages.
- Session storage. The cart is a field and the logged-in customer id is a parameter.
  `role_required` is modelled as the predicate `Access.RoleRequired`. The model does
  not wrap each route in that gate.
- MySQL connections, cursors and SQL text. A storage error is an explicit `fault`
  argument. Failures outside the `try` blocks are not modelled: `connect`, and the
  price reads at app.py:464-468. In the source these crash the request.
- Missing products. A cart id or an `add_to_cart` id that is not in the catalog
  makes the source dereference `None` and crash (app.py:404, app.py:449,
  app.py:467). The routes require such ids to be in the catalog.
- Store.Pharmacy.ConfirmOrder: a rollback restores the order-id counter as well.
  MySQL's auto-increment does not roll back, so after a failed commit the next real
  id may be higher.
- The order `status` column and the order date. Both are database defaults that the
  code never writes here. `update_order_status` is a single-field write.
- Concurrency. The race between the advisory stock check and the commit, and two
  customers buying the last unit, depend on database isolation. The model is
  sequential. Inside one call, the total read before the transaction and the
  prices read inside it therefore agree.
- Registration, login, password reset, account and user editing. These are SQL
  pass-throughs plus SHA-256 hashing by a foreign library.
- Catalog add and edit, which are unvalidated form-to-SQL writes.
- Sales and inventory reports, order history and the admin order listing. These
  are aggregations and joins that run inside the database.
- Reviews and the average rating. The average is computed by the database over decimals.
