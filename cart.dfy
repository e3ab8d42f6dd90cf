/**
 * The cart screen: the cart's rows (`cartItems`), its pricing (`subtotal`, `tax`,
 * `totalPrice`) and what the minus and plus buttons do to the product list.
 * Prices are exact reals; the app's `Double` rounding and `%.2f` display are not
 * modelled.
 */
module Cart {
  import opened Wrappers
  import opened Catalog

  /** The fixed 13% sales tax of the cart screen. */
  const TaxRate: real := 0.13

  /** `cartItems`: the products whose id is in the cart, in product-list order. */
  function CartItems(products: seq<Product>, shoppingList: set<int>): (r: seq<Product>)
    ensures |r| <= |products|
    ensures forall p :: p in r <==> p in products && p.id in shoppingList
  {
    Filter(products, HasIdIn(shoppingList))
  }

  /** The cart rows of two product lists are the rows of each, first list first. */
  lemma CartItemsConcat(a: seq<Product>, b: seq<Product>, shoppingList: set<int>)
    ensures CartItems(a + b, shoppingList) == CartItems(a, shoppingList) + CartItems(b, shoppingList)
  {
    FilterConcat(a, b, HasIdIn(shoppingList));
  }

  /** A single product is a cart row exactly when its id is in the cart. */
  lemma CartItemsSingleton(p: Product, shoppingList: set<int>)
    ensures CartItems([p], shoppingList) == if p.id in shoppingList then [p] else []
  {
    FilterSingleton(p, HasIdIn(shoppingList));
  }

  /** The cart screen shows "Your cart is empty" and hides checkout exactly when no product is in the cart. */
  lemma CartItemsEmptyIff(products: seq<Product>, shoppingList: set<int>)
    ensures CartItems(products, shoppingList) == [] <==> forall p :: p in products ==> p.id !in shoppingList
  {
    FilterEmptyIff(products, HasIdIn(shoppingList));
  }

  /** What one row contributes: `price * Double(quantity)`. */
  function LineTotal(p: Product): real
  {
    p.price * p.quantity as real
  }

  /** Prices and quantities that cannot make a negative line. */
  predicate NonNegative(items: seq<Product>)
  {
    forall p :: p in items ==> p.price >= 0.0 && p.quantity >= 0
  }

  /** `reduce(0) { $0 + ... }` over the rows: a left fold, so the last row is added last. */
  function Subtotal(items: seq<Product>): real
    decreases |items|
  {
    if items == [] then 0.0 else Subtotal(items[..|items| - 1]) + LineTotal(items[|items| - 1])
  }

  /** With non-negative prices and quantities the subtotal is non-negative. */
  lemma {:induction false} SubtotalNonNegative(items: seq<Product>)
    requires NonNegative(items)
    ensures Subtotal(items) >= 0.0
    decreases |items|
  {
    if items != [] {
      var last := items[|items| - 1];
      assert last in items;
      assert NonNegative(items[..|items| - 1]) by {
        forall p | p in items[..|items| - 1] ensures p in items { }
      }
      SubtotalNonNegative(items[..|items| - 1]);
      assert LineTotal(last) >= 0.0;
    }
  }

  /** The subtotal of a concatenation is the sum of the parts' subtotals. */
  lemma {:induction false} SubtotalConcat(a: seq<Product>, b: seq<Product>)
    ensures Subtotal(a + b) == Subtotal(a) + Subtotal(b)
    decreases |b|
  {
    if b == [] {
      assert a + b == a;
    } else {
      var n := |b| - 1;
      assert (a + b)[..|a + b| - 1] == a + b[..n];
      assert (a + b)[|a + b| - 1] == b[n];
      SubtotalConcat(a, b[..n]);
    }
  }

  /** One row's subtotal is its line total. */
  lemma SubtotalSingleton(p: Product)
    ensures Subtotal([p]) == LineTotal(p)
  {
    assert [p][..0] == [];
  }

  /** `subtotal` of the cart screen. */
  function CartSubtotal(products: seq<Product>, shoppingList: set<int>): real
  {
    Subtotal(CartItems(products, shoppingList))
  }

  /** `tax`: the subtotal at the fixed rate. */
  function Tax(products: seq<Product>, shoppingList: set<int>): real
  {
    CartSubtotal(products, shoppingList) * TaxRate
  }

  /** `totalPrice`: the subtotal plus its tax. */
  function TotalPrice(products: seq<Product>, shoppingList: set<int>): real
  {
    CartSubtotal(products, shoppingList) + Tax(products, shoppingList)
  }

  /**
   * With non-negative prices and quantities the subtotal is non-negative and
   * the total is at least the subtotal; tax is 13% of the subtotal and the
   * total 113% of it.
   */
  lemma PricingBreakdown(products: seq<Product>, shoppingList: set<int>)
    ensures NonNegative(products) ==>
              0.0 <= CartSubtotal(products, shoppingList) <= TotalPrice(products, shoppingList)
    ensures Tax(products, shoppingList) == CartSubtotal(products, shoppingList) * 13.0 / 100.0
    ensures TotalPrice(products, shoppingList) == CartSubtotal(products, shoppingList) * 113.0 / 100.0
  {
    var items := CartItems(products, shoppingList);
    if NonNegative(products) {
      assert NonNegative(items);
      SubtotalNonNegative(items);
    }
  }

  /** An empty cart has no rows and prices to zero. */
  lemma EmptyCartPricesZero(products: seq<Product>)
    ensures CartItems(products, {}) == []
    ensures CartSubtotal(products, {}) == 0.0 && Tax(products, {}) == 0.0 && TotalPrice(products, {}) == 0.0
  {
    CartItemsEmptyIff(products, {});
  }

  /**
   * The subtotal read as a sum over the whole product list, front to back, in
   * which a product not in the cart contributes nothing: a reference definition
   * that needs no filtered list and no left fold.
   */
  function CartSum(products: seq<Product>, shoppingList: set<int>): real
  {
    if products == [] then 0.0
    else (if products[0].id in shoppingList then LineTotal(products[0]) else 0.0) + CartSum(products[1..], shoppingList)
  }

  /** The cart subtotal, a left fold over the filtered rows, is that sum. */
  lemma {:induction false} CartSubtotalIsSum(products: seq<Product>, shoppingList: set<int>)
    ensures CartSubtotal(products, shoppingList) == CartSum(products, shoppingList)
  {
    if products != [] {
      var p, rest := products[0], products[1..];
      assert products == [p] + rest;
      CartItemsConcat([p], rest, shoppingList);
      CartItemsSingleton(p, shoppingList);
      SubtotalConcat(CartItems([p], shoppingList), CartItems(rest, shoppingList));
      SubtotalSingleton(p);
      CartSubtotalIsSum(rest, shoppingList);
    }
  }

  /** The sum after raising the quantity at index `i` by `delta`. */
  lemma {:induction false} SumAfterIncrease(products: seq<Product>, shoppingList: set<int>, i: nat, delta: int)
    requires i < |products|
    ensures CartSum(products[i := products[i].(quantity := products[i].quantity + delta)], shoppingList)
         == CartSum(products, shoppingList)
            + (if products[i].id in shoppingList then products[i].price * delta as real else 0.0)
  {
    var y := products[i].(quantity := products[i].quantity + delta);
    var after := products[i := y];
    if i == 0 {
      assert after[1..] == products[1..];
      LineTotalIncrease(products[0], delta);
    } else {
      assert after[1..] == products[1..][i - 1 := y];
      SumAfterIncrease(products[1..], shoppingList, i - 1, delta);
    }
  }

  /**
   * The subtotal counts every cart row: raising the quantity of the product at
   * index `i` by `delta` (lowering it when negative) moves the subtotal by
   * `price * delta` if that product is in the cart, and not at all otherwise.
   */
  lemma SubtotalAfterIncrease(products: seq<Product>, shoppingList: set<int>, i: nat, delta: int)
    requires i < |products|
    ensures CartSubtotal(products[i := products[i].(quantity := products[i].quantity + delta)], shoppingList)
         == CartSubtotal(products, shoppingList)
            + (if products[i].id in shoppingList then products[i].price * delta as real else 0.0)
  {
    CartSubtotalIsSum(products, shoppingList);
    CartSubtotalIsSum(products[i := products[i].(quantity := products[i].quantity + delta)], shoppingList);
    SumAfterIncrease(products, shoppingList, i, delta);
  }

  /** The sum after setting the quantity at index `i` to `q`. */
  lemma {:induction false} SumAfterSet(products: seq<Product>, shoppingList: set<int>, i: nat, q: int)
    requires i < |products|
    ensures CartSum(products[i := products[i].(quantity := q)], shoppingList)
         == CartSum(products, shoppingList)
            + (if products[i].id in shoppingList then products[i].price * (q - products[i].quantity) as real else 0.0)
  {
    var y := products[i].(quantity := q);
    var after := products[i := y];
    if i == 0 {
      assert after[1..] == products[1..];
      LineTotalIncrease(products[0], q - products[0].quantity);
      assert products[0].(quantity := products[0].quantity + (q - products[0].quantity)) == y;
    } else {
      assert after[1..] == products[1..][i - 1 := y];
      SumAfterSet(products[1..], shoppingList, i - 1, q);
    }
  }

  /** `SubtotalAfterIncrease` for a quantity set to `q`: the subtotal moves by `price * (q - old quantity)`. */
  lemma SubtotalAfterQuantityChange(products: seq<Product>, shoppingList: set<int>, i: nat, q: int)
    requires i < |products|
    ensures CartSubtotal(products[i := products[i].(quantity := q)], shoppingList)
         == CartSubtotal(products, shoppingList)
            + (if products[i].id in shoppingList then products[i].price * (q - products[i].quantity) as real else 0.0)
  {
    CartSubtotalIsSum(products, shoppingList);
    CartSubtotalIsSum(products[i := products[i].(quantity := q)], shoppingList);
    SumAfterSet(products, shoppingList, i, q);
  }

  /** Raising a row's quantity by `delta` raises its line total by `price * delta`. */
  lemma LineTotalIncrease(x: Product, delta: int)
    ensures LineTotal(x.(quantity := x.quantity + delta)) - LineTotal(x) == x.price * delta as real
  {
    calc {
      LineTotal(x.(quantity := x.quantity + delta)) - LineTotal(x);
      x.price * (x.quantity + delta) as real - x.price * x.quantity as real;
      x.price * ((x.quantity + delta) as real - x.quantity as real);
    }
  }

  /**
   * Add `delta` to the quantity of the first product with id `id`, the
   * `if let index = products.firstIndex(where:) { products[index].quantity ... }`
   * step of both quantity buttons; no product with that id, no change.
   */
  function AdjustFirst(products: seq<Product>, id: int, delta: int): (r: seq<Product>)
    ensures |r| == |products|
    ensures forall j :: 0 <= j < |products| && FirstIndex(products, id) != Some(j) ==> r[j] == products[j]
    ensures FirstIndex(products, id).Some? ==>
              var i := FirstIndex(products, id).value;
              r[i].quantity == products[i].quantity + delta && r[i].(quantity := products[i].quantity) == products[i]
  {
    match FirstIndex(products, id)
    case None => products
    case Some(i) => products[i := products[i].(quantity := products[i].quantity + delta)]
  }

  /** The minus button on row `row`: the guard reads the row's own quantity. */
  function MinusTapped(products: seq<Product>, row: Product): (r: seq<Product>)
    ensures |r| == |products|
    ensures row.quantity <= 1 || FirstIndex(products, row.id) == None ==> r == products
  {
    if row.quantity > 1 then AdjustFirst(products, row.id, -1) else products
  }

  /** The plus button on row `row`: no upper bound. */
  function PlusTapped(products: seq<Product>, row: Product): (r: seq<Product>)
    ensures |r| == |products|
    ensures FirstIndex(products, row.id) == None ==> r == products
    ensures FirstIndex(products, row.id).Some? ==> r != products
  {
    AdjustFirst(products, row.id, 1)
  }

  /**
   * With unique ids, for a row of the product list whose quantities are all at
   * least 1, the minus button keeps every quantity at least 1, lowers that
   * row's quantity by one exactly when it was above 1, and changes no other product.
   */
  lemma MinusKeepsFloor(products: seq<Product>, k: nat)
    requires UniqueIds(products) && k < |products|
    requires forall p :: p in products ==> p.quantity >= 1
    ensures var r := MinusTapped(products, products[k]);
      && |r| == |products|
      && (forall p :: p in r ==> p.quantity >= 1)
      && r[k].quantity == (if products[k].quantity > 1 then products[k].quantity - 1 else products[k].quantity)
      && (forall j :: 0 <= j < |products| && j != k ==> r[j] == products[j])
  {
    FirstIndexOfUnique(products, k);
    var r := MinusTapped(products, products[k]);
    forall p | p in r
      ensures p.quantity >= 1
    {
      var j :| 0 <= j < |r| && r[j] == p;
      assert products[j] in products;
    }
  }

  /**
   * The guard reads the tapped row, not the product it then changes: when two
   * products share an id, tapping minus on the second (quantity 3) drives the
   * first from 1 to 0.
   */
  lemma MinusFloorNeedsUniqueIds()
    ensures var first := Product(1, Some("Pants"), 82.0, 1);
            var second := Product(1, Some("Pants"), 82.0, 3);
            MinusTapped([first, second], second)[0].quantity == 0
  {
  }

  /**
   * With unique ids, the plus button raises the tapped row's quantity by exactly
   * one, whatever it was, and changes no other product.
   */
  lemma PlusAddsOne(products: seq<Product>, k: nat)
    requires UniqueIds(products) && k < |products|
    ensures var r := PlusTapped(products, products[k]);
      && |r| == |products|
      && r[k] == products[k].(quantity := products[k].quantity + 1)
      && (forall j :: 0 <= j < |products| && j != k ==> r[j] == products[j])
  {
    FirstIndexOfUnique(products, k);
  }

  /**
   * With unique ids, the plus button on a row raises the cart subtotal by that
   * row's unit price when the row is in the cart, and leaves it otherwise.
   */
  lemma PlusRaisesSubtotal(products: seq<Product>, shoppingList: set<int>, k: nat)
    requires UniqueIds(products) && k < |products|
    ensures CartSubtotal(PlusTapped(products, products[k]), shoppingList)
         == CartSubtotal(products, shoppingList) + (if products[k].id in shoppingList then products[k].price else 0.0)
  {
    PlusTappedAt(products, k);
    CartSubtotalIsSum(products, shoppingList);
    CartSubtotalIsSum(PlusTapped(products, products[k]), shoppingList);
    SumAfterIncrease(products, shoppingList, k, 1);
  }

  /**
   * With unique ids, the minus button on a row lowers the cart subtotal by that
   * row's unit price when the row is in the cart and its quantity is above 1,
   * and leaves it otherwise.
   */
  lemma MinusLowersSubtotal(products: seq<Product>, shoppingList: set<int>, k: nat)
    requires UniqueIds(products) && k < |products|
    ensures CartSubtotal(MinusTapped(products, products[k]), shoppingList)
         == CartSubtotal(products, shoppingList)
            - (if products[k].id in shoppingList && products[k].quantity > 1 then products[k].price else 0.0)
  {
    if products[k].quantity > 1 {
      MinusTappedAt(products, k);
      CartSubtotalIsSum(products, shoppingList);
      CartSubtotalIsSum(MinusTapped(products, products[k]), shoppingList);
      SumAfterIncrease(products, shoppingList, k, -1);
    }
  }

  /** With unique ids, plus on a row writes that row back one higher. */
  lemma PlusTappedAt(products: seq<Product>, k: nat)
    requires UniqueIds(products) && k < |products|
    ensures PlusTapped(products, products[k]) == products[k := products[k].(quantity := products[k].quantity + 1)]
  {
    FirstIndexOfUnique(products, k);
  }

  /** With unique ids, minus on a row above quantity 1 writes that row back one lower. */
  lemma MinusTappedAt(products: seq<Product>, k: nat)
    requires UniqueIds(products) && k < |products| && products[k].quantity > 1
    ensures MinusTapped(products, products[k]) == products[k := products[k].(quantity := products[k].quantity - 1)]
  {
    FirstIndexOfUnique(products, k);
  }

  /**
   * Removing an id from the cart lowers the subtotal by exactly the lines of the
   * products with that id; the product list itself is not consulted differently.
   */
  lemma {:induction false} SubtotalAfterRemoval(products: seq<Product>, shoppingList: set<int>, id: int)
    requires id in shoppingList
    ensures CartSubtotal(products, shoppingList)
         == CartSubtotal(products, shoppingList - {id}) + Subtotal(Filter(products, HasIdIn({id})))
    decreases |products|
  {
    if products != [] {
      var p, rest := products[0], products[1..];
      assert products == [p] + rest;
      SubtotalAfterRemoval(rest, shoppingList, id);
      CartItemsConcat([p], rest, shoppingList);
      CartItemsConcat([p], rest, shoppingList - {id});
      FilterConcat([p], rest, HasIdIn({id}));
      CartItemsSingleton(p, shoppingList);
      CartItemsSingleton(p, shoppingList - {id});
      FilterSingleton(p, HasIdIn({id}));
      SubtotalConcat(CartItems([p], shoppingList), CartItems(rest, shoppingList));
      SubtotalConcat(CartItems([p], shoppingList - {id}), CartItems(rest, shoppingList - {id}));
      SubtotalConcat(Filter([p], HasIdIn({id})), Filter(rest, HasIdIn({id})));
    }
  }

  /** With unique ids, removing a row's id from the cart lowers the subtotal by that row's line total. */
  lemma RemovalLowersSubtotalByLine(products: seq<Product>, shoppingList: set<int>, k: nat)
    requires UniqueIds(products) && k < |products| && products[k].id in shoppingList
    ensures CartSubtotal(products, shoppingList - {products[k].id})
         == CartSubtotal(products, shoppingList) - LineTotal(products[k])
  {
    var id := products[k].id;
    var before, after := products[..k], products[k + 1..];
    assert products == before + [products[k]] + after;
    FilterConcat(before + [products[k]], after, HasIdIn({id}));
    FilterConcat(before, [products[k]], HasIdIn({id}));
    FilterSingleton(products[k], HasIdIn({id}));
    FilterEmptyIff(before, HasIdIn({id}));
    FilterEmptyIff(after, HasIdIn({id}));
    assert Filter(products, HasIdIn({id})) == [products[k]];
    SubtotalSingleton(products[k]);
    SubtotalAfterRemoval(products, shoppingList, id);
  }

  /**
   * The cart rows after removing an id and adding it back are the rows before:
   * removal does not touch the product list, so the row comes back with its old quantity.
   */
  lemma ReAddRestoresRow(products: seq<Product>, shoppingList: set<int>, id: int)
    requires id in shoppingList
    ensures CartItems(products, (shoppingList - {id}) + {id}) == CartItems(products, shoppingList)
  {
    assert (shoppingList - {id}) + {id} == shoppingList;
  }

  /** The fixture of a 82.00 line and two 70.00 units: subtotal 222.00, tax 28.86, total 250.86. */
  lemma PricingFixture()
    ensures var products := [Product(1, Some("Pants"), 82.0, 1), Product(2, Some("Dress"), 70.0, 2),
                             Product(3, Some("Shirt"), 129.0, 1)];
            && CartSubtotal(products, {1, 2}) == 222.0
            && Tax(products, {1, 2}) == 28.86
            && TotalPrice(products, {1, 2}) == 250.86
  {
    var products := [Product(1, Some("Pants"), 82.0, 1), Product(2, Some("Dress"), 70.0, 2),
                     Product(3, Some("Shirt"), 129.0, 1)];
    var a, b, c := products[0], products[1], products[2];
    assert products == [a, b] + [c];
    assert [a, b] == [a] + [b];
    CartItemsConcat([a, b], [c], {1, 2});
    CartItemsConcat([a], [b], {1, 2});
    CartItemsSingleton(a, {1, 2});
    CartItemsSingleton(b, {1, 2});
    CartItemsSingleton(c, {1, 2});
    assert CartItems(products, {1, 2}) == [a] + [b];
    SubtotalConcat([a], [b]);
    SubtotalSingleton(a);
    SubtotalSingleton(b);
  }
}
