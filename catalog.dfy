/**
 * The product record that the cart, favourites and home screens share, and the
 * two library operations they apply to the product list: `filter` and
 * `firstIndex(where:)`.
 */
module Catalog {
  import opened Wrappers

  /**
   * A product as the screens read it. `title` is optional because the Core Data
   * entity declares it `String?`; `quantity` is the field the cart screen reads
   * and the data controller seeds with 1.
   */
  datatype Product = Product(id: int, title: Option<string>, price: real, quantity: int)

  /** Swift's `Sequence.filter`: the elements that `keep` accepts, in their original order. */
  function Filter(s: seq<Product>, keep: Product -> bool): (r: seq<Product>)
    ensures |r| <= |s|
    ensures forall x :: x in r <==> x in s && keep(x)
  {
    if s == [] then [] else (if keep(s[0]) then [s[0]] else []) + Filter(s[1..], keep)
  }

  /** Filtering a concatenation filters each part and keeps the parts in order. */
  lemma {:induction false} FilterConcat(a: seq<Product>, b: seq<Product>, keep: Product -> bool)
    ensures Filter(a + b, keep) == Filter(a, keep) + Filter(b, keep)
  {
    if a == [] {
      assert a + b == b;
    } else {
      assert (a + b)[0] == a[0];
      assert (a + b)[1..] == a[1..] + b;
      FilterConcat(a[1..], b, keep);
    }
  }

  /** A one-element list is kept exactly when its element is. */
  lemma FilterSingleton(x: Product, keep: Product -> bool)
    ensures Filter([x], keep) == if keep(x) then [x] else []
  {
    assert [x][1..] == [];
  }

  /** Filtering a list with a first element decides that element, then filters the rest. */
  lemma FilterCons(x: Product, rest: seq<Product>, keep: Product -> bool)
    ensures Filter([x] + rest, keep) == (if keep(x) then [x] else []) + Filter(rest, keep)
  {
    assert ([x] + rest)[1..] == rest;
  }

  /** A four-element list, such as the seeded catalogue, filtered element by element. */
  lemma FilterOfFour(a: Product, b: Product, c: Product, d: Product, keep: Product -> bool)
    ensures Filter([a, b, c, d], keep)
         == (if keep(a) then [a] else []) + ((if keep(b) then [b] else [])
            + ((if keep(c) then [c] else []) + (if keep(d) then [d] else [])))
  {
    assert [a, b, c, d] == [a] + ([b] + ([c] + [d]));
    FilterSingleton(d, keep);
    FilterCons(c, [d], keep);
    FilterCons(b, [c] + [d], keep);
    FilterCons(a, [b] + ([c] + [d]), keep);
  }

  /** The filter is empty exactly when no element is accepted. */
  lemma FilterEmptyIff(s: seq<Product>, keep: Product -> bool)
    ensures Filter(s, keep) == [] <==> forall x :: x in s ==> !keep(x)
  {
    var r := Filter(s, keep);
    if r != [] {
      assert r[0] in r;
    }
  }

  /**
   * Two filters applied one after the other give the same list in either order:
   * a list narrowed by one predicate and then another holds, in order, the
   * elements both accept.
   */
  lemma {:induction false} FilterCommutes(s: seq<Product>, f: Product -> bool, g: Product -> bool)
    ensures Filter(Filter(s, f), g) == Filter(Filter(s, g), f)
  {
    if s != [] {
      var x, rest := s[0], s[1..];
      assert s == [x] + rest;
      FilterConcat([x], rest, f);
      FilterConcat([x], rest, g);
      FilterSingleton(x, f);
      FilterSingleton(x, g);
      FilterConcat(Filter([x], f), Filter(rest, f), g);
      FilterConcat(Filter([x], g), Filter(rest, g), f);
      FilterCommutes(rest, f, g);
    }
  }

  /** The predicate `shoppingList.contains($0.id)` / `favorites.contains($0.id)`. */
  function HasIdIn(ids: set<int>): Product -> bool
  {
    (p: Product) => p.id in ids
  }

  /** Swift's `firstIndex(where: { $0.id == id })`. */
  function FirstIndex(ps: seq<Product>, id: int): (r: Option<nat>)
    ensures r.Some? ==> r.value < |ps| && ps[r.value].id == id
    ensures r.Some? ==> forall j :: 0 <= j < r.value ==> ps[j].id != id
    ensures r.None? <==> forall j :: 0 <= j < |ps| ==> ps[j].id != id
  {
    if ps == [] then None
    else if ps[0].id == id then Some(0)
    else match FirstIndex(ps[1..], id)
      case None => None
      case Some(i) => Some(i + 1)
  }

  /** No two products share an id (what SwiftUI's `ForEach` over `Identifiable` rows relies on). */
  predicate UniqueIds(ps: seq<Product>)
  {
    forall i, j :: 0 <= i < j < |ps| ==> ps[i].id != ps[j].id
  }

  /** With unique ids, the first product with a row's id is that row. */
  lemma FirstIndexOfUnique(ps: seq<Product>, k: nat)
    requires UniqueIds(ps) && k < |ps|
    ensures FirstIndex(ps, ps[k].id) == Some(k)
  {
  }

  /** The four products the data controller seeds into an empty store. */
  function SeedProducts(): (r: seq<Product>)
    ensures |r| == 4 && UniqueIds(r)
  {
    [ Product(1, Some("Pants"), 82.0, 1), Product(2, Some("Dress"), 70.0, 1),
      Product(3, Some("Shirt"), 129.0, 1), Product(4, Some("T-shirt"), 62.0, 1) ]
  }

  /**
   * Strict lexicographic order on titles, character by character, with a
   * proper prefix first: the comparison an ascending title sort applies.
   */
  predicate TitleBefore(a: string, b: string)
  {
    b != [] && (a == [] || a[0] < b[0] || (a[0] == b[0] && TitleBefore(a[1..], b[1..])))
  }

  /**
   * The seeded products in the order the home screen's fetch request delivers
   * them, ascending by title; `FetchedSeedsAscending` states that order.
   */
  function FetchedSeeds(): (r: seq<Product>)
    ensures |r| == 4
  {
    var ps := SeedProducts();
    [ps[1], ps[0], ps[2], ps[3]]
  }

  /** Every title is present and each comes strictly before the titles after it. */
  predicate TitlesAscending(s: seq<Product>)
  {
    forall i, j :: 0 <= i < j < |s| ==>
      s[i].title.Some? && s[j].title.Some? && TitleBefore(s[i].title.value, s[j].title.value)
  }

  /** The fetched seeds are the four seeded records, each once. */
  lemma FetchedSeedsPermuteSeeds()
    ensures multiset(FetchedSeeds()) == multiset(SeedProducts())
  {
    var ps := SeedProducts();
    assert ps == [ps[0], ps[1]] + [ps[2], ps[3]];
    assert FetchedSeeds() == [ps[1], ps[0]] + [ps[2], ps[3]];
  }

  /** The fetched seeds are in ascending title order. */
  lemma FetchedSeedsAscending()
    ensures TitlesAscending(FetchedSeeds())
  {
    var r := FetchedSeeds();
    assert r[0].title.value[0] == 'D' && r[1].title.value[0] == 'P';
    assert r[2].title.value[0] == 'S' && r[3].title.value[0] == 'T';
  }
}
