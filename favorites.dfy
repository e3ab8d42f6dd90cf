/** The favourites screen: the list it shows and when it shows "No favorites added yet". */
module Favorites {
  import opened Catalog

  /** `favoriteProducts`: the products whose id is a favourite, in product-list order. */
  function FavoriteProducts(products: seq<Product>, favorites: set<int>): (r: seq<Product>)
    ensures |r| <= |products|
    ensures forall p :: p in r <==> p in products && p.id in favorites
  {
    Filter(products, HasIdIn(favorites))
  }

  /** The favourites of two product lists are those of each, first list first. */
  lemma FavoriteProductsConcat(a: seq<Product>, b: seq<Product>, favorites: set<int>)
    ensures FavoriteProducts(a + b, favorites) == FavoriteProducts(a, favorites) + FavoriteProducts(b, favorites)
  {
    FilterConcat(a, b, HasIdIn(favorites));
  }

  /** "No favorites added yet" is shown exactly when no product's id is a favourite. */
  lemma NoFavoritesIff(products: seq<Product>, favorites: set<int>)
    ensures FavoriteProducts(products, favorites) == [] <==> forall p :: p in products ==> p.id !in favorites
  {
    FilterEmptyIff(products, HasIdIn(favorites));
  }

  /** Over the seeded products, favouriting id 2 lists "Dress" alone. */
  lemma SeedFavoriteDress()
    ensures FavoriteProducts(FetchedSeeds(), {2}) == [SeedProducts()[1]]
  {
    var ps := SeedProducts();
    FilterOfFour(ps[1], ps[0], ps[2], ps[3], HasIdIn({2}));
  }
}
