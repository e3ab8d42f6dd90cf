/**
 * The state the home screen owns and binds into its cart and favourites
 * screens: the cart (`shoppingList`), the favourites, and the product list whose
 * quantities the cart screen edits in place. Each method is one button or
 * callback of those screens.
 */
module Session {
  import opened Wrappers
  import opened Catalog
  import opened Selection
  import opened Cart
  import opened Favorites
  import opened Search

  /**
   * The `resetCart` closure a cart screen is given: the home screen passes its
   * own `resetCart`, the favourites screen passes `{}`.
   */
  datatype ResetHook = ClearsCart | DoesNothing

  class ShopState {
    var shoppingList: set<int>
    var favorites: set<int>
    var products: seq<Product>

    /** A session starts with an empty cart and no favourites. */
    constructor (catalog: seq<Product>)
      ensures shoppingList == {} && favorites == {} && products == catalog
    {
      shoppingList := {};
      favorites := {};
      products := catalog;
    }

    /** `resetCart`: `shoppingList.removeAll()`. */
    method ResetCart()
      modifies this
      ensures shoppingList == {}
      ensures favorites == old(favorites) && products == old(products)
    {
      shoppingList := {};
    }

    /** The cart button of a product card. */
    method ToggleCart(productID: int)
      modifies this
      ensures shoppingList == Toggle(old(shoppingList), productID)
      ensures favorites == old(favorites) && products == old(products)
    {
      if productID in shoppingList {
        shoppingList := shoppingList - {productID};
      } else {
        shoppingList := shoppingList + {productID};
      }
    }

    /** The heart button, on a product card and on the favourites screen alike. */
    method ToggleFavorite(productID: int)
      modifies this
      ensures favorites == Toggle(old(favorites), productID)
      ensures shoppingList == old(shoppingList) && products == old(products)
    {
      if productID in favorites {
        favorites := favorites - {productID};
      } else {
        favorites := favorites + {productID};
      }
    }

    /** "Add to Bag" on the favourites screen: inserts, never toggles. */
    method AddToBag(productID: int)
      modifies this
      ensures shoppingList == Insert(old(shoppingList), productID)
      ensures favorites == old(favorites) && products == old(products)
    {
      shoppingList := shoppingList + {productID};
    }

    /**
     * The minus button of cart row `row`: only when the row's quantity is above
     * 1, one off the quantity of the first product with the row's id.
     */
    method DecrementQuantity(row: Product)
      modifies this
      ensures products == MinusTapped(old(products), row)
      ensures shoppingList == old(shoppingList) && favorites == old(favorites)
    {
      if row.quantity > 1 {
        var index := FirstIndex(products, row.id);
        if index.Some? {
          var i := index.value;
          products := products[i := products[i].(quantity := products[i].quantity - 1)];
        }
      }
    }

    /** The plus button of cart row `row`: one more of the first product with the row's id. */
    method IncrementQuantity(row: Product)
      modifies this
      ensures products == PlusTapped(old(products), row)
      ensures shoppingList == old(shoppingList) && favorites == old(favorites)
    {
      var index := FirstIndex(products, row.id);
      if index.Some? {
        var i := index.value;
        products := products[i := products[i].(quantity := products[i].quantity + 1)];
      }
    }

    /**
     * "Remove" in the confirmation alert: drops the id of the row the trash
     * button picked from the cart; the product list, quantities included, stays.
     */
    method RemoveConfirmed(itemToRemove: Option<Product>)
      modifies this
      ensures shoppingList == if itemToRemove.Some? then old(shoppingList) - {itemToRemove.value.id} else old(shoppingList)
      ensures favorites == old(favorites) && products == old(products)
    {
      if itemToRemove.Some? {
        shoppingList := shoppingList - {itemToRemove.value.id};
      }
    }

    /**
     * A tap on "Proceed to Checkout": the link exists only while the cart has
     * rows, and tapping it calls the screen's `resetCart`.
     */
    method CheckoutTapped(resetCart: ResetHook) returns (linkShown: bool)
      modifies this
      ensures linkShown <==> CartItems(old(products), old(shoppingList)) != []
      ensures shoppingList == if linkShown && resetCart == ClearsCart then {} else old(shoppingList)
      ensures favorites == old(favorites) && products == old(products)
    {
      linkShown := CartItems(products, shoppingList) != [];
      if linkShown && resetCart == ClearsCart {
        ResetCart();
      }
    }
  }

  /** Un-favouriting a product keeps it in the cart. */
  method FavoriteAndCartIndependent(state: ShopState, id: int)
    requires id in state.shoppingList && id in state.favorites
    modifies state
    ensures id in state.shoppingList && id !in state.favorites
  {
    state.ToggleFavorite(id);
  }

  /** Removing a product from the cart keeps it a favourite. */
  method RemoveKeepsFavorite(state: ShopState, row: Product)
    requires row.id in state.shoppingList && row.id in state.favorites
    modifies state
    ensures row.id !in state.shoppingList && row.id in state.favorites
  {
    state.RemoveConfirmed(Some(row));
  }

  /**
   * Removing a row and adding it back from the favourites screen brings the
   * row back with the quantity it had, and the subtotal with it.
   */
  method RemoveThenAddBack(state: ShopState, row: Product)
    requires row.id in state.shoppingList
    modifies state
    ensures state.products == old(state.products)
    ensures state.shoppingList == old(state.shoppingList)
    ensures CartItems(state.products, state.shoppingList) == CartItems(old(state.products), old(state.shoppingList))
    ensures CartSubtotal(state.products, state.shoppingList) == CartSubtotal(old(state.products), old(state.shoppingList))
  {
    state.RemoveConfirmed(Some(row));
    state.AddToBag(row.id);
    ReAddRestoresRow(state.products, old(state.shoppingList), row.id);
  }

  /**
   * The home screen hands its fetch results to the cart and favourites screens
   * too, so while a search predicate is installed both list only the rows
   * whose title matches: the searched cart is the cart narrowed by the search,
   * in the same order, and likewise for the favourites.
   */
  lemma SearchNarrowsCartAndFavorites(stored: seq<Product>, text: string, shoppingList: set<int>, favorites: set<int>)
    ensures CartItems(Filter(stored, TitleContains(text)), shoppingList)
         == Filter(CartItems(stored, shoppingList), TitleContains(text))
    ensures FavoriteProducts(Filter(stored, TitleContains(text)), favorites)
         == Filter(FavoriteProducts(stored, favorites), TitleContains(text))
  {
    FilterCommutes(stored, TitleContains(text), HasIdIn(shoppingList));
    FilterCommutes(stored, TitleContains(text), HasIdIn(favorites));
  }

  /**
   * Favourite "Dress", search "pa", then clear the search: the favourites
   * screen reads the same fetch results, whose predicate is still in force, and
   * shows "No favorites added yet" although "Dress" is a favourite.
   */
  method FavoritesAfterSearchCleared() returns (shown: seq<Product>)
    ensures shown == [] && FavoriteProducts(FetchedSeeds(), {2}) != []
  {
    var request := new ProductsRequest(FetchedSeeds());
    var searched := request.FilteredProducts("pa");
    var cleared := request.FilteredProducts("");
    SeedSearchPa();
    var pants := SeedProducts()[0];
    assert request.Results() == [pants];
    shown := FavoriteProducts(request.Results(), {2});
    FilterSingleton(pants, HasIdIn({2}));
    SeedFavoriteDress();
  }

  /** With the clearing search, the same steps list "Dress" again. */
  method FavoritesAfterSearchClearedFixed() returns (shown: seq<Product>)
    ensures shown == [SeedProducts()[1]]
  {
    var request := new ProductsRequest(FetchedSeeds());
    var searched := request.FilteredProductsClearing("pa");
    var cleared := request.FilteredProductsClearing("");
    shown := FavoriteProducts(request.Results(), {2});
    SeedFavoriteDress();
  }
}
