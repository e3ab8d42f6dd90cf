/**
 * The home screen's search: `filteredProducts` keeps the products whose title
 * contains the search text, ignoring case, by assigning the predicate
 * `title CONTAINS[c] %@` to the screen's fetch request.
 */
module Search {
  import opened Wrappers
  import opened Catalog

  /** Case folding of one character, over ASCII letters only. */
  function Lower(c: char): char
  {
    if 'A' <= c <= 'Z' then (c as int + 32) as char else c
  }

  /** A string with every character folded. */
  function FoldCase(s: string): (r: string)
    ensures |r| == |s|
    ensures forall i :: 0 <= i < |s| ==> r[i] == Lower(s[i])
  {
    if s == [] then [] else [Lower(s[0])] + FoldCase(s[1..])
  }

  /** `text` occurs in `t` starting at index `i`. */
  predicate OccursAt(t: string, text: string, i: nat)
  {
    i + |text| <= |t| && t[i..i + |text|] == text
  }

  /** `CONTAINS[c]`: the folded text occurs somewhere in the folded title. */
  predicate ContainsIgnoringCase(title: string, text: string)
  {
    exists i: nat :: i <= |title| && OccursAt(FoldCase(title), FoldCase(text), i)
  }

  /** Folding twice is folding once. */
  lemma FoldCaseIdempotent(s: string)
    ensures FoldCase(FoldCase(s)) == FoldCase(s)
  {
  }

  /** The search ignores the case of the query and of the title alike. */
  lemma ContainsIgnoresCase(title: string, text: string)
    ensures ContainsIgnoringCase(title, text) <==> ContainsIgnoringCase(FoldCase(title), FoldCase(text))
  {
    FoldCaseIdempotent(title);
    FoldCaseIdempotent(text);
  }

  /** A title that contains the query verbatim matches it. */
  lemma VerbatimOccurrenceMatches(title: string, text: string, i: nat)
    requires OccursAt(title, text, i)
    ensures ContainsIgnoringCase(title, text)
  {
    var ft, fx := FoldCase(title), FoldCase(text);
    assert ft[i..i + |text|] == fx by {
      forall j | 0 <= j < |text|
        ensures ft[i..i + |text|][j] == fx[j]
      {
        assert title[i + j] == text[j];
      }
    }
    assert OccursAt(ft, fx, i);
  }

  /** When no character of the title folds to the query's first folded character, the title does not match. */
  lemma NoMatchWithoutFirstCharacter(title: string, text: string)
    requires text != []
    requires forall j :: 0 <= j < |title| ==> Lower(title[j]) != Lower(text[0])
    ensures !ContainsIgnoringCase(title, text)
  {
  }

  /** The fetch predicate `title CONTAINS[c] text`; a product without a title never matches. */
  function TitleContains(text: string): Product -> bool
  {
    (p: Product) => p.title.Some? && ContainsIgnoringCase(p.title.value, text)
  }

  /**
   * The home screen's `@FetchRequest`: the stored products, in the order the
   * request delivers them, and the predicate last assigned to it, `None`
   * while unset.
   */
  class ProductsRequest {
    var stored: seq<Product>
    var nsPredicate: Option<string>

    constructor (stored: seq<Product>)
      ensures this.stored == stored && nsPredicate == None
    {
      this.stored := stored;
      nsPredicate := None;
    }

    /** What the fetched results hold under the current predicate. */
    function Results(): (r: seq<Product>)
      reads this
      ensures forall p :: p in r ==> p in stored
    {
      match nsPredicate
      case None => stored
      case Some(text) => Filter(stored, TitleContains(text))
    }

    /**
     * `filteredProducts`: non-empty search text replaces the predicate; empty
     * search text returns the results as they stand, without clearing a
     * predicate set by an earlier search.
     */
    method FilteredProducts(searchText: string) returns (r: seq<Product>)
      modifies this`nsPredicate
      ensures nsPredicate == if searchText == [] then old(nsPredicate) else Some(searchText)
      ensures r == Results()
      ensures searchText != [] ==>
                forall p :: p in r <==> p in stored && p.title.Some? && ContainsIgnoringCase(p.title.value, searchText)
    {
      if searchText != [] {
        nsPredicate := Some(searchText);
      }
      r := Results();
    }

    /** `filteredProducts` as evidently intended: empty search text clears the predicate. */
    method FilteredProductsClearing(searchText: string) returns (r: seq<Product>)
      modifies this`nsPredicate
      ensures nsPredicate == if searchText == [] then None else Some(searchText)
      ensures r == Results()
      ensures searchText == [] ==> r == stored
      ensures searchText != [] ==>
                forall p :: p in r <==> p in stored && p.title.Some? && ContainsIgnoringCase(p.title.value, searchText)
    {
      if searchText == [] {
        nsPredicate := None;
      } else {
        nsPredicate := Some(searchText);
      }
      r := Results();
    }
  }

  /** "Pants" contains "pa" ignoring case. */
  lemma PantsContainsPa()
    ensures ContainsIgnoringCase("Pants", "pa")
  {
    VerbatimOccurrenceMatches("pants", "pa", 0);
    ContainsIgnoresCase("Pants", "pa");
    assert FoldCase("Pants") == "pants";
  }

  /** "Dress", "Shirt" and "T-shirt" do not contain "pa", in any case. */
  lemma OtherSeedTitlesLackPa()
    ensures !ContainsIgnoringCase("Dress", "pa")
    ensures !ContainsIgnoringCase("Shirt", "pa")
    ensures !ContainsIgnoringCase("T-shirt", "pa")
  {
    NoMatchWithoutFirstCharacter("Dress", "pa");
    NoMatchWithoutFirstCharacter("Shirt", "pa");
    NoMatchWithoutFirstCharacter("T-shirt", "pa");
  }

  /** Over the seeded products, as the fetch request delivers them, "pa" matches only "Pants". */
  lemma SeedSearchPa()
    ensures Filter(FetchedSeeds(), TitleContains("pa")) == [SeedProducts()[0]]
  {
    var ps := SeedProducts();
    PantsContainsPa();
    OtherSeedTitlesLackPa();
    FilterOfFour(ps[1], ps[0], ps[2], ps[3], TitleContains("pa"));
  }

  /**
   * Searching "pa" and then clearing the search field still shows only
   * "Pants": the cleared search leaves the earlier predicate in place.
   */
  method StaleSearchAfterClear() returns (shown: seq<Product>)
    ensures shown == [SeedProducts()[0]] && shown != FetchedSeeds()
  {
    var request := new ProductsRequest(FetchedSeeds());
    var searched := request.FilteredProducts("pa");
    shown := request.FilteredProducts("");
    SeedSearchPa();
  }

  /**
   * With the clearing version, the same two steps show the whole catalogue
   * again, in title order rather than seed order.
   */
  method ClearedSearchShowsAll() returns (shown: seq<Product>)
    ensures shown == FetchedSeeds() && shown != SeedProducts()
  {
    var request := new ProductsRequest(FetchedSeeds());
    var searched := request.FilteredProductsClearing("pa");
    shown := request.FilteredProductsClearing("");
  }
}
