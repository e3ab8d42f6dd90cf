/**
 * The two selection sets of product ids, `shoppingList` (the cart) and
 * `favorites`, and the set updates the card, heart and "Add to Bag" buttons make.
 */
module Selection {

  /** The toggle of the cart and heart buttons: remove the id if present, insert it otherwise. */
  function Toggle(s: set<int>, id: int): (r: set<int>)
    ensures id in r <==> id !in s
    ensures forall x :: x != id ==> (x in r <==> x in s)
  {
    if id in s then s - {id} else s + {id}
  }

  /** Toggling the same id twice restores the set. */
  lemma ToggleTwice(s: set<int>, id: int)
    ensures Toggle(Toggle(s, id), id) == s
  {
  }

  /** The set after the taps in `taps`, first tap first. */
  function ToggleEach(s: set<int>, taps: seq<int>): set<int>
    decreases |taps|
  {
    if taps == [] then s else ToggleEach(Toggle(s, taps[0]), taps[1..])
  }

  /** How many of the taps hit `x`. */
  function Occurrences(taps: seq<int>, x: int): nat
  {
    if taps == [] then 0 else (if taps[0] == x then 1 else 0) + Occurrences(taps[1..], x)
  }

  /**
   * After any sequence of taps, an id is a member exactly when it started as one
   * XOR it was tapped an odd number of times.
   */
  lemma {:induction false} ToggleEachParity(s: set<int>, taps: seq<int>, x: int)
    ensures x in ToggleEach(s, taps) <==> (x in s) != (Occurrences(taps, x) % 2 == 1)
    decreases |taps|
  {
    if taps != [] {
      ToggleEachParity(Toggle(s, taps[0]), taps[1..], x);
    }
  }

  /** "Add to Bag": `insert` never removes, so a second tap changes nothing. */
  function Insert(s: set<int>, id: int): (r: set<int>)
    ensures id in r && s <= r
    ensures forall x :: x != id ==> (x in r <==> x in s)
    ensures id in s ==> r == s
  {
    s + {id}
  }
}
