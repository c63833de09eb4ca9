/**
 * `addToCartFromButton`: merge one product into the stored cart. The stored
 * cart is a sequence of entries (storage and JSON are left out). An entry with
 * the same id gets its quantity raised; otherwise a new entry is appended.
 */
module CartStore {
  import opened Wrappers

  datatype Entry = Entry(id: int, name: string, price: int, quantity: int, image: string)

  /** `(quantity || 1) + 1`: a zero quantity counts as 1 before adding one. */
  function Bumped(q: int): (r: int)
    ensures q != 0 ==> r == q + 1
    ensures q == 0 ==> r == 2
  {
    (if q == 0 then 1 else q) + 1
  }

  ghost predicate HasId(cart: seq<Entry>, id: int)
  {
    exists i :: 0 <= i < |cart| && cart[i].id == id
  }

  /** At most one entry per product id. */
  ghost predicate UniqueIds(cart: seq<Entry>)
  {
    forall i, j :: 0 <= i < j < |cart| ==> cart[i].id != cart[j].id
  }

  /** The cart after adding the product, entry by entry: the first entry with the id
      has its quantity bumped; if there is none, a new entry with quantity 1 goes last. */
  function Added(cart: seq<Entry>, id: int, name: string, price: int, image: string): seq<Entry>
    decreases |cart|
  {
    if cart == [] then [Entry(id, name, price, 1, image)]
    else if cart[0].id == id then [cart[0].(quantity := Bumped(cart[0].quantity))] + cart[1..]
    else [cart[0]] + Added(cart[1..], id, name, price, image)
  }

  /** A product not yet in the cart is appended, with quantity 1, after every existing entry. */
  lemma {:induction false} AddedWhenAbsent(cart: seq<Entry>, id: int, name: string, price: int, image: string)
    requires !HasId(cart, id)
    ensures Added(cart, id, name, price, image) == cart + [Entry(id, name, price, 1, image)]
    decreases |cart|
  {
    if cart != [] {
      assert cart[0].id != id;
      AddedWhenAbsent(cart[1..], id, name, price, image);
      assert [cart[0]] + (cart[1..] + [Entry(id, name, price, 1, image)]) == cart + [Entry(id, name, price, 1, image)];
    }
  }

  /** Where the id first occurs, adding it changes only that entry, and only its quantity. */
  lemma {:induction false} AddedAtFirstMatch(cart: seq<Entry>, id: int, name: string, price: int, image: string, k: nat)
    requires k < |cart| && cart[k].id == id
    requires forall j :: 0 <= j < k ==> cart[j].id != id
    ensures Added(cart, id, name, price, image) == cart[k := cart[k].(quantity := Bumped(cart[k].quantity))]
    decreases k
  {
    if k > 0 {
      AddedAtFirstMatch(cart[1..], id, name, price, image, k - 1);
      assert cart[1..][k - 1 := cart[k].(quantity := Bumped(cart[k].quantity))] ==
        cart[k := cart[k].(quantity := Bumped(cart[k].quantity))][1..];
    }
  }

  /** Adding keeps the id of every entry unique. */
  lemma AddedKeepsIdsUnique(cart: seq<Entry>, id: int, name: string, price: int, image: string)
    requires UniqueIds(cart)
    ensures UniqueIds(Added(cart, id, name, price, image))
  {
    var r := Added(cart, id, name, price, image);
    if HasId(cart, id) {
      var k :| 0 <= k < |cart| && cart[k].id == id;
      AddedAtFirstMatch(cart, id, name, price, image, k);
      assert forall i :: 0 <= i < |cart| ==> r[i].id == cart[i].id;
    } else {
      AddedWhenAbsent(cart, id, name, price, image);
      forall i, j | 0 <= i < j < |r| ensures r[i].id != r[j].id {
        if j == |cart| {
          assert r[i] == cart[i];
        }
      }
    }
  }

  /** Adding the same new product twice leaves one entry, last, with quantity 2. */
  lemma AddTwiceNew(cart: seq<Entry>, id: int, name: string, price: int, image: string)
    requires !HasId(cart, id)
    ensures Added(Added(cart, id, name, price, image), id, name, price, image) ==
      cart + [Entry(id, name, price, 2, image)]
  {
    AddedWhenAbsent(cart, id, name, price, image);
    var once := Added(cart, id, name, price, image);
    AddedAtFirstMatch(once, id, name, price, image, |cart|);
  }

  /** `cart.find(item => item.id === id)`, as the index of the first match. */
  method FindEntry(cart: seq<Entry>, id: int) returns (found: Option<nat>)
    ensures found.Some? ==> found.value < |cart| && cart[found.value].id == id
    ensures found.Some? ==> forall j :: 0 <= j < found.value ==> cart[j].id != id
    ensures found.None? <==> !HasId(cart, id)
  {
    var i := 0;
    while i < |cart|
      invariant 0 <= i <= |cart|
      invariant forall j :: 0 <= j < i ==> cart[j].id != id
    {
      if cart[i].id == id {
        return Some(i);
      }
      i := i + 1;
    }
    return None;
  }

  /** The browser's stored cart under the key "susu_cart". */
  class Storage {
    var cart: seq<Entry>

    constructor (stored: seq<Entry>)
      ensures cart == stored
    {
      cart := stored;
    }

    /** Read the cart, raise the matching entry in place or push a new one, write it back. */
    method AddToCart(id: int, name: string, price: int, image: string)
      modifies this
      ensures cart == Added(old(cart), id, name, price, image)
      ensures UniqueIds(old(cart)) ==> UniqueIds(cart)
    {
      var entries := cart;
      var found := FindEntry(entries, id);
      if found.Some? {
        var k := found.value;
        AddedAtFirstMatch(entries, id, name, price, image, k);
        entries := entries[k := entries[k].(quantity := Bumped(entries[k].quantity))];
      } else {
        AddedWhenAbsent(entries, id, name, price, image);
        entries := entries + [Entry(id, name, price, 1, image)];
      }
      if UniqueIds(cart) {
        AddedKeepsIdsUnique(cart, id, name, price, image);
      }
      cart := entries;
    }
  }
}
