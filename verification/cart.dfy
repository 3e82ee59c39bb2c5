/**
 * The shopping cart of both copies of App.js: `addToCart`,
 * `removeFromCart` and `updateQuantity` as pure updates of the cart list.
 */
module Cart {
  import opened ClientModel
  import Seqs

  function IdOf(item: CartItem): int { item.product.id }

  /** The cart holds an item for this product id. */
  predicate Contains(cart: seq<CartItem>, id: int) {
    exists i :: 0 <= i < |cart| && cart[i].product.id == id
  }

  /** No two items share a product id, and every quantity is at least 1. */
  ghost predicate WellFormed(cart: seq<CartItem>) {
    && (forall i, j :: 0 <= i < j < |cart| ==> cart[i].product.id != cart[j].product.id)
    && (forall i :: 0 <= i < |cart| ==> cart[i].quantity >= 1)
  }

  /** How many units of product `id` the cart holds. */
  function Quantity(cart: seq<CartItem>, id: int): int {
    if cart == [] then 0
    else (if cart[0].product.id == id then cart[0].quantity else 0) + Quantity(cart[1..], id)
  }

  /** `addToCart(product)`: one more unit of an existing item, or a new item of quantity 1 at the end. */
  function AddToCart(cart: seq<CartItem>, p: Product): (r: seq<CartItem>)
    ensures Contains(cart, p.id) ==>
      && |r| == |cart|
      && forall i :: 0 <= i < |cart| ==>
           r[i] == if cart[i].product.id == p.id then cart[i].(quantity := cart[i].quantity + 1) else cart[i]
    ensures !Contains(cart, p.id) ==> r == cart + [CartItem(p, 1)]
    ensures WellFormed(cart) ==> WellFormed(r)
  {
    if Contains(cart, p.id) then
      Seqs.MapWhere(cart, (item: CartItem) => item.product.id == p.id,
                    (item: CartItem) => item.(quantity := item.quantity + 1))
    else cart + [CartItem(p, 1)]
  }

  /** `removeFromCart(productId)`: drop the items with that id, keep the rest in order. */
  function RemoveFromCart(cart: seq<CartItem>, id: int): (r: seq<CartItem>)
    ensures !Contains(r, id)
    ensures Seqs.SubsequenceOf(r, cart)
    ensures forall item: CartItem :: item.product.id != id ==> multiset(r)[item] == multiset(cart)[item]
    ensures WellFormed(cart) ==> WellFormed(r)
  {
    var r := Seqs.WithoutKey(cart, id, IdOf);
    Seqs.WithoutKeyCount(cart, id, IdOf);
    assert forall x :: x in r ==> x in cart by {
      forall x | x in r ensures x in cart {
        assert multiset(r)[x] > 0;
      }
    }
    SubsequenceWellFormed(r, cart);
    r
  }

  lemma SubsequenceWellFormed(r: seq<CartItem>, cart: seq<CartItem>)
    requires Seqs.SubsequenceOf(r, cart)
    ensures WellFormed(cart) ==> WellFormed(r)
  {
    if WellFormed(cart) {
      SubsequenceKeepsWellFormed(r, cart);
    }
  }

  lemma {:induction false} SubsequenceKeepsWellFormed(r: seq<CartItem>, cart: seq<CartItem>)
    requires Seqs.SubsequenceOf(r, cart) && WellFormed(cart)
    ensures WellFormed(r)
    decreases |cart|
  {
    if r != [] {
      var tail := cart[1..];
      assert WellFormed(tail) by {
        forall a, b | 0 <= a < b < |tail| ensures tail[a].product.id != tail[b].product.id {
          assert tail[a] == cart[a + 1] && tail[b] == cart[b + 1];
        }
      }
      if r[0] == cart[0] && Seqs.SubsequenceOf(r[1..], tail) {
        SubsequenceKeepsWellFormed(r[1..], tail);
        forall j | 0 < j < |r| ensures r[0].product.id != r[j].product.id {
          Seqs.SubsequenceMember(r[1..], tail, j - 1);
          var k :| 0 <= k < |tail| && tail[k] == r[1..][j - 1];
          assert cart[k + 1] == r[j];
        }
        assert WellFormed(r) by {
          forall a, b | 0 <= a < b < |r| ensures r[a].product.id != r[b].product.id {
            if a > 0 {
              assert r[a] == r[1..][a - 1] && r[b] == r[1..][b - 1];
            }
          }
          forall a | 0 <= a < |r| ensures r[a].quantity >= 1 {
            if a > 0 {
              assert r[a] == r[1..][a - 1];
            }
          }
        }
      } else {
        SubsequenceKeepsWellFormed(r, tail);
      }
    }
  }


  /** `updateQuantity(productId, n)`: below 1 it removes the item, else it sets that item's quantity. */
  function UpdateQuantity(cart: seq<CartItem>, id: int, quantity: int): (r: seq<CartItem>)
    ensures quantity < 1 ==> r == RemoveFromCart(cart, id)
    ensures quantity >= 1 ==>
      && |r| == |cart|
      && forall i :: 0 <= i < |cart| ==>
           r[i] == if cart[i].product.id == id then cart[i].(quantity := quantity) else cart[i]
    ensures WellFormed(cart) ==> WellFormed(r)
  {
    if quantity < 1 then RemoveFromCart(cart, id)
    else Seqs.MapWhere(cart, (item: CartItem) => item.product.id == id,
                       (item: CartItem) => item.(quantity := quantity))
  }

  /** One call of the three cart handlers. */
  datatype CartAction = Add(product: Product) | Remove(id: int) | SetQuantity(id: int, quantity: int)

  function Apply(cart: seq<CartItem>, action: CartAction): seq<CartItem> {
    match action
    case Add(p) => AddToCart(cart, p)
    case Remove(id) => RemoveFromCart(cart, id)
    case SetQuantity(id, q) => UpdateQuantity(cart, id, q)
  }

  function ApplyAll(cart: seq<CartItem>, actions: seq<CartAction>): seq<CartItem>
    decreases |actions|
  {
    if actions == [] then cart else ApplyAll(Apply(cart, actions[0]), actions[1..])
  }

  /** Whatever the handlers do, starting from the empty cart ids stay unique and quantities positive. */
  lemma {:induction false} HandlersKeepCartWellFormed(actions: seq<CartAction>)
    ensures WellFormed(ApplyAll([], actions))
  {
    ApplyAllKeepsWellFormed([], actions);
  }

  lemma {:induction false} ApplyAllKeepsWellFormed(cart: seq<CartItem>, actions: seq<CartAction>)
    requires WellFormed(cart)
    ensures WellFormed(ApplyAll(cart, actions))
    decreases |actions|
  {
    if actions != [] {
      ApplyAllKeepsWellFormed(Apply(cart, actions[0]), actions[1..]);
    }
  }

  /** How many items of the cart carry product id `id`. */
  function Occurrences(cart: seq<CartItem>, id: int): nat {
    if cart == [] then 0
    else (if cart[0].product.id == id then 1 else 0) + Occurrences(cart[1..], id)
  }

  /** In a well-formed cart, adding a product raises its unit count by one and leaves every other count alone. */
  lemma AddCountsOneUnit(cart: seq<CartItem>, p: Product, other: int)
    requires WellFormed(cart) && other != p.id
    ensures Quantity(AddToCart(cart, p), p.id) == Quantity(cart, p.id) + 1
    ensures Quantity(AddToCart(cart, p), other) == Quantity(cart, other)
  {
    var r := AddToCart(cart, p);
    if Contains(cart, p.id) {
      BumpQuantity(cart, r, p.id, other);
      OccursOnce(cart, p.id);
    } else {
      QuantityAppend(cart, CartItem(p, 1), p.id);
      QuantityAppend(cart, CartItem(p, 1), other);
      QuantityAbsent(cart, p.id);
    }
  }

  /** Incrementing every item with id `id` adds one unit per such item. */
  lemma {:induction false} BumpQuantity(cart: seq<CartItem>, r: seq<CartItem>, id: int, other: int)
    requires other != id && |r| == |cart|
    requires forall i :: 0 <= i < |cart| ==>
      r[i] == if cart[i].product.id == id then cart[i].(quantity := cart[i].quantity + 1) else cart[i]
    ensures Quantity(r, id) == Quantity(cart, id) + Occurrences(cart, id)
    ensures Quantity(r, other) == Quantity(cart, other)
  {
    if cart != [] {
      BumpQuantity(cart[1..], r[1..], id, other);
    }
  }

  lemma {:induction false} OccursOnce(cart: seq<CartItem>, id: int)
    requires WellFormed(cart) && Contains(cart, id)
    ensures Occurrences(cart, id) == 1
  {
    var tail := cart[1..];
    assert WellFormed(tail) by {
      forall a, b | 0 <= a < b < |tail| ensures tail[a].product.id != tail[b].product.id {
        assert tail[a] == cart[a + 1] && tail[b] == cart[b + 1];
      }
    }
    if cart[0].product.id == id {
      assert !Contains(tail, id) by {
        forall k | 0 <= k < |tail| ensures tail[k].product.id != id {
          assert tail[k] == cart[k + 1];
        }
      }
      OccurrencesAbsent(tail, id);
    } else {
      var k :| 0 <= k < |cart| && cart[k].product.id == id;
      assert tail[k - 1] == cart[k];
      OccursOnce(tail, id);
    }
  }

  lemma {:induction false} OccurrencesAbsent(cart: seq<CartItem>, id: int)
    requires !Contains(cart, id)
    ensures Occurrences(cart, id) == 0
  {
    if cart != [] {
      assert !Contains(cart[1..], id) by {
        forall k | 0 <= k < |cart[1..]| ensures cart[1..][k].product.id != id {
          assert cart[1..][k] == cart[k + 1];
        }
      }
      OccurrencesAbsent(cart[1..], id);
    }
  }

  lemma {:induction false} QuantityAppend(cart: seq<CartItem>, item: CartItem, id: int)
    ensures Quantity(cart + [item], id) == Quantity(cart, id) + (if item.product.id == id then item.quantity else 0)
  {
    if cart == [] {
      assert [] + [item] == [item];
    } else {
      assert (cart + [item])[1..] == cart[1..] + [item];
      QuantityAppend(cart[1..], item, id);
    }
  }

  lemma {:induction false} QuantityAbsent(cart: seq<CartItem>, id: int)
    requires !Contains(cart, id)
    ensures Quantity(cart, id) == 0
  {
    if cart != [] {
      assert !Contains(cart[1..], id) by {
        forall k | 0 <= k < |cart[1..]| ensures cart[1..][k].product.id != id {
          assert cart[1..][k] == cart[k + 1];
        }
      }
      QuantityAbsent(cart[1..], id);
    }
  }
}
