/**
 * The cart: an ordered list of (productId, qty) lines. `addToCart` merges
 * into the first line for a product or appends one; `updateCart` sets the
 * quantity of every line for a product and then drops every line whose
 * quantity is not positive.
 */
module Cart {
  import opened Wrappers
  import Lists

  datatype CartItem = CartItem(productId: string, qty: int)

  /** Some line of the cart is for `productId`. */
  predicate Contains(cart: seq<CartItem>, productId: string) {
    exists i :: 0 <= i < |cart| && cart[i].productId == productId
  }

  /** The test `i => i.productId === productId`. */
  function IsFor(productId: string): CartItem -> bool {
    (line: CartItem) => line.productId == productId
  }

  /** The product of a line, the key of "one line per product". */
  function ProductOf(line: CartItem): string { line.productId }

  /** At most one line per product. */
  predicate UniqueLines(cart: seq<CartItem>) {
    Lists.DistinctBy(cart, ProductOf)
  }

  /** Every line has a positive quantity. */
  predicate AllPositive(cart: seq<CartItem>) {
    forall i :: 0 <= i < |cart| ==> cart[i].qty > 0
  }

  /** `cart.find(i => i.productId === productId)`, as the index of the line found. */
  function LineIndex(cart: seq<CartItem>, productId: string): (r: Option<nat>)
    ensures r.Some? ==> r.value < |cart| && cart[r.value].productId == productId
    ensures r.Some? ==> forall j :: 0 <= j < r.value ==> cart[j].productId != productId
    ensures r.None? <==> !Contains(cart, productId)
  {
    Lists.FirstIndex(cart, IsFor(productId))
  }

  /** The cart after `addToCart(productId, qty)`. */
  function Add(cart: seq<CartItem>, productId: string, qty: int): (r: seq<CartItem>)
    ensures Contains(cart, productId) ==> |r| == |cart|
    ensures Contains(cart, productId) ==>
      var i := LineIndex(cart, productId).value;
      r[i] == CartItem(productId, cart[i].qty + qty) &&
      forall j :: 0 <= j < |cart| && j != i ==> r[j] == cart[j]
    ensures !Contains(cart, productId) ==> r == cart + [CartItem(productId, qty)]
  {
    match LineIndex(cart, productId)
    case Some(i) => cart[i := cart[i].(qty := cart[i].qty + qty)]
    case None => cart + [CartItem(productId, qty)]
  }

  /** The `map` step of `updateCart`: every line for `productId` takes `qty`. */
  function Relabel(cart: seq<CartItem>, productId: string, qty: int): (r: seq<CartItem>)
    ensures |r| == |cart|
    ensures forall i :: 0 <= i < |r| ==> r[i].productId == cart[i].productId
    ensures forall i :: 0 <= i < |r| && cart[i].productId == productId ==> r[i].qty == qty
    ensures forall i :: 0 <= i < |r| && cart[i].productId != productId ==> r[i] == cart[i]
  {
    seq(|cart|, i requires 0 <= i < |cart| =>
      if cart[i].productId == productId then cart[i].(qty := qty) else cart[i])
  }

  /** The test `i => i.qty > 0`. */
  function IsPositive(line: CartItem): bool { line.qty > 0 }

  /** The cart after `updateCart(productId, qty)`. */
  function SetQty(cart: seq<CartItem>, productId: string, qty: int): (r: seq<CartItem>)
    ensures AllPositive(r)
    ensures forall x :: x in r <==>
      (x in cart && x.productId != productId && x.qty > 0) ||
      (x == CartItem(productId, qty) && qty > 0 && Contains(cart, productId))
    ensures forall x ::
      multiset(r)[x] == if x.qty > 0 then multiset(Relabel(cart, productId, qty))[x] else 0
    ensures Lists.IsSubsequence(r, Relabel(cart, productId, qty))
    ensures qty <= 0 ==> !Contains(r, productId)
  {
    var m := Relabel(cart, productId, qty);
    var r := Lists.Filter(m, IsPositive);
    forall i | 0 <= i < |r| ensures r[i].qty > 0 {
      assert r[i] in r;
    }
    RelabelMembers(cart, productId, qty);
    r
  }

  /** A line is in the mapped cart exactly when it was a line for another product, or it is the product's new line and the product was held. */
  lemma RelabelMembers(cart: seq<CartItem>, productId: string, qty: int)
    ensures forall x :: x in Relabel(cart, productId, qty) <==>
      (x in cart && x.productId != productId) ||
      (x == CartItem(productId, qty) && Contains(cart, productId))
  {
    var m := Relabel(cart, productId, qty);
    forall x ensures x in m <==> (x in cart && x.productId != productId) ||
                                 (x == CartItem(productId, qty) && Contains(cart, productId)) {
      if x in m {
        var i :| 0 <= i < |m| && m[i] == x;
        assert cart[i] in cart;
      }
      if x in cart && x.productId != productId {
        var i :| 0 <= i < |cart| && cart[i] == x;
        assert m[i] == x;
      }
      if x == CartItem(productId, qty) && Contains(cart, productId) {
        var i :| 0 <= i < |cart| && cart[i].productId == productId;
        assert m[i] == x;
      }
    }
  }

  /** The quantity the cart holds for a product, summed over its lines. */
  function QtyOf(cart: seq<CartItem>, productId: string): int {
    if |cart| == 0 then 0
    else (if cart[0].productId == productId then cart[0].qty else 0) + QtyOf(cart[1..], productId)
  }

  /** Adding to a line only changes that line's contribution to the quantity totals. */
  lemma {:induction false} QtyOfUpdate(cart: seq<CartItem>, i: nat, line: CartItem, productId: string)
    requires i < |cart|
    ensures QtyOf(cart[i := line], productId) ==
      QtyOf(cart, productId)
      - (if cart[i].productId == productId then cart[i].qty else 0)
      + (if line.productId == productId then line.qty else 0)
  {
    if i > 0 {
      QtyOfUpdate(cart[1..], i - 1, line, productId);
      assert cart[i := line][1..] == cart[1..][i - 1 := line];
    }
  }

  /** An appended line adds its own quantity to its product's total. */
  lemma {:induction false} QtyOfAppend(cart: seq<CartItem>, line: CartItem, productId: string)
    ensures QtyOf(cart + [line], productId) ==
      QtyOf(cart, productId) + (if line.productId == productId then line.qty else 0)
  {
    if |cart| > 0 {
      QtyOfAppend(cart[1..], line, productId);
      assert (cart + [line])[1..] == cart[1..] + [line];
    }
  }

  /** `addToCart(productId, qty)` raises that product's total by `qty` and leaves every other total alone. */
  lemma AddQty(cart: seq<CartItem>, productId: string, qty: int, other: string)
    ensures QtyOf(Add(cart, productId, qty), other) ==
      QtyOf(cart, other) + (if other == productId then qty else 0)
  {
    match LineIndex(cart, productId)
    case Some(i) =>
      QtyOfUpdate(cart, i, cart[i].(qty := cart[i].qty + qty), other);
    case None =>
      QtyOfAppend(cart, CartItem(productId, qty), other);
  }

  /** Two adds of the same product are one add of the summed quantity. */
  lemma AddTwice(cart: seq<CartItem>, productId: string, q1: int, q2: int)
    ensures Add(Add(cart, productId, q1), productId, q2) == Add(cart, productId, q1 + q2)
  {
    var once := Add(cart, productId, q1);
    match LineIndex(cart, productId)
    case Some(i) =>
      assert LineIndex(once, productId) == Some(i) by {
        assert once[i].productId == productId;
      }
    case None =>
      assert LineIndex(once, productId) == Some(|cart|) by {
        assert once[|cart|].productId == productId;
      }
  }

  /** `addToCart` keeps "at most one line per product". */
  lemma AddUnique(cart: seq<CartItem>, productId: string, qty: int)
    requires UniqueLines(cart)
    ensures UniqueLines(Add(cart, productId, qty))
  {
  }

  /** Adding a positive quantity to a cart of positive lines keeps every line positive. */
  lemma AddPositive(cart: seq<CartItem>, productId: string, qty: int)
    requires AllPositive(cart) && qty > 0
    ensures AllPositive(Add(cart, productId, qty))
  {
  }

  /** `addToCart` does not check the quantity: a non-positive one for a new product leaves a non-positive line. */
  lemma AddNonPositive(cart: seq<CartItem>, productId: string, qty: int)
    requires qty <= 0 && !Contains(cart, productId)
    ensures !AllPositive(Add(cart, productId, qty))
  {
    assert Add(cart, productId, qty)[|cart|].qty == qty;
  }

  /** `updateCart` keeps "at most one line per product". */
  lemma SetQtyUnique(cart: seq<CartItem>, productId: string, qty: int)
    requires UniqueLines(cart)
    ensures UniqueLines(SetQty(cart, productId, qty))
  {
    var m := Relabel(cart, productId, qty);
    assert UniqueLines(m) by {
      forall i, j | 0 <= i < j < |m| ensures ProductOf(m[i]) != ProductOf(m[j]) {
        assert ProductOf(m[i]) == ProductOf(cart[i]) && ProductOf(m[j]) == ProductOf(cart[j]);
      }
    }
    Lists.FilterDistinct(m, IsPositive, ProductOf);
  }

  /** On a cart of positive lines, `updateCart` for a product it does not hold changes nothing. */
  lemma SetQtyAbsent(cart: seq<CartItem>, productId: string, qty: int)
    requires AllPositive(cart) && !Contains(cart, productId)
    ensures SetQty(cart, productId, qty) == cart
  {
    var m := Relabel(cart, productId, qty);
    assert m == cart by {
      forall i | 0 <= i < |cart| ensures m[i] == cart[i] {
        assert cart[i].productId != productId;
      }
    }
    Lists.FilterKeepsAll(m, IsPositive);
  }

  /** In a cart with one line per product, a product's total is the quantity on its line, or 0 without one. */
  lemma {:induction false} QtyOfUnique(cart: seq<CartItem>, productId: string)
    requires UniqueLines(cart)
    ensures QtyOf(cart, productId) ==
      match LineIndex(cart, productId) case Some(i) => cart[i].qty case None => 0
  {
    if |cart| > 0 {
      var tail := cart[1..];
      assert UniqueLines(tail) by {
        forall i, j | 0 <= i < j < |tail| ensures ProductOf(tail[i]) != ProductOf(tail[j]) {
          assert tail[i] == cart[i + 1] && tail[j] == cart[j + 1];
        }
      }
      QtyOfUnique(tail, productId);
      if cart[0].productId == productId {
        assert !Contains(tail, productId) by {
          forall k | 0 <= k < |tail| ensures tail[k].productId != productId {
            assert tail[k] == cart[k + 1];
            assert ProductOf(cart[0]) != ProductOf(cart[k + 1]);
          }
        }
      } else {
        match LineIndex(tail, productId)
        case Some(k) =>
          assert cart[k + 1] == tail[k];
          assert LineIndex(cart, productId) == Some(k + 1);
        case None =>
          assert !Contains(cart, productId) by {
            forall k | 0 <= k < |cart| ensures cart[k].productId != productId {
              if k > 0 { assert cart[k] == tail[k - 1]; }
            }
          }
      }
    }
  }

  /** In a cart with one line per product, after `updateCart(productId, qty)` the product's total is `qty` when positive and held, and 0 otherwise. */
  lemma SetQtyQty(cart: seq<CartItem>, productId: string, qty: int)
    requires UniqueLines(cart)
    ensures QtyOf(SetQty(cart, productId, qty), productId) ==
      if qty > 0 && Contains(cart, productId) then qty else 0
  {
    var r := SetQty(cart, productId, qty);
    SetQtyUnique(cart, productId, qty);
    QtyOfUnique(r, productId);
    match LineIndex(r, productId)
    case Some(i) =>
      assert r[i] in r;
    case None =>
  }
}
