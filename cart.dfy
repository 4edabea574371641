/** The cart and pricing engine of the checkout screen (src/pages/POS.tsx):
    the array transforms behind `addToCart`, `removeFromCart`, `updateQuantity`
    and `updateItemRemise`, and the `reduce` behind the subtotal and total.

    A cart is a sequence of lines that is meant to hold at most one line per
    product id. `Lines` reads it as the map from product id to line that it
    stands for, and every operation is related to that map. */
module Cart {
  import opened Types
  import Sequences

  // ---------------------------------------------------------------------------
  // Cart shape

  /** Some line of `cart` is for product `id` (`cart.find(...)` is truthy). */
  predicate HasLine(cart: seq<CartItem>, id: int)
  {
    exists i :: 0 <= i < |cart| && cart[i].product.id == id
  }

  /** At most one line per product id. */
  ghost predicate UniqueIds(cart: seq<CartItem>)
  {
    forall i, j :: 0 <= i < j < |cart| ==> cart[i].product.id != cart[j].product.id
  }

  /** The invariant every cart operation keeps: one line per product, each
      holding at least one unit. */
  ghost predicate WellFormed(cart: seq<CartItem>)
  {
    UniqueIds(cart) && forall i :: 0 <= i < |cart| ==> cart[i].quantity >= 1
  }

  /** The cart as the map from product id to its line. When ids repeat, the
      first line wins, as `find` would return it. */
  function Lines(cart: seq<CartItem>): map<int, CartItem>
  {
    if cart == [] then map[] else Lines(cart[1..])[cart[0].product.id := cart[0]]
  }

  /** The line a product gets when it is first added. */
  function NewLine(p: Product): CartItem
  {
    CartItem(p, 1, p.prixVente, 0.0)
  }

  /** `cart.map(item => item.product.id === id ? f(item) : item)`, the shape
      shared by the three line updates. */
  function MapWhere(cart: seq<CartItem>, id: int, f: CartItem -> CartItem): (r: seq<CartItem>)
    ensures |r| == |cart|
    ensures forall i :: 0 <= i < |cart| ==> r[i] == if cart[i].product.id == id then f(cart[i]) else cart[i]
  {
    if cart == [] then []
    else [if cart[0].product.id == id then f(cart[0]) else cart[0]] + MapWhere(cart[1..], id, f)
  }

  /** The per-line updates and the removal test, named so that the operations
      and the lemmas about them speak of the same function values. */
  function Increment(item: CartItem): CartItem { item.(quantity := item.quantity + 1) }
  function WithQuantity(quantity: int): CartItem -> CartItem { (item: CartItem) => item.(quantity := quantity) }
  function WithRemise(remise: real): CartItem -> CartItem { (item: CartItem) => item.(remise := remise) }
  function NotFor(id: int): CartItem -> bool { (item: CartItem) => item.product.id != id }

  // ---------------------------------------------------------------------------
  // The four cart operations

  /** `addToCart`: one more unit on the product's line, or a new line at the end. */
  function AddToCart(cart: seq<CartItem>, p: Product): (r: seq<CartItem>)
    ensures HasLine(cart, p.id) ==>
      |r| == |cart| &&
      forall i :: 0 <= i < |cart| ==>
        if cart[i].product.id == p.id then r[i] == cart[i].(quantity := cart[i].quantity + 1)
        else r[i] == cart[i]
    ensures !HasLine(cart, p.id) ==> r == cart + [NewLine(p)]
  {
    if HasLine(cart, p.id) then MapWhere(cart, p.id, Increment)
    else cart + [NewLine(p)]
  }

  /** `removeFromCart`: keep every line whose product is not `id`, in order. */
  function RemoveFromCart(cart: seq<CartItem>, id: int): (r: seq<CartItem>)
    ensures Sequences.Subseq(r, cart)
    ensures !HasLine(r, id)
    ensures forall i :: 0 <= i < |r| ==> r[i] in cart
    ensures forall i :: 0 <= i < |cart| && cart[i].product.id != id ==> cart[i] in r
    ensures !HasLine(cart, id) ==> r == cart
  {
    var keep := NotFor(id);
    if !HasLine(cart, id) then
      Sequences.FilterKeepsAll(cart, keep);
      Sequences.Filter(cart, keep)
    else
      Sequences.Filter(cart, keep)
  }

  /** `updateQuantity`: a quantity of zero or less removes the line; any other
      value replaces the line's quantity, with no check against stock. */
  function UpdateQuantity(cart: seq<CartItem>, id: int, quantity: int): (r: seq<CartItem>)
    ensures quantity <= 0 ==> r == RemoveFromCart(cart, id)
    ensures quantity > 0 ==>
      |r| == |cart| &&
      forall i :: 0 <= i < |cart| ==>
        if cart[i].product.id == id then r[i] == cart[i].(quantity := quantity)
        else r[i] == cart[i]
  {
    if quantity <= 0 then RemoveFromCart(cart, id)
    else MapWhere(cart, id, WithQuantity(quantity))
  }

  /** `updateItemRemise`: replace the line's discount, whatever its value. */
  function UpdateItemRemise(cart: seq<CartItem>, id: int, remise: real): (r: seq<CartItem>)
    ensures |r| == |cart|
    ensures forall i :: 0 <= i < |cart| ==>
      if cart[i].product.id == id then r[i] == cart[i].(remise := remise)
      else r[i] == cart[i]
    ensures !HasLine(cart, id) ==> r == cart
  {
    MapWhere(cart, id, WithRemise(remise))
  }

  // ---------------------------------------------------------------------------
  // The map view of a cart

  /** A product has a line (`find` succeeds) exactly when its id is a key of `Lines`. */
  lemma {:induction false} LinesKeys(cart: seq<CartItem>, id: int)
    ensures id in Lines(cart) <==> HasLine(cart, id)
  {
    if cart != [] {
      LinesKeys(cart[1..], id);
      if HasLine(cart, id) && cart[0].product.id != id {
        var i :| 0 <= i < |cart| && cart[i].product.id == id;
        assert cart[1..][i - 1].product.id == id;
      }
      if HasLine(cart[1..], id) {
        var i :| 0 <= i < |cart[1..]| && cart[1..][i].product.id == id;
        assert cart[i + 1].product.id == id;
      }
    }
  }

  /** In a cart without duplicates, a product's key maps to that product's line. */
  lemma {:induction false} LinesAt(cart: seq<CartItem>, i: int)
    requires UniqueIds(cart) && 0 <= i < |cart|
    ensures cart[i].product.id in Lines(cart) && Lines(cart)[cart[i].product.id] == cart[i]
  {
    if i > 0 {
      assert UniqueIds(cart[1..]) by {
        assert forall k :: 0 <= k < |cart[1..]| ==> cart[1..][k] == cart[k + 1];
      }
      assert cart[1..][i - 1] == cart[i];
      LinesAt(cart[1..], i - 1);
    }
  }

  /** A cart without duplicates has as many lines as its map has keys. */
  lemma {:induction false} LinesSize(cart: seq<CartItem>)
    requires UniqueIds(cart)
    ensures |Lines(cart)| == |cart|
  {
    if cart != [] {
      LinesSize(cart[1..]);
      LinesKeys(cart[1..], cart[0].product.id);
      assert !HasLine(cart[1..], cart[0].product.id);
    }
  }

  /** Appending a line adds its product, unless the product already had one. */
  lemma {:induction false} LinesAppend(cart: seq<CartItem>, x: CartItem)
    ensures Lines(cart + [x]) ==
      if x.product.id in Lines(cart) then Lines(cart) else Lines(cart)[x.product.id := x]
  {
    if cart == [] {
      assert [] + [x] == [x];
    } else {
      assert (cart + [x])[1..] == cart[1..] + [x];
      LinesAppend(cart[1..], x);
    }
  }

  /** Updating the matching lines updates the map at that one key. */
  lemma {:induction false} LinesMapWhere(cart: seq<CartItem>, id: int, f: CartItem -> CartItem)
    requires forall item: CartItem :: f(item).product == item.product
    ensures Lines(MapWhere(cart, id, f)) ==
      if id in Lines(cart) then Lines(cart)[id := f(Lines(cart)[id])] else Lines(cart)
  {
    if cart != [] {
      LinesMapWhere(cart[1..], id, f);
      assert MapWhere(cart, id, f)[1..] == MapWhere(cart[1..], id, f);
    }
  }

  /** Removing a product's lines removes exactly its key. */
  lemma {:induction false} LinesFilter(cart: seq<CartItem>, id: int)
    ensures Lines(Sequences.Filter(cart, NotFor(id))) == Lines(cart) - {id}
  {
    var keep := NotFor(id);
    if cart != [] {
      LinesFilter(cart[1..], id);
    }
  }

  // ---------------------------------------------------------------------------
  // Each operation on the map view

  /** `addToCart` bumps the product's line by one, or creates it with quantity 1;
      every other product's line is untouched. */
  lemma AddToCartLines(cart: seq<CartItem>, p: Product)
    ensures Lines(AddToCart(cart, p)) ==
      Lines(cart)[p.id := if p.id in Lines(cart)
                          then Lines(cart)[p.id].(quantity := Lines(cart)[p.id].quantity + 1)
                          else NewLine(p)]
  {
    LinesKeys(cart, p.id);
    var m := Lines(cart);
    if HasLine(cart, p.id) {
      assert AddToCart(cart, p) == MapWhere(cart, p.id, Increment);
      LinesMapWhere(cart, p.id, Increment);
      assert Increment(m[p.id]) == m[p.id].(quantity := m[p.id].quantity + 1);
    } else {
      assert AddToCart(cart, p) == cart + [NewLine(p)];
      LinesAppend(cart, NewLine(p));
      assert NewLine(p).product.id == p.id;
    }
  }

  /** `removeFromCart` deletes exactly the product's key. */
  lemma RemoveFromCartLines(cart: seq<CartItem>, id: int)
    ensures Lines(RemoveFromCart(cart, id)) == Lines(cart) - {id}
  {
    LinesFilter(cart, id);
  }

  /** `updateQuantity` deletes the key for a non-positive quantity and otherwise
      sets the quantity of the line under that key, if there is one. */
  lemma UpdateQuantityLines(cart: seq<CartItem>, id: int, quantity: int)
    ensures quantity <= 0 ==> Lines(UpdateQuantity(cart, id, quantity)) == Lines(cart) - {id}
    ensures quantity > 0 ==>
      Lines(UpdateQuantity(cart, id, quantity)) ==
        if id in Lines(cart) then Lines(cart)[id := Lines(cart)[id].(quantity := quantity)] else Lines(cart)
  {
    if quantity <= 0 {
      LinesFilter(cart, id);
    } else {
      LinesMapWhere(cart, id, WithQuantity(quantity));
    }
  }

  /** `updateItemRemise` sets the discount of the line under that key, if any. */
  lemma UpdateItemRemiseLines(cart: seq<CartItem>, id: int, remise: real)
    ensures Lines(UpdateItemRemise(cart, id, remise)) ==
      if id in Lines(cart) then Lines(cart)[id := Lines(cart)[id].(remise := remise)] else Lines(cart)
  {
    LinesMapWhere(cart, id, WithRemise(remise));
  }

  // ---------------------------------------------------------------------------
  // The invariant

  /** Lines that keep their products keep the cart free of duplicates. */
  lemma MapWhereUnique(cart: seq<CartItem>, id: int, f: CartItem -> CartItem)
    requires UniqueIds(cart)
    requires forall item: CartItem :: f(item).product == item.product
    ensures UniqueIds(MapWhere(cart, id, f))
  {
  }

  lemma AddToCartWellFormed(cart: seq<CartItem>, p: Product)
    requires WellFormed(cart)
    ensures WellFormed(AddToCart(cart, p))
  {
    if HasLine(cart, p.id) {
      MapWhereUnique(cart, p.id, Increment);
    }
  }

  lemma RemoveFromCartWellFormed(cart: seq<CartItem>, id: int)
    requires WellFormed(cart)
    ensures WellFormed(RemoveFromCart(cart, id))
  {
    SubseqUnique(RemoveFromCart(cart, id), cart);
  }

  lemma UpdateQuantityWellFormed(cart: seq<CartItem>, id: int, quantity: int)
    requires WellFormed(cart)
    ensures WellFormed(UpdateQuantity(cart, id, quantity))
  {
    if quantity <= 0 {
      RemoveFromCartWellFormed(cart, id);
    } else {
      MapWhereUnique(cart, id, WithQuantity(quantity));
    }
  }

  lemma UpdateItemRemiseWellFormed(cart: seq<CartItem>, id: int, remise: real)
    requires WellFormed(cart)
    ensures WellFormed(UpdateItemRemise(cart, id, remise))
  {
    MapWhereUnique(cart, id, WithRemise(remise));
  }

  /** Deleting lines cannot create a duplicate. */
  lemma {:induction false} SubseqUnique(a: seq<CartItem>, b: seq<CartItem>)
    requires Sequences.Subseq(a, b) && WellFormed(b)
    ensures WellFormed(a)
    decreases |b|
  {
    if a != [] {
      assert b != [];
      assert WellFormed(b[1..]) by {
        assert forall i :: 0 <= i < |b[1..]| ==> b[1..][i] == b[i + 1];
      }
      if a[0] == b[0] && Sequences.Subseq(a[1..], b[1..]) {
        SubseqUnique(a[1..], b[1..]);
        SubseqMembers(a[1..], b[1..]);
        forall j | 0 < j < |a|
          ensures a[0].product.id != a[j].product.id
        {
          assert a[j] == a[1..][j - 1];
          var k :| 0 <= k < |b[1..]| && b[1..][k] == a[j];
          assert b[k + 1] == a[j];
        }
        assert forall i :: 0 < i < |a| ==> a[i] == a[1..][i - 1];
      } else {
        SubseqUnique(a, b[1..]);
      }
    }
  }

  /** Every element of a subsequence is an element of the whole. */
  lemma {:induction false} SubseqMembers<T>(a: seq<T>, b: seq<T>)
    requires Sequences.Subseq(a, b)
    ensures forall i :: 0 <= i < |a| ==> exists k :: 0 <= k < |b| && b[k] == a[i]
    decreases |b|
  {
    if a != [] {
      if a[0] == b[0] && Sequences.Subseq(a[1..], b[1..]) {
        SubseqMembers(a[1..], b[1..]);
        forall i | 0 < i < |a|
          ensures exists k :: 0 <= k < |b| && b[k] == a[i]
        {
          assert a[i] == a[1..][i - 1];
          var k :| 0 <= k < |b[1..]| && b[1..][k] == a[1..][i - 1];
          assert b[k + 1] == a[i];
        }
      } else {
        SubseqMembers(a, b[1..]);
        forall i | 0 <= i < |a|
          ensures exists k :: 0 <= k < |b| && b[k] == a[i]
        {
          var k :| 0 <= k < |b[1..]| && b[1..][k] == a[i];
          assert b[k + 1] == a[i];
        }
      }
    }
  }

  // ---------------------------------------------------------------------------
  // Repeated adds and the minus button

  /** `n` successive `addToCart(p)`. */
  function AddRepeatedly(cart: seq<CartItem>, p: Product, n: nat): seq<CartItem>
  {
    if n == 0 then cart else AddToCart(AddRepeatedly(cart, p, n - 1), p)
  }

  /** `n >= 1` adds of a product that is not in the cart append one line holding
      `n` units. */
  lemma {:induction false} AddRepeatedlyFresh(cart: seq<CartItem>, p: Product, n: nat)
    requires !HasLine(cart, p.id) && n >= 1
    ensures AddRepeatedly(cart, p, n) == cart + [NewLine(p).(quantity := n)]
  {
    if n > 1 {
      AddRepeatedlyFresh(cart, p, n - 1);
      var before := cart + [NewLine(p).(quantity := n - 1)];
      assert before[|cart|].product.id == p.id;
      assert HasLine(before, p.id);
      var after := AddToCart(before, p);
      assert AddRepeatedly(cart, p, n) == after;
      var expected := cart + [NewLine(p).(quantity := n)];
      assert |after| == |expected|;
      forall i | 0 <= i < |after|
        ensures after[i] == expected[i]
      {
        if i < |cart| {
          assert before[i] == cart[i] && cart[i].product.id != p.id;
        }
      }
    }
  }

  /** From an empty cart, `n >= 1` adds of one product give a single line of `n` units. */
  lemma AddRepeatedlyFromEmpty(p: Product, n: nat)
    requires n >= 1
    ensures AddRepeatedly([], p, n) == [NewLine(p).(quantity := n)]
  {
    AddRepeatedlyFresh([], p, n);
  }

  /** The minus button sends `quantity - 1`; on a line holding one unit that
      removes the line. */
  lemma MinusOnLastUnitRemoves(cart: seq<CartItem>, i: int)
    requires 0 <= i < |cart| && cart[i].quantity == 1
    ensures UpdateQuantity(cart, cart[i].product.id, cart[i].quantity - 1) == RemoveFromCart(cart, cart[i].product.id)
    ensures !HasLine(UpdateQuantity(cart, cart[i].product.id, cart[i].quantity - 1), cart[i].product.id)
  {
  }

  // ---------------------------------------------------------------------------
  // Pricing

  /** One line's total net of its own discount. */
  function LineNet(item: CartItem): (r: real)
    ensures r == item.quantity as real * item.prix * (1.0 - item.remise / 100.0)
  {
    var itemTotal := item.quantity as real * item.prix;
    var itemRemise := itemTotal * (item.remise / 100.0);
    itemTotal - itemRemise
  }

  /** `calculateSubtotal`: `cart.reduce((sum, item) => sum + net(item), 0)`, a left fold. */
  function Subtotal(cart: seq<CartItem>): (r: real)
    ensures cart == [] ==> r == 0.0
    ensures (forall i :: 0 <= i < |cart| ==> LineNet(cart[i]) >= 0.0) ==> r >= 0.0
  {
    if cart == [] then 0.0 else Subtotal(cart[..|cart| - 1]) + LineNet(cart[|cart| - 1])
  }

  /** The same sum read from the first line on: the first line's net plus the
      subtotal of the rest. */
  ghost function SubtotalFromFront(cart: seq<CartItem>): real
  {
    if cart == [] then 0.0 else LineNet(cart[0]) + SubtotalFromFront(cart[1..])
  }

  /** `calculateTotal`: the global discount on the subtotal, then TVA on the result. */
  function Total(cart: seq<CartItem>, remiseGlobale: real, tva: real): (r: real)
    ensures r == Subtotal(cart) * (1.0 - remiseGlobale / 100.0) * (1.0 + tva / 100.0)
  {
    var subtotal := Subtotal(cart);
    var remise := subtotal * (remiseGlobale / 100.0);
    var subtotalAfterRemise := subtotal - remise;
    var tvaAmount := subtotalAfterRemise * (tva / 100.0);
    subtotalAfterRemise + tvaAmount
  }

  /** The subtotal of two carts laid end to end is the sum of their subtotals. */
  lemma {:induction false} SubtotalAppend(a: seq<CartItem>, b: seq<CartItem>)
    ensures Subtotal(a + b) == Subtotal(a) + Subtotal(b)
    decreases |b|
  {
    if b == [] {
      assert a + b == a;
    } else {
      assert (a + b)[..|a + b| - 1] == a + b[..|b| - 1];
      SubtotalAppend(a, b[..|b| - 1]);
    }
  }

  /** The left fold that `reduce` computes agrees with the sum read from the
      first line on. */
  lemma {:induction false} SubtotalFolds(cart: seq<CartItem>)
    ensures Subtotal(cart) == SubtotalFromFront(cart)
    decreases |cart|
  {
    if cart != [] {
      SubtotalFolds(cart[1..]);
      assert cart == [cart[0]] + cart[1..];
      SubtotalAppend([cart[0]], cart[1..]);
      assert [cart[0]][..0] == [];
    }
  }

  /** The subtotal does not depend on the order of the lines. */
  lemma {:induction false} SubtotalPermutation(a: seq<CartItem>, b: seq<CartItem>)
    requires multiset(a) == multiset(b)
    ensures Subtotal(a) == Subtotal(b)
    decreases |a|
  {
    if a == [] {
      assert |b| == |multiset(b)| == 0;
    } else {
      var x := a[|a| - 1];
      var rest := a[..|a| - 1];
      assert a == rest + [x];
      assert x in multiset(b);
      var i :| 0 <= i < |b| && b[i] == x;
      assert b == b[..i] + [x] + b[i + 1..];
      var others := b[..i] + b[i + 1..];
      assert multiset(a) == multiset(rest) + multiset{x};
      assert multiset(b) == multiset(b[..i]) + multiset{x} + multiset(b[i + 1..]);
      assert multiset(others) == multiset(b[..i]) + multiset(b[i + 1..]);
      assert multiset(rest) == multiset(a) - multiset{x};
      assert multiset(others) == multiset(b) - multiset{x};
      SubtotalPermutation(rest, others);
      SubtotalAppend(b[..i] + [x], b[i + 1..]);
      SubtotalAppend(b[..i], [x]);
      SubtotalAppend(b[..i], b[i + 1..]);
      assert Subtotal([x]) == LineNet(x) by {
        assert [x][..0] == [];
      }
    }
  }

  /** In a cart without duplicates no line occurs twice. */
  lemma UniqueMultiplicity(cart: seq<CartItem>, x: CartItem)
    requires UniqueIds(cart)
    ensures multiset(cart)[x] == if x in cart then 1 else 0
    decreases |cart|
  {
    if cart != [] {
      assert cart == [cart[0]] + cart[1..];
      UniqueMultiplicity(cart[1..], x);
      if x == cart[0] {
        assert x !in cart[1..] by {
          forall j | 0 <= j < |cart[1..]|
            ensures cart[1..][j] != x
          {
            assert cart[1..][j] == cart[j + 1];
          }
        }
      }
    }
  }

  /** Two duplicate-free carts standing for the same map have the same subtotal,
      however the sequence of operations that built them ordered the lines. */
  lemma SubtotalDependsOnlyOnLines(a: seq<CartItem>, b: seq<CartItem>)
    requires UniqueIds(a) && UniqueIds(b) && Lines(a) == Lines(b)
    ensures Subtotal(a) == Subtotal(b)
  {
    forall x: CartItem
      ensures multiset(a)[x] == multiset(b)[x]
    {
      UniqueMultiplicity(a, x);
      UniqueMultiplicity(b, x);
      LinesKeys(a, x.product.id);
      LinesKeys(b, x.product.id);
      if x in a {
        var i :| 0 <= i < |a| && a[i] == x;
        LinesAt(a, i);
        var j :| 0 <= j < |b| && b[j].product.id == x.product.id;
        LinesAt(b, j);
      }
      if x in b {
        var j :| 0 <= j < |b| && b[j] == x;
        LinesAt(b, j);
        var i :| 0 <= i < |a| && a[i].product.id == x.product.id;
        LinesAt(a, i);
      }
    }
    assert multiset(a) == multiset(b);
    SubtotalPermutation(a, b);
  }

  /** With no global discount and no TVA the total is the subtotal; an empty cart
      costs nothing. */
  lemma TotalNeutral(cart: seq<CartItem>, remiseGlobale: real, tva: real)
    ensures Total(cart, 0.0, 0.0) == Subtotal(cart)
    ensures Total([], remiseGlobale, tva) == 0.0
  {
  }

  /** Two units at 100 with 10% off plus one unit at 50 make 230; 10% global
      discount then 20% TVA make 248.4. */
  lemma WorkedExample(p: Product, q: Product)
    requires p.id != q.id
    ensures Subtotal([CartItem(p, 2, 100.0, 10.0), CartItem(q, 1, 50.0, 0.0)]) == 230.0
    ensures Total([CartItem(p, 2, 100.0, 10.0), CartItem(q, 1, 50.0, 0.0)], 10.0, 20.0) == 248.4
  {
    var first, second := CartItem(p, 2, 100.0, 10.0), CartItem(q, 1, 50.0, 0.0);
    var cart := [first, second];
    assert LineNet(first) == 180.0;
    assert LineNet(second) == 50.0;
    assert [first][..0] == [];
    assert Subtotal([first]) == 180.0;
    assert cart[..1] == [first];
    assert Subtotal(cart) == 230.0;
  }
}
