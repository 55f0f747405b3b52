/**
 * The browser cart store: a list of lines keyed by product id that every
 * operation replaces wholesale with a new list.
 */
module Cart {
  import opened Wrappers
  import opened Domain

  /** What `addToCart` receives: a product, possibly carrying a chosen `quantity`. */
  datatype CartProduct = CartProduct(id: ProductId, title: string, price: int, shippingCost: int, quantity: Option<int>)

  /** The invariant every operation keeps: no two lines share a product id. */
  predicate NoDupIds(cart: seq<CartLine>) {
    forall i, j :: 0 <= i < j < |cart| ==> cart[i].id != cart[j].id
  }

  /** `product.quantity || 1`: a missing or zero quantity counts as one unit. */
  function QuantityOrOne(q: Option<int>): int {
    if q.None? || q.value == 0 then 1 else q.value
  }

  /** The line `addToCart` appends for a product not yet in the cart. */
  function NewLine(p: CartProduct): CartLine {
    CartLine(p.id, p.title, p.price, p.shippingCost, QuantityOrOne(p.quantity))
  }

  /** Position of the first line with this id, or -1. */
  function FirstIndex(cart: seq<CartLine>, id: ProductId): (k: int)
    ensures -1 <= k < |cart|
    ensures 0 <= k ==> cart[k].id == id
    ensures forall j :: 0 <= j < |cart| && (k < 0 || j < k) ==> cart[j].id != id
  {
    if cart == [] then -1
    else if cart[0].id == id then 0
    else
      var k := FirstIndex(cart[1..], id);
      if k < 0 then -1 else k + 1
  }

  /** `cart.find(item => item.id === id)`. */
  function Find(cart: seq<CartLine>, id: ProductId): (r: Option<CartLine>)
    ensures r.Some? ==> r.value in cart && r.value.id == id
    ensures r.None? <==> forall j :: 0 <= j < |cart| ==> cart[j].id != id
  {
    var k := FirstIndex(cart, id);
    if k < 0 then None else Some(cart[k])
  }

  /** Quantity of the line for `id`, or 0 when there is none. */
  function QuantityOf(cart: seq<CartLine>, id: ProductId): int {
    match Find(cart, id)
    case Some(line) => line.quantity
    case None => 0
  }

  /** `prev.map(...)` that adds `delta` to the quantity of every line with this id. */
  function IncreaseQuantity(cart: seq<CartLine>, id: ProductId, delta: int): seq<CartLine> {
    seq(|cart|, i requires 0 <= i < |cart| =>
      if cart[i].id == id then cart[i].(quantity := cart[i].quantity + delta) else cart[i])
  }

  /** `prev.map(...)` that sets the quantity of every line with this id. */
  function AssignQuantity(cart: seq<CartLine>, id: ProductId, q: int): seq<CartLine> {
    seq(|cart|, i requires 0 <= i < |cart| =>
      if cart[i].id == id then cart[i].(quantity := q) else cart[i])
  }

  /** Two carts whose ids agree position by position find a given id at the same position. */
  lemma SameIdsSameIndex(a: seq<CartLine>, b: seq<CartLine>, x: ProductId)
    requires |a| == |b|
    requires forall i :: 0 <= i < |a| ==> a[i].id == b[i].id
    ensures FirstIndex(a, x) == FirstIndex(b, x)
  {
    var ka, kb := FirstIndex(a, x), FirstIndex(b, x);
    if ka >= 0 { assert b[ka].id == x; }
    if kb >= 0 { assert a[kb].id == x; }
  }

  /** `addToCart`: bump the existing line's quantity, or append a new line. */
  function AddToCart(cart: seq<CartLine>, p: CartProduct): (r: seq<CartLine>)
    ensures Find(cart, p.id).Some? ==> |r| == |cart|
    ensures Find(cart, p.id).Some? ==>
      forall i :: 0 <= i < |cart| ==>
        && r[i].id == cart[i].id
        && (cart[i].id != p.id ==> r[i] == cart[i])
        && (cart[i].id == p.id ==> r[i] == cart[i].(quantity := cart[i].quantity + QuantityOrOne(p.quantity)))
    ensures Find(cart, p.id).None? ==> r == cart + [NewLine(p)]
    ensures Find(r, p.id) ==
      match Find(cart, p.id)
      case Some(line) => Some(line.(quantity := line.quantity + QuantityOrOne(p.quantity)))
      case None => Some(NewLine(p))
    ensures forall x :: x != p.id ==> Find(r, x) == Find(cart, x)
    ensures NoDupIds(cart) ==> NoDupIds(r)
  {
    if Find(cart, p.id).Some? then
      var r := IncreaseQuantity(cart, p.id, QuantityOrOne(p.quantity));
      IncreaseKeepsIds(cart, p.id, QuantityOrOne(p.quantity));
      var k := FirstIndex(cart, p.id);
      assert Find(r, p.id) == Some(r[k]) && Find(cart, p.id) == Some(cart[k]);
      r
    else
      FirstIndexOfAppend(cart, NewLine(p));
      cart + [NewLine(p)]
  }

  /** Raising quantities keeps every id in its place, so `find` sees each id where it was. */
  lemma IncreaseKeepsIds(cart: seq<CartLine>, id: ProductId, delta: int)
    ensures forall i :: 0 <= i < |cart| ==> IncreaseQuantity(cart, id, delta)[i].id == cart[i].id
    ensures forall x :: FirstIndex(IncreaseQuantity(cart, id, delta), x) == FirstIndex(cart, x)
    ensures NoDupIds(cart) ==> NoDupIds(IncreaseQuantity(cart, id, delta))
  {
    var r := IncreaseQuantity(cart, id, delta);
    forall x ensures FirstIndex(r, x) == FirstIndex(cart, x) {
      SameIdsSameIndex(r, cart, x);
    }
  }

  /** Appending a line whose id is new: it is found last, and every other id where it was. */
  lemma FirstIndexOfAppend(cart: seq<CartLine>, line: CartLine)
    requires FirstIndex(cart, line.id) < 0
    ensures FirstIndex(cart + [line], line.id) == |cart|
    ensures forall x :: x != line.id ==> FirstIndex(cart + [line], x) == FirstIndex(cart, x)
    ensures NoDupIds(cart) ==> NoDupIds(cart + [line])
  {
    var r := cart + [line];
    forall x | x != line.id ensures FirstIndex(r, x) == FirstIndex(cart, x) {
      var k := FirstIndex(cart, x);
      if k < 0 { assert forall j :: 0 <= j < |r| ==> r[j].id != x; }
      else { assert r[k].id == x; }
    }
    assert r[|cart|].id == line.id;
    forall j | 0 <= j < |cart| ensures r[j].id != line.id { assert r[j] == cart[j]; }
  }

  /** `removeFromCart`: `prev.filter(item => item.id !== id)`. */
  function RemoveFromCart(cart: seq<CartLine>, id: ProductId): (r: seq<CartLine>)
    ensures |r| <= |cart|
  {
    if cart == [] then []
    else if cart[0].id == id then RemoveFromCart(cart[1..], id)
    else [cart[0]] + RemoveFromCart(cart[1..], id)
  }

  /** The filter keeps exactly the lines whose id differs. */
  lemma {:induction false} RemoveFromCartMembers(cart: seq<CartLine>, id: ProductId)
    ensures forall line :: line in RemoveFromCart(cart, id) <==> line in cart && line.id != id
  {
    if cart != [] {
      RemoveFromCartMembers(cart[1..], id);
      assert forall line :: line in cart <==> line == cart[0] || line in cart[1..];
    }
  }

  /** `updateQuantity`: a quantity below one removes the line, anything else replaces it. */
  function UpdateQuantity(cart: seq<CartLine>, id: ProductId, q: int): seq<CartLine> {
    if q < 1 then RemoveFromCart(cart, id) else AssignQuantity(cart, id, q)
  }

  /** `clearCart`. */
  function ClearCart(): (r: seq<CartLine>)
    ensures forall x :: Find(r, x).None?
  {
    []
  }

  /** `totalItems`: the sum of the line quantities. */
  function TotalItems(cart: seq<CartLine>): int {
    if cart == [] then 0 else cart[0].quantity + TotalItems(cart[1..])
  }

  /** `totalPrice`: the sum of price times quantity over the lines. */
  function TotalPrice(cart: seq<CartLine>): int {
    if cart == [] then 0 else cart[0].price * cart[0].quantity + TotalPrice(cart[1..])
  }

  lemma {:induction false} TotalsOfConcat(a: seq<CartLine>, b: seq<CartLine>)
    ensures TotalItems(a + b) == TotalItems(a) + TotalItems(b)
    ensures TotalPrice(a + b) == TotalPrice(a) + TotalPrice(b)
  {
    if a == [] {
      assert a + b == b;
    } else {
      assert (a + b)[1..] == a[1..] + b;
      TotalsOfConcat(a[1..], b);
    }
  }

  /** The tail of a cart with unique ids has unique ids and none equal to the head's. */
  lemma TailOfUnique(cart: seq<CartLine>)
    requires NoDupIds(cart) && cart != []
    ensures NoDupIds(cart[1..])
    ensures forall j :: 1 <= j < |cart| ==> cart[j].id != cart[0].id
  {
  }

  lemma {:induction false} RemoveAbsent(cart: seq<CartLine>, id: ProductId)
    requires forall j :: 0 <= j < |cart| ==> cart[j].id != id
    ensures RemoveFromCart(cart, id) == cart
  {
    if cart != [] {
      RemoveAbsent(cart[1..], id);
      assert [cart[0]] + cart[1..] == cart;
    }
  }

  /** The filter keeps every line before the first match, drops that line and goes on after it. */
  lemma {:induction false} RemoveUpToFirst(cart: seq<CartLine>, id: ProductId)
    requires 0 <= FirstIndex(cart, id)
    ensures var k := FirstIndex(cart, id);
      RemoveFromCart(cart, id) == cart[..k] + RemoveFromCart(cart[k + 1..], id)
  {
    var k := FirstIndex(cart, id);
    if k == 0 {
      assert cart[..0] == [];
    } else {
      var rest := cart[1..];
      assert cart[0].id != id && FirstIndex(rest, id) == k - 1;
      assert RemoveFromCart(cart, id) == [cart[0]] + RemoveFromCart(rest, id);
      RemoveUpToFirst(rest, id);
      assert rest[k..] == cart[k + 1..];
      assert cart[..k] == [cart[0]] + rest[..k - 1];
    }
  }

  /** With unique ids, removing an id cuts out exactly the line at its position and keeps the rest in order. */
  lemma RemoveCutsOutLine(cart: seq<CartLine>, id: ProductId)
    requires NoDupIds(cart)
    ensures FirstIndex(cart, id) < 0 ==> RemoveFromCart(cart, id) == cart
    ensures 0 <= FirstIndex(cart, id) ==>
      var k := FirstIndex(cart, id);
      RemoveFromCart(cart, id) == cart[..k] + cart[k + 1..]
  {
    var k := FirstIndex(cart, id);
    if k < 0 {
      RemoveAbsent(cart, id);
    } else {
      RemoveUpToFirst(cart, id);
      var after := cart[k + 1..];
      forall j | 0 <= j < |after| ensures after[j].id != id {
        assert after[j] == cart[k + 1 + j];
      }
      RemoveAbsent(after, id);
    }
  }

  /** Cutting one line out of a cart with unique ids leaves unique ids. */
  lemma CutKeepsUnique(cart: seq<CartLine>, k: int)
    requires NoDupIds(cart) && 0 <= k < |cart|
    ensures NoDupIds(cart[..k] + cart[k + 1..])
  {
    var r := cart[..k] + cart[k + 1..];
    forall i, j | 0 <= i < j < |r| ensures r[i].id != r[j].id {
      var i' := if i < k then i else i + 1;
      var j' := if j < k then j else j + 1;
      assert r[i] == cart[i'] && r[j] == cart[j'];
    }
  }

  /** Removing an id keeps the ids unique. */
  lemma RemoveKeepsUnique(cart: seq<CartLine>, id: ProductId)
    requires NoDupIds(cart)
    ensures NoDupIds(RemoveFromCart(cart, id))
  {
    RemoveCutsOutLine(cart, id);
    var k := FirstIndex(cart, id);
    if k >= 0 {
      CutKeepsUnique(cart, k);
    }
  }

  /** Replacing one line changes the totals by the difference between the two lines. */
  lemma {:induction false} TotalsOfReplace(cart: seq<CartLine>, k: int, line: CartLine)
    requires 0 <= k < |cart|
    ensures TotalItems(cart[k := line]) == TotalItems(cart) - cart[k].quantity + line.quantity
    ensures TotalPrice(cart[k := line]) ==
      TotalPrice(cart) - cart[k].price * cart[k].quantity + line.price * line.quantity
  {
    if k > 0 {
      TotalsOfReplace(cart[1..], k - 1, line);
      assert cart[k := line][1..] == cart[1..][k - 1 := line];
    } else {
      assert cart[k := line][1..] == cart[1..];
    }
  }

  /** With unique ids, adding a product already in the cart replaces its one line. */
  lemma AddExistingReplacesLine(cart: seq<CartLine>, p: CartProduct, k: int)
    requires NoDupIds(cart)
    requires 0 <= k < |cart| && cart[k].id == p.id
    ensures AddToCart(cart, p) == cart[k := cart[k].(quantity := cart[k].quantity + QuantityOrOne(p.quantity))]
  {
    var r := AddToCart(cart, p);
    assert Find(cart, p.id).Some?;
    var line := cart[k].(quantity := cart[k].quantity + QuantityOrOne(p.quantity));
    forall j | 0 <= j < |cart| ensures r[j] == cart[k := line][j] {
      if j < k { assert cart[j].id != cart[k].id; }
      else if j > k { assert cart[k].id != cart[j].id; }
    }
  }

  /** Adding a product to a cart with unique ids adds exactly its quantity to the item count. */
  lemma {:induction false} AddToCartTotals(cart: seq<CartLine>, p: CartProduct)
    requires NoDupIds(cart)
    ensures TotalItems(AddToCart(cart, p)) == TotalItems(cart) + QuantityOrOne(p.quantity)
    ensures TotalPrice(AddToCart(cart, p)) ==
      TotalPrice(cart) + (match Find(cart, p.id)
                          case Some(line) => line.price
                          case None => p.price) * QuantityOrOne(p.quantity)
  {
    var q := QuantityOrOne(p.quantity);
    var k := FirstIndex(cart, p.id);
    if k < 0 {
      assert AddToCart(cart, p) == cart + [NewLine(p)];
      TotalsOfConcat(cart, [NewLine(p)]);
    } else {
      assert Find(cart, p.id) == Some(cart[k]);
      AddExistingReplacesLine(cart, p, k);
      TotalsOfReplace(cart, k, cart[k].(quantity := cart[k].quantity + q));
    }
  }

  /** Removing an id from a cart with unique ids takes exactly that line's quantity off the item count. */
  lemma {:induction false} RemoveFromCartTotals(cart: seq<CartLine>, id: ProductId)
    requires NoDupIds(cart)
    ensures TotalItems(RemoveFromCart(cart, id)) == TotalItems(cart) - QuantityOf(cart, id)
  {
    RemoveCutsOutLine(cart, id);
    var k := FirstIndex(cart, id);
    if k >= 0 {
      var rest := cart[..k] + cart[k + 1..];
      assert RemoveFromCart(cart, id) == rest;
      TotalsOfCut(cart, k);
      assert TotalItems(rest) == TotalItems(cart) - cart[k].quantity;
    }
  }

  /** Cutting out one line takes its quantity off the item total. */
  lemma TotalsOfCut(cart: seq<CartLine>, k: int)
    requires 0 <= k < |cart|
    ensures TotalItems(cart[..k] + cart[k + 1..]) == TotalItems(cart) - cart[k].quantity
  {
    var a, b := cart[..k], cart[k + 1..];
    assert cart == a + ([cart[k]] + b);
    TotalsOfConcat(a, [cart[k]] + b);
    assert ([cart[k]] + b)[1..] == b;
    TotalsOfConcat(a, b);
  }

  /** Removing an id leaves the lines of every other id where `find` sees them. */
  lemma {:induction false} RemoveKeepsOthers(cart: seq<CartLine>, id: ProductId, x: ProductId)
    requires x != id
    ensures Find(RemoveFromCart(cart, id), x) == Find(cart, x)
  {
    if cart != [] {
      RemoveKeepsOthers(cart[1..], id, x);
      var rr := RemoveFromCart(cart[1..], id);
      if cart[0].id != id {
        assert ([cart[0]] + rr)[1..] == rr;
      }
    }
  }

  /** `updateQuantity` below one is removal; otherwise only that line's quantity changes and ids stay unique. */
  lemma UpdateQuantityEffect(cart: seq<CartLine>, id: ProductId, q: int)
    requires NoDupIds(cart)
    ensures q < 1 ==> UpdateQuantity(cart, id, q) == RemoveFromCart(cart, id)
    ensures NoDupIds(UpdateQuantity(cart, id, q))
    ensures 1 <= q ==> |UpdateQuantity(cart, id, q)| == |cart|
    ensures 1 <= q ==>
      forall i :: 0 <= i < |cart| ==>
        && UpdateQuantity(cart, id, q)[i].id == cart[i].id
        && (cart[i].id != id ==> UpdateQuantity(cart, id, q)[i] == cart[i])
        && (cart[i].id == id ==> UpdateQuantity(cart, id, q)[i] == cart[i].(quantity := q))
    ensures 1 <= q ==>
      Find(UpdateQuantity(cart, id, q), id) ==
        (match Find(cart, id)
         case Some(line) => Some(line.(quantity := q))
         case None => None)
    ensures forall x :: x != id ==> Find(UpdateQuantity(cart, id, q), x) == Find(cart, x)
  {
    var r := UpdateQuantity(cart, id, q);
    if q < 1 {
      RemoveKeepsUnique(cart, id);
      forall x | x != id ensures Find(r, x) == Find(cart, x) { RemoveKeepsOthers(cart, id, x); }
    } else {
      forall x ensures FirstIndex(r, x) == FirstIndex(cart, x) { SameIdsSameIndex(r, cart, x); }
    }
  }
}
