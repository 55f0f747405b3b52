/**
 * The checkout transaction (`POST /api/orders`): every cart line is re-read
 * from the products table and checked; the first failing line aborts the
 * whole order.  When every line passes, the order and its items are inserted
 * with the stored price, and each product's stock is decremented and the
 * product marked sold once its stock reaches zero or below.
 */
module Orders {
  import opened Wrappers
  import opened Domain
  import Cart
  import Tables

  /** The price check's tolerance, `> 0.1` rupee, in paise. */
  const PriceTolerance: int := 10

  datatype CheckoutError =
    | Unauthorized
    | EmptyCart
    | MissingAddress
    | ProductNotFound(title: string)
    | AlreadySold(title: string)
    | InsufficientStock(title: string, available: int)
    | PriceMismatch(title: string, expected: int, got: int)
    | AuctionNotEnded(title: string)
    | NotAuctionWinner(title: string)
    | InvalidQuantity(title: string)

  /** An entry of `validatedItems`, with the shipping cost read from the same row. */
  datatype ValidatedItem = ValidatedItem(productId: ProductId, price: int, quantity: int, title: string, shippingCost: int)

  function Abs(x: int): int {
    if x < 0 then -x else x
  }

  predicate IsValidBidFor(b: Bid, pid: ProductId) {
    b.productId == pid && b.status == ValidBid
  }

  /**
   * `SELECT user_id FROM bids WHERE product_id = ? AND status = 'valid'
   *  ORDER BY amount DESC LIMIT 1`.  SQL leaves the order of equal amounts
   * open; this model settles it on the earliest such bid.
   */
  function TopValidBid(bids: seq<Bid>, pid: ProductId): (r: Option<Bid>)
    ensures r.None? <==> forall i :: 0 <= i < |bids| ==> !IsValidBidFor(bids[i], pid)
    ensures r.Some? ==> r.value in bids && IsValidBidFor(r.value, pid)
    ensures r.Some? ==>
      forall i :: 0 <= i < |bids| && IsValidBidFor(bids[i], pid) ==> bids[i].amount <= r.value.amount
  {
    if bids == [] then None
    else
      var rest := TopValidBid(bids[1..], pid);
      assert forall i :: 1 <= i < |bids| ==> bids[i] == bids[1..][i - 1];
      if !IsValidBidFor(bids[0], pid) then rest
      else if rest.Some? && rest.value.amount > bids[0].amount then rest
      else Some(bids[0])
  }

  /** `winner && winner.user_id === Number(session.user.id)`. */
  predicate IsAuctionWinner(bids: seq<Bid>, pid: ProductId, caller: UserId) {
    var top := TopValidBid(bids, pid);
    top.Some? && top.value.userId == caller
  }

  /** The checks of the validation loop for one line, in the order the route applies them. */
  function ValidateLine(products: map<ProductId, Product>, bids: seq<Bid>, caller: UserId, now: int, item: CartLine)
    : Result<ValidatedItem, CheckoutError>
  {
    if item.id !in products then Failure(ProductNotFound(item.title))
    else
      var p := products[item.id];
      if p.status == Sold && p.stock <= 0 then Failure(AlreadySold(p.title))
      else if p.stock < item.quantity then Failure(InsufficientStock(p.title, p.stock))
      else if Abs(p.price - item.price) > PriceTolerance then Failure(PriceMismatch(p.title, p.price, item.price))
      else if p.isAuction == Auction && EndMillis(p.auctionEnd) > now then Failure(AuctionNotEnded(p.title))
      else if p.isAuction == Auction && !IsAuctionWinner(bids, item.id, caller) then Failure(NotAuctionWinner(p.title))
      else Success(ValidatedItem(item.id, p.price, item.quantity, p.title, p.shippingCost))
  }

  /**
   * The validation loop: every line is read against the products as they were
   * when the transaction began (nothing is written until every line passed).
   */
  function ValidateCart(products: map<ProductId, Product>, bids: seq<Bid>, caller: UserId, now: int, items: seq<CartLine>)
    : (r: Result<seq<ValidatedItem>, CheckoutError>)
    ensures r.Success? ==> |r.value| == |items|
    decreases |items|
  {
    if items == [] then Success([])
    else
      var n := |items| - 1;
      match ValidateCart(products, bids, caller, now, items[..n])
      case Failure(e) => Failure(e)
      case Success(vs) =>
        match ValidateLine(products, bids, caller, now, items[n])
        case Failure(e) => Failure(e)
        case Success(v) => Success(vs + [v])
  }

  /**
   * The cart passes exactly when every line passes, and then yields each
   * line's result in order; otherwise its error is that of the first line
   * that fails.
   */
  lemma {:induction false} ValidateCartMeaning(products: map<ProductId, Product>, bids: seq<Bid>, caller: UserId,
                                               now: int, items: seq<CartLine>)
    ensures var r := ValidateCart(products, bids, caller, now, items);
      && (r.Success? <==> forall i :: 0 <= i < |items| ==> ValidateLine(products, bids, caller, now, items[i]).Success?)
      && (r.Success? ==>
            forall i :: 0 <= i < |items| ==> r.value[i] == ValidateLine(products, bids, caller, now, items[i]).value)
      && (r.Failure? ==>
            exists k :: 0 <= k < |items| &&
              ValidateLine(products, bids, caller, now, items[k]) == Failure(r.error) &&
              forall i :: 0 <= i < k ==> ValidateLine(products, bids, caller, now, items[i]).Success?)
    decreases |items|
  {
    if items != [] {
      var n := |items| - 1;
      var prefix := items[..n];
      ValidateCartMeaning(products, bids, caller, now, prefix);
      assert forall i :: 0 <= i < n ==> items[i] == prefix[i];
    }
  }

  /** Once a prefix passed and the next line fails, that line's error is the order's error. */
  lemma {:induction false} FirstFailureWins(products: map<ProductId, Product>, bids: seq<Bid>, caller: UserId, now: int,
                                            items: seq<CartLine>, k: int)
    requires 0 <= k < |items|
    requires ValidateCart(products, bids, caller, now, items[..k]).Success?
    requires ValidateLine(products, bids, caller, now, items[k]).Failure?
    ensures ValidateCart(products, bids, caller, now, items) == Failure(ValidateLine(products, bids, caller, now, items[k]).error)
    decreases |items|
  {
    var n := |items| - 1;
    if k < n {
      var prefix := items[..n];
      assert prefix[..k] == items[..k] && prefix[k] == items[k];
      FirstFailureWins(products, bids, caller, now, prefix, k);
    }
  }

  /** One more passing line extends a passing prefix by that line's result. */
  lemma ValidateCartStep(products: map<ProductId, Product>, bids: seq<Bid>, caller: UserId, now: int,
                         items: seq<CartLine>, i: int)
    requires 0 <= i < |items|
    requires ValidateCart(products, bids, caller, now, items[..i]).Success?
    requires ValidateLine(products, bids, caller, now, items[i]).Success?
    ensures ValidateCart(products, bids, caller, now, items[..i + 1]) ==
      Success(ValidateCart(products, bids, caller, now, items[..i]).value + [ValidateLine(products, bids, caller, now, items[i]).value])
  {
    assert items[..i + 1][..i] == items[..i];
  }

  /** `(product.price * item.quantity) + (product.shipping_cost || 0)`. */
  function LineCharge(v: ValidatedItem): int {
    v.price * v.quantity + v.shippingCost
  }

  /** `totalAmount` as the loop accumulates it. */
  function OrderTotal(vs: seq<ValidatedItem>): int {
    if vs == [] then 0 else OrderTotal(vs[..|vs| - 1]) + LineCharge(vs[|vs| - 1])
  }

  /** The total over one more line adds that line's charge. */
  lemma OrderTotalStep(vs: seq<ValidatedItem>, v: ValidatedItem)
    ensures OrderTotal(vs + [v]) == OrderTotal(vs) + LineCharge(v)
  {
    assert (vs + [v])[..|vs|] == vs;
  }

  /** Sum of unit price times quantity. */
  function Subtotal(vs: seq<ValidatedItem>): int {
    if vs == [] then 0 else vs[0].price * vs[0].quantity + Subtotal(vs[1..])
  }

  /** Sum of shipping costs, one per line whatever its quantity. */
  function ShippingSum(vs: seq<ValidatedItem>): int {
    if vs == [] then 0 else vs[0].shippingCost + ShippingSum(vs[1..])
  }

  lemma {:induction false} SubtotalAndShippingOfConcat(a: seq<ValidatedItem>, b: seq<ValidatedItem>)
    ensures Subtotal(a + b) == Subtotal(a) + Subtotal(b)
    ensures ShippingSum(a + b) == ShippingSum(a) + ShippingSum(b)
  {
    if a == [] {
      assert a + b == b;
    } else {
      assert (a + b)[1..] == a[1..] + b;
      SubtotalAndShippingOfConcat(a[1..], b);
    }
  }

  /** The order total is the goods subtotal plus one shipping charge per line. */
  lemma {:induction false} OrderTotalSplits(vs: seq<ValidatedItem>)
    ensures OrderTotal(vs) == Subtotal(vs) + ShippingSum(vs)
    decreases |vs|
  {
    if vs != [] {
      var n := |vs| - 1;
      OrderTotalSplits(vs[..n]);
      SubtotalAndShippingOfConcat(vs[..n], [vs[n]]);
      assert vs[..n] + [vs[n]] == vs;
    }
  }

  /** `UPDATE products SET stock = stock - ? WHERE id = ?`. */
  function DecrementStock(products: map<ProductId, Product>, pid: ProductId, qty: int): map<ProductId, Product> {
    if pid in products then products[pid := products[pid].(stock := products[pid].stock - qty)] else products
  }

  /** `UPDATE products SET status = 'sold' WHERE id = ? AND stock <= 0`. */
  function MarkSold(products: map<ProductId, Product>, pid: ProductId): map<ProductId, Product> {
    if pid in products && products[pid].stock <= 0 then products[pid := products[pid].(status := Sold)] else products
  }

  /** The two updates the commit loop runs for one validated line. */
  function CommitLine(products: map<ProductId, Product>, v: ValidatedItem): map<ProductId, Product> {
    MarkSold(DecrementStock(products, v.productId, v.quantity), v.productId)
  }

  /** The products table after the commit loop has run over `vs` in order. */
  function ApplyStock(products: map<ProductId, Product>, vs: seq<ValidatedItem>): (r: map<ProductId, Product>)
    ensures r.Keys == products.Keys
  {
    if vs == [] then products else CommitLine(ApplyStock(products, vs[..|vs| - 1]), vs[|vs| - 1])
  }

  /** Total quantity the lines `vs` take of product `pid`. */
  function QuantityFor(vs: seq<ValidatedItem>, pid: ProductId): int {
    if vs == [] then 0
    else QuantityFor(vs[..|vs| - 1], pid) + (if vs[|vs| - 1].productId == pid then vs[|vs| - 1].quantity else 0)
  }

  predicate Touches(vs: seq<ValidatedItem>, pid: ProductId) {
    exists i :: 0 <= i < |vs| && vs[i].productId == pid
  }

  /**
   * After the commit loop a product's stock is its old stock minus everything
   * the lines took of it; its other fields are untouched; an untouched product
   * keeps its status, and a touched one ending at or below zero is 'sold'.
   */
  lemma {:induction false} ApplyStockAt(products: map<ProductId, Product>, vs: seq<ValidatedItem>, pid: ProductId)
    requires pid in products
    ensures var p, q := products[pid], ApplyStock(products, vs)[pid];
      && q == p.(stock := p.stock - QuantityFor(vs, pid), status := q.status)
      && (!Touches(vs, pid) ==> q.status == p.status)
      && (Touches(vs, pid) && q.stock <= 0 ==> q.status == Sold)
    decreases |vs|
  {
    if vs != [] {
      var n := |vs| - 1;
      ApplyStockAt(products, vs[..n], pid);
      assert Touches(vs, pid) <==> Touches(vs[..n], pid) || vs[n].productId == pid by {
        if Touches(vs, pid) {
          var i :| 0 <= i < |vs| && vs[i].productId == pid;
          if i < n { assert vs[..n][i] == vs[i]; }
        }
        if Touches(vs[..n], pid) {
          var i :| 0 <= i < n && vs[..n][i].productId == pid;
          assert vs[i] == vs[..n][i];
        }
      }
    }
  }

  /** The commit loop changes only stock and status, so every row keeps its id. */
  lemma ApplyStockKeepsIds(products: map<ProductId, Product>, vs: seq<ValidatedItem>)
    ensures forall pid :: pid in products ==> ApplyStock(products, vs)[pid].id == products[pid].id
  {
    forall pid | pid in products ensures ApplyStock(products, vs)[pid].id == products[pid].id {
      ApplyStockAt(products, vs, pid);
    }
  }

  predicate UniqueProducts(vs: seq<ValidatedItem>) {
    forall i, j :: 0 <= i < j < |vs| ==> vs[i].productId != vs[j].productId
  }

  /** With one line per product, a product takes exactly its own line's quantity. */
  lemma {:induction false} QuantityForUnique(vs: seq<ValidatedItem>, k: int)
    requires UniqueProducts(vs) && 0 <= k < |vs|
    ensures QuantityFor(vs, vs[k].productId) == vs[k].quantity
    decreases |vs|
  {
    var n := |vs| - 1;
    if k < n {
      QuantityForUnique(vs[..n], k);
    } else {
      QuantityForAbsent(vs[..n], vs[k].productId);
    }
  }

  lemma {:induction false} QuantityForAbsent(vs: seq<ValidatedItem>, pid: ProductId)
    requires forall i :: 0 <= i < |vs| ==> vs[i].productId != pid
    ensures QuantityFor(vs, pid) == 0
    decreases |vs|
  {
    if vs != [] {
      QuantityForAbsent(vs[..|vs| - 1], pid);
    }
  }

  /** The validated lines line up with the cart lines and carry the stored row's price, never the client's. */
  lemma ValidatedLinesUseStoredPrice(products: map<ProductId, Product>, bids: seq<Bid>, caller: UserId, now: int,
                                     items: seq<CartLine>)
    requires ValidateCart(products, bids, caller, now, items).Success?
    ensures var vs := ValidateCart(products, bids, caller, now, items).value;
      forall i :: 0 <= i < |items| ==>
        && items[i].id in products
        && vs[i].productId == items[i].id
        && vs[i].quantity == items[i].quantity
        && vs[i].price == products[items[i].id].price
        && vs[i].shippingCost == products[items[i].id].shippingCost
        && Abs(vs[i].price - items[i].price) <= PriceTolerance
        && products[items[i].id].stock >= items[i].quantity
  {
    ValidateCartMeaning(products, bids, caller, now, items);
  }

  /**
   * A product marked 'sold' is refused only while its stock is at or below zero:
   * a stale 'sold' flag with stock left does not block the line.
   */
  lemma SoldCheckTrustsStock(products: map<ProductId, Product>, bids: seq<Bid>, caller: UserId, now: int, item: CartLine)
    ensures ValidateLine(products, bids, caller, now, item).Failure? &&
            ValidateLine(products, bids, caller, now, item).error.AlreadySold?
        <==> item.id in products && products[item.id].status == Sold && products[item.id].stock <= 0
  {
  }

  /** An auction line passes only after the deadline and only for a caller holding a highest valid bid. */
  lemma AuctionLineNeedsWin(products: map<ProductId, Product>, bids: seq<Bid>, caller: UserId, now: int, item: CartLine)
    requires ValidateLine(products, bids, caller, now, item).Success?
    requires products[item.id].isAuction == Auction
    ensures EndMillis(products[item.id].auctionEnd) <= now
    ensures exists i ::
      && 0 <= i < |bids| && bids[i].userId == caller && IsValidBidFor(bids[i], item.id)
      && forall j :: 0 <= j < |bids| && IsValidBidFor(bids[j], item.id) ==> bids[j].amount <= bids[i].amount
  {
    var top := TopValidBid(bids, item.id).value;
    var i :| 0 <= i < |bids| && bids[i] == top;
  }

  /** A caller whose valid bid beats every other user's valid bid is the auction's winner. */
  lemma {:induction false} SoleHighestBidderWins(bids: seq<Bid>, pid: ProductId, caller: UserId, k: int)
    requires 0 <= k < |bids| && bids[k].userId == caller && IsValidBidFor(bids[k], pid)
    requires forall j :: 0 <= j < |bids| && IsValidBidFor(bids[j], pid) && bids[j].userId != caller ==>
      bids[j].amount < bids[k].amount
    ensures IsAuctionWinner(bids, pid, caller)
  {
    var top := TopValidBid(bids, pid).value;
    var t :| 0 <= t < |bids| && bids[t] == top;
    assert bids[k].amount <= top.amount;
  }

  /** A product no line touches keeps its row. */
  lemma ApplyStockUntouched(products: map<ProductId, Product>, vs: seq<ValidatedItem>, pid: ProductId)
    requires pid in products
    requires forall i :: 0 <= i < |vs| ==> vs[i].productId != pid
    ensures ApplyStock(products, vs)[pid] == products[pid]
  {
    QuantityForAbsent(vs, pid);
    ApplyStockAt(products, vs, pid);
  }

  /** With one line per product, each product's row ends as its own line's two updates leave it. */
  lemma {:induction false} ApplyStockUniqueAt(products: map<ProductId, Product>, vs: seq<ValidatedItem>, k: int)
    requires UniqueProducts(vs) && 0 <= k < |vs| && vs[k].productId in products
    ensures ApplyStock(products, vs)[vs[k].productId] == CommitLine(products, vs[k])[vs[k].productId]
    decreases |vs|
  {
    var n := |vs| - 1;
    var pid := vs[k].productId;
    assert ApplyStock(products, vs) == CommitLine(ApplyStock(products, vs[..n]), vs[n]);
    if k < n {
      ApplyStockUniqueAt(products, vs[..n], k);
    } else {
      ApplyStockUntouched(products, vs[..n], pid);
    }
  }

    /**
   * Row `q` is row `p` after a line took `quantity` of it: only stock and
   * status differ, stock is not negative, and the row is 'sold' exactly when
   * its stock reached zero or it already was.
   */
  predicate LineCommitted(p: Product, q: Product, quantity: int) {
    && q == p.(stock := p.stock - quantity, status := q.status)
    && q.stock >= 0
    && q.status == (if q.stock <= 0 then Sold else p.status)
  }

  /** One line of a cart with unique ids: its product loses that line's quantity and nothing more. */
  lemma DistinctLineCommit(products: map<ProductId, Product>, bids: seq<Bid>, caller: UserId, now: int,
                           items: seq<CartLine>, k: int)
    requires Cart.NoDupIds(items) && 0 <= k < |items|
    requires ValidateCart(products, bids, caller, now, items).Success?
    ensures items[k].id in products
    ensures LineCommitted(products[items[k].id],
                          ApplyStock(products, ValidateCart(products, bids, caller, now, items).value)[items[k].id],
                          items[k].quantity)
  {
    var vs := ValidateCart(products, bids, caller, now, items).value;
    ValidatedLinesUseStoredPrice(products, bids, caller, now, items);
    assert UniqueProducts(vs);
    ApplyStockUniqueAt(products, vs, k);
    ValidateCartMeaning(products, bids, caller, now, items);
  }

/**
   * For a cart with one line per product (the cart store's invariant), the
   * commit takes exactly each line's quantity off its product, no such product
   * ends below zero, a product is 'sold' afterwards exactly when its stock
   * reached zero or it was already flagged, and products outside the cart are
   * untouched.
   */
  lemma DistinctCartCommit(products: map<ProductId, Product>, bids: seq<Bid>, caller: UserId, now: int,
                           items: seq<CartLine>)
    requires Cart.NoDupIds(items)
    requires ValidateCart(products, bids, caller, now, items).Success?
    ensures var after := ApplyStock(products, ValidateCart(products, bids, caller, now, items).value);
      && (forall k :: 0 <= k < |items| ==>
            items[k].id in products && LineCommitted(products[items[k].id], after[items[k].id], items[k].quantity))
      && (forall pid :: pid in products && (forall k :: 0 <= k < |items| ==> items[k].id != pid) ==>
            after[pid] == products[pid])
  {
    var vs := ValidateCart(products, bids, caller, now, items).value;
    ValidatedLinesUseStoredPrice(products, bids, caller, now, items);
    var after := ApplyStock(products, vs);
    forall k | 0 <= k < |items|
      ensures items[k].id in products && LineCommitted(products[items[k].id], after[items[k].id], items[k].quantity)
    {
      DistinctLineCommit(products, bids, caller, now, items, k);
    }
    forall pid | pid in products && (forall k :: 0 <= k < |items| ==> items[k].id != pid)
      ensures after[pid] == products[pid]
    {
      ApplyStockUntouched(products, vs, pid);
    }
  }

  // ---------------------------------------------------------------------------
  // Lines for the same product are each checked against the stock read before
  // any decrement, so together they can take more than there is.

  /** A one-unit product listed twice passes validation and ends with stock -1. */
  lemma DuplicateLinesOversell()
    ensures
      var coin := Product(7, "Coin", 10000, 0, 1, None, DirectBuy, None, Available, "", "Coins", "");
      var line := CartLine(7, "Coin", 10000, 0, 1);
      var r := ValidateCart(map[7 := coin], [], 1, 0, [line, line]);
      r.Success? && ApplyStock(map[7 := coin], r.value)[7].stock == -1
  {
    var coin := Product(7, "Coin", 10000, 0, 1, None, DirectBuy, None, Available, "", "Coins", "");
    var line := CartLine(7, "Coin", 10000, 0, 1);
    var products := map[7 := coin];
    var v := ValidatedItem(7, 10000, 1, "Coin", 0);
    assert ValidateLine(products, [], 1, 0, line) == Success(v);
    assert [line][..0] == [] && [line, line][..1] == [line];
    assert ValidateCart(products, [], 1, 0, []) == Success([]);
    assert ValidateCart(products, [], 1, 0, [line]) == Success([] + [v]);
    assert [] + [v] == [v] && [v] + [v] == [v, v];
    assert ValidateCart(products, [], 1, 0, [line, line]) == Success([v, v]);
    assert [v, v][..1] == [v] && [v][..0] == [];
    assert ApplyStock(products, [v])[7].stock == 0;
  }

  /** A negative quantity passes the stock check, lowers the order total and adds stock. */
  lemma NegativeQuantityRestocks()
    ensures
      var coin := Product(7, "Coin", 10000, 0, 1, None, DirectBuy, None, Available, "", "Coins", "");
      var line := CartLine(7, "Coin", 10000, 0, -1);
      var r := ValidateCart(map[7 := coin], [], 1, 0, [line]);
      r.Success? && OrderTotal(r.value) == -10000 && ApplyStock(map[7 := coin], r.value)[7].stock == 2
  {
    var coin := Product(7, "Coin", 10000, 0, 1, None, DirectBuy, None, Available, "", "Coins", "");
    var line := CartLine(7, "Coin", 10000, 0, -1);
    var v := ValidatedItem(7, 10000, -1, "Coin", 0);
    assert ValidateLine(map[7 := coin], [], 1, 0, line) == Success(v);
    assert [line][..0] == [];
    assert ValidateCart(map[7 := coin], [], 1, 0, []) == Success([]);
    assert ValidateCart(map[7 := coin], [], 1, 0, [line]) == Success([] + [v]);
    assert [v][..0] == [];
  }

  /** The corrected line check: a quantity below one is refused before the row's checks. */
  function ValidateLineGuarded(products: map<ProductId, Product>, bids: seq<Bid>, caller: UserId, now: int, item: CartLine)
    : Result<ValidatedItem, CheckoutError>
  {
    if item.quantity < 1 then Failure(InvalidQuantity(item.title))
    else ValidateLine(products, bids, caller, now, item)
  }

  /** The corrected validation: each line is checked against the stock the earlier lines leave. */
  function ValidateCartGuarded(products: map<ProductId, Product>, bids: seq<Bid>, caller: UserId, now: int,
                               items: seq<CartLine>)
    : (r: Result<seq<ValidatedItem>, CheckoutError>)
    ensures r.Success? ==> |r.value| == |items|
    ensures r.Success? ==> forall i :: 0 <= i < |items| ==>
      r.value[i].productId == items[i].id && r.value[i].quantity == items[i].quantity && items[i].quantity >= 1
    decreases |items|
  {
    if items == [] then Success([])
    else
      var n := |items| - 1;
      var prefix := items[..n];
      assert forall i :: 0 <= i < n ==> items[i] == prefix[i];
      match ValidateCartGuarded(products, bids, caller, now, prefix)
      case Failure(e) => Failure(e)
      case Success(vs) =>
        match ValidateLineGuarded(ApplyStock(products, vs), bids, caller, now, items[n])
        case Failure(e) => Failure(e)
        case Success(v) => Success(vs + [v])
  }

  /** Under the corrected validation no product in the cart ends with negative stock, duplicates or not. */
  lemma {:induction false} GuardedCartNeverOversells(products: map<ProductId, Product>, bids: seq<Bid>, caller: UserId,
                                                     now: int, items: seq<CartLine>)
    requires ValidateCartGuarded(products, bids, caller, now, items).Success?
    ensures var after := ApplyStock(products, ValidateCartGuarded(products, bids, caller, now, items).value);
      forall k :: 0 <= k < |items| ==> items[k].id in after && after[items[k].id].stock >= 0
    decreases |items|
  {
    if items != [] {
      var n := |items| - 1;
      var prefix := items[..n];
      var vs' := ValidateCartGuarded(products, bids, caller, now, prefix).value;
      var v := ValidateLineGuarded(ApplyStock(products, vs'), bids, caller, now, items[n]).value;
      var vs := vs' + [v];
      assert ValidateCartGuarded(products, bids, caller, now, items).value == vs;
      assert vs[..n] == vs';
      GuardedCartNeverOversells(products, bids, caller, now, prefix);
      var before := ApplyStock(products, vs');
      var after := ApplyStock(products, vs);
      assert after == CommitLine(before, v);
      forall k | 0 <= k < |items| ensures items[k].id in after && after[items[k].id].stock >= 0 {
        if k < n {
          assert items[k] == prefix[k];
        }
      }
    }
  }

  /** A line's check reads only its own product's row. */
  lemma ValidateLineReadsOneRow(p1: map<ProductId, Product>, p2: map<ProductId, Product>, bids: seq<Bid>,
                                caller: UserId, now: int, item: CartLine)
    requires item.id in p1 <==> item.id in p2
    requires item.id in p1 ==> p1[item.id] == p2[item.id]
    ensures ValidateLine(p1, bids, caller, now, item) == ValidateLine(p2, bids, caller, now, item)
  {
  }

  /** The correction changes nothing for carts the cart store produces: unique ids and quantities of at least one. */
  lemma {:induction false} GuardedAgreesOnStoreCarts(products: map<ProductId, Product>, bids: seq<Bid>, caller: UserId,
                                                     now: int, items: seq<CartLine>)
    requires Cart.NoDupIds(items)
    requires forall i :: 0 <= i < |items| ==> items[i].quantity >= 1
    ensures ValidateCartGuarded(products, bids, caller, now, items) == ValidateCart(products, bids, caller, now, items)
    decreases |items|
  {
    if items != [] {
      var n := |items| - 1;
      var prefix := items[..n];
      assert forall i :: 0 <= i < n ==> prefix[i] == items[i];
      GuardedAgreesOnStoreCarts(products, bids, caller, now, prefix);
      var r := ValidateCart(products, bids, caller, now, prefix);
      ValidateCartMeaning(products, bids, caller, now, prefix);
      if r.Success? {
        var vs := r.value;
        var id := items[n].id;
        forall i | 0 <= i < |vs| ensures vs[i].productId != id {
          assert vs[i] == ValidateLine(products, bids, caller, now, prefix[i]).value;
        }
        if id in products {
          ApplyStockUntouched(products, vs, id);
        }
        ValidateLineReadsOneRow(ApplyStock(products, vs), products, bids, caller, now, items[n]);
      }
    }
  }

  // ---------------------------------------------------------------------------
  // The transaction as the route runs it.

  /** `paymentMethod || 'COD'`. */
  function PaymentOrDefault(chosen: string): string {
    if chosen == "" then "COD" else chosen
  }

  /** The `order_items` rows inserted for an order, one per validated line. */
  function OrderItemsFor(orderId: int, vs: seq<ValidatedItem>): seq<OrderItem> {
    seq(|vs|, i requires 0 <= i < |vs| => OrderItem(orderId, vs[i].productId, vs[i].quantity, vs[i].price))
  }

  /**
   * One pass of the validation loop: reads the line's product and applies the
   * existence, availability, stock, price and auction checks in turn.  Reads
   * only; the first failing check gives the error.
   */
  method CheckLine(db: Tables.Database, caller: UserId, now: int, item: CartLine)
    returns (r: Result<ValidatedItem, CheckoutError>)
    requires db.Valid()
    ensures r == ValidateLine(db.products, db.bids, caller, now, item)
  {
    if item.id !in db.products {
      return Failure(ProductNotFound(item.title));
    }
    var product := db.products[item.id];
    if product.status == Sold && product.stock <= 0 {
      return Failure(AlreadySold(product.title));
    }
    if product.stock < item.quantity {
      return Failure(InsufficientStock(product.title, product.stock));
    }
    if Abs(product.price - item.price) > PriceTolerance {
      return Failure(PriceMismatch(product.title, product.price, item.price));
    }
    if product.isAuction == Auction {
      if EndMillis(product.auctionEnd) > now {
        return Failure(AuctionNotEnded(product.title));
      }
      var winner := TopValidBid(db.bids, product.id);
      if winner.None? || winner.value.userId != caller {
        return Failure(NotAuctionWinner(product.title));
      }
    }
    r := Success(ValidatedItem(product.id, product.price, item.quantity, product.title, product.shippingCost));
  }

  /** One pass of the commit loop: insert the order item, decrement the stock, mark sold at zero. */
  method CommitItem(db: Tables.Database, orderId: int, v: ValidatedItem)
    modifies db`products, db`orderItems
    ensures db.orderItems == old(db.orderItems) + [OrderItem(orderId, v.productId, v.quantity, v.price)]
    ensures db.products == CommitLine(old(db.products), v)
  {
    db.orderItems := db.orderItems + [OrderItem(orderId, v.productId, v.quantity, v.price)];
    if v.productId in db.products {
      var row := db.products[v.productId];
      db.products := db.products[v.productId := row.(stock := row.stock - v.quantity)];
    }
    if v.productId in db.products && db.products[v.productId].stock <= 0 {
      var row := db.products[v.productId];
      db.products := db.products[v.productId := row.(status := Sold)];
    }
  }

  /**
   * The validation loop: checks the lines in order, stops at the first
   * failure, and accumulates `totalAmount` over the lines that passed.
   */
  method ValidateItems(db: Tables.Database, caller: UserId, now: int, items: seq<CartLine>)
    returns (r: Result<seq<ValidatedItem>, CheckoutError>, totalAmount: int)
    requires db.Valid()
    ensures r == ValidateCart(db.products, db.bids, caller, now, items)
    ensures r.Success? ==> totalAmount == OrderTotal(r.value)
  {
    ghost var products, bids := db.products, db.bids;
    totalAmount := 0;
    var validated: seq<ValidatedItem> := [];
    var i := 0;
    while i < |items|
      invariant 0 <= i <= |items|
      invariant ValidateCart(products, bids, caller, now, items[..i]) == Success(validated)
      invariant totalAmount == OrderTotal(validated)
    {
      var checked := CheckLine(db, caller, now, items[i]);
      if checked.Failure? {
        FirstFailureWins(products, bids, caller, now, items, i);
        return Failure(checked.error), totalAmount;
      }
      var v := checked.value;
      ValidateCartStep(products, bids, caller, now, items, i);
      OrderTotalStep(validated, v);
      validated := validated + [v];
      totalAmount := totalAmount + LineCharge(v);
      i := i + 1;
    }
    assert items[..i] == items;
    r := Success(validated);
  }

  /** The commit loop: one order item and one stock update per validated line, in order. */
  method CommitItems(db: Tables.Database, orderId: int, validated: seq<ValidatedItem>)
    requires db.Valid()
    modifies db`products, db`orderItems
    ensures db.Valid()
    ensures db.orderItems == old(db.orderItems) + OrderItemsFor(orderId, validated)
    ensures db.products == ApplyStock(old(db.products), validated)
  {
    var j := 0;
    while j < |validated|
      invariant 0 <= j <= |validated|
      invariant db.products == ApplyStock(old(db.products), validated[..j])
      invariant db.orderItems == old(db.orderItems) + OrderItemsFor(orderId, validated[..j])
    {
      assert validated[..j + 1][..j] == validated[..j];
      assert OrderItemsFor(orderId, validated[..j + 1]) ==
        OrderItemsFor(orderId, validated[..j]) + [OrderItem(orderId, validated[j].productId, validated[j].quantity, validated[j].price)];
      CommitItem(db, orderId, validated[j]);
      j := j + 1;
    }
    assert validated[..j] == validated;
    ApplyStockKeepsIds(old(db.products), validated);
  }

  /** `INSERT INTO orders`: a 'pending' order under the next id. */
  method InsertOrder(db: Tables.Database, uid: UserId, totalAmount: int, address: string, paymentMethod: string)
    returns (orderId: int)
    requires db.Valid()
    modifies db`orders, db`nextOrderId
    ensures db.Valid()
    ensures orderId == old(db.nextOrderId) && db.nextOrderId == orderId + 1
    ensures db.orders == old(db.orders) + [Order(orderId, uid, totalAmount, Pending, address, PaymentOrDefault(paymentMethod), None)]
  {
    orderId := db.nextOrderId;
    db.orders := db.orders +
      [Order(orderId, uid, totalAmount, Pending, address, PaymentOrDefault(paymentMethod), None)];
    db.nextOrderId := db.nextOrderId + 1;
  }

  /**
   * The transaction body for a caller past the request checks: validate every
   * line, then insert the order, its items and the stock updates, or write
   * nothing at the first failing line.
   */
  method PlaceOrder(db: Tables.Database, uid: UserId, items: seq<CartLine>, address: string,
                    paymentMethod: string, now: int)
    returns (r: Result<int, CheckoutError>)
    requires db.Valid()
    modifies db`products, db`orders, db`nextOrderId, db`orderItems
    ensures db.Valid()
    ensures match ValidateCart(old(db.products), db.bids, uid, now, items)
      case Failure(e) =>
        && r == Failure(e)
        && db.products == old(db.products) && db.orders == old(db.orders) && db.orderItems == old(db.orderItems)
        && db.nextOrderId == old(db.nextOrderId)
      case Success(vs) =>
        var id := old(db.nextOrderId);
        && r == Success(id)
        && db.nextOrderId == id + 1
        && db.orders == old(db.orders) +
             [Order(id, uid, OrderTotal(vs), Pending, address, PaymentOrDefault(paymentMethod), None)]
        && db.orderItems == old(db.orderItems) + OrderItemsFor(id, vs)
        && db.products == ApplyStock(old(db.products), vs)
  {
    var checked, totalAmount := ValidateItems(db, uid, now, items);
    if checked.Failure? {
      return Failure(checked.error);
    }
    var vs := checked.value;
    ghost var before := db.products;
    var orderId := InsertOrder(db, uid, totalAmount, address, paymentMethod);
    CommitItems(db, orderId, vs);
    assert db.products == ApplyStock(before, vs);
    r := Success(orderId);
  }

  /**
   * `POST /api/orders` for the caller `session`.  An empty cart or empty
   * address is refused before any read; a failing line aborts with nothing
   * written; otherwise one 'pending' order, its items and the stock updates
   * are committed together.  The result carries the new order's id.
   */
  method Checkout(db: Tables.Database, session: Option<Principal>, items: seq<CartLine>, address: string,
                  paymentMethod: string, now: int)
    returns (r: Result<int, CheckoutError>)
    requires db.Valid()
    modifies db`products, db`orders, db`nextOrderId, db`orderItems
    ensures db.Valid()
    ensures r.Failure? ==>
      && db.products == old(db.products) && db.orders == old(db.orders) && db.orderItems == old(db.orderItems)
      && db.nextOrderId == old(db.nextOrderId)
    ensures session.None? ==> r == Failure(Unauthorized)
    ensures session.Some? && items == [] ==> r == Failure(EmptyCart)
    ensures session.Some? && items != [] && address == "" ==> r == Failure(MissingAddress)
    ensures session.Some? && items != [] && address != "" ==>
      match ValidateCart(old(db.products), db.bids, session.value.id, now, items)
      case Failure(e) => r == Failure(e)
      case Success(vs) =>
        var id := old(db.nextOrderId);
        && r == Success(id)
        && db.nextOrderId == id + 1
        && db.orders == old(db.orders) +
             [Order(id, session.value.id, OrderTotal(vs), Pending, address, PaymentOrDefault(paymentMethod), None)]
        && db.orderItems == old(db.orderItems) + OrderItemsFor(id, vs)
        && db.products == ApplyStock(old(db.products), vs)
  {
    if session.None? {
      return Failure(Unauthorized);
    }
    if items == [] {
      return Failure(EmptyCart);
    }
    if address == "" {
      return Failure(MissingAddress);
    }
    r := PlaceOrder(db, session.value.id, items, address, paymentMethod, now);
  }
}
