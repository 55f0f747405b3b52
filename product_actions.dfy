/**
 * The product page's action panel: which action a product offers (museum
 * piece, bid form, pay-now for the auction winner, or a buy box), the
 * per-user purchase limit, the quantity stepper, and the guards of the add
 * and bid handlers.
 */
module ProductActions {
  import opened Wrappers
  import opened Domain
  import Cart
  import Orders

  predicate InAuctionMode(p: Product) {
    p.isAuction == Auction
  }

  predicate InShowcaseMode(p: Product) {
    p.isAuction == Showcase
  }

  /** `auctionEnded`: an auction whose end time is at or before now; a missing end time reads as the epoch. */
  predicate AuctionEnded(p: Product, now: int) {
    InAuctionMode(p) && EndMillis(p.auctionEnd) <= now
  }

  /** The signed-in viewer is the user the page names as highest bidder. */
  predicate ViewerIsTopBidder(session: Option<Principal>, highestBidderId: Option<UserId>) {
    session.Some? && highestBidderId == Some(session.value.id)
  }

  /** `isWinner`. */
  predicate IsWinner(p: Product, now: int, session: Option<Principal>, highestBidderId: Option<UserId>) {
    AuctionEnded(p, now) && ViewerIsTopBidder(session, highestBidderId)
  }

  /** `isHighestBidder`. */
  predicate IsHighestBidder(p: Product, now: int, session: Option<Principal>, highestBidderId: Option<UserId>) {
    !AuctionEnded(p, now) && ViewerIsTopBidder(session, highestBidderId)
  }

  /** What the panel offers. */
  datatype Offer =
    | MuseumPiece
    | AuctionClosed(payNow: bool)
    | BidForm(leading: bool)
    | BuyBox

  /** The panel's branches: showcase first, then auction (closed or open), else the direct-buy box. */
  function OfferFor(p: Product, now: int, session: Option<Principal>, highestBidderId: Option<UserId>): (o: Offer)
    ensures o == MuseumPiece <==> InShowcaseMode(p)
    ensures o.BuyBox? <==> !InShowcaseMode(p) && !InAuctionMode(p)
    ensures o.AuctionClosed? ==> AuctionEnded(p, now) && (o.payNow <==> IsWinner(p, now, session, highestBidderId))
    ensures o.BidForm? ==> !AuctionEnded(p, now) && (o.leading <==> IsHighestBidder(p, now, session, highestBidderId))
  {
    if InShowcaseMode(p) then MuseumPiece
    else if InAuctionMode(p) then
      if AuctionEnded(p, now) then AuctionClosed(IsWinner(p, now, session, highestBidderId))
      else BidForm(IsHighestBidder(p, now, session, highestBidderId))
    else BuyBox
  }

  /** The winner banner and the leading-bidder banner never show together, and neither shows outside auction mode. */
  lemma WinnerAndLeaderExclusive(p: Product, now: int, session: Option<Principal>, highestBidderId: Option<UserId>)
    ensures !(IsWinner(p, now, session, highestBidderId) && IsHighestBidder(p, now, session, highestBidderId))
    ensures IsWinner(p, now, session, highestBidderId) ==> InAuctionMode(p)
  {
  }

  /** The user of the top valid bid on a product, as the product page's query and the checkout route find it. */
  function HighestBidder(bids: seq<Bid>, pid: ProductId): Option<UserId> {
    match Orders.TopValidBid(bids, pid)
    case Some(b) => Some(b.userId)
    case None => None
  }

  /**
   * `x === true` on a value read from the INTEGER `is_auction` column: the
   * value is a number, and a number is never strictly equal to `true`.
   */
  predicate StrictlyTrue(column: int) {
    false
  }

  /** The `highestBidderId` prop as the product page computes it: the bid query runs only when `is_auction === true`. */
  function PageHighestBidder(p: Product, bids: seq<Bid>): Option<UserId> {
    if StrictlyTrue(p.isAuction) then HighestBidder(bids, p.id) else None
  }

  /**
   * As the page is written the prop is always null, so the panel never shows
   * a winner or a leading bidder, and pay-now is never offered.
   */
  lemma PagePropAlwaysNull(p: Product, bids: seq<Bid>, now: int, session: Option<Principal>)
    ensures PageHighestBidder(p, bids) == None
    ensures !IsWinner(p, now, session, PageHighestBidder(p, bids))
    ensures !IsHighestBidder(p, now, session, PageHighestBidder(p, bids))
    ensures OfferFor(p, now, session, PageHighestBidder(p, bids)) != AuctionClosed(true)
  {
  }

  /** The prop with the page's guard matching the panel's own auction test (`is_auction === 1`). */
  function PageHighestBidderGuarded(p: Product, bids: seq<Bid>): Option<UserId> {
    if InAuctionMode(p) then HighestBidder(bids, p.id) else None
  }

  /**
   * With the guarded prop, the panel shows a viewer as winner exactly when the
   * auction has ended and the viewer holds the top valid bid, and as leading
   * exactly when it is running and the viewer holds the top valid bid.
   */
  lemma GuardedPropShowsWinner(p: Product, bids: seq<Bid>, now: int, session: Option<Principal>)
    ensures IsWinner(p, now, session, PageHighestBidderGuarded(p, bids)) <==>
      AuctionEnded(p, now) && session.Some? && Orders.IsAuctionWinner(bids, p.id, session.value.id)
    ensures IsHighestBidder(p, now, session, PageHighestBidderGuarded(p, bids)) <==>
      InAuctionMode(p) && !AuctionEnded(p, now) && session.Some? && Orders.IsAuctionWinner(bids, p.id, session.value.id)
    ensures InAuctionMode(p) && AuctionEnded(p, now) && session.Some? && Orders.IsAuctionWinner(bids, p.id, session.value.id) ==>
      OfferFor(p, now, session, PageHighestBidderGuarded(p, bids)) == AuctionClosed(true)
  {
    if InAuctionMode(p) {
      assert PageHighestBidderGuarded(p, bids) == HighestBidder(bids, p.id);
    }
  }

  /**
   * A viewer the panel shows as winner, when the page's highest bidder is the
   * top valid bid, passes both auction checks of the checkout route for that
   * product at the same instant.
   */
  lemma PayNowPassesServerAuctionChecks(products: map<ProductId, Product>, bids: seq<Bid>, now: int,
                                        session: Option<Principal>, item: CartLine)
    requires item.id in products
    requires IsWinner(products[item.id], now, session, HighestBidder(bids, item.id))
    ensures var r := Orders.ValidateLine(products, bids, session.value.id, now, item);
      !(r.Failure? && (r.error.AuctionNotEnded? || r.error.NotAuctionWinner?))
  {
  }

  // ---------------------------------------------------------------------------
  // Direct buy: the purchase limit.

  /** `product.max_per_user || stock`: an absent or zero cap falls back to the stock. */
  function MaxPerUser(p: Product): int {
    if p.maxPerUser.None? || p.maxPerUser.value == 0 then p.stock else p.maxPerUser.value
  }

  /** `Math.min(stock, maxPerUser)`. */
  function MaxLimit(p: Product): (r: int)
    ensures r <= p.stock && r <= MaxPerUser(p)
    ensures r == p.stock || r == MaxPerUser(p)
  {
    if p.stock <= MaxPerUser(p) then p.stock else MaxPerUser(p)
  }

  /** The limit is the stock unless a non-zero per-user cap is lower. */
  lemma LimitIsStockOrCap(p: Product)
    ensures p.maxPerUser.None? || p.maxPerUser.value == 0 ==> MaxLimit(p) == p.stock
    ensures p.maxPerUser.Some? && p.maxPerUser.value != 0 ==> MaxLimit(p) <= p.maxPerUser.value
  {
  }

  /** `maxLimit - currentInCart`: what the viewer may still add. */
  function RemainingStock(p: Product, cart: seq<CartLine>): int {
    MaxLimit(p) - Cart.QuantityOf(cart, p.id)
  }

  predicate IsOutOfStock(p: Product, cart: seq<CartLine>) {
    RemainingStock(p, cart) <= 0
  }

  /** Out of stock exactly when the cart already holds the limit (or more) of this product. */
  lemma OutOfStockIffCartHoldsLimit(p: Product, cart: seq<CartLine>)
    ensures IsOutOfStock(p, cart) <==> Cart.QuantityOf(cart, p.id) >= MaxLimit(p)
    ensures Cart.Find(cart, p.id).None? ==> (IsOutOfStock(p, cart) <==> MaxLimit(p) <= 0)
  {
  }

  /** The quantity field: empty while the viewer is typing, else a number. */
  datatype QuantityField = Blank | Entered(n: int)

  /** `Number(quantity)`: the empty field reads as 0. */
  function NumberOf(q: QuantityField): int {
    match q
    case Blank => 0
    case Entered(n) => n
  }

  /** The `−` button's update `Math.max(1, Number(q) - 1)`. */
  function StepDown(q: int): (r: int)
    ensures r >= 1
    ensures q >= 2 ==> r == q - 1
    ensures r <= q || q < 1
  {
    if q - 1 < 1 then 1 else q - 1
  }

  /** The `+` button's update `Math.min(Math.max(1, remainingStock), Number(q) + 1)`. */
  function StepUp(q: int, remaining: int): (r: int)
    ensures r <= remaining || r <= 1
    ensures q >= 0 ==> r >= 1
    ensures r <= q + 1
    ensures q + 1 <= remaining ==> r == q + 1
  {
    var cap := if remaining < 1 then 1 else remaining;
    if cap <= q + 1 then cap else q + 1
  }

  /** `{ ...product, quantity: Number(quantity) }`. */
  function WithQuantity(p: Product, q: int): Cart.CartProduct {
    Cart.CartProduct(p.id, p.title, p.price, p.shippingCost, Some(q))
  }

  /**
   * Adding a quantity the check lets through, while the add button is
   * enabled, never takes the cart's line for the product past the limit.
   */
  lemma AddWithinLimit(p: Product, cart: seq<CartLine>, q: int)
    requires 0 <= q <= RemainingStock(p, cart)
    requires !IsOutOfStock(p, cart)
    ensures Cart.QuantityOf(Cart.AddToCart(cart, WithQuantity(p, q)), p.id) <= MaxLimit(p)
    ensures Cart.QuantityOf(Cart.AddToCart(cart, WithQuantity(p, q)), p.id) > Cart.QuantityOf(cart, p.id)
  {
    var r := Cart.AddToCart(cart, WithQuantity(p, q));
    assert Cart.Find(r, p.id).Some?;
  }

  datatype AddOutcome = AddNeedsLogin | TooMany(remaining: int) | Added
  datatype BidOutcome = BidNeedsLogin | AuctionOver | BidTooLow | BidSent(amount: int)

  /**
   * The panel's state: the quantity and bid fields, and the shared cart.
   * `bidAmount` starts as the empty field, which compares as 0.
   */
  class ProductPanel {
    const product: Product
    var quantity: QuantityField
    var bidAmount: int
    var cart: seq<CartLine>

    /** The quantity field never holds a number below one, and the cart keeps its invariant. */
    ghost predicate Valid()
      reads this
    {
      (quantity.Entered? ==> quantity.n >= 1) && Cart.NoDupIds(cart)
    }

    constructor (p: Product, initialCart: seq<CartLine>)
      requires Cart.NoDupIds(initialCart)
      ensures Valid()
      ensures product == p && quantity == Entered(1) && bidAmount == 0 && cart == initialCart
    {
      product := p;
      quantity := Entered(1);
      bidAmount := 0;
      cart := initialCart;
    }

    /** The bid field's `onChange`: it holds `Number` of what was typed (an emptied field reads as 0). */
    method HandleBidChange(typed: int)
      modifies this`bidAmount
      ensures bidAmount == typed
    {
      bidAmount := typed;
    }

    /** `handleQuantityChange`: an empty field is kept; a number outside 1..maxLimit is ignored. */
    method HandleQuantityChange(typed: QuantityField)
      requires Valid()
      modifies this`quantity
      ensures Valid()
      ensures typed.Blank? ==> quantity == Blank
      ensures typed.Entered? && 1 <= typed.n <= MaxLimit(product) ==> quantity == typed
      ensures typed.Entered? && !(1 <= typed.n <= MaxLimit(product)) ==> quantity == old(quantity)
    {
      if typed.Blank? {
        quantity := Blank;
        return;
      }
      var num := typed.n;
      if num < 1 {
        return;
      }
      if num > MaxLimit(product) {
        return;
      }
      quantity := Entered(num);
    }

    /** `handleBlur`: an empty field becomes 1. */
    method HandleBlur()
      requires Valid()
      modifies this`quantity
      ensures Valid()
      ensures quantity.Entered?
      ensures old(quantity).Entered? ==> quantity == old(quantity)
    {
      if quantity.Blank? || quantity.n < 1 {
        quantity := Entered(1);
      }
    }

    /** The `−` button. */
    method Decrement()
      requires Valid()
      modifies this`quantity
      ensures Valid()
      ensures quantity == Entered(StepDown(NumberOf(old(quantity))))
    {
      quantity := Entered(StepDown(NumberOf(quantity)));
    }

    /** The `+` button. */
    method Increment()
      requires Valid()
      modifies this`quantity
      ensures Valid()
      ensures quantity == Entered(StepUp(NumberOf(old(quantity)), RemainingStock(product, cart)))
    {
      quantity := Entered(StepUp(NumberOf(quantity), RemainingStock(product, cart)));
    }

    /** `handleAddToCart`: login first; a quantity above what remains leaves the cart as it was. */
    method HandleAddToCart(session: Option<Principal>) returns (o: AddOutcome)
      requires Valid()
      modifies this`cart
      ensures Valid()
      ensures session.None? ==> o == AddNeedsLogin
      ensures session.Some? && NumberOf(quantity) > RemainingStock(product, old(cart)) ==>
        o == TooMany(RemainingStock(product, old(cart)))
      ensures o.Added? <==> session.Some? && NumberOf(quantity) <= RemainingStock(product, old(cart))
      ensures o.Added? ==> cart == Cart.AddToCart(old(cart), WithQuantity(product, NumberOf(quantity)))
      ensures !o.Added? ==> cart == old(cart)
      ensures o.Added? && !IsOutOfStock(product, old(cart)) ==> Cart.QuantityOf(cart, product.id) <= MaxLimit(product)
    {
      if session.None? {
        return AddNeedsLogin;
      }
      var remaining := RemainingStock(product, cart);
      if NumberOf(quantity) > remaining {
        return TooMany(remaining);
      }
      if !IsOutOfStock(product, cart) {
        AddWithinLimit(product, cart, NumberOf(quantity));
      }
      cart := Cart.AddToCart(cart, WithQuantity(product, NumberOf(quantity)));
      o := Added;
    }

    /** `handleAction`, the winner's Pay Now: one unit of the product goes into the cart. */
    method HandlePayNow(session: Option<Principal>) returns (o: AddOutcome)
      requires Valid()
      modifies this`cart
      ensures Valid()
      ensures session.None? ==> o == AddNeedsLogin && cart == old(cart)
      ensures session.Some? ==> o == Added
      ensures session.Some? ==>
        cart == Cart.AddToCart(old(cart), Cart.CartProduct(product.id, product.title, product.price, product.shippingCost, None))
    {
      if session.None? {
        return AddNeedsLogin;
      }
      cart := Cart.AddToCart(cart, Cart.CartProduct(product.id, product.title, product.price, product.shippingCost, None));
      o := Added;
    }

    /**
     * `handleBid`: login first; nothing is sent once the auction has ended or
     * when the amount does not exceed the current price.  `accepted` is the
     * bid route's answer; an accepted bid clears the field.
     */
    method HandleBid(session: Option<Principal>, now: int, accepted: bool) returns (o: BidOutcome)
      modifies this`bidAmount
      ensures session.None? ==> o == BidNeedsLogin
      ensures session.Some? && AuctionEnded(product, now) ==> o == AuctionOver
      ensures session.Some? && !AuctionEnded(product, now) && old(bidAmount) <= product.price ==> o == BidTooLow
      ensures o.BidSent? <==> session.Some? && !AuctionEnded(product, now) && old(bidAmount) > product.price
      ensures o.BidSent? ==> o.amount == old(bidAmount)
      ensures bidAmount == if o.BidSent? && accepted then 0 else old(bidAmount)
    {
      if session.None? {
        return BidNeedsLogin;
      }
      if AuctionEnded(product, now) {
        return AuctionOver;
      }
      if bidAmount <= product.price {
        return BidTooLow;
      }
      o := BidSent(bidAmount);
      if accepted {
        bidAmount := 0;
      }
    }
  }
}
