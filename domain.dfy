/**
 * Rows of the storefront's tables and the values that travel between the
 * browser and the API routes.  Money is in integer paise, time in integer
 * milliseconds since the epoch.
 */
module Domain {
  import opened Wrappers

  type ProductId = int
  type UserId = int

  /** The `role` column: 'user' or 'admin'. */
  datatype Role = Customer | Admin

  /** The authenticated session, reduced to the caller's id and role. */
  datatype Principal = Principal(id: UserId, role: Role)

  predicate IsAdmin(session: Option<Principal>) {
    session.Some? && session.value.role == Admin
  }

  /** A truthy string field of a request body: present and non-empty. */
  predicate Given(v: Option<string>) {
    v.Some? && v.value != ""
  }

  /** The `status` column of a product: 'available' or 'sold'. */
  datatype ProductStatus = Available | Sold

  /** The `is_auction` column: 0 direct buy, 1 auction, 2 showcase (not for sale). */
  const DirectBuy: int := 0
  const Auction: int := 1
  const Showcase: int := 2

  /**
   * A `products` row.  A NULL `shipping_cost` is read as 0 by every caller
   * (`shipping_cost || 0`), so it is kept here as that 0; `imageUrl` is the
   * main thumbnail.
   */
  datatype Product = Product(
    id: ProductId,
    title: string,
    price: int,
    shippingCost: int,
    stock: int,
    maxPerUser: Option<int>,
    isAuction: int,
    auctionEnd: Option<int>,
    status: ProductStatus,
    description: string,
    category: string,
    imageUrl: string)

  /** `new Date(auction_end_time)` in milliseconds: a NULL end time is the epoch. */
  function EndMillis(end: Option<int>): int {
    end.GetOr(0)
  }

  /** The `status` column of a bid: 'valid' or disqualified by an admin. */
  datatype BidStatus = ValidBid | Disqualified

  datatype Bid = Bid(productId: ProductId, userId: UserId, amount: int, status: BidStatus)

  /**
   * One line of the browser cart: the product fields spread into the line
   * plus its quantity.  The checkout request sends these lines unchanged.
   */
  datatype CartLine = CartLine(id: ProductId, title: string, price: int, shippingCost: int, quantity: int)

  /** The `status` column of an order. */
  datatype OrderStatus = Pending | Shipped | Cancelled | OtherStatus(name: string)

  datatype Order = Order(
    id: int,
    userId: UserId,
    total: int,
    status: OrderStatus,
    shippingAddress: string,
    paymentMethod: string,
    trackingId: Option<string>)

  datatype OrderItem = OrderItem(orderId: int, productId: ProductId, quantity: int, price: int)

  /** A `users` row; `password` holds the hash. */
  datatype User = User(id: UserId, name: string, email: string, password: string, role: Role)

  /** No two accounts share an email address. */
  predicate UniqueEmails(users: map<UserId, User>) {
    forall a, b :: a in users && b in users && users[a].email == users[b].email ==> a == b
  }

  datatype MediaKind = Image | Video

  /** An entry of a product form's `media` array, `{ url, type }`. */
  datatype MediaItem = MediaItem(url: string, kind: MediaKind)

  /** A `product_media` row. */
  datatype MediaRow = MediaRow(productId: ProductId, url: string, kind: MediaKind)
}
