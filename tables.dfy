/**
 * The relational store as one object whose fields are the tables the core
 * routes read and write.  Row ids come from the `next...` counters, as
 * SQLite's AUTOINCREMENT hands out `lastInsertRowid`.
 */
module Tables {
  import opened Domain

  class Database {
    var products: map<ProductId, Product>
    var nextProductId: int
    var media: seq<MediaRow>
    var bids: seq<Bid>
    var orders: seq<Order>
    var nextOrderId: int
    var orderItems: seq<OrderItem>
    var users: map<UserId, User>
    var nextUserId: int
    var settings: map<string, string>

    /**
     * Rows are stored under their own id, and every id handed out is below
     * its counter; product ids count up from 1.
     */
    ghost predicate Valid()
      reads this
    {
      && 1 <= nextProductId
      && (forall id :: id in products ==> products[id].id == id && 1 <= id < nextProductId)
      && (forall id :: id in users ==> users[id].id == id && id < nextUserId)
      && (forall i :: 0 <= i < |orders| ==> orders[i].id < nextOrderId)
    }

    constructor ()
      ensures Valid()
      ensures products == map[] && media == [] && bids == [] && orders == [] && orderItems == []
      ensures users == map[] && settings == map[]
    {
      products, nextProductId := map[], 1;
      media, bids := [], [];
      orders, nextOrderId, orderItems := [], 1, [];
      users, nextUserId := map[], 1;
      settings := map[];
    }
  }
}
