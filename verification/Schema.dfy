/** The tables of the transactional back end, and the values its services exchange. */
module Schema {

  datatype Option<+T> = None | Some(value: T)

  function GetOr<T>(o: Option<T>, default: T): (t: T) {
    if o.Some? then o.value else default
  }

  datatype Result<+T, +E> = Ok(value: T) | Err(error: E)

  // Generated identifiers, read as numbers.
  type Uuid = nat

  // The largest value of a Postgres integer column.
  const INT4_MAX := 2_147_483_647

  // Prices and totals are the cents of a numeric(10,2) column.
  datatype Product = Product(
    storeId: Uuid,
    categoryId: Option<Uuid>,
    name: string,
    description: Option<string>,
    price: nat,
    stock: int,
    imageUrl: Option<string>,
    createdAt: nat)

  datatype Category = Category(storeId: Uuid, name: string)

  datatype OrderStatus = Pending | Completed | Cancelled

  datatype Item = Item(productId: Option<Uuid>, productName: string, quantity: nat, unitPrice: nat)

  datatype Order = Order(storeId: Uuid, status: OrderStatus, total: nat, items: seq<Item>, createdAt: nat)

  datatype Store = Store(name: string, ownerId: Uuid)

  /** The order confirmation: recipient and the values its subject and body show. */
  datatype Mail = NewOrder(to: string, storeName: string, orderId: Uuid, total: nat)

  datatype Db = Db(
    products: map<Uuid, Product>,
    categories: map<Uuid, Category>,
    orders: map<Uuid, Order>,
    outbox: seq<Mail>,
    stores: map<Uuid, Store>,
    emails: map<Uuid, string>)

  /** The store has this product. */
  predicate InStore(products: map<Uuid, Product>, storeId: Uuid, p: Uuid) {
    p in products && products[p].storeId == storeId
  }

  datatype Error =
    | ProductNotFound(id: Uuid)
    | InsufficientStock(name: string, requested: nat, available: int)
    | OrderNotFound
    | CategoryNotFound
    | OutOfRange

  /** The tables, updated in place by the statements of the current transaction. */
  class Database {
    var products: map<Uuid, Product>
    var categories: map<Uuid, Category>
    var orders: map<Uuid, Order>
    var outbox: seq<Mail>
    var stores: map<Uuid, Store>
    var emails: map<Uuid, string>

    function State(): (db: Db)
      reads this
    {
      Db(products, categories, orders, outbox, stores, emails)
    }

    constructor (db: Db)
      ensures State() == db
    {
      products, categories, orders, outbox := db.products, db.categories, db.orders, db.outbox;
      stores, emails := db.stores, db.emails;
    }

    method Rollback(db: Db)
      modifies this
      ensures State() == db
    {
      products, categories, orders, outbox := db.products, db.categories, db.orders, db.outbox;
      stores, emails := db.stores, db.emails;
    }
  }
}
