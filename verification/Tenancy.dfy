/**
 The requests that a store can make, what each does to the tables and how it is answered,
 and the services that serve them.
 */
module Tenancy {
  import opened Schema
  import opened Listing
  import opened Orders
  import opened Catalogue
  import opened Money
  import Binary64
  import Ledger

  datatype Request =
    | CreateProduct(newProduct: NewProduct, id: Uuid, now: nat)
    | ListProducts(productQuery: ProductQuery)
    | GetProduct(id: Uuid)
    | UpdateProduct(id: Uuid, patch: ProductPatch)
    | RemoveProduct(id: Uuid)
    | SetProductImage(id: Uuid, imageUrl: string)
    | CreateCategory(name: string, id: Uuid)
    | ListCategories
    | GetCategory(id: Uuid)
    | UpdateCategory(id: Uuid, newName: Option<string>)
    | RemoveCategory(id: Uuid)
    | CreateOrder(lines: seq<Line>, id: Uuid, now: nat)
    | ListOrders(orderQuery: OrderQuery)
    | GetOrder(id: Uuid)
    | ChangeStatus(id: Uuid, status: OrderStatus)

  datatype Reply =
    | Failed(error: Error)
    | Refused
    | Done
    | OneProduct(product: Product)
    | OneJoined(row: Joined)
    | ManyProducts(products: Listed<Joined>)
    | OneCategory(category: Category)
    | ManyCategories(categories: map<Uuid, Category>)
    | Saved(saved: SavedOrder)
    | OneOrder(order: Order)
    | ManyOrders(orders: Listed<Found>)

  datatype Outcome = Outcome(db: Db, reply: Reply)

  /** Identifiers of new rows are generated and never collide with an existing row. */
  predicate Fresh(db: Db, req: Request) {
    match req
    case CreateProduct(_, id, _) => id !in db.products
    case CreateCategory(_, id) => id !in db.categories
    case CreateOrder(_, id, _) => id !in db.orders
    case _ => true
  }

  /** Page and limit are at least one: the query DTO admits nothing else. */
  predicate ValidPage(page: Option<nat>, limit: Option<nat>) {
    GetOr(page, 1) >= 1 && GetOr(limit, 20) >= 1
  }

  // ----- what a request does -----

  function SaveProduct(db: Db, id: Uuid, product: Product): (o: Outcome) {
    Outcome(db.(products := db.products[id := product]), OneProduct(product))
  }

  function FirstRefused(products: map<Uuid, Product>, storeId: Uuid, lines: seq<Line>, k: nat): (r: nat)
    requires k <= |lines| && CanFill(products, storeId, lines[..k]) && !CanFill(products, storeId, lines)
    ensures RefusedAt(products, storeId, lines, r)
    decreases |lines| - k
  {
    assert lines[..|lines|] == lines;
    if k < |lines| && CanFill(products, storeId, lines[..k + 1]) then FirstRefused(products, storeId, lines, k + 1) else k
  }

  function CreateError(db: Db, storeId: Uuid, lines: seq<Line>): (e: Error) {
    if CanFill(db.products, storeId, lines) then OutOfRange
    else
      NothingTaken(db.products, storeId, lines[..0]);
      Refusal(db.products, storeId, lines, FirstRefused(db.products, storeId, lines, 0))
  }

  function Exec(db: Db, storeId: Uuid, req: Request): (o: Outcome) {
    match req
    case CreateProduct(dto, id, now) =>
      if !CategoryFits(db, storeId, dto.categoryId) then Outcome(db, Failed(CategoryNotFound))
      else if !InRange(dto.price, GetOr(dto.stock, 0)) then Outcome(db, Failed(OutOfRange))
      else SaveProduct(db, id, ProductFrom(storeId, dto, now))
    case ListProducts(query) =>
      if !ValidPage(query.page, query.limit) then Outcome(db, Refused)
      else Outcome(db, ManyProducts(ProductList(db, storeId, query)))
    case GetProduct(id) =>
      if !InStore(db.products, storeId, id) then Outcome(db, Failed(ProductNotFound(id)))
      else Outcome(db, OneJoined(Join(db, id)))
    case UpdateProduct(id, patch) =>
      if !InStore(db.products, storeId, id) then Outcome(db, Failed(ProductNotFound(id)))
      else if !CategoryFits(db, storeId, patch.categoryId) then Outcome(db, Failed(CategoryNotFound))
      else
        var product := Patched(db.products[id], patch);
        if !InRange(product.price, product.stock) then Outcome(db, Failed(OutOfRange)) else SaveProduct(db, id, product)
    case RemoveProduct(id) =>
      if !InStore(db.products, storeId, id) then Outcome(db, Failed(ProductNotFound(id)))
      else Outcome(ProductRemoved(db, id), Done)
    case SetProductImage(id, imageUrl) =>
      if !InStore(db.products, storeId, id) then Outcome(db, Failed(ProductNotFound(id)))
      else SaveProduct(db, id, db.products[id].(imageUrl := Some(imageUrl)))
    case CreateCategory(name, id) =>
      Outcome(db.(categories := db.categories[id := Category(storeId, name)]), OneCategory(Category(storeId, name)))
    case ListCategories => Outcome(db, ManyCategories(StoreCategories(db.categories, storeId)))
    case GetCategory(id) =>
      if !OwnsCategory(db, storeId, id) then Outcome(db, Failed(CategoryNotFound))
      else Outcome(db, OneCategory(db.categories[id]))
    case UpdateCategory(id, newName) =>
      if !OwnsCategory(db, storeId, id) then Outcome(db, Failed(CategoryNotFound))
      else
        var category := Category(storeId, GetOr(newName, db.categories[id].name));
        Outcome(db.(categories := db.categories[id := category]), OneCategory(category))
    case RemoveCategory(id) =>
      if !OwnsCategory(db, storeId, id) then Outcome(db, Failed(CategoryNotFound))
      else Outcome(CategoryRemoved(db, id), Done)
    case CreateOrder(lines, id, now) =>
      if !CanPlace(db, storeId, lines) then Outcome(db, Failed(CreateError(db, storeId, lines)))
      else
        var items := ItemsOf(db.products, storeId, lines);
        Outcome(Placed(db, storeId, lines, id, now), Saved(SavedOrder(id, RunningTotal(Charges(items)), items)))
    case ListOrders(query) =>
      if !ValidPage(query.page, query.limit) then Outcome(db, Refused)
      else Outcome(db, ManyOrders(OrderList(db, storeId, query)))
    case GetOrder(id) =>
      if !OwnsOrder(db, storeId, id) then Outcome(db, Failed(OrderNotFound))
      else Outcome(db, OneOrder(db.orders[id]))
    case ChangeStatus(id, status) =>
      if !OwnsOrder(db, storeId, id) then Outcome(db, Failed(OrderNotFound))
      else if !CanChange(db, storeId, id, status) then Outcome(db, Failed(OutOfRange))
      else Outcome(Changed(db, storeId, id, status), OneOrder(db.orders[id].(status := status)))
  }

  /** The one line at which an order is refused. */
  lemma RefusedOnce(products: map<Uuid, Product>, storeId: Uuid, lines: seq<Line>, j: nat, k: nat)
    requires RefusedAt(products, storeId, lines, j) && RefusedAt(products, storeId, lines, k)
    ensures j == k
  {
    if j < k {
      assert lines[..k][..j + 1] == lines[..j + 1];
      CanFillPrefix(products, storeId, lines[..k], j + 1);
    } else if k < j {
      assert lines[..j][..k + 1] == lines[..k + 1];
      CanFillPrefix(products, storeId, lines[..j], k + 1);
    }
  }

  lemma CreateErrorIsRefusal(db: Db, storeId: Uuid, lines: seq<Line>, k: nat)
    requires RefusedAt(db.products, storeId, lines, k) && !CanFill(db.products, storeId, lines)
    ensures CreateError(db, storeId, lines) == Refusal(db.products, storeId, lines, k)
  {
    NothingTaken(db.products, storeId, lines[..0]);
    RefusedOnce(db.products, storeId, lines, k, FirstRefused(db.products, storeId, lines, 0));
  }

  /** The controllers' calls of the services, whose effects and replies are those of Exec. */
  class Api {
    const tx: Database
    const products: ProductsService
    const categories: CategoriesService
    const orders: OrdersService

    ghost predicate Valid() {
      products.tx == tx && categories.tx == tx && orders.tx == tx
    }

    constructor (tx: Database)
      ensures Valid() && this.tx == tx
    {
      this.tx := tx;
      products := new ProductsService(tx);
      categories := new CategoriesService(tx);
      orders := new OrdersService(tx);
    }

    method ServeProduct(storeId: Uuid, req: Request) returns (reply: Reply)
      requires Valid() && Fresh(tx.State(), req)
      requires req.CreateProduct? || req.GetProduct? || req.UpdateProduct? || req.RemoveProduct? || req.SetProductImage?
      modifies tx
      ensures Outcome(tx.State(), reply) == Exec(old(tx.State()), storeId, req)
    {
      match req
      case CreateProduct(dto, id, now) =>
        var r := products.Create(storeId, dto, id, now);
        reply := if r.Ok? then OneProduct(r.value) else Failed(r.error);
      case GetProduct(id) =>
        var r := products.FindOne(storeId, id);
        reply := if r.Ok? then OneJoined(r.value) else Failed(r.error);
      case UpdateProduct(id, patch) =>
        var r := products.Update(storeId, id, patch);
        reply := if r.Ok? then OneProduct(r.value) else Failed(r.error);
      case RemoveProduct(id) =>
        var r := products.Remove(storeId, id);
        reply := if r.Ok? then Done else Failed(r.error);
      case SetProductImage(id, imageUrl) =>
        var r := products.SetImage(storeId, id, imageUrl);
        reply := if r.Ok? then OneProduct(r.value) else Failed(r.error);
    }

    method ServeCategory(storeId: Uuid, req: Request) returns (reply: Reply)
      requires Valid() && Fresh(tx.State(), req)
      requires req.CreateCategory? || req.ListCategories? || req.GetCategory? || req.UpdateCategory? || req.RemoveCategory?
      modifies tx
      ensures Outcome(tx.State(), reply) == Exec(old(tx.State()), storeId, req)
    {
      match req
      case CreateCategory(name, id) =>
        var category := categories.Create(storeId, name, id);
        reply := OneCategory(category);
      case ListCategories =>
        var rows := categories.FindAll(storeId);
        reply := ManyCategories(rows);
      case GetCategory(id) =>
        var r := categories.FindOne(storeId, id);
        reply := if r.Ok? then OneCategory(r.value) else Failed(r.error);
      case UpdateCategory(id, newName) =>
        var r := categories.Update(storeId, id, newName);
        reply := if r.Ok? then OneCategory(r.value) else Failed(r.error);
      case RemoveCategory(id) =>
        var r := categories.Remove(storeId, id);
        reply := if r.Ok? then Done else Failed(r.error);
    }

    method ServeOrder(storeId: Uuid, req: Request) returns (reply: Reply)
      requires Valid() && Fresh(tx.State(), req)
      requires req.CreateOrder? || req.GetOrder? || req.ChangeStatus?
      modifies tx
      ensures Outcome(tx.State(), reply) == Exec(old(tx.State()), storeId, req)
    {
      hide CanFill, Refusal, RefusedAt, CreateError, RunningTotal, Column, Charges, CanRestock, Restocked, Deducted;
      match req
      case CreateOrder(lines, id, now) =>
        ghost var db := tx.State();
        var r := orders.Create(storeId, lines, id, now);
        reply := if r.Ok? then Saved(r.value) else Failed(r.error);
        if r.Err? {
          RefusalIsCreateError(db, storeId, lines, r.error);
        }
      case GetOrder(id) =>
        var r := orders.FindOne(storeId, id);
        reply := if r.Ok? then OneOrder(r.value) else Failed(r.error);
      case ChangeStatus(id, status) =>
        var r := orders.UpdateStatus(storeId, id, status);
        reply := if r.Ok? then OneOrder(r.value) else Failed(r.error);
    }

    method Serve(storeId: Uuid, req: Request) returns (reply: Reply)
      requires Valid() && Fresh(tx.State(), req)
      modifies tx
      ensures Outcome(tx.State(), reply) == Exec(old(tx.State()), storeId, req)
    {
      match req
      case ListProducts(query) =>
        if !ValidPage(query.page, query.limit) {
          return Refused;
        }
        var rows := products.FindAll(storeId, query);
        reply := ManyProducts(rows);
      case ListOrders(query) =>
        if !ValidPage(query.page, query.limit) {
          return Refused;
        }
        var rows := orders.FindAll(storeId, query);
        reply := ManyOrders(rows);
      case CreateOrder(_, _, _) => reply := ServeOrder(storeId, req);
      case GetOrder(_) => reply := ServeOrder(storeId, req);
      case ChangeStatus(_, _) => reply := ServeOrder(storeId, req);
      case CreateCategory(_, _) => reply := ServeCategory(storeId, req);
      case ListCategories => reply := ServeCategory(storeId, req);
      case GetCategory(_) => reply := ServeCategory(storeId, req);
      case UpdateCategory(_, _) => reply := ServeCategory(storeId, req);
      case RemoveCategory(_) => reply := ServeCategory(storeId, req);
      case CreateProduct(_, _, _) => reply := ServeProduct(storeId, req);
      case GetProduct(_) => reply := ServeProduct(storeId, req);
      case UpdateProduct(_, _) => reply := ServeProduct(storeId, req);
      case RemoveProduct(_) => reply := ServeProduct(storeId, req);
      case SetProductImage(_, _) => reply := ServeProduct(storeId, req);
    }
  }

  lemma RefusalIsCreateError(db: Db, storeId: Uuid, lines: seq<Line>, e: Error)
    requires !CanPlace(db, storeId, lines)
    requires
      || (e == OutOfRange && CanFill(db.products, storeId, lines))
      || exists k :: RefusedAt(db.products, storeId, lines, k) && e == Refusal(db.products, storeId, lines, k)
    ensures e == CreateError(db, storeId, lines)
  {
    hide CanFill, Refusal;
    if !CanFill(db.products, storeId, lines) {
      var k :| RefusedAt(db.products, storeId, lines, k) && e == Refusal(db.products, storeId, lines, k);
      CreateErrorIsRefusal(db, storeId, lines, k);
    } else if k :| RefusedAt(db.products, storeId, lines, k) {
      RefusedPrefix(db.products, storeId, lines, k);
    }
  }

  // ----- what a reply says -----

  /** The request is refused: the store lacks what it names, or the values do not fit. */
  predicate Unfit(db: Db, storeId: Uuid, req: Request) {
    match req
    case CreateProduct(dto, _, _) =>
      !CategoryFits(db, storeId, dto.categoryId) || dto.price >= NUMERIC_10_2 || (dto.stock.Some? && dto.stock.value > INT4_MAX)
    case UpdateProduct(id, patch) =>
      || !InStore(db.products, storeId, id) || !CategoryFits(db, storeId, patch.categoryId)
      || GetOr(patch.price, db.products[id].price) >= NUMERIC_10_2
      || (if patch.stock.Some? then patch.stock.value else db.products[id].stock) > INT4_MAX
    case GetProduct(id) => !InStore(db.products, storeId, id)
    case RemoveProduct(id) => !InStore(db.products, storeId, id)
    case SetProductImage(id, _) => !InStore(db.products, storeId, id)
    case GetCategory(id) => !OwnsCategory(db, storeId, id)
    case UpdateCategory(id, _) => !OwnsCategory(db, storeId, id)
    case RemoveCategory(id) => !OwnsCategory(db, storeId, id)
    case CreateOrder(lines, _, _) => !CanPlace(db, storeId, lines)
    case GetOrder(id) => !OwnsOrder(db, storeId, id)
    case ChangeStatus(id, status) => !CanChange(db, storeId, id, status)
    case ListProducts(query) => !ValidPage(query.page, query.limit)
    case ListOrders(query) => !ValidPage(query.page, query.limit)
    case _ => false
  }

  /** The reply shows the rows as they are after the request. */
  predicate Tells(db: Db, storeId: Uuid, req: Request, db': Db, reply: Reply) {
    match req
    case CreateProduct(_, id, _) => id in db'.products && reply == OneProduct(db'.products[id])
    case UpdateProduct(id, _) => id in db'.products && reply == OneProduct(db'.products[id])
    case SetProductImage(id, _) => id in db'.products && reply == OneProduct(db'.products[id])
    case GetProduct(id) => reply.OneJoined? && id in db.products && WithCategory(reply.row, id, db.products[id], db.categories)
    case RemoveProduct(id) => reply == Done && id !in db'.products
    case ListProducts(query) => ValidPage(query.page, query.limit) && reply == ManyProducts(ProductList(db, storeId, query))
    case CreateCategory(_, id) => id in db'.categories && reply == OneCategory(db'.categories[id])
    case GetCategory(id) => id in db.categories && reply == OneCategory(db.categories[id])
    case UpdateCategory(id, _) => id in db'.categories && reply == OneCategory(db'.categories[id])
    case RemoveCategory(id) => reply == Done && id !in db'.categories
    case ListCategories =>
      && reply.ManyCategories?
      && (forall c :: c in db.categories && db.categories[c].storeId == storeId ==>
            c in reply.categories && reply.categories[c] == db.categories[c])
      && (forall c :: c in reply.categories ==> c in db.categories && db.categories[c].storeId == storeId)
    case CreateOrder(_, id, _) =>
      && reply.Saved? && id in db'.orders && reply.saved.id == id && reply.saved.items == db'.orders[id].items
      && reply.saved.total == RunningTotal(Charges(db'.orders[id].items))
    case GetOrder(id) => id in db.orders && reply == OneOrder(db.orders[id])
    case ChangeStatus(id, _) => id in db'.orders && reply == OneOrder(db'.orders[id])
    case ListOrders(query) => ValidPage(query.page, query.limit) && reply == ManyOrders(OrderList(db, storeId, query))
  }

  predicate OnlyReads(req: Request) {
    req.GetProduct? || req.ListProducts? || req.GetCategory? || req.ListCategories? || req.GetOrder? || req.ListOrders?
  }

  /** A request is refused exactly when it is unfit, and then, or when it only reads, nothing changes; else the reply tells the truth. */
  lemma {:induction false} RepliesTell(db: Db, storeId: Uuid, req: Request)
    ensures var o := Exec(db, storeId, req);
            && (o.reply.Failed? || o.reply.Refused? <==> Unfit(db, storeId, req))
            && (Unfit(db, storeId, req) || OnlyReads(req) ==> o.db == db)
            && (!Unfit(db, storeId, req) ==> Tells(db, storeId, req, o.db, o.reply))
  {
    hide CanFill, RunningTotal, Column, CanRestock, Restocked, Deducted, Notice, CreateError, ProductList, OrderList, CategoryFits;
  }

  // ----- the ledger's requests -----

  function RequestOf(op: Ledger.Op): (req: Request) {
    match op
    case Place(_, lines, orderId, now) => CreateOrder(lines, orderId, now)
    case Change(_, orderId, status) => ChangeStatus(orderId, status)
    case Edit(_, id, patch) => UpdateProduct(id, patch)
    case Add(_, dto, id, now) => CreateProduct(dto, id, now)
    case Remove(_, id) => RemoveProduct(id)
  }

  /** The ledger runs the requests as the services serve them. */
  lemma LedgerStepIsExec(db: Db, op: Ledger.Op)
    requires Fresh(db, RequestOf(op))
    ensures Ledger.Step(db, op) == Exec(db, op.storeId, RequestOf(op)).db
  {
    hide CanPlace, Placed, CanRestock, Changed, CategoryFits, InRange, Patched, ProductRemoved, CreateError;
  }
}
