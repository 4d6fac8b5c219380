/** Non-interference between stores, for one request and for whole runs. */
module Isolation {
  import opened Schema
  import opened Listing
  import opened Orders
  import opened Catalogue
  import opened Money
  import opened Tenancy
  import Binary64

  function OwnProducts(products: map<Uuid, Product>, storeId: Uuid): (r: map<Uuid, Product>) {
    map p | p in products && products[p].storeId == storeId :: products[p]
  }

  function OwnOrders(orders: map<Uuid, Order>, storeId: Uuid): (r: map<Uuid, Order>) {
    map o | o in orders && orders[o].storeId == storeId :: orders[o]
  }

  function OwnStore(stores: map<Uuid, Store>, storeId: Uuid): (r: map<Uuid, Store>) {
    map s | s in stores && s == storeId :: stores[s]
  }

  function OwnerEmail(stores: map<Uuid, Store>, emails: map<Uuid, string>, storeId: Uuid): (r: map<Uuid, string>) {
    map u | u in emails && storeId in stores && stores[storeId].ownerId == u :: emails[u]
  }

  /** What belongs to a store: its rows, and the two rows its order mails are made from. */
  function Part(db: Db, storeId: Uuid): (part: Db) {
    Db(OwnProducts(db.products, storeId), StoreCategories(db.categories, storeId), OwnOrders(db.orders, storeId), [],
       OwnStore(db.stores, storeId), OwnerEmail(db.stores, db.emails, storeId))
  }

  // The part of a table under insertion of one row, and one row of the part.

  lemma OwnProductsRow(products: map<Uuid, Product>, storeId: Uuid, id: Uuid, product: Product)
    ensures InStore(OwnProducts(products, storeId), storeId, id) <==> InStore(products, storeId, id)
    ensures InStore(products, storeId, id) ==> OwnProducts(products, storeId)[id] == products[id]
    ensures product.storeId == storeId ==>
              OwnProducts(products[id := product], storeId) == OwnProducts(products, storeId)[id := product]
    ensures product.storeId != storeId && !InStore(products, storeId, id) ==>
              OwnProducts(products[id := product], storeId) == OwnProducts(products, storeId)
  {
  }

  lemma OwnCategoriesRow(db: Db, storeId: Uuid, id: Uuid, category: Category)
    ensures OwnsCategory(Part(db, storeId), storeId, id) <==> OwnsCategory(db, storeId, id)
    ensures OwnsCategory(db, storeId, id) ==> StoreCategories(db.categories, storeId)[id] == db.categories[id]
    ensures id in StoreCategories(db.categories, storeId) <==> OwnsCategory(db, storeId, id)
    ensures category.storeId == storeId ==>
              StoreCategories(db.categories[id := category], storeId) == StoreCategories(db.categories, storeId)[id := category]
    ensures category.storeId != storeId && !OwnsCategory(db, storeId, id) ==>
              StoreCategories(db.categories[id := category], storeId) == StoreCategories(db.categories, storeId)
  {
  }

  lemma OwnOrdersRow(orders: map<Uuid, Order>, storeId: Uuid, id: Uuid, order: Order)
    ensures id in OwnOrders(orders, storeId) <==> id in orders && orders[id].storeId == storeId
    ensures id in OwnOrders(orders, storeId) ==> OwnOrders(orders, storeId)[id] == orders[id]
    ensures order.storeId == storeId ==> OwnOrders(orders[id := order], storeId) == OwnOrders(orders, storeId)[id := order]
    ensures order.storeId != storeId && !(id in orders && orders[id].storeId == storeId) ==>
              OwnOrders(orders[id := order], storeId) == OwnOrders(orders, storeId)
  {
  }

  lemma PartOfPart(db: Db, storeId: Uuid)
    ensures var part := Part(db, storeId);
            && OwnProducts(part.products, storeId) == part.products
            && StoreCategories(part.categories, storeId) == part.categories
            && OwnOrders(part.orders, storeId) == part.orders
            && OwnStore(part.stores, storeId) == part.stores
            && OwnerEmail(part.stores, part.emails, storeId) == part.emails
  {
  }

  /** Links between rows never cross stores. */
  predicate Linked(db: Db) {
    ProductsLinked(db) && ItemsLinked(db)
  }

  // ----- every request keeps the links -----

  lemma KeepsLinks(db: Db, storeId: Uuid, req: Request)
    requires Linked(db) && Fresh(db, req)
    ensures Linked(Exec(db, storeId, req).db)
  {
    hide Placed, Changed, CanPlace, CanChange, CreateError, ProductList, OrderList, ProductRemoved, CategoryRemoved;
    if req.RemoveProduct? || req.RemoveCategory? {
      RemovalsKeepLinks(db, req.id);
    } else if req.CreateOrder? {
      if CanPlace(db, storeId, req.lines) {
        PlacedKeepsLinks(db, storeId, req.lines, req.id, req.now);
      }
    } else if req.ChangeStatus? && OwnsOrder(db, storeId, req.id) {
      ChangedKeepsLinks(db, storeId, req.id, req.status);
    }
  }

  lemma RemovalsKeepLinks(db: Db, id: Uuid)
    requires Linked(db)
    ensures Linked(ProductRemoved(db, id)) && Linked(CategoryRemoved(db, id))
  {
  }

  lemma ChangedKeepsLinks(db: Db, storeId: Uuid, orderId: Uuid, status: OrderStatus)
    requires Linked(db) && orderId in db.orders
    ensures Linked(Changed(db, storeId, orderId, status))
  {
    hide Returned;
  }

  lemma PlacedKeepsLinks(db: Db, storeId: Uuid, lines: seq<Line>, orderId: Uuid, now: nat)
    requires Linked(db) && CanPlace(db, storeId, lines)
    ensures Linked(Placed(db, storeId, lines, orderId, now))
  {
    hide RunningTotal, Column, Charges, Notice, Demand;
    var db' := Placed(db, storeId, lines, orderId, now);
    forall i | 0 <= i < |lines|
      ensures ItemLinked(db', storeId, db'.orders[orderId].items[i])
    {
      assert InStore(db.products, storeId, lines[i].productId);
    }
  }

  // ----- a request sees its store's part only -----

  /** Serving a request on the store's part alone gives the same reply and the same new part. */
  predicate SeesPartOnly(db: Db, storeId: Uuid, req: Request) {
    var part := Part(db, storeId);
    && Exec(db, storeId, req).reply == Exec(part, storeId, req).reply
    && Part(Exec(db, storeId, req).db, storeId) == Part(Exec(part, storeId, req).db, storeId)
  }

  lemma CategoryLinkSeen(db: Db, storeId: Uuid, id: Uuid)
    requires ProductsLinked(db) && InStore(db.products, storeId, id)
    ensures id in Part(db, storeId).products && Join(Part(db, storeId), id) == Join(db, id)
  {
    var c := db.products[id].categoryId;
    if c.Some? {
      OwnCategoriesRow(db, storeId, c.value, Category(storeId, ""));
    }
  }

  lemma SaveSeen(db: Db, storeId: Uuid, id: Uuid, product: Product)
    requires product.storeId == storeId
    ensures Part(SaveProduct(db, id, product).db, storeId) ==
            Part(SaveProduct(Part(db, storeId), id, product).db, storeId)
  {
    hide OwnProducts, StoreCategories, OwnOrders, OwnStore, OwnerEmail;
    PartOfPart(db, storeId);
    OwnProductsRow(db.products, storeId, id, product);
    OwnProductsRow(Part(db, storeId).products, storeId, id, product);
  }

  lemma FitSeen(db: Db, storeId: Uuid, category: Option<Uuid>)
    ensures CategoryFits(db, storeId, category) <==> CategoryFits(Part(db, storeId), storeId, category)
  {
    if category.Some? {
      OwnCategoriesRow(db, storeId, category.value, Category(storeId, ""));
    }
  }

  lemma CreateProductRequest(db: Db, storeId: Uuid, req: Request)
    requires req.CreateProduct?
    ensures SeesPartOnly(db, storeId, req)
  {
    hide CategoryFits, InRange, Part;
    FitSeen(db, storeId, req.newProduct.categoryId);
    PartTwice(db, storeId);
    SaveSeen(db, storeId, req.id, ProductFrom(storeId, req.newProduct, req.now));
  }

  lemma PartTwice(db: Db, storeId: Uuid)
    ensures Part(Part(db, storeId), storeId) == Part(db, storeId)
  {
    PartOfPart(db, storeId);
  }

  lemma ProductRequests(db: Db, storeId: Uuid, req: Request)
    requires Linked(db)
    requires req.GetProduct? || req.UpdateProduct? || req.SetProductImage?
    ensures SeesPartOnly(db, storeId, req)
  {
    hide ItemsLinked, ProductsLinked, Join, InRange, Patched, Part, SaveProduct, CategoryFits;
    PartTwice(db, storeId);
    OwnsSeen(db, storeId, req.id);
    if InStore(db.products, storeId, req.id) {
      CategoryLinkSeen(db, storeId, req.id);
      var product := db.products[req.id];
      if req.UpdateProduct? {
        FitSeen(db, storeId, req.patch.categoryId);
        PatchedKeepsStore(product, req.patch);
        SaveSeen(db, storeId, req.id, Patched(product, req.patch));
      } else if req.SetProductImage? {
        SaveSeen(db, storeId, req.id, product.(imageUrl := Some(req.imageUrl)));
      }
      SavedReply(db, storeId);
    }
  }

  lemma OwnsSeen(db: Db, storeId: Uuid, id: Uuid)
    ensures InStore(Part(db, storeId).products, storeId, id) <==> InStore(db.products, storeId, id)
    ensures InStore(db.products, storeId, id) ==> Part(db, storeId).products[id] == db.products[id]
  {
  }

  lemma SavedReply(db: Db, storeId: Uuid)
    ensures forall id, product :: SaveProduct(db, id, product).reply == SaveProduct(Part(db, storeId), id, product).reply
  {
    hide Part;
  }

  lemma RemoveProductRequest(db: Db, storeId: Uuid, req: Request)
    requires req.RemoveProduct?
    ensures SeesPartOnly(db, storeId, req)
  {
    hide UnlinkedItems, StoreCategories, OwnStore, OwnerEmail;
    PartOfPart(db, storeId);
    var part := Part(db, storeId);
    if InStore(db.products, storeId, req.id) {
      var a, b := ProductRemoved(db, req.id), ProductRemoved(part, req.id);
      assert OwnProducts(a.products, storeId) == OwnProducts(b.products, storeId);
      assert OwnOrders(a.orders, storeId) == OwnOrders(b.orders, storeId);
    }
  }

  lemma CategoryRequests(db: Db, storeId: Uuid, req: Request)
    requires Fresh(db, req)
    requires req.CreateCategory? || req.ListCategories? || req.GetCategory? || req.UpdateCategory?
    ensures SeesPartOnly(db, storeId, req)
  {
    hide OwnProducts, StoreCategories, OwnOrders, OwnStore, OwnerEmail;
    PartOfPart(db, storeId);
    var part := Part(db, storeId);
    if req.ListCategories? {
      SameCategories(db, storeId);
    } else {
      var category := Category(storeId, if req.CreateCategory? then req.name
                                        else if req.GetCategory? || !OwnsCategory(db, storeId, req.id) then ""
                                        else GetOr(req.newName, db.categories[req.id].name));
      OwnCategoriesRow(db, storeId, req.id, category);
      OwnCategoriesRow(part, storeId, req.id, category);
    }
  }

  lemma SameCategories(db: Db, storeId: Uuid)
    ensures StoreCategories(db.categories, storeId) == StoreCategories(Part(db, storeId).categories, storeId)
  {
  }

  lemma RemoveCategoryRequest(db: Db, storeId: Uuid, req: Request)
    requires req.RemoveCategory?
    ensures SeesPartOnly(db, storeId, req)
  {
    hide OwnOrders, OwnStore, OwnerEmail;
    PartOfPart(db, storeId);
    OwnCategoriesRow(db, storeId, req.id, Category(storeId, ""));
    var part := Part(db, storeId);
    if OwnsCategory(db, storeId, req.id) {
      var a, b := CategoryRemoved(db, req.id), CategoryRemoved(part, req.id);
      assert OwnProducts(a.products, storeId) == OwnProducts(b.products, storeId);
      assert StoreCategories(a.categories, storeId) == StoreCategories(b.categories, storeId);
    }
  }

  lemma ListRequests(db: Db, storeId: Uuid, req: Request)
    requires Linked(db)
    requires req.ListProducts? || req.ListOrders? || req.GetOrder?
    ensures SeesPartOnly(db, storeId, req)
  {
    hide Linked, Part, ProductList, OrderList;
    PartTwice(db, storeId);
    if req.ListProducts? && ValidPage(req.productQuery.page, req.productQuery.limit) {
      SameProductList(db, storeId, req.productQuery);
    } else if req.ListOrders? && ValidPage(req.orderQuery.page, req.orderQuery.limit) {
      SameOrderList(db, storeId, req.orderQuery);
    } else if req.GetOrder? {
      OwnsOrderSeen(db, storeId, req.id);
    }
  }

  lemma SameProductList(db: Db, storeId: Uuid, query: ProductQuery)
    requires Linked(db) && ValidPage(query.page, query.limit)
    ensures ProductList(db, storeId, query) == ProductList(Part(db, storeId), storeId, query)
  {
    hide ItemsLinked, TotalPages, Page, NewestFirst;
    var part := Part(db, storeId);
    PartOfPart(db, storeId);
    var rows := Matching(db, storeId, query);
    assert Matching(part, storeId, query) == rows;
    SamePage(db, part, rows, GetOr(query.page, 1), GetOr(query.limit, 20));
  }

  lemma SameOrderList(db: Db, storeId: Uuid, query: OrderQuery)
    requires ValidPage(query.page, query.limit)
    ensures OrderList(db, storeId, query) == OrderList(Part(db, storeId), storeId, query)
  {
    hide PagedOrders;
    assert MatchingOrders(Part(db, storeId), storeId, query) == MatchingOrders(db, storeId, query);
  }

  lemma OwnsOrderSeen(db: Db, storeId: Uuid, id: Uuid)
    ensures OwnsOrder(Part(db, storeId), storeId, id) <==> OwnsOrder(db, storeId, id)
    ensures OwnsOrder(db, storeId, id) ==> Part(db, storeId).orders[id] == db.orders[id]
  {
  }

  lemma SamePage(db: Db, part: Db, rows: map<Uuid, Product>, page: nat, limit: nat)
    requires rows.Keys <= db.products.Keys && rows.Keys <= part.products.Keys && page >= 1 && limit >= 1
    requires forall p :: p in rows ==> Join(db, p) == Join(part, p)
    ensures Paged(db, rows, page, limit) == Paged(part, rows, page, limit)
  {
    hide Join, Page, NewestFirst, TotalPages;
    PageOfMembers(CreationTimes(rows), page, limit);
  }

  // ----- orders -----

  lemma SameFill(db: Db, storeId: Uuid, lines: seq<Line>)
    ensures var part := Part(db, storeId);
            && (AllInStore(db.products, storeId, lines) <==> AllInStore(part.products, storeId, lines))
            && (CanFill(db.products, storeId, lines) <==> CanFill(part.products, storeId, lines))
            && (AllInStore(db.products, storeId, lines) ==>
                  ItemsOf(db.products, storeId, lines) == ItemsOf(part.products, storeId, lines))
  {
    hide Demand;
    var part := Part(db, storeId);
    forall i | 0 <= i < |lines|
      ensures InStore(db.products, storeId, lines[i].productId) <==> InStore(part.products, storeId, lines[i].productId)
      ensures InStore(db.products, storeId, lines[i].productId) ==>
                db.products[lines[i].productId] == part.products[lines[i].productId]
    {
    }
    if AllInStore(db.products, storeId, lines) {
      assert forall i :: 0 <= i < |lines| ==> InStore(db.products, storeId, lines[i].productId);
      assert ItemsOf(db.products, storeId, lines) == ItemsOf(part.products, storeId, lines);
    }
  }

  lemma SameError(db: Db, storeId: Uuid, lines: seq<Line>)
    ensures CreateError(db, storeId, lines) == CreateError(Part(db, storeId), storeId, lines)
  {
    hide Demand, CanFill, ItemsOf;
    SameFill(db, storeId, lines);
    if !CanFill(db.products, storeId, lines) {
      var part := Part(db, storeId);
      NothingTaken(db.products, storeId, lines[..0]);
      var k := FirstRefused(db.products, storeId, lines, 0);
      SameFill(db, storeId, lines[..k]);
      SameFill(db, storeId, lines[..k + 1]);
      CreateErrorIsRefusal(part, storeId, lines, k);
    }
  }

  lemma SameStock(products: map<Uuid, Product>, storeId: Uuid, lines: seq<Line>)
    ensures OwnProducts(Deducted(products, lines), storeId) == Deducted(OwnProducts(products, storeId), lines)
  {
    hide Demand;
  }

  lemma SameNotice(db: Db, storeId: Uuid, orderId: Uuid, total: real)
    requires total >= 0.0
    ensures Notice(db, storeId, orderId, total) == Notice(Part(db, storeId), storeId, orderId, total)
  {
    hide Binary64.ToFixed2;
  }

  lemma CreateOrderRequest(db: Db, storeId: Uuid, req: Request)
    requires req.CreateOrder? && Fresh(db, req)
    ensures SeesPartOnly(db, storeId, req)
  {
    hide CanFill, ItemsOf, Deducted, RunningTotal, Column, Charges, Notice, CreateError;
    hide OwnProducts, StoreCategories, OwnOrders, OwnStore, OwnerEmail;
    var part := Part(db, storeId);
    PartOfPart(db, storeId);
    SameFill(db, storeId, req.lines);
    SameError(db, storeId, req.lines);
    SameStock(db.products, storeId, req.lines);
    SameStock(part.products, storeId, req.lines);
    if CanFill(db.products, storeId, req.lines) {
      CanFillAllInStore(db.products, storeId, req.lines);
      var order := PlacedOrder(db, storeId, req.lines, req.now);
      assert PlacedOrder(part, storeId, req.lines, req.now) == order;
      OwnOrdersRow(db.orders, storeId, req.id, order);
      OwnOrdersRow(part.orders, storeId, req.id, order);
    }
  }

  lemma SameRestock(products: map<Uuid, Product>, storeId: Uuid, items: seq<Item>)
    ensures CanRestock(products, storeId, items) <==> CanRestock(OwnProducts(products, storeId), storeId, items)
    ensures OwnProducts(Restocked(products, storeId, items), storeId) ==
            Restocked(OwnProducts(products, storeId), storeId, items)
  {
    hide Returned;
    var own := OwnProducts(products, storeId);
    assert forall p :: InStore(products, storeId, p) <==> InStore(own, storeId, p);
    assert forall p :: p in own ==> p in products && own[p] == products[p];
  }

  lemma ChangeStatusRequest(db: Db, storeId: Uuid, req: Request)
    requires req.ChangeStatus?
    ensures SeesPartOnly(db, storeId, req)
  {
    hide CanRestock, Restocked;
    hide OwnProducts, StoreCategories, OwnOrders, OwnStore, OwnerEmail;
    var part := Part(db, storeId);
    PartOfPart(db, storeId);
    OwnOrdersRow(db.orders, storeId, req.id, Order(storeId, Pending, 0, [], 0));
    if OwnsOrder(db, storeId, req.id) {
      var order := db.orders[req.id].(status := req.status);
      OwnOrdersRow(db.orders, storeId, req.id, order);
      OwnOrdersRow(part.orders, storeId, req.id, order);
      SameRestock(db.products, storeId, order.items);
      SameRestock(part.products, storeId, order.items);
    }
  }

  lemma SeesItsPartOnly(db: Db, storeId: Uuid, req: Request)
    requires Linked(db) && Fresh(db, req)
    ensures SeesPartOnly(db, storeId, req)
  {
    hide SeesPartOnly;
    match req
    case CreateOrder(_, _, _) => CreateOrderRequest(db, storeId, req);
    case ChangeStatus(_, _) => ChangeStatusRequest(db, storeId, req);
    case ListProducts(_) => ListRequests(db, storeId, req);
    case ListOrders(_) => ListRequests(db, storeId, req);
    case GetOrder(_) => ListRequests(db, storeId, req);
    case RemoveProduct(_) => RemoveProductRequest(db, storeId, req);
    case CreateProduct(_, _, _) => CreateProductRequest(db, storeId, req);
    case GetProduct(_) => ProductRequests(db, storeId, req);
    case UpdateProduct(_, _) => ProductRequests(db, storeId, req);
    case SetProductImage(_, _) => ProductRequests(db, storeId, req);
    case CreateCategory(_, _) => CategoryRequests(db, storeId, req);
    case ListCategories => CategoryRequests(db, storeId, req);
    case GetCategory(_) => CategoryRequests(db, storeId, req);
    case UpdateCategory(_, _) => CategoryRequests(db, storeId, req);
    case RemoveCategory(_) => RemoveCategoryRequest(db, storeId, req);
  }

  // ----- the mails a request writes -----

  function Added(before: seq<Mail>, after: seq<Mail>): (mails: seq<Mail>) {
    if |before| <= |after| then after[|before|..] else []
  }

  /** The outbox rows that the request adds. */
  function Mailed(db: Db, storeId: Uuid, req: Request): (mails: seq<Mail>) {
    Added(db.outbox, Exec(db, storeId, req).db.outbox)
  }

  lemma OutboxOnlyGrows(db: Db, storeId: Uuid, req: Request)
    ensures Exec(db, storeId, req).db.outbox == db.outbox + Mailed(db, storeId, req)
    ensures !req.CreateOrder? ==> Mailed(db, storeId, req) == []
    ensures req.CreateOrder? && !CanPlace(db, storeId, req.lines) ==> Mailed(db, storeId, req) == []
    ensures req.CreateOrder? && CanPlace(db, storeId, req.lines) ==>
              Mailed(db, storeId, req) ==
              Notice(db, storeId, req.id, RunningTotal(Charges(ItemsOf(db.products, storeId, req.lines))))
  {
    hide CanFill, ItemsOf, Deducted, RunningTotal, Column, Charges, Notice, CreateError, CanRestock, Restocked;
    hide ProductList, OrderList, CategoryFits, InRange, Patched;
    if req.CreateOrder? && CanPlace(db, storeId, req.lines) {
      CanFillAllInStore(db.products, storeId, req.lines);
    }
  }

  lemma MailsSeen(db: Db, storeId: Uuid, req: Request)
    ensures Mailed(db, storeId, req) == Mailed(Part(db, storeId), storeId, req)
  {
    hide Exec, Mailed, CanFill, ItemsOf, RunningTotal, Column, Charges, Notice, Part;
    OutboxOnlyGrows(db, storeId, req);
    OutboxOnlyGrows(Part(db, storeId), storeId, req);
    if req.CreateOrder? {
      SameFill(db, storeId, req.lines);
      if CanFill(db.products, storeId, req.lines) {
        CanFillAllInStore(db.products, storeId, req.lines);
        SameNotice(db, storeId, req.id, RunningTotal(Charges(ItemsOf(db.products, storeId, req.lines))));
      }
    }
  }

  /**
   Two databases that agree on a store's part give the same reply to the store's
   request, add the same mails, and still agree on its part afterwards.
   */
  lemma NonInterference(a: Db, b: Db, storeId: Uuid, req: Request)
    requires Linked(a) && Linked(b) && Fresh(a, req) && Fresh(b, req)
    requires Part(a, storeId) == Part(b, storeId)
    ensures Exec(a, storeId, req).reply == Exec(b, storeId, req).reply
    ensures Part(Exec(a, storeId, req).db, storeId) == Part(Exec(b, storeId, req).db, storeId)
    ensures Exec(a, storeId, req).db.outbox == a.outbox + Mailed(a, storeId, req)
    ensures Exec(b, storeId, req).db.outbox == b.outbox + Mailed(b, storeId, req)
    ensures Mailed(a, storeId, req) == Mailed(b, storeId, req)
  {
    hide Exec, Part, Linked, Mailed;
    SeesItsPartOnly(a, storeId, req);
    SeesItsPartOnly(b, storeId, req);
    OutboxOnlyGrows(a, storeId, req);
    OutboxOnlyGrows(b, storeId, req);
    MailsSeen(a, storeId, req);
    MailsSeen(b, storeId, req);
  }

  // ----- a request changes its store's part only -----

  lemma {:induction false} OtherStoresUnchanged(db: Db, storeId: Uuid, req: Request, other: Uuid)
    requires Linked(db) && Fresh(db, req) && other != storeId
    ensures Part(Exec(db, storeId, req).db, other) == Part(db, other)
  {
    hide Linked, Part;
    match req
    case CreateOrder(_, _, _) => OthersKeepOrders(db, storeId, req, other);
    case ChangeStatus(_, _) => OthersNotRestocked(db, storeId, req, other);
    case RemoveProduct(_) => OthersKeepItems(db, storeId, req, other);
    case RemoveCategory(_) => OthersKeepCategories(db, storeId, req, other);
    case CreateProduct(_, _, _) => OthersKeepRows(db, storeId, req, other);
    case UpdateProduct(_, _) => OthersKeepRows(db, storeId, req, other);
    case SetProductImage(_, _) => OthersKeepRows(db, storeId, req, other);
    case CreateCategory(_, _) => OthersKeepRows(db, storeId, req, other);
    case UpdateCategory(_, _) => OthersKeepRows(db, storeId, req, other);
    case _ =>
  }

  lemma OthersKeepRows(db: Db, storeId: Uuid, req: Request, other: Uuid)
    requires Fresh(db, req) && other != storeId
    requires req.CreateProduct? || req.UpdateProduct? || req.SetProductImage? || req.CreateCategory? || req.UpdateCategory?
    ensures Part(Exec(db, storeId, req).db, other) == Part(db, other)
  {
    hide OwnProducts, StoreCategories, OwnOrders, OwnStore, OwnerEmail, CategoryFits, InRange;
    var db' := Exec(db, storeId, req).db;
    if req.id in db'.products {
      OwnProductsRow(db.products, other, req.id, db'.products[req.id]);
    }
    if req.id in db'.categories {
      OwnCategoriesRow(db, other, req.id, db'.categories[req.id]);
    }
  }

  lemma OthersKeepStock(products: map<Uuid, Product>, storeId: Uuid, lines: seq<Line>, other: Uuid)
    requires AllInStore(products, storeId, lines) && other != storeId
    ensures OwnProducts(Deducted(products, lines), other) == OwnProducts(products, other)
  {
    hide Demand;
    forall p | p in products && products[p].storeId == other
      ensures Demand(lines, p) == 0
    {
      assert forall i :: 0 <= i < |lines| ==> InStore(products, storeId, lines[i].productId);
      DemandOfOthers(lines, p);
    }
  }

  lemma OthersKeepOrders(db: Db, storeId: Uuid, req: Request, other: Uuid)
    requires req.CreateOrder? && Fresh(db, req) && other != storeId
    ensures Part(Exec(db, storeId, req).db, other) == Part(db, other)
  {
    hide CanFill, AllInStore, Deducted, RunningTotal, Column, Charges, Notice, CreateError, OwnProducts, OwnOrders;
    if CanPlace(db, storeId, req.lines) {
      CanFillAllInStore(db.products, storeId, req.lines);
      OthersKeepStock(db.products, storeId, req.lines, other);
      OwnOrdersRow(db.orders, other, req.id, PlacedOrder(db, storeId, req.lines, req.now));
    }
  }

  lemma CanFillAllInStore(products: map<Uuid, Product>, storeId: Uuid, lines: seq<Line>)
    requires CanFill(products, storeId, lines)
    ensures AllInStore(products, storeId, lines)
  {
  }

  lemma OthersNotRestocked(db: Db, storeId: Uuid, req: Request, other: Uuid)
    requires req.ChangeStatus? && other != storeId
    ensures Part(Exec(db, storeId, req).db, other) == Part(db, other)
  {
    hide Returned, CanRestock, OwnOrders;
    if OwnsOrder(db, storeId, req.id) {
      var order := db.orders[req.id];
      OwnOrdersRow(db.orders, other, req.id, order.(status := req.status));
      assert OwnProducts(Restocked(db.products, storeId, order.items), other) == OwnProducts(db.products, other);
    }
  }

  lemma ProductRemovedElsewhere(db: Db, id: Uuid, other: Uuid)
    requires ItemsLinked(db) && id in db.products && db.products[id].storeId != other
    ensures Part(ProductRemoved(db, id), other) == Part(db, other)
  {
    forall o | o in db.orders && db.orders[o].storeId == other
      ensures UnlinkedItems(db.orders[o].items, id) == db.orders[o].items
    {
      var items := db.orders[o].items;
      forall i | 0 <= i < |items|
        ensures Unlinked(items[i], id) == items[i]
      {
        assert ItemLinked(db, other, items[i]);
      }
    }
  }

  lemma OthersKeepItems(db: Db, storeId: Uuid, req: Request, other: Uuid)
    requires req.RemoveProduct? && Linked(db) && other != storeId
    ensures Part(Exec(db, storeId, req).db, other) == Part(db, other)
  {
    hide Part, ProductRemoved;
    if InStore(db.products, storeId, req.id) {
      ProductRemovedElsewhere(db, req.id, other);
    }
  }

  lemma CategoryRemovedElsewhere(db: Db, id: Uuid, other: Uuid)
    requires ProductsLinked(db) && id in db.categories && db.categories[id].storeId != other
    ensures Part(CategoryRemoved(db, id), other) == Part(db, other)
  {
    assert forall p :: p in db.products && db.products[p].storeId == other ==> db.products[p].categoryId != Some(id);
  }

  lemma OthersKeepCategories(db: Db, storeId: Uuid, req: Request, other: Uuid)
    requires req.RemoveCategory? && Linked(db) && other != storeId
    ensures Part(Exec(db, storeId, req).db, other) == Part(db, other)
  {
    hide Part, CategoryRemoved;
    if OwnsCategory(db, storeId, req.id) {
      CategoryRemovedElsewhere(db, req.id, other);
    }
  }

  // ----- whole runs -----

  datatype Call = Call(storeId: Uuid, req: Request)

  function Run(db: Db, calls: seq<Call>): (db': Db) {
    if |calls| == 0 then db
    else
      var last := calls[|calls| - 1];
      Exec(Run(db, calls[..|calls| - 1]), last.storeId, last.req).db
  }

  predicate FreshRun(db: Db, calls: seq<Call>) {
    |calls| > 0 ==>
      && FreshRun(db, calls[..|calls| - 1])
      && Fresh(Run(db, calls[..|calls| - 1]), calls[|calls| - 1].req)
  }

  /** The run with every other store's requests left out. */
  function Own(calls: seq<Call>, storeId: Uuid): (own: seq<Call>) {
    if |calls| == 0 then []
    else
      var last := calls[|calls| - 1];
      Own(calls[..|calls| - 1], storeId) + if last.storeId == storeId then [last] else []
  }

  /** The mails that the store's requests have added to the outbox of the run, in order. */
  function MailedBy(db: Db, calls: seq<Call>, storeId: Uuid): (mails: seq<Mail>) {
    if |calls| == 0 then []
    else
      var before, last := calls[..|calls| - 1], calls[|calls| - 1];
      MailedBy(db, before, storeId) + if last.storeId == storeId then Mailed(Run(db, before), storeId, last.req) else []
  }

  lemma {:induction false} RunKeepsLinks(db: Db, calls: seq<Call>)
    requires Linked(db) && FreshRun(db, calls)
    ensures Linked(Run(db, calls))
  {
    hide Exec, Fresh, Linked;
    if |calls| == 0 {
    } else {
      RunKeepsLinks(db, calls[..|calls| - 1]);
      KeepsLinks(Run(db, calls[..|calls| - 1]), calls[|calls| - 1].storeId, calls[|calls| - 1].req);
    }
  }

  lemma RunNext(db: Db, calls: seq<Call>, call: Call)
    ensures Run(db, calls + [call]) == Exec(Run(db, calls), call.storeId, call.req).db
  {
    hide Exec;
    assert (calls + [call])[..|calls|] == calls;
  }

  /** Every row belongs to the store. */
  predicate OnlyOf(db: Db, storeId: Uuid) {
    && (forall p :: p in db.products ==> db.products[p].storeId == storeId)
    && (forall c :: c in db.categories ==> db.categories[c].storeId == storeId)
    && (forall o :: o in db.orders ==> db.orders[o].storeId == storeId)
  }

  lemma StaysOnlyOf(db: Db, storeId: Uuid, req: Request)
    requires OnlyOf(db, storeId)
    ensures OnlyOf(Exec(db, storeId, req).db, storeId)
  {
    hide CanFill, RunningTotal, Column, Charges, CanRestock, Notice, CreateError, ProductList, OrderList, Demand, Returned;
  }

  lemma PartIsLinked(db: Db, storeId: Uuid)
    requires Linked(db)
    ensures Linked(Part(db, storeId)) && OnlyOf(Part(db, storeId), storeId)
  {
  }

  lemma FreshInOwn(a: Db, b: Db, storeId: Uuid, req: Request)
    requires Part(a, storeId) == Part(b, storeId) && OnlyOf(b, storeId) && Fresh(a, req)
    ensures Fresh(b, req)
  {
    assert forall p :: p in b.products ==> p in Part(b, storeId).products;
    assert forall c :: c in b.categories ==> c in Part(b, storeId).categories;
    assert forall o :: o in b.orders ==> o in Part(b, storeId).orders;
  }

  /**
   In any run of any number of stores, a store's part is what its own requests alone
   make of the part it began with, and the mails they write are the same.
   */
  lemma {:induction false} RunOfOwnRequests(db: Db, calls: seq<Call>, storeId: Uuid)
    requires Linked(db) && FreshRun(db, calls)
    ensures Part(Run(db, calls), storeId) == Part(Run(Part(db, storeId), Own(calls, storeId)), storeId)
    ensures Run(Part(db, storeId), Own(calls, storeId)).outbox == MailedBy(db, calls, storeId)
    ensures Linked(Run(Part(db, storeId), Own(calls, storeId)))
    ensures OnlyOf(Run(Part(db, storeId), Own(calls, storeId)), storeId)
    ensures FreshRun(Part(db, storeId), Own(calls, storeId))
  {
    if |calls| == 0 {
      PartOfPart(db, storeId);
      PartIsLinked(db, storeId);
    } else {
      hide Exec, Fresh, Linked, Part, OnlyOf, Mailed;
      var before, call := calls[..|calls| - 1], calls[|calls| - 1];
      var part, own := Part(db, storeId), Own(before, storeId);
      RunOfOwnRequests(db, before, storeId);
      RunKeepsLinks(db, before);
      if call.storeId == storeId {
        assert (own + [call])[..|own|] == own;
        FreshInOwn(Run(db, before), Run(part, own), storeId, call.req);
        NonInterference(Run(db, before), Run(part, own), storeId, call.req);
        RunNext(part, own, call);
        KeepsLinks(Run(part, own), storeId, call.req);
        StaysOnlyOf(Run(part, own), storeId, call.req);
      } else {
        assert own + [] == own;
        OtherStoresUnchanged(Run(db, before), call.storeId, call.req, storeId);
      }
    }
  }

  /** So each reply a store gets is the one it would get if no other store had ever made a request. */
  lemma {:induction false} RepliesOfOwnRequests(db: Db, calls: seq<Call>, storeId: Uuid, req: Request)
    requires Linked(db) && FreshRun(db, calls) && Fresh(Run(db, calls), req)
    ensures Exec(Run(db, calls), storeId, req).reply ==
            Exec(Run(Part(db, storeId), Own(calls, storeId)), storeId, req).reply
  {
    hide Exec, Fresh, Linked, Part, OnlyOf;
    RunOfOwnRequests(db, calls, storeId);
    RunKeepsLinks(db, calls);
    FreshInOwn(Run(db, calls), Run(Part(db, storeId), Own(calls, storeId)), storeId, req);
    NonInterference(Run(db, calls), Run(Part(db, storeId), Own(calls, storeId)), storeId, req);
  }
}
