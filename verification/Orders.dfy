/** OrdersService: placing an order and changing its status, each in one transaction. */
module Orders {
  import opened Schema
  import opened Listing
  import opened Money
  import Binary64

  datatype Line = Line(productId: Uuid, quantity: nat)

  // ----- what an order takes from the stock -----

  /** The quantity of product p summed over all lines, repeats included. */
  function Demand(lines: seq<Line>, p: Uuid): (n: nat) {
    if |lines| == 0 then 0
    else
      var last := lines[|lines| - 1];
      Demand(lines[..|lines| - 1], p) + if last.productId == p then last.quantity else 0
  }

  predicate AllInStore(products: map<Uuid, Product>, storeId: Uuid, lines: seq<Line>) {
    forall i :: 0 <= i < |lines| ==> InStore(products, storeId, lines[i].productId)
  }

  /** Every product is in the store and holds the whole quantity ordered of it. */
  predicate CanFill(products: map<Uuid, Product>, storeId: Uuid, lines: seq<Line>) {
    && AllInStore(products, storeId, lines)
    && forall i :: 0 <= i < |lines| ==>
      Demand(lines, lines[i].productId) <= products[lines[i].productId].stock
  }

  function Deducted(products: map<Uuid, Product>, lines: seq<Line>): (r: map<Uuid, Product>) {
    map p | p in products :: products[p].(stock := products[p].stock - Demand(lines, p))
  }

  /** The order's items: name and price are copied from the product. */
  function ItemOf(product: Product, line: Line): (item: Item) {
    Item(Some(line.productId), product.name, line.quantity, product.price)
  }

  function ItemsOf(products: map<Uuid, Product>, storeId: Uuid, lines: seq<Line>): (items: seq<Item>)
    requires AllInStore(products, storeId, lines)
    ensures |items| == |lines|
  {
    seq(|lines|, i requires 0 <= i < |lines| => ItemOf(products[lines[i].productId], lines[i]))
  }

  function Charges(items: seq<Item>): (charges: seq<Charge>)
    ensures |charges| == |items|
  {
    seq(|items|, i requires 0 <= i < |items| => Charge(items[i].unitPrice, items[i].quantity))
  }

  // ----- what a cancelled order gives back -----

  function Returned(items: seq<Item>, p: Uuid): (n: nat) {
    if |items| == 0 then 0
    else
      var last := items[|items| - 1];
      Returned(items[..|items| - 1], p) + if last.productId == Some(p) then last.quantity else 0
  }

  /** increment({ id, storeId }) for every item that still has a product. */
  function Restocked(products: map<Uuid, Product>, storeId: Uuid, items: seq<Item>): (r: map<Uuid, Product>) {
    map p | p in products ::
      if products[p].storeId == storeId
      then products[p].(stock := products[p].stock + Returned(items, p))
      else products[p]
  }

  /** No increment leaves the range of the stock column. */
  predicate CanRestock(products: map<Uuid, Product>, storeId: Uuid, items: seq<Item>) {
    forall p :: p in products && products[p].storeId == storeId && Returned(items, p) > 0 ==>
      products[p].stock + Returned(items, p) <= INT4_MAX
  }

  // ----- the two transactions -----

  predicate CanPlace(db: Db, storeId: Uuid, lines: seq<Line>) {
    && CanFill(db.products, storeId, lines)
    && Column(RunningTotal(Charges(ItemsOf(db.products, storeId, lines)))) < NUMERIC_10_2
  }

  function PlacedOrder(db: Db, storeId: Uuid, lines: seq<Line>, now: nat): (order: Order)
    requires AllInStore(db.products, storeId, lines)
  {
    var items := ItemsOf(db.products, storeId, lines);
    Order(storeId, Pending, Column(RunningTotal(Charges(items))), items, now)
  }

  /** The mail of a new order: one if the store and its owner exist, otherwise none. */
  function Notice(db: Db, storeId: Uuid, orderId: Uuid, total: real): (mails: seq<Mail>)
    requires total >= 0.0
  {
    if storeId in db.stores && db.stores[storeId].ownerId in db.emails then
      [NewOrder(db.emails[db.stores[storeId].ownerId], db.stores[storeId].name, orderId, Binary64.ToFixed2(total))]
    else []
  }

  /** The tables after a committed order. */
  function Placed(db: Db, storeId: Uuid, lines: seq<Line>, orderId: Uuid, now: nat): (db': Db)
    requires AllInStore(db.products, storeId, lines)
  {
    var total := RunningTotal(Charges(ItemsOf(db.products, storeId, lines)));
    db.(products := Deducted(db.products, lines),
        orders := db.orders[orderId := PlacedOrder(db, storeId, lines, now)],
        outbox := db.outbox + Notice(db, storeId, orderId, total))
  }

  predicate OwnsOrder(db: Db, storeId: Uuid, orderId: Uuid) {
    orderId in db.orders && db.orders[orderId].storeId == storeId
  }

  /** A move into CANCELLED: the only status change that touches the stock. */
  predicate NewlyCancelled(order: Order, status: OrderStatus) {
    status == Cancelled && order.status != Cancelled
  }

  predicate CanChange(db: Db, storeId: Uuid, orderId: Uuid, status: OrderStatus) {
    && OwnsOrder(db, storeId, orderId)
    && (NewlyCancelled(db.orders[orderId], status) ==>
          CanRestock(db.products, storeId, db.orders[orderId].items))
  }

  /** The tables after a committed status change. */
  function Changed(db: Db, storeId: Uuid, orderId: Uuid, status: OrderStatus): (db': Db)
    requires orderId in db.orders
  {
    var order := db.orders[orderId];
    db.(products := if NewlyCancelled(order, status) then Restocked(db.products, storeId, order.items) else db.products,
        orders := db.orders[orderId := order.(status := status)])
  }

  // ----- sums over lines and items -----

  lemma {:induction false} DemandPrefix(lines: seq<Line>, n: nat, p: Uuid)
    requires n <= |lines|
    ensures Demand(lines[..n], p) <= Demand(lines, p)
  {
    if n == |lines| {
      assert lines[..n] == lines;
    } else {
      assert lines[..|lines| - 1][..n] == lines[..n];
      DemandPrefix(lines[..|lines| - 1], n, p);
    }
  }

  lemma {:induction false} DemandOfOthers(lines: seq<Line>, p: Uuid)
    requires forall i :: 0 <= i < |lines| ==> lines[i].productId != p
    ensures Demand(lines, p) == 0
  {
    if |lines| == 0 {
    } else {
      DemandOfOthers(lines[..|lines| - 1], p);
    }
  }

  lemma {:induction false} ReturnedPrefix(items: seq<Item>, n: nat, p: Uuid)
    requires n <= |items|
    ensures Returned(items[..n], p) <= Returned(items, p)
  {
    if n == |items| {
      assert items[..n] == items;
    } else {
      assert items[..|items| - 1][..n] == items[..n];
      ReturnedPrefix(items[..|items| - 1], n, p);
    }
  }

  /** A longer order asks for at least as much: a filled order has filled prefixes. */
  lemma CanFillPrefix(products: map<Uuid, Product>, storeId: Uuid, lines: seq<Line>, n: nat)
    requires n <= |lines| && CanFill(products, storeId, lines)
    ensures CanFill(products, storeId, lines[..n])
  {
    forall i | 0 <= i < n
      ensures Demand(lines[..n], lines[i].productId) <= products[lines[i].productId].stock
    {
      DemandPrefix(lines, n, lines[i].productId);
    }
  }

  lemma Extend(lines: seq<Line>, i: nat, p: Uuid)
    requires i < |lines|
    ensures lines[..i + 1][..i] == lines[..i]
    ensures Demand(lines[..i + 1], p) ==
            Demand(lines[..i], p) + if lines[i].productId == p then lines[i].quantity else 0
  {
    assert lines[..i + 1][..i] == lines[..i];
  }

  /** The loop's check of one line against the remaining stock decides the longer prefix. */
  lemma CanFillNext(products: map<Uuid, Product>, storeId: Uuid, lines: seq<Line>, i: nat)
    requires i < |lines| && CanFill(products, storeId, lines[..i])
    ensures CanFill(products, storeId, lines[..i + 1]) <==>
            && InStore(products, storeId, lines[i].productId)
            && lines[i].quantity <= products[lines[i].productId].stock - Demand(lines[..i], lines[i].productId)
  {
    var q := lines[i].productId;
    assert lines[..i + 1][i] == lines[i];
    Extend(lines, i, q);
    if InStore(products, storeId, q) && lines[i].quantity <= products[q].stock - Demand(lines[..i], q) {
      forall j | 0 <= j < i + 1
        ensures InStore(products, storeId, lines[j].productId)
        ensures Demand(lines[..i + 1], lines[j].productId) <= products[lines[j].productId].stock
      {
        Extend(lines, i, lines[j].productId);
        assert j < i ==> lines[..i][j] == lines[j];
      }
    }
  }

  lemma DeductedNext(products: map<Uuid, Product>, lines: seq<Line>, i: nat)
    requires i < |lines| && lines[i].productId in products
    ensures var q := lines[i].productId;
            var before := Deducted(products, lines[..i]);
            Deducted(products, lines[..i + 1]) == before[q := before[q].(stock := before[q].stock - lines[i].quantity)]
  {
    forall p | p in products
      ensures Demand(lines[..i + 1], p) ==
              Demand(lines[..i], p) + if lines[i].productId == p then lines[i].quantity else 0
    {
      Extend(lines, i, p);
    }
  }

  lemma ReturnedNext(items: seq<Item>, i: nat, p: Uuid)
    requires i < |items|
    ensures Returned(items[..i + 1], p) ==
            Returned(items[..i], p) + if items[i].productId == Some(p) then items[i].quantity else 0
  {
    assert items[..i + 1][..i] == items[..i];
  }

  /** One increment: the range check decides the longer prefix, and so does its effect. */
  lemma RestockedNext(products: map<Uuid, Product>, storeId: Uuid, items: seq<Item>, i: nat)
    requires i < |items| && CanRestock(products, storeId, items[..i])
    ensures var before := Restocked(products, storeId, items[..i]);
            var item := items[i];
            && (forall p :: InStore(before, storeId, p) <==> InStore(products, storeId, p))
            && if item.productId.Some? && InStore(before, storeId, item.productId.value) then
                 var id := item.productId.value;
                 var stock := before[id].stock + item.quantity;
                 && (CanRestock(products, storeId, items[..i + 1]) <==> stock <= INT4_MAX || item.quantity == 0)
                 && Restocked(products, storeId, items[..i + 1]) == before[id := before[id].(stock := stock)]
               else
                 && CanRestock(products, storeId, items[..i + 1])
                 && Restocked(products, storeId, items[..i + 1]) == before
  {
    hide Returned;
    forall p: Uuid
      ensures Returned(items[..i + 1], p) ==
              Returned(items[..i], p) + if items[i].productId == Some(p) then items[i].quantity else 0
    {
      ReturnedNext(items, i, p);
    }
  }

  lemma CanRestockPrefix(products: map<Uuid, Product>, storeId: Uuid, items: seq<Item>, n: nat)
    requires n <= |items| && CanRestock(products, storeId, items)
    ensures CanRestock(products, storeId, items[..n])
  {
    forall p | p in products
      ensures Returned(items[..n], p) <= Returned(items, p)
    {
      ReturnedPrefix(items, n, p);
    }
  }

  lemma NothingTaken(products: map<Uuid, Product>, storeId: Uuid, lines: seq<Line>)
    requires lines == []
    ensures CanFill(products, storeId, lines)
    ensures Deducted(products, lines) == products
    ensures RunningTotal(Charges(ItemsOf(products, storeId, lines))) == 0.0
  {
  }

  lemma NothingRestocked(products: map<Uuid, Product>, storeId: Uuid, items: seq<Item>)
    requires items == []
    ensures Restocked(products, storeId, items) == products
    ensures CanRestock(products, storeId, items)
  {
  }

  /** Where the loop of create stops: the first line that the stock left by the earlier ones refuses. */
  predicate RefusedAt(products: map<Uuid, Product>, storeId: Uuid, lines: seq<Line>, k: nat) {
    && k < |lines|
    && CanFill(products, storeId, lines[..k])
    && !CanFill(products, storeId, lines[..k + 1])
  }

  function Refusal(products: map<Uuid, Product>, storeId: Uuid, lines: seq<Line>, k: nat): (e: Error)
    requires k < |lines|
  {
    var line := lines[k];
    if !InStore(products, storeId, line.productId) then ProductNotFound(line.productId)
    else
      var product := products[line.productId];
      InsufficientStock(product.name, line.quantity, product.stock - Demand(lines[..k], line.productId))
  }

  /** The error names a product that the store does not have, or one whose stock falls short, with the figures. */
  predicate SaysWhy(products: map<Uuid, Product>, storeId: Uuid, lines: seq<Line>, error: Error) {
    match error
    case OutOfRange => CanFill(products, storeId, lines)
    case ProductNotFound(id) => !InStore(products, storeId, id) && exists k :: 0 <= k < |lines| && lines[k].productId == id
    case InsufficientStock(name, requested, available) =>
      exists k :: 0 <= k < |lines| &&
        var id := lines[k].productId;
        && InStore(products, storeId, id) && name == products[id].name && requested == lines[k].quantity
        && available == products[id].stock - Demand(lines[..k], id) && available < requested
    case _ => false
  }

  lemma RefusalSaysWhy(products: map<Uuid, Product>, storeId: Uuid, lines: seq<Line>, k: nat)
    requires RefusedAt(products, storeId, lines, k)
    ensures SaysWhy(products, storeId, lines, Refusal(products, storeId, lines, k))
  {
    CanFillNext(products, storeId, lines, k);
  }

  lemma RefusedPrefix(products: map<Uuid, Product>, storeId: Uuid, lines: seq<Line>, k: nat)
    requires RefusedAt(products, storeId, lines, k)
    ensures !CanFill(products, storeId, lines)
  {
    if CanFill(products, storeId, lines) {
      CanFillPrefix(products, storeId, lines, k + 1);
    }
  }

  lemma AnotherItem(products: map<Uuid, Product>, storeId: Uuid, lines: seq<Line>, i: nat, items: seq<Item>)
    requires i < |lines| && AllInStore(products, storeId, lines[..i + 1]) && AllInStore(products, storeId, lines[..i])
    requires items == ItemsOf(products, storeId, lines[..i])
    ensures lines[i].productId in products
    ensures var item := ItemOf(products[lines[i].productId], lines[i]);
            && ItemsOf(products, storeId, lines[..i + 1]) == items + [item]
            && RunningTotal(Charges(items + [item])) ==
               Binary64.Round(RunningTotal(Charges(items)) + LineTotal(Charge(item.unitPrice, item.quantity)))
  {
    assert lines[..i + 1][i] == lines[i];
    var item := ItemOf(products[lines[i].productId], lines[i]);
    assert ItemsOf(products, storeId, lines[..i + 1]) == items + [item];
    var charges := Charges(items + [item]);
    assert charges[..|charges| - 1] == Charges(items);
  }

  /** An item keeps the name and price that its product has when it is ordered. */
  lemma ItemsHold(products: map<Uuid, Product>, storeId: Uuid, lines: seq<Line>)
    requires AllInStore(products, storeId, lines)
    ensures forall i :: 0 <= i < |lines| ==>
              && lines[i].productId in products
              && var product := products[lines[i].productId];
                 ItemsOf(products, storeId, lines)[i] == Item(Some(lines[i].productId), product.name, lines[i].quantity, product.price)
  {
  }

  lemma DeductedHolds(products: map<Uuid, Product>, lines: seq<Line>)
    ensures Deducted(products, lines).Keys == products.Keys
    ensures forall p :: p in products ==>
              Deducted(products, lines)[p] == products[p].(stock := products[p].stock - Demand(lines, p))
  {
  }

  lemma LeavesRange(products: map<Uuid, Product>, storeId: Uuid, items: seq<Item>)
    requires !CanRestock(products, storeId, items)
    ensures exists p :: p in products && Returned(items, p) > 0 && products[p].stock + Returned(items, p) > 2_147_483_647
  {
  }

  lemma RestockedHolds(products: map<Uuid, Product>, storeId: Uuid, items: seq<Item>)
    ensures Restocked(products, storeId, items).Keys == products.Keys
    ensures forall p :: p in products ==>
              Restocked(products, storeId, items)[p] ==
              products[p].(stock := products[p].stock + if products[p].storeId == storeId then Returned(items, p) else 0)
  {
  }

  // ----- order lists -----

  datatype OrderQuery = OrderQuery(
    status: Option<OrderStatus>, from: Option<nat>, to: Option<nat>, page: Option<nat>, limit: Option<nat>)

  datatype Found = Found(id: Uuid, order: Order)

  predicate WantedOrder(order: Order, query: OrderQuery) {
    && (query.status.Some? ==> order.status == query.status.value)
    && (query.from.Some? ==> order.createdAt >= query.from.value)
    && (query.to.Some? ==> order.createdAt <= query.to.value)
  }

  function MatchingOrders(db: Db, storeId: Uuid, query: OrderQuery): (r: map<Uuid, Order>) {
    map o | o in db.orders && db.orders[o].storeId == storeId && WantedOrder(db.orders[o], query) :: db.orders[o]
  }

  function OrderTimes(rows: map<Uuid, Order>): (at: map<Uuid, nat>)
    ensures at.Keys == rows.Keys
  {
    map o | o in rows :: rows[o].createdAt
  }

  function PagedOrders(rows: map<Uuid, Order>, page: nat, limit: nat): (r: Listed<Found>)
    requires page >= 1 && limit >= 1
  {
    var ids := Page(NewestFirst(OrderTimes(rows)), page, limit);
    PageOfMembers(OrderTimes(rows), page, limit);
    Listed(seq(|ids|, i requires 0 <= i < |ids| => Found(ids[i], rows[ids[i]])),
           |rows|, page, limit, TotalPages(|rows|, limit))
  }

  /** The reply of findAll: the page of the matching orders of the store, newest first. */
  function OrderList(db: Db, storeId: Uuid, query: OrderQuery): (r: Listed<Found>)
    requires GetOr(query.page, 1) >= 1 && GetOr(query.limit, 20) >= 1
  {
    PagedOrders(MatchingOrders(db, storeId, query), GetOr(query.page, 1), GetOr(query.limit, 20))
  }

  function ShowsOrder(rows: map<Uuid, Order>): (shows: (Found, Uuid) -> bool) {
    (found, id) => id in rows && found == Found(id, rows[id])
  }

  lemma PagedOrdersShow(rows: map<Uuid, Order>, page: nat, limit: nat)
    requires page >= 1 && limit >= 1
    ensures ShowsPage(PagedOrders(rows, page, limit), OrderTimes(rows), page, limit,
                      ShowsOrder(rows))
  {
    hide NewestFirst, TotalPages, Page;
    PageOfMembers(OrderTimes(rows), page, limit);
    PageEntries(NewestFirst(OrderTimes(rows)), page, limit);
  }

  /** The list in terms of the columns: which orders pass each filter, and which of them the page shows. */
  lemma OrderListShows(db: Db, storeId: Uuid, query: OrderQuery)
    requires GetOr(query.page, 1) >= 1 && GetOr(query.limit, 20) >= 1
    ensures var rows := map o | o in db.orders && db.orders[o].storeId == storeId
                          && (query.status.Some? ==> db.orders[o].status == query.status.value)
                          && (query.from.Some? ==> query.from.value <= db.orders[o].createdAt)
                          && (query.to.Some? ==> db.orders[o].createdAt <= query.to.value) :: db.orders[o];
            ShowsPage(OrderList(db, storeId, query), map o | o in rows :: rows[o].createdAt,
                      GetOr(query.page, 1), GetOr(query.limit, 20),
                      ShowsOrder(rows))
  {
    hide ShowsPage, PagedOrders;
    var rows := map o | o in db.orders && db.orders[o].storeId == storeId
                  && (query.status.Some? ==> db.orders[o].status == query.status.value)
                  && (query.from.Some? ==> query.from.value <= db.orders[o].createdAt)
                  && (query.to.Some? ==> db.orders[o].createdAt <= query.to.value) :: db.orders[o];
    assert MatchingOrders(db, storeId, query) == rows;
    assert OrderTimes(rows) == map o | o in rows :: rows[o].createdAt;
    PagedOrdersShow(rows, GetOr(query.page, 1), GetOr(query.limit, 20));
  }

  function AndWhereOrder(where: Order -> bool, more: Order -> bool): (both: Order -> bool)
    ensures forall o :: both(o) <==> where(o) && more(o)
  {
    o => where(o) && more(o)
  }

  datatype SavedOrder = SavedOrder(id: Uuid, total: real, items: seq<Item>)

  /** One turn of the loop of create: either the order is refused here, or one more line is taken. */
  lemma TakeLine(products: map<Uuid, Product>, storeId: Uuid, lines: seq<Line>, i: nat)
    requires i < |lines| && CanFill(products, storeId, lines[..i])
    ensures var before := Deducted(products, lines[..i]);
            var line := lines[i];
            var q := line.productId;
            if !InStore(before, storeId, q) || before[q].stock < line.quantity then
              && !CanFill(products, storeId, lines)
              && RefusedAt(products, storeId, lines, i)
              && Refusal(products, storeId, lines, i) ==
                 if !InStore(before, storeId, q) then ProductNotFound(q)
                 else InsufficientStock(before[q].name, line.quantity, before[q].stock)
            else
              var item := ItemOf(before[q], line);
              && AllInStore(products, storeId, lines[..i + 1]) && CanFill(products, storeId, lines[..i + 1])
              && Deducted(products, lines[..i + 1]) == before[q := before[q].(stock := before[q].stock - line.quantity)]
              && ItemsOf(products, storeId, lines[..i + 1]) == ItemsOf(products, storeId, lines[..i]) + [item]
              && RunningTotal(Charges(ItemsOf(products, storeId, lines[..i + 1]))) ==
                 Binary64.Round(RunningTotal(Charges(ItemsOf(products, storeId, lines[..i]))) +
                                LineTotal(Charge(item.unitPrice, item.quantity)))
  {
    hide RunningTotal, Binary64.Round, Demand;
    CanFillNext(products, storeId, lines, i);
    if CanFill(products, storeId, lines[..i + 1]) {
      DeductedNext(products, lines, i);
      AnotherItem(products, storeId, lines, i, ItemsOf(products, storeId, lines[..i]));
    } else {
      RefusedPrefix(products, storeId, lines, i);
    }
  }

  class OrdersService {
    const tx: Database

    constructor (tx: Database)
      ensures this.tx == tx
    {
      this.tx := tx;
    }

    method Create(storeId: Uuid, lines: seq<Line>, orderId: Uuid, now: nat) returns (r: Result<SavedOrder, Error>)
      requires orderId !in tx.orders
      modifies tx
      ensures r.Ok? <==> CanPlace(old(tx.State()), storeId, lines)
      ensures r.Ok? ==> tx.State() == Placed(old(tx.State()), storeId, lines, orderId, now)
      ensures r.Ok? ==> r.value == SavedOrder(orderId, RunningTotal(Charges(ItemsOf(old(tx.products), storeId, lines))),
                                              ItemsOf(old(tx.products), storeId, lines))
      ensures r.Ok? ==> r.value.id == orderId && |r.value.items| == |lines|
      ensures r.Ok? ==> forall i :: 0 <= i < |lines| ==>
                && lines[i].productId in old(tx.products)
                && var product := old(tx.products)[lines[i].productId];
                   r.value.items[i] == Item(Some(lines[i].productId), product.name, lines[i].quantity, product.price)
      ensures r.Ok? ==> tx.orders == old(tx.orders)[orderId := Order(storeId, Pending, Column(r.value.total), r.value.items, now)]
      ensures r.Ok? ==> tx.products.Keys == old(tx.products).Keys
      ensures r.Ok? ==> forall p :: p in tx.products ==>
                tx.products[p] == old(tx.products)[p].(stock := old(tx.products)[p].stock - Demand(lines, p))
      ensures r.Err? ==> tx.State() == old(tx.State())
      ensures r.Err? ==>
        || (r.error == OutOfRange && CanFill(old(tx.products), storeId, lines))
        || exists k :: RefusedAt(old(tx.products), storeId, lines, k) && r.error == Refusal(old(tx.products), storeId, lines, k)
      ensures r.Err? ==> SaysWhy(old(tx.products), storeId, lines, r.error)
    {
      hide Binary64.Round, Times, Column, CanFill, Deducted, Charges, RunningTotal, RefusedAt, Refusal;
      var start := tx.State();
      ghost var products := tx.products;
      var total := 0.0;
      var items: seq<Item> := [];
      NothingTaken(products, storeId, lines[..0]);
      for i := 0 to |lines|
        invariant AllInStore(products, storeId, lines[..i]) && CanFill(products, storeId, lines[..i])
        invariant tx.State() == start.(products := Deducted(products, lines[..i]))
        invariant items == ItemsOf(products, storeId, lines[..i])
        invariant total == RunningTotal(Charges(items))
      {
        var line := lines[i];
        TakeLine(products, storeId, lines, i);
        if line.productId !in tx.products || tx.products[line.productId].storeId != storeId {
          tx.Rollback(start);
          RefusalSaysWhy(products, storeId, lines, i);
          return Err(ProductNotFound(line.productId));
        }
        var product := tx.products[line.productId];
        if product.stock < line.quantity {
          tx.Rollback(start);
          RefusalSaysWhy(products, storeId, lines, i);
          return Err(InsufficientStock(product.name, line.quantity, product.stock));
        }
        product := product.(stock := product.stock - line.quantity);
        tx.products := tx.products[line.productId := product];

        var price := Binary64.FromNumeric2(product.price);
        items := items + [Item(Some(line.productId), product.name, line.quantity, product.price)];
        total := Binary64.Round(total + Binary64.Round(Times(price, line.quantity)));
      }
      assert lines[..|lines|] == lines;
      ItemsHold(products, storeId, lines);
      DeductedHolds(products, lines);
      if Column(total) >= NUMERIC_10_2 {
        tx.Rollback(start);
        return Err(OutOfRange);
      }
      tx.orders := tx.orders[orderId := Order(storeId, Pending, Column(total), items, now)];
      if storeId in tx.stores {
        var store := tx.stores[storeId];
        if store.ownerId in tx.emails {
          tx.outbox := tx.outbox + [NewOrder(tx.emails[store.ownerId], store.name, orderId, Binary64.ToFixed2(total))];
        }
      }
      return Ok(SavedOrder(orderId, total, items));
    }

    method FindAll(storeId: Uuid, query: OrderQuery) returns (r: Listed<Found>)
      requires GetOr(query.page, 1) >= 1 && GetOr(query.limit, 20) >= 1
      ensures r == OrderList(tx.State(), storeId, query)
    {
      hide PagedOrders;
      var page, limit := GetOr(query.page, 1), GetOr(query.limit, 20);
      var where := (o: Order) => o.storeId == storeId;
      if query.status.Some? {
        where := AndWhereOrder(where, (o: Order) => o.status == query.status.value);
      }
      if query.from.Some? {
        where := AndWhereOrder(where, (o: Order) => o.createdAt >= query.from.value);
      }
      if query.to.Some? {
        where := AndWhereOrder(where, (o: Order) => o.createdAt <= query.to.value);
      }
      assert forall o: Order :: where(o) <==> o.storeId == storeId && WantedOrder(o, query);
      var rows := map o | o in tx.orders && where(tx.orders[o]) :: tx.orders[o];
      assert rows == MatchingOrders(tx.State(), storeId, query);
      r := PagedOrders(rows, page, limit);
    }

    method FindOne(storeId: Uuid, orderId: Uuid) returns (r: Result<Order, Error>)
      ensures r == if OwnsOrder(tx.State(), storeId, orderId) then Ok(tx.orders[orderId]) else Err(OrderNotFound)
    {
      if orderId !in tx.orders || tx.orders[orderId].storeId != storeId {
        return Err(OrderNotFound);
      }
      return Ok(tx.orders[orderId]);
    }

    method UpdateStatus(storeId: Uuid, orderId: Uuid, status: OrderStatus) returns (r: Result<Order, Error>)
      modifies tx
      ensures r.Ok? <==> CanChange(old(tx.State()), storeId, orderId, status)
      ensures r.Ok? ==> tx.State() == Changed(old(tx.State()), storeId, orderId, status)
      ensures r.Ok? ==> r.value == old(tx.orders)[orderId].(status := status)
      ensures r.Ok? ==> tx.orders == old(tx.orders)[orderId := r.value] && tx.products.Keys == old(tx.products).Keys
      ensures r.Ok? ==>
        var was := old(tx.orders)[orderId];
        forall p :: p in tx.products ==>
          var returned := if status == Cancelled && was.status != Cancelled && old(tx.products)[p].storeId == storeId
                          then Returned(was.items, p) else 0;
          tx.products[p] == old(tx.products)[p].(stock := old(tx.products)[p].stock + returned)
      ensures r.Err? ==> tx.State() == old(tx.State())
      ensures r.Err? ==> r.error == if OwnsOrder(old(tx.State()), storeId, orderId) then OutOfRange else OrderNotFound
      ensures r == Err(OutOfRange) ==>
        && status == Cancelled && old(tx.orders)[orderId].status != Cancelled
        && exists p :: p in old(tx.products) && Returned(old(tx.orders)[orderId].items, p) > 0
                       && old(tx.products)[p].stock + Returned(old(tx.orders)[orderId].items, p) > 2_147_483_647
    {
      if orderId !in tx.orders || tx.orders[orderId].storeId != storeId {
        return Err(OrderNotFound);
      }
      hide Returned, Restocked, CanRestock;
      var start := tx.State();
      ghost var products := tx.products;
      var order := tx.orders[orderId];
      if status == Cancelled && order.status != Cancelled {
        NothingRestocked(products, storeId, order.items[..0]);
        for i := 0 to |order.items|
          invariant CanRestock(products, storeId, order.items[..i])
          invariant tx.State() == start.(products := Restocked(products, storeId, order.items[..i]))
        {
          var item := order.items[i];
          RestockedNext(products, storeId, order.items, i);
          if item.productId.None? {
            continue;
          }
          var id := item.productId.value;
          if id in tx.products && tx.products[id].storeId == storeId {
            var stock := tx.products[id].stock + item.quantity;
            if stock > INT4_MAX && item.quantity > 0 {
              assert !CanRestock(products, storeId, order.items) by {
                if CanRestock(products, storeId, order.items) {
                  CanRestockPrefix(products, storeId, order.items, i + 1);
                }
              }
              tx.Rollback(start);
              LeavesRange(products, storeId, order.items);
              return Err(OutOfRange);
            }
            tx.products := tx.products[id := tx.products[id].(stock := stock)];
          }
        }
        assert order.items[..|order.items|] == order.items;
        RestockedHolds(products, storeId, order.items);
      }
      order := order.(status := status);
      tx.orders := tx.orders[orderId := order];
      return Ok(order);
    }
  }
}
