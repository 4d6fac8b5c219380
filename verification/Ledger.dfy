/**
 The stock ledger: where every unit of stock went, over any serial run of orders,
 status changes and catalogue edits, and what placing an order amounts to.
 */
module Ledger {
  import opened Schema
  import opened Orders
  import opened Catalogue
  import opened Money
  import Binary64

  // ----- order creation does not depend on the order of its lines -----

  function SumBy(f: Line -> nat, lines: seq<Line>): (n: nat) {
    if |lines| == 0 then 0 else SumBy(f, lines[..|lines| - 1]) + f(lines[|lines| - 1])
  }

  lemma {:induction false} SumWithout(f: Line -> nat, lines: seq<Line>, j: nat)
    requires j < |lines|
    ensures SumBy(f, lines) == SumBy(f, lines[..j] + lines[j + 1..]) + f(lines[j])
  {
    var n := |lines| - 1;
    if j == n {
      assert lines[..j] + lines[j + 1..] == lines[..n];
    } else {
      var rest := lines[..j] + lines[j + 1..];
      SumWithout(f, lines[..n], j);
      assert rest[..n - 1] == lines[..n][..j] + lines[..n][j + 1..];
      assert rest[n - 1] == lines[n];
    }
  }

  lemma TakeOut(a: seq<Line>, x: Line, b: seq<Line>)
    ensures multiset(a + [x] + b) == multiset(a + b) + multiset{x}
  {
    assert multiset([x]) == multiset{x};
  }

  lemma CancelOne(a: multiset<Line>, b: multiset<Line>, x: Line)
    requires a + multiset{x} == b + multiset{x}
    ensures a == b
  {
    forall y
      ensures a[y] == b[y]
    {
      assert (a + multiset{x})[y] == (b + multiset{x})[y];
    }
  }

  lemma DropSame(a: seq<Line>, b: seq<Line>, j: nat)
    requires |a| > 0 && j < |b| && multiset(a) == multiset(b) && b[j] == a[|a| - 1]
    ensures multiset(a[..|a| - 1]) == multiset(b[..j] + b[j + 1..])
  {
    var n, x := |a| - 1, b[j];
    assert a == a[..n] + [x] + [];
    assert b == b[..j] + [x] + b[j + 1..];
    TakeOut(a[..n], x, []);
    TakeOut(b[..j], x, b[j + 1..]);
    CancelOne(multiset(a[..n] + []), multiset(b[..j] + b[j + 1..]), x);
    assert a[..n] + [] == a[..n];
  }

  lemma SamePlace(a: seq<Line>, b: seq<Line>) returns (j: nat)
    requires |a| > 0 && multiset(a) == multiset(b)
    ensures j < |b| && b[j] == a[|a| - 1]
  {
    assert a[|a| - 1] in multiset(b);
    j :| 0 <= j < |b| && b[j] == a[|a| - 1];
  }

  lemma {:induction false} SumOfPermutation(f: Line -> nat, a: seq<Line>, b: seq<Line>)
    requires multiset(a) == multiset(b)
    ensures SumBy(f, a) == SumBy(f, b)
    decreases |a|
  {
    if |a| == 0 {
      assert |multiset(b)| == |b|;
    } else {
      var j := SamePlace(a, b);
      DropSame(a, b, j);
      SumWithout(f, b, j);
      SumOfPermutation(f, a[..|a| - 1], b[..j] + b[j + 1..]);
    }
  }

  lemma {:induction false} DemandIsSum(lines: seq<Line>, p: Uuid)
    ensures Demand(lines, p) == SumBy((l: Line) => if l.productId == p then l.quantity else 0, lines)
  {
    if |lines| == 0 {
    } else {
      DemandIsSum(lines[..|lines| - 1], p);
    }
  }

  function PriceOf(products: map<Uuid, Product>, line: Line): (cents: nat) {
    if line.productId in products then products[line.productId].price * line.quantity else 0
  }

  /** The exact total of an order, in cents. */
  function ExactTotal(products: map<Uuid, Product>, lines: seq<Line>): (cents: nat) {
    SumBy((l: Line) => PriceOf(products, l), lines)
  }

  lemma {:induction false} ExactTotalOfItems(products: map<Uuid, Product>, storeId: Uuid, lines: seq<Line>)
    requires AllInStore(products, storeId, lines)
    ensures ExactCents(Charges(ItemsOf(products, storeId, lines))) == ExactTotal(products, lines)
  {
    if |lines| == 0 {
    } else {
      var n := |lines| - 1;
      var charges := Charges(ItemsOf(products, storeId, lines));
      ExactTotalOfItems(products, storeId, lines[..n]);
      assert charges[..n] == Charges(ItemsOf(products, storeId, lines[..n]));
      assert LineCents(charges[n]) == PriceOf(products, lines[n]);
      UnfoldSum((l: Line) => PriceOf(products, l), lines);
    }
  }

  lemma UnfoldSum(f: Line -> nat, lines: seq<Line>)
    requires |lines| > 0
    ensures SumBy(f, lines) == SumBy(f, lines[..|lines| - 1]) + f(lines[|lines| - 1])
  {
  }

  /** Whether an order can be filled and what it leaves in stock is the same for any order of its lines. */
  lemma LineOrderIsIrrelevant(products: map<Uuid, Product>, storeId: Uuid, a: seq<Line>, b: seq<Line>)
    requires multiset(a) == multiset(b)
    ensures CanFill(products, storeId, a) <==> CanFill(products, storeId, b)
    ensures Deducted(products, a) == Deducted(products, b)
    ensures ExactTotal(products, a) == ExactTotal(products, b)
  {
    forall p: Uuid
      ensures Demand(a, p) == Demand(b, p)
    {
      DemandIsSum(a, p);
      DemandIsSum(b, p);
      SumOfPermutation((l: Line) => if l.productId == p then l.quantity else 0, a, b);
    }
    SumOfPermutation((l: Line) => PriceOf(products, l), a, b);
    if CanFill(products, storeId, a) {
      SameLinesFill(products, storeId, a, b);
    }
    if CanFill(products, storeId, b) {
      SameLinesFill(products, storeId, b, a);
    }
  }

  lemma SameLinesFill(products: map<Uuid, Product>, storeId: Uuid, a: seq<Line>, b: seq<Line>)
    requires multiset(a) == multiset(b) && CanFill(products, storeId, a)
    requires forall p: Uuid :: Demand(a, p) == Demand(b, p)
    ensures CanFill(products, storeId, b)
  {
    forall j | 0 <= j < |b|
      ensures InStore(products, storeId, b[j].productId)
      ensures Demand(b, b[j].productId) <= products[b[j].productId].stock
    {
      assert b[j] in multiset(a);
      var i :| 0 <= i < |a| && a[i] == b[j];
    }
  }

  /**
   An order run alone succeeds exactly when each product is in the store with enough
   stock for all its lines together and the exact total is below 10^8 dollars. The
   stored total, and the one in the mail, is then the exact one.
   */
  lemma PlacementIsExact(db: Db, storeId: Uuid, lines: seq<Line>, orderId: Uuid, now: nat)
    requires |lines| <= MAX_LINES
    ensures CanPlace(db, storeId, lines) <==>
            CanFill(db.products, storeId, lines) && ExactTotal(db.products, lines) < NUMERIC_10_2
    ensures CanPlace(db, storeId, lines) ==>
              var db' := Placed(db, storeId, lines, orderId, now);
              && db'.orders[orderId].total == ExactTotal(db.products, lines)
              && forall mail :: mail in db'.outbox[|db.outbox|..] ==>
                                  mail.orderId == orderId && mail.total == ExactTotal(db.products, lines)
  {
    hide RunningTotal, Column, ExactCents, ExactTotal, Binary64.ToFixed2;
    if CanFill(db.products, storeId, lines) {
      var charges := Charges(ItemsOf(db.products, storeId, lines));
      ExactTotalOfItems(db.products, storeId, lines);
      TotalOverflowsExactly(charges);
      if ExactCents(charges) < NUMERIC_10_2 {
        StoredTotalIsExact(charges);
      }
    }
  }

  /** So an order is accepted or refused whatever the order of its lines, although its total is rounded line by line. */
  lemma LineOrderDoesNotDecide(db: Db, storeId: Uuid, a: seq<Line>, b: seq<Line>)
    requires multiset(a) == multiset(b) && |a| <= MAX_LINES
    ensures CanPlace(db, storeId, a) <==> CanPlace(db, storeId, b)
  {
    hide CanPlace, CanFill, ExactTotal;
    assert |multiset(a)| == |a| && |multiset(b)| == |b|;
    LineOrderIsIrrelevant(db.products, storeId, a, b);
    PlacementIsExact(db, storeId, a, 0, 0);
    PlacementIsExact(db, storeId, b, 0, 0);
  }

  // ----- what an order holds -----

  lemma {:induction false} ReturnedIsDemand(products: map<Uuid, Product>, storeId: Uuid, lines: seq<Line>, p: Uuid)
    requires AllInStore(products, storeId, lines)
    ensures Returned(ItemsOf(products, storeId, lines), p) == Demand(lines, p)
  {
    if |lines| == 0 {
    } else {
      var n := |lines| - 1;
      ReturnedIsDemand(products, storeId, lines[..n], p);
      assert ItemsOf(products, storeId, lines)[..n] == ItemsOf(products, storeId, lines[..n]);
    }
  }

  lemma DemandNeedsStore(products: map<Uuid, Product>, storeId: Uuid, lines: seq<Line>, p: Uuid)
    requires AllInStore(products, storeId, lines) && Demand(lines, p) > 0
    ensures InStore(products, storeId, p)
  {
    if !InStore(products, storeId, p) {
      DemandOfOthers(lines, p);
    }
  }

  lemma RestockingUndoesDeducting(products: map<Uuid, Product>, storeId: Uuid, lines: seq<Line>)
    requires CanFill(products, storeId, lines)
    requires forall p :: p in products ==> products[p].stock <= INT4_MAX
    ensures var items := ItemsOf(products, storeId, lines);
            && CanRestock(Deducted(products, lines), storeId, items)
            && Restocked(Deducted(products, lines), storeId, items) == products
  {
    hide Returned, Demand;
    var items := ItemsOf(products, storeId, lines);
    forall p | p in products
      ensures Returned(items, p) == Demand(lines, p)
      ensures Demand(lines, p) > 0 ==> products[p].storeId == storeId
    {
      ReturnedIsDemand(products, storeId, lines, p);
      if Demand(lines, p) > 0 {
        DemandNeedsStore(products, storeId, lines, p);
      }
    }
  }

  /** Creating an order and cancelling it leaves every product exactly as it was. */
  lemma CancellingUndoesPlacing(db: Db, storeId: Uuid, lines: seq<Line>, orderId: Uuid, now: nat)
    requires CanPlace(db, storeId, lines)
    requires forall p :: p in db.products ==> db.products[p].stock <= INT4_MAX
    ensures var placed := Placed(db, storeId, lines, orderId, now);
            && CanChange(placed, storeId, orderId, Cancelled)
            && Changed(placed, storeId, orderId, Cancelled).products == db.products
  {
    hide CanRestock, Restocked, Deducted, RunningTotal, Column, Notice, ItemsOf;
    RestockingUndoesDeducting(db.products, storeId, lines);
  }

  /** The units of product p that an order still holds: none once it is cancelled. */
  function Held(order: Order, p: Uuid): (n: nat) {
    if order.status == Cancelled then 0 else Returned(order.items, p)
  }

  ghost function HeldByAll(orders: map<Uuid, Order>, p: Uuid): (n: nat)
    decreases |orders|
  {
    if orders == map[] then 0
    else
      var id :| id in orders;
      assert (orders - {id}).Keys == orders.Keys - {id};
      Held(orders[id], p) + HeldByAll(orders - {id}, p)
  }

  lemma {:induction false} HeldSplits(orders: map<Uuid, Order>, id: Uuid, p: Uuid)
    requires id in orders
    ensures HeldByAll(orders, p) == Held(orders[id], p) + HeldByAll(orders - {id}, p)
    decreases |orders|
  {
    var first: Uuid :| first in orders &&
      HeldByAll(orders, p) == Held(orders[first], p) + HeldByAll(orders - {first}, p);
    if first != id {
      assert (orders - {first}).Keys == orders.Keys - {first};
      assert (orders - {id}).Keys == orders.Keys - {id};
      HeldSplits(orders - {first}, id, p);
      HeldSplits(orders - {id}, first, p);
      assert orders - {first} - {id} == orders - {id} - {first};
    }
  }

  lemma HeldUpdated(orders: map<Uuid, Order>, id: Uuid, order: Order, p: Uuid)
    ensures HeldByAll(orders[id := order], p) == HeldByAll(orders - {id}, p) + Held(order, p)
    ensures HeldByAll(orders, p) == HeldByAll(orders - {id}, p) + if id in orders then Held(orders[id], p) else 0
  {
    HeldSplits(orders[id := order], id, p);
    assert orders[id := order] - {id} == orders - {id};
    if id in orders {
      HeldSplits(orders, id, p);
    } else {
      assert orders - {id} == orders;
    }
  }

  lemma {:induction false} HeldAlike(a: map<Uuid, Order>, b: map<Uuid, Order>, p: Uuid)
    requires a.Keys == b.Keys && forall id :: id in a ==> Held(a[id], p) == Held(b[id], p)
    ensures HeldByAll(a, p) == HeldByAll(b, p)
    decreases |a|
  {
    if a == map[] {
      assert b == map[];
    } else {
      var id :| id in a;
      HeldSplits(a, id, p);
      HeldSplits(b, id, p);
      assert (a - {id}).Keys == a.Keys - {id} == (b - {id}).Keys;
      HeldAlike(a - {id}, b - {id}, p);
    }
  }

  lemma {:induction false} UnlinkedKeepsOthers(items: seq<Item>, id: Uuid, p: Uuid)
    requires p != id
    ensures Returned(UnlinkedItems(items, id), p) == Returned(items, p)
  {
    if |items| == 0 {
    } else {
      var n := |items| - 1;
      UnlinkedKeepsOthers(items[..n], id, p);
      assert UnlinkedItems(items, id)[..n] == UnlinkedItems(items[..n], id);
    }
  }

  // ----- runs -----

  datatype Op =
    | Place(storeId: Uuid, lines: seq<Line>, orderId: Uuid, now: nat)
    | Change(storeId: Uuid, orderId: Uuid, status: OrderStatus)
    | Edit(storeId: Uuid, id: Uuid, patch: ProductPatch)
    | Add(storeId: Uuid, dto: NewProduct, id: Uuid, now: nat)
    | Remove(storeId: Uuid, id: Uuid)

  predicate CanEdit(db: Db, storeId: Uuid, id: Uuid, patch: ProductPatch) {
    && InStore(db.products, storeId, id)
    && CategoryFits(db, storeId, patch.categoryId)
    && InRange(Patched(db.products[id], patch).price, Patched(db.products[id], patch).stock)
  }

  /** Generated ids are new, so a fresh order or product never replaces a row. */
  predicate Accepted(db: Db, op: Op) {
    match op
    case Place(storeId, lines, orderId, now) => orderId !in db.orders && CanPlace(db, storeId, lines)
    case Change(storeId, orderId, status) => CanChange(db, storeId, orderId, status)
    case Edit(storeId, id, patch) => CanEdit(db, storeId, id, patch)
    case Add(storeId, dto, id, now) =>
      && id !in db.products
      && CategoryFits(db, storeId, dto.categoryId)
      && InRange(dto.price, GetOr(dto.stock, 0))
    case Remove(storeId, id) => InStore(db.products, storeId, id)
  }

  /** One request, run alone: a refused request changes nothing. */
  function Step(db: Db, op: Op): (db': Db) {
    if !Accepted(db, op) then db
    else
      match op
      case Place(storeId, lines, orderId, now) => Placed(db, storeId, lines, orderId, now)
      case Change(storeId, orderId, status) => Changed(db, storeId, orderId, status)
      case Edit(storeId, id, patch) => db.(products := db.products[id := Patched(db.products[id], patch)])
      case Add(storeId, dto, id, now) => db.(products := db.products[id := ProductFrom(storeId, dto, now)])
      case Remove(storeId, id) => ProductRemoved(db, id)
  }

  function Run(db: Db, ops: seq<Op>): (db': Db) {
    if |ops| == 0 then db else Step(Run(db, ops[..|ops| - 1]), ops[|ops| - 1])
  }

  // What one request does to the stock of product p, by cause.

  function EditedBy(db: Db, op: Op, p: Uuid): (delta: int) {
    if op.Edit? && op.id == p && Accepted(db, op) && op.patch.stock.Some?
    then op.patch.stock.value - db.products[p].stock else 0
  }

  function OrderedBy(db: Db, op: Op, p: Uuid): (n: nat) {
    if op.Place? && Accepted(db, op) then Demand(op.lines, p) else 0
  }

  /** What a move from another status to CANCELLED gives back. */
  function ReturnedBy(db: Db, op: Op, p: Uuid): (n: nat) {
    if op.Change? && Accepted(db, op) && NewlyCancelled(db.orders[op.orderId], op.status)
    then Returned(db.orders[op.orderId].items, p) else 0
  }

  /** What a move out of CANCELLED takes back into the order without taking it from stock. */
  function RevivedBy(db: Db, op: Op, p: Uuid): (n: nat) {
    if op.Change? && Accepted(db, op) && db.orders[op.orderId].status == Cancelled && op.status != Cancelled
    then Returned(db.orders[op.orderId].items, p) else 0
  }

  function Edited(db: Db, ops: seq<Op>, p: Uuid): (delta: int) {
    if |ops| == 0 then 0
    else Edited(db, ops[..|ops| - 1], p) + EditedBy(Run(db, ops[..|ops| - 1]), ops[|ops| - 1], p)
  }

  function Ordered(db: Db, ops: seq<Op>, p: Uuid): (n: nat) {
    if |ops| == 0 then 0
    else Ordered(db, ops[..|ops| - 1], p) + OrderedBy(Run(db, ops[..|ops| - 1]), ops[|ops| - 1], p)
  }

  function GivenBack(db: Db, ops: seq<Op>, p: Uuid): (n: nat) {
    if |ops| == 0 then 0
    else GivenBack(db, ops[..|ops| - 1], p) + ReturnedBy(Run(db, ops[..|ops| - 1]), ops[|ops| - 1], p)
  }

  function Revived(db: Db, ops: seq<Op>, p: Uuid): (n: nat) {
    if |ops| == 0 then 0
    else Revived(db, ops[..|ops| - 1], p) + RevivedBy(Run(db, ops[..|ops| - 1]), ops[|ops| - 1], p)
  }

  /** Product p is never removed during the run. */
  predicate Survives(db: Db, ops: seq<Op>, p: Uuid) {
    && p in Run(db, ops).products
    && (|ops| > 0 ==> Survives(db, ops[..|ops| - 1], p))
  }

  // ----- one request -----

  lemma {:induction false} ReturnedNeedsLink(db: Db, storeId: Uuid, items: seq<Item>, p: Uuid)
    requires forall i :: 0 <= i < |items| ==> ItemLinked(db, storeId, items[i])
    requires Returned(items, p) > 0
    ensures InStore(db.products, storeId, p)
  {
    var n := |items| - 1;
    if items[n].productId != Some(p) {
      ReturnedNeedsLink(db, storeId, items[..n], p);
    }
  }

  lemma StepStock(db: Db, op: Op, p: Uuid)
    requires ItemsLinked(db)
    requires p in db.products && p in Step(db, op).products
    ensures Step(db, op).products[p].stock ==
            db.products[p].stock + EditedBy(db, op, p) - OrderedBy(db, op, p) + ReturnedBy(db, op, p)
  {
    hide Returned, Demand, CanPlace, CanRestock, PlacedOrder, Notice, RunningTotal;
    if op.Change? && Accepted(db, op) {
      var order := db.orders[op.orderId];
      if Returned(order.items, p) > 0 {
        ReturnedNeedsLink(db, order.storeId, order.items, p);
      }
    }
  }

  lemma StepHeld(db: Db, op: Op, p: Uuid)
    requires p in db.products && p in Step(db, op).products
    ensures HeldByAll(Step(db, op).orders, p) ==
            HeldByAll(db.orders, p) + OrderedBy(db, op, p) - ReturnedBy(db, op, p) + RevivedBy(db, op, p)
  {
    hide Returned, Demand, CanRestock, Notice, RunningTotal, Column, HeldByAll;
    if Accepted(db, op) {
      match op
      case Place(storeId, lines, orderId, now) =>
        HeldUpdated(db.orders, orderId, PlacedOrder(db, storeId, lines, now), p);
        ReturnedIsDemand(db.products, storeId, lines, p);
      case Change(storeId, orderId, status) =>
        HeldUpdated(db.orders, orderId, db.orders[orderId].(status := status), p);
      case Remove(storeId, id) =>
        var orders := ProductRemoved(db, id).orders;
        forall o | o in db.orders
          ensures Held(orders[o], p) == Held(db.orders[o], p)
        {
          UnlinkedKeepsOthers(db.orders[o].items, id, p);
        }
        HeldAlike(db.orders, orders, p);
      case Edit(_, _, _) =>
      case Add(_, _, _, _) =>
    }
  }

  lemma StepKeepsLinks(db: Db, op: Op)
    requires ItemsLinked(db)
    ensures ItemsLinked(Step(db, op))
  {
    hide Returned, Demand, CanRestock, Notice, RunningTotal, Column;
    if op.Place? && Accepted(db, op) {
      var db' := Step(db, op);
      forall i | 0 <= i < |op.lines|
        ensures ItemLinked(db', op.storeId, db'.orders[op.orderId].items[i])
      {
        assert InStore(db.products, op.storeId, op.lines[i].productId);
      }
    }
  }

  // ----- whole runs -----

  lemma {:induction false} RunKeepsLinks(db: Db, ops: seq<Op>)
    requires ItemsLinked(db)
    ensures ItemsLinked(Run(db, ops))
  {
    if |ops| == 0 {
    } else {
      RunKeepsLinks(db, ops[..|ops| - 1]);
      StepKeepsLinks(Run(db, ops[..|ops| - 1]), ops[|ops| - 1]);
    }
  }

  /**
   The ledger of a product that survives the run: its stock moved by the manual edits,
   minus everything ordered, plus each order's quantity once per move to CANCELLED.
   */
  lemma {:induction false} StockLedger(db: Db, ops: seq<Op>, p: Uuid)
    requires ItemsLinked(db) && Survives(db, ops, p)
    ensures p in db.products
    ensures Run(db, ops).products[p].stock ==
            db.products[p].stock + Edited(db, ops, p) - Ordered(db, ops, p) + GivenBack(db, ops, p)
  {
    hide Step, EditedBy, OrderedBy, ReturnedBy;
    if |ops| == 0 {
    } else {
      var before := ops[..|ops| - 1];
      StockLedger(db, before, p);
      RunKeepsLinks(db, before);
      StepStock(Run(db, before), ops[|ops| - 1], p);
    }
  }

  /**
   Stock and the units held by live orders are conserved up to manual edits exactly
   when no units came back into an order by a move out of CANCELLED.
   */
  lemma {:induction false} StockAndHeldLedger(db: Db, ops: seq<Op>, p: Uuid)
    requires ItemsLinked(db) && Survives(db, ops, p)
    ensures p in db.products
    ensures Run(db, ops).products[p].stock + HeldByAll(Run(db, ops).orders, p) ==
            db.products[p].stock + HeldByAll(db.orders, p) + Edited(db, ops, p) + Revived(db, ops, p)
  {
    hide Step, EditedBy, OrderedBy, ReturnedBy, RevivedBy, HeldByAll;
    if |ops| == 0 {
    } else {
      var before := ops[..|ops| - 1];
      StockAndHeldLedger(db, before, p);
      RunKeepsLinks(db, before);
      StepStock(Run(db, before), ops[|ops| - 1], p);
      StepHeld(Run(db, before), ops[|ops| - 1], p);
    }
  }

  /** No accepted status change of the run starts from CANCELLED and ends elsewhere. */
  predicate NeverRevives(db: Db, ops: seq<Op>) {
    |ops| > 0 ==>
      var before, op := ops[..|ops| - 1], ops[|ops| - 1];
      && NeverRevives(db, before)
      && (op.Change? && Accepted(Run(db, before), op) && Run(db, before).orders[op.orderId].status == Cancelled ==>
            op.status == Cancelled)
  }

  lemma {:induction false} Conserved(db: Db, ops: seq<Op>, p: Uuid)
    requires ItemsLinked(db) && Survives(db, ops, p) && NeverRevives(db, ops)
    ensures p in db.products
    ensures Run(db, ops).products[p].stock + HeldByAll(Run(db, ops).orders, p) ==
            db.products[p].stock + HeldByAll(db.orders, p) + Edited(db, ops, p)
  {
    StockAndHeldLedger(db, ops, p);
    NothingRevived(db, ops, p);
  }

  lemma {:induction false} NothingRevived(db: Db, ops: seq<Op>, p: Uuid)
    requires NeverRevives(db, ops)
    ensures Revived(db, ops, p) == 0
  {
    hide Step, Returned;
    if |ops| == 0 {
    } else {
      NothingRevived(db, ops[..|ops| - 1], p);
    }
  }

  /** For one status change: it conserves the units of p unless it revives an order that has some. */
  lemma ChangeConservesUnlessReviving(db: Db, storeId: Uuid, orderId: Uuid, status: OrderStatus, p: Uuid)
    requires ItemsLinked(db) && p in db.products && CanChange(db, storeId, orderId, status)
    ensures var db' := Changed(db, storeId, orderId, status);
            var order := db.orders[orderId];
            && p in db'.products
            && (db'.products[p].stock + HeldByAll(db'.orders, p) == db.products[p].stock + HeldByAll(db.orders, p)
                <==> !(order.status == Cancelled && status != Cancelled && Returned(order.items, p) > 0))
  {
    hide Returned, HeldByAll, CanRestock;
    var op := Change(storeId, orderId, status);
    StepStock(db, op, p);
    StepHeld(db, op, p);
  }

  /** Moving a cancelled order of two units back to PENDING invents two units. */
  lemma RevivingInventsUnits() returns (db: Db, op: Op, p: Uuid)
    ensures ItemsLinked(db) && p in db.products && Accepted(db, op) && p in Step(db, op).products
    ensures Step(db, op).products[p].stock + HeldByAll(Step(db, op).orders, p) ==
            db.products[p].stock + HeldByAll(db.orders, p) + 2
  {
    var items := [Item(Some(1), "tea", 2, 500)];
    db := Db(map[1 := Product(7, None, "tea", None, 500, 10, None, 0)], map[],
             map[3 := Order(7, Cancelled, 1000, items, 0)], [], map[], map[]);
    op, p := Change(7, 3, Pending), 1;
    assert Returned(items, 1) == 2;
    StepStock(db, op, 1);
    StepHeld(db, op, 1);
  }
}
