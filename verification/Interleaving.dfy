/**
 Concurrent requests: order creations, status changes and product edits as
 transactions whose SQL statements interleave in any way, under READ COMMITTED with
 row locks held to the end of the transaction.

 An action that is not possible, such as a statement still waiting for a row lock,
 leaves the state as it is. A transaction can be aborted between any two statements.
 */
module Interleaving {
  import opened Schema
  import opened Orders
  import opened Catalogue
  import opened Money
  import Ledger

  type TxId = nat

  // rows: the product rows this transaction has written and not yet committed.
  datatype Tx =
    | Creating(storeId: Uuid, lines: seq<Line>, now: nat, rows: map<Uuid, Product>,
               items: seq<Item>, held: Option<Product>, saved: Option<Uuid>)
    | Changing(storeId: Uuid, orderId: Uuid, status: OrderStatus, rows: map<Uuid, Product>,
               order: Option<Order>, next: nat, written: bool)
    | Editing(storeId: Uuid, id: Uuid, rows: map<Uuid, Product>, read: Option<Product>, patch: Option<ProductPatch>)

  // log: the committed requests, in commit order. issued: every order id generated so far.
  datatype State = State(
    db: Db, locks: map<Uuid, TxId>, txs: map<TxId, Tx>, issued: set<Uuid>, log: seq<Ledger.Op>)

  datatype Action =
    | BeginCreate(t: TxId, storeId: Uuid, lines: seq<Line>, now: nat)
    | LockLine(t: TxId)
    | SaveLine(t: TxId)
    | InsertOrder(t: TxId, orderId: Uuid)
    | BeginChange(t: TxId, storeId: Uuid, orderId: Uuid, status: OrderStatus)
    | ReadOrder(t: TxId)
    | Increment(t: TxId)
    | SaveStatus(t: TxId)
    | BeginEdit(t: TxId, storeId: Uuid, id: Uuid)
    | ReadRow(t: TxId)
    | WriteEdit(t: TxId, patch: ProductPatch)
    | Commit(t: TxId)
    | Abort(t: TxId)

  // ----- rows and locks -----

  /** The row as this transaction sees it: its own version, else the committed one. */
  function Current(db: Db, tx: Tx, p: Uuid): (product: Product)
    requires p in db.products
  {
    if p in tx.rows then tx.rows[p] else db.products[p]
  }

  predicate Free(s: State, t: TxId, p: Uuid) {
    p !in s.locks || s.locks[p] == t
  }

  /** The end of a transaction releases its locks; its uncommitted rows are gone. */
  function End(s: State, t: TxId): (s': State) {
    s.(locks := map p | p in s.locks && s.locks[p] != t :: s.locks[p], txs := s.txs - {t})
  }

  function Finish(s: State, t: TxId, db: Db, op: Ledger.Op): (s': State) {
    End(s, t).(db := db, log := s.log + [op])
  }

  // ----- the statements -----

  function DoLockLine(s: State, t: TxId, tx: Tx): (s': State)
    requires tx.Creating?
  {
    if tx.held.Some? || tx.saved.Some? || |tx.items| >= |tx.lines| then s
    else
      var line := tx.lines[|tx.items|];
      if !InStore(s.db.products, tx.storeId, line.productId) then End(s, t)
      else if !Free(s, t, line.productId) then s
      else
        var product := Current(s.db, tx, line.productId);
        if product.stock < line.quantity then End(s, t)
        else s.(locks := s.locks[line.productId := t], txs := s.txs[t := tx.(held := Some(product))])
  }

  function DoSaveLine(s: State, t: TxId, tx: Tx): (s': State)
    requires tx.Creating?
  {
    if tx.held.None? || |tx.items| >= |tx.lines| then s
    else
      var line := tx.lines[|tx.items|];
      var product := tx.held.value.(stock := tx.held.value.stock - line.quantity);
      s.(txs := s.txs[t := tx.(rows := tx.rows[line.productId := product],
                               items := tx.items + [ItemOf(product, line)],
                               held := None)])
  }

  function DoInsertOrder(s: State, t: TxId, tx: Tx, orderId: Uuid): (s': State)
    requires tx.Creating?
  {
    if tx.held.Some? || tx.saved.Some? || |tx.items| < |tx.lines| || orderId in s.issued then s
    else if Column(RunningTotal(Charges(tx.items))) >= NUMERIC_10_2 then End(s, t)
    else s.(txs := s.txs[t := tx.(saved := Some(orderId))], issued := s.issued + {orderId})
  }

  function DoReadOrder(s: State, t: TxId, tx: Tx): (s': State)
    requires tx.Changing?
  {
    if tx.order.Some? then s
    else if !OwnsOrder(s.db, tx.storeId, tx.orderId) then End(s, t)
    else s.(txs := s.txs[t := tx.(order := Some(s.db.orders[tx.orderId]))])
  }

  function DoIncrement(s: State, t: TxId, tx: Tx): (s': State)
    requires tx.Changing?
  {
    if tx.order.None? || tx.written || !NewlyCancelled(tx.order.value, tx.status) ||
       tx.next >= |tx.order.value.items| then s
    else
      var item := tx.order.value.items[tx.next];
      var skipped := s.(txs := s.txs[t := tx.(next := tx.next + 1)]);
      if item.productId.None? || !InStore(s.db.products, tx.storeId, item.productId.value) then skipped
      else
        var p := item.productId.value;
        if !Free(s, t, p) then s
        else
          var product := Current(s.db, tx, p);
          var stock := product.stock + item.quantity;
          if stock > INT4_MAX && item.quantity > 0 then End(s, t)
          else
            s.(locks := s.locks[p := t],
               txs := s.txs[t := tx.(rows := tx.rows[p := product.(stock := stock)], next := tx.next + 1)])
  }

  function DoSaveStatus(s: State, t: TxId, tx: Tx): (s': State)
    requires tx.Changing?
  {
    if tx.order.None? then s
    else if NewlyCancelled(tx.order.value, tx.status) && tx.next < |tx.order.value.items| then s
    else s.(txs := s.txs[t := tx.(written := true)])
  }

  /** findOne takes no lock: the row can change before it is saved. */
  function DoReadRow(s: State, t: TxId, tx: Tx): (s': State)
    requires tx.Editing?
  {
    if tx.read.Some? then s
    else if !InStore(s.db.products, tx.storeId, tx.id) then End(s, t)
    else s.(txs := s.txs[t := tx.(read := Some(s.db.products[tx.id]))])
  }

  /** The whole entity is saved as it was read, with the request's fields assigned. */
  function DoWriteEdit(s: State, t: TxId, tx: Tx, patch: ProductPatch): (s': State)
    requires tx.Editing?
  {
    if tx.read.None? || tx.patch.Some? then s
    else if !CategoryFits(s.db, tx.storeId, patch.categoryId) then End(s, t)
    else if !Free(s, t, tx.id) then s
    else
      var product := Patched(tx.read.value, patch);
      if !InRange(product.price, product.stock) then End(s, t)
      else
        s.(locks := s.locks[tx.id := t],
           txs := s.txs[t := tx.(rows := map[tx.id := product], patch := Some(patch))])
  }

  function DoCommit(s: State, t: TxId, tx: Tx): (s': State) {
    var products := s.db.products + tx.rows;
    match tx
    case Creating(storeId, lines, now, _, items, _, saved) =>
      if saved.None? then s
      else
        var total := RunningTotal(Charges(items));
        var order := Order(storeId, Pending, Column(total), items, now);
        Finish(s, t,
               s.db.(products := products,
                     orders := s.db.orders[saved.value := order],
                     outbox := s.db.outbox + Notice(s.db, storeId, saved.value, total)),
               Ledger.Place(storeId, lines, saved.value, now))
    case Changing(storeId, orderId, status, _, order, _, written) =>
      if order.None? || !written then s
      else
        Finish(s, t,
               s.db.(products := products, orders := s.db.orders[orderId := order.value.(status := status)]),
               Ledger.Change(storeId, orderId, status))
    case Editing(storeId, id, _, _, patch) =>
      if patch.None? then s
      else Finish(s, t, s.db.(products := products), Ledger.Edit(storeId, id, patch.value))
  }

  function Begin(s: State, t: TxId, tx: Tx): (s': State) {
    if t in s.txs then s else s.(txs := s.txs[t := tx])
  }

  function Step(s: State, a: Action): (s': State) {
    match a
    case BeginCreate(t, storeId, lines, now) => Begin(s, t, Creating(storeId, lines, now, map[], [], None, None))
    case BeginChange(t, storeId, orderId, status) => Begin(s, t, Changing(storeId, orderId, status, map[], None, 0, false))
    case BeginEdit(t, storeId, id) => Begin(s, t, Editing(storeId, id, map[], None, None))
    case LockLine(t) => if t in s.txs && s.txs[t].Creating? then DoLockLine(s, t, s.txs[t]) else s
    case SaveLine(t) => if t in s.txs && s.txs[t].Creating? then DoSaveLine(s, t, s.txs[t]) else s
    case InsertOrder(t, orderId) => if t in s.txs && s.txs[t].Creating? then DoInsertOrder(s, t, s.txs[t], orderId) else s
    case ReadOrder(t) => if t in s.txs && s.txs[t].Changing? then DoReadOrder(s, t, s.txs[t]) else s
    case Increment(t) => if t in s.txs && s.txs[t].Changing? then DoIncrement(s, t, s.txs[t]) else s
    case SaveStatus(t) => if t in s.txs && s.txs[t].Changing? then DoSaveStatus(s, t, s.txs[t]) else s
    case ReadRow(t) => if t in s.txs && s.txs[t].Editing? then DoReadRow(s, t, s.txs[t]) else s
    case WriteEdit(t, patch) => if t in s.txs && s.txs[t].Editing? then DoWriteEdit(s, t, s.txs[t], patch) else s
    case Commit(t) => if t in s.txs then DoCommit(s, t, s.txs[t]) else s
    case Abort(t) => if t in s.txs then End(s, t) else s
  }

  /** The state after the given actions, in which the tables start as db. */
  function Exec(db: Db, actions: seq<Action>): (s: State) {
    if |actions| == 0 then State(db, map[], map[], db.orders.Keys, [])
    else Step(Exec(db, actions[..|actions| - 1]), actions[|actions| - 1])
  }

  /** No two transactions have inserted orders under the same id. */
  predicate DistinctIds(txs: map<TxId, Tx>) {
    forall t, u :: t in txs && u in txs && t != u && txs[t].Creating? && txs[u].Creating? && txs[t].saved.Some? ==>
      txs[t].saved != txs[u].saved
  }

  // ----- no stock is ever negative -----

  predicate NonNegative(rows: map<Uuid, Product>) {
    forall p :: p in rows ==> rows[p].stock >= 0
  }

  /** A held row, read under its lock, covers the line it was read for. */
  predicate HeldSuffices(tx: Tx) {
    tx.Creating? && tx.held.Some? ==>
      |tx.items| < |tx.lines| && tx.lines[|tx.items|].quantity <= tx.held.value.stock
  }

  predicate ReadNonNegative(tx: Tx) {
    tx.Editing? && tx.read.Some? ==> tx.read.value.stock >= 0
  }

  predicate NoNegativeStock(s: State) {
    && NonNegative(s.db.products)
    && forall t :: t in s.txs ==> NonNegative(s.txs[t].rows) && HeldSuffices(s.txs[t]) && ReadNonNegative(s.txs[t])
  }

  lemma LockLineNonNegative(s: State, t: TxId)
    requires NoNegativeStock(s) && t in s.txs && s.txs[t].Creating?
    ensures NoNegativeStock(DoLockLine(s, t, s.txs[t]))
  {
  }

  lemma SaveLineNonNegative(s: State, t: TxId)
    requires NoNegativeStock(s) && t in s.txs && s.txs[t].Creating?
    ensures NoNegativeStock(DoSaveLine(s, t, s.txs[t]))
  {
  }

  lemma InsertOrderNonNegative(s: State, t: TxId, orderId: Uuid)
    requires NoNegativeStock(s) && t in s.txs && s.txs[t].Creating?
    ensures NoNegativeStock(DoInsertOrder(s, t, s.txs[t], orderId))
  {
    hide RunningTotal, Column;
  }

  lemma IncrementNonNegative(s: State, t: TxId)
    requires NoNegativeStock(s) && t in s.txs && s.txs[t].Changing?
    ensures NoNegativeStock(DoIncrement(s, t, s.txs[t]))
  {
  }

  lemma ReadRowNonNegative(s: State, t: TxId)
    requires NoNegativeStock(s) && t in s.txs && s.txs[t].Editing?
    ensures NoNegativeStock(DoReadRow(s, t, s.txs[t]))
  {
  }

  lemma WriteEditNonNegative(s: State, t: TxId, patch: ProductPatch)
    requires NoNegativeStock(s) && t in s.txs && s.txs[t].Editing?
    ensures NoNegativeStock(DoWriteEdit(s, t, s.txs[t], patch))
  {
  }

  lemma CommitNonNegative(s: State, t: TxId)
    requires NoNegativeStock(s) && t in s.txs
    ensures NoNegativeStock(DoCommit(s, t, s.txs[t]))
  {
    hide RunningTotal, Column, Notice;
  }

  lemma StepNonNegative(s: State, a: Action)
    requires NoNegativeStock(s)
    ensures NoNegativeStock(Step(s, a))
  {
    hide DoLockLine, DoSaveLine, DoInsertOrder, DoIncrement, DoReadRow, DoWriteEdit, DoCommit;
    match a
    case LockLine(t) => if t in s.txs && s.txs[t].Creating? { LockLineNonNegative(s, t); }
    case SaveLine(t) => if t in s.txs && s.txs[t].Creating? { SaveLineNonNegative(s, t); }
    case InsertOrder(t, orderId) => if t in s.txs && s.txs[t].Creating? { InsertOrderNonNegative(s, t, orderId); }
    case Increment(t) => if t in s.txs && s.txs[t].Changing? { IncrementNonNegative(s, t); }
    case ReadRow(t) => if t in s.txs && s.txs[t].Editing? { ReadRowNonNegative(s, t); }
    case WriteEdit(t, patch) => if t in s.txs && s.txs[t].Editing? { WriteEditNonNegative(s, t, patch); }
    case Commit(t) => if t in s.txs { CommitNonNegative(s, t); }
    case _ =>
  }

  /** In every interleaving, with any aborts, no committed or uncommitted stock is negative. */
  lemma {:induction false} StockNeverNegative(db: Db, actions: seq<Action>)
    requires NonNegative(db.products)
    ensures NoNegativeStock(Exec(db, actions))
  {
    hide Step;
    if |actions| == 0 {
    } else {
      StockNeverNegative(db, actions[..|actions| - 1]);
      StepNonNegative(Exec(db, actions[..|actions| - 1]), actions[|actions| - 1]);
    }
  }
}
