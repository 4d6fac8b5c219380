/**
 When an interleaving commits what the committed requests, run one at a time in commit
 order, would have committed: exactly when no transaction commits on a stale read.
 */
module Serializability {
  import opened Schema
  import opened Orders
  import opened Catalogue
  import opened Money
  import opened Interleaving
  import Ledger

  /** Each request of the log is accepted by the tables that the earlier ones left. */
  predicate AllAccepted(db: Db, log: seq<Ledger.Op>) {
    |log| > 0 ==>
      && AllAccepted(db, log[..|log| - 1])
      && Ledger.Accepted(Ledger.Run(db, log[..|log| - 1]), log[|log| - 1])
  }

  predicate Locked(locks: map<Uuid, TxId>, t: TxId, p: Uuid) {
    p in locks && locks[p] == t
  }

  /** A transaction holds the lock of every row it has written. */
  predicate OwnsRows(db: Db, locks: map<Uuid, TxId>, t: TxId, rows: map<Uuid, Product>) {
    forall p :: p in rows ==> p in db.products && Locked(locks, t, p)
  }

  // ----- what each transaction knows about the committed tables -----

  predicate LinesTaken(db: Db, locks: map<Uuid, TxId>, t: TxId, tx: Tx)
    requires tx.Creating?
  {
    && |tx.items| <= |tx.lines|
    && var done := tx.lines[..|tx.items|];
    && OwnsRows(db, locks, t, tx.rows)
    && (forall k :: 0 <= k < |done| ==> done[k].productId in tx.rows)
    && AllInStore(db.products, tx.storeId, done)
    && CanFill(db.products, tx.storeId, done)
    && tx.items == ItemsOf(db.products, tx.storeId, done)
    && db.products + tx.rows == Deducted(db.products, done)
  }

  predicate LineHeld(db: Db, locks: map<Uuid, TxId>, t: TxId, tx: Tx)
    requires tx.Creating?
  {
    tx.held.Some? ==>
      && |tx.items| < |tx.lines|
      && tx.saved.None?
      && var line := tx.lines[|tx.items|];
      && InStore(db.products, tx.storeId, line.productId)
      && Locked(locks, t, line.productId)
      && tx.held.value == Current(db, tx, line.productId)
      && line.quantity <= tx.held.value.stock
  }

  predicate OrderInserted(db: Db, issued: set<Uuid>, tx: Tx)
    requires tx.Creating?
  {
    tx.saved.Some? ==>
      && |tx.items| == |tx.lines|
      && tx.saved.value in issued
      && tx.saved.value !in db.orders
      && Column(RunningTotal(Charges(tx.items))) < NUMERIC_10_2
  }

  /** Only the status of an order changes once it is committed. */
  predicate SameButStatus(now: Order, read: Order) {
    now == read.(status := now.status)
  }

  predicate ItemsReturned(db: Db, locks: map<Uuid, TxId>, t: TxId, tx: Tx)
    requires tx.Changing?
  {
    && OwnsRows(db, locks, t, tx.rows)
    && if tx.order.None? then tx.rows == map[] && tx.next == 0 && !tx.written
       else
         var items := tx.order.value.items;
         && OwnsOrder(db, tx.storeId, tx.orderId)
         && SameButStatus(db.orders[tx.orderId], tx.order.value)
         && if NewlyCancelled(tx.order.value, tx.status) then
              && tx.next <= |items|
              && (tx.written ==> tx.next == |items|)
              && (forall k :: 0 <= k < tx.next && items[k].productId.Some? &&
                              InStore(db.products, tx.storeId, items[k].productId.value) ==>
                                items[k].productId.value in tx.rows)
              && CanRestock(db.products, tx.storeId, items[..tx.next])
              && db.products + tx.rows == Restocked(db.products, tx.storeId, items[..tx.next])
            else tx.rows == map[] && tx.next == 0
  }

  predicate RowEdited(db: Db, locks: map<Uuid, TxId>, t: TxId, tx: Tx)
    requires tx.Editing?
  {
    if tx.read.None? then tx.rows == map[] && tx.patch.None?
    else
      && InStore(db.products, tx.storeId, tx.id)
      && tx.read.value.storeId == tx.storeId
      && if tx.patch.None? then tx.rows == map[]
         else
           var product := Patched(tx.read.value, tx.patch.value);
           && CategoryFits(db, tx.storeId, tx.patch.value.categoryId)
           && InRange(product.price, product.stock)
           && Locked(locks, t, tx.id)
           && tx.rows == map[tx.id := product]
  }

  predicate TxInv(db: Db, locks: map<Uuid, TxId>, issued: set<Uuid>, t: TxId, tx: Tx) {
    match tx
    case Creating(_, _, _, _, _, _, _) =>
      LinesTaken(db, locks, t, tx) && LineHeld(db, locks, t, tx) && OrderInserted(db, issued, tx)
    case Changing(_, _, _, _, _, _, _) => ItemsReturned(db, locks, t, tx)
    case Editing(_, _, _, _, _) => RowEdited(db, locks, t, tx)
  }

  predicate Inv(s: State) {
    && (forall t :: t in s.txs ==> TxInv(s.db, s.locks, s.issued, t, s.txs[t]))
    && DistinctIds(s.txs)
    && s.db.orders.Keys <= s.issued
  }

  // ----- what another transaction can do to that knowledge -----

  /** db' differs from db at most in rows that t has not locked; t keeps its locks. */
  predicate Undisturbed(db: Db, locks: map<Uuid, TxId>, db': Db, locks': map<Uuid, TxId>, t: TxId) {
    && db'.products.Keys == db.products.Keys
    && db'.categories == db.categories
    && (forall p :: p in db.products ==> db'.products[p].storeId == db.products[p].storeId)
    && (forall p :: p in db.products && Locked(locks, t, p) ==>
          db'.products[p] == db.products[p] && Locked(locks', t, p))
  }

  lemma OthersUntouched(db: Db, db': Db, rows: map<Uuid, Product>, lines: seq<Line>)
    requires db'.products.Keys == db.products.Keys
    requires forall p :: p in rows ==> p in db.products && db'.products[p] == db.products[p]
    requires forall k :: 0 <= k < |lines| ==> lines[k].productId in rows
    requires db.products + rows == Deducted(db.products, lines)
    ensures db'.products + rows == Deducted(db'.products, lines)
  {
    forall p | p in db.products
      ensures p in rows ==> rows[p] == Deducted(db'.products, lines)[p]
      ensures p !in rows ==> Deducted(db'.products, lines)[p] == db'.products[p]
    {
      if p in rows {
        assert (db.products + rows)[p] == Deducted(db.products, lines)[p];
      } else {
        DemandOfOthers(lines, p);
      }
    }
  }

  lemma LinesTakenFrame(db: Db, locks: map<Uuid, TxId>, db': Db, locks': map<Uuid, TxId>, t: TxId, tx: Tx)
    requires tx.Creating? && LinesTaken(db, locks, t, tx) && Undisturbed(db, locks, db', locks', t)
    ensures LinesTaken(db', locks', t, tx)
  {
    hide Demand, Deducted;
    var done := tx.lines[..|tx.items|];
    OthersUntouched(db, db', tx.rows, done);
    forall k | 0 <= k < |done|
      ensures db'.products[done[k].productId] == db.products[done[k].productId]
    {
      assert done[k].productId in tx.rows;
    }
    assert ItemsOf(db'.products, tx.storeId, done) == tx.items;
  }

  lemma {:induction false} ReturnedOnlyTo(items: seq<Item>, p: Uuid)
    requires forall k :: 0 <= k < |items| ==> items[k].productId != Some(p)
    ensures Returned(items, p) == 0
  {
    if |items| == 0 {
    } else {
      ReturnedOnlyTo(items[..|items| - 1], p);
    }
  }

  lemma ItemsReturnedFrame(db: Db, locks: map<Uuid, TxId>, db': Db, locks': map<Uuid, TxId>, t: TxId, tx: Tx)
    requires tx.Changing? && ItemsReturned(db, locks, t, tx) && Undisturbed(db, locks, db', locks', t)
    requires tx.order.Some? ==> tx.orderId in db'.orders && SameButStatus(db'.orders[tx.orderId], db.orders[tx.orderId])
    ensures ItemsReturned(db', locks', t, tx)
  {
    hide Returned;
    if tx.order.Some? && NewlyCancelled(tx.order.value, tx.status) {
      var items := tx.order.value.items[..tx.next];
      forall p | InStore(db.products, tx.storeId, p) && p !in tx.rows
        ensures Returned(items, p) == 0
      {
        ReturnedOnlyTo(items, p);
      }
      forall p | p in tx.rows
        ensures tx.rows[p] == Restocked(db.products, tx.storeId, items)[p]
      {
        assert (db.products + tx.rows)[p] == tx.rows[p];
      }
      assert db'.products + tx.rows == Restocked(db'.products, tx.storeId, items);
    }
  }

  lemma TxFrame(db: Db, locks: map<Uuid, TxId>, issued: set<Uuid>,
                db': Db, locks': map<Uuid, TxId>, issued': set<Uuid>, t: TxId, tx: Tx)
    requires TxInv(db, locks, issued, t, tx) && Undisturbed(db, locks, db', locks', t) && issued <= issued'
    requires tx.Changing? && tx.order.Some? ==>
      tx.orderId in db'.orders && SameButStatus(db'.orders[tx.orderId], db.orders[tx.orderId])
    requires tx.Creating? && tx.saved.Some? ==> tx.saved.value !in db'.orders
    ensures TxInv(db', locks', issued', t, tx)
  {
    hide Demand, Returned, CanFill, CanRestock, Deducted, Restocked, RunningTotal, Column;
    if tx.Creating? {
      LinesTakenFrame(db, locks, db', locks', t, tx);
    } else if tx.Changing? {
      ItemsReturnedFrame(db, locks, db', locks', t, tx);
    }
  }

  // ----- statements before the commit -----

  /** A statement of t keeps the locks of the others and may take new ones. */
  predicate KeepsOthersLocks(locks: map<Uuid, TxId>, locks': map<Uuid, TxId>, t: TxId) {
    forall p :: p in locks && locks[p] != t ==> p in locks' && locks'[p] == locks[p]
  }

  lemma Rewritten(s: State, s': State, t: TxId, tx: Tx)
    requires Inv(s)
    requires s'.db == s.db && s'.txs == s.txs[t := tx] && s.issued <= s'.issued
    requires KeepsOthersLocks(s.locks, s'.locks, t)
    requires TxInv(s.db, s'.locks, s'.issued, t, tx)
    requires tx.Creating? && tx.saved.Some? ==>
      (t in s.txs && s.txs[t].Creating? && s.txs[t].saved == tx.saved) || tx.saved.value !in s.issued
    ensures Inv(s')
  {
    hide TxInv;
    forall u | u in s'.txs
      ensures TxInv(s'.db, s'.locks, s'.issued, u, s'.txs[u])
    {
      if u != t {
        KeepsOrderFacts(s, u);
        TxFrame(s.db, s.locks, s.issued, s'.db, s'.locks, s'.issued, u, s.txs[u]);
      }
    }
    forall u, v | u in s'.txs && v in s'.txs && u != v && s'.txs[u].Creating? && s'.txs[v].Creating? && s'.txs[u].saved.Some?
      ensures s'.txs[u].saved != s'.txs[v].saved
    {
      if u != t {
        KeepsOrderFacts(s, u);
      }
      if v != t {
        KeepsOrderFacts(s, v);
      }
    }
  }

  lemma KeepsOrderFacts(s: State, u: TxId)
    requires Inv(s) && u in s.txs
    ensures var tx := s.txs[u];
            && TxInv(s.db, s.locks, s.issued, u, tx)
            && (tx.Changing? && tx.order.Some? ==>
                  tx.orderId in s.db.orders && SameButStatus(s.db.orders[tx.orderId], tx.order.value))
            && (tx.Creating? && tx.saved.Some? ==> tx.saved.value in s.issued && tx.saved.value !in s.db.orders)
  {
    hide LinesTaken, LineHeld, RowEdited;
  }

  lemma OwnInv(s: State, t: TxId)
    requires Inv(s) && t in s.txs
    ensures TxInv(s.db, s.locks, s.issued, t, s.txs[t])
    ensures s.db.orders.Keys <= s.issued
  {
  }

  lemma EndInv(s: State, t: TxId)
    requires Inv(s)
    ensures Inv(End(s, t))
  {
    hide TxInv;
    var s' := End(s, t);
    forall u | u in s'.txs
      ensures TxInv(s'.db, s'.locks, s'.issued, u, s'.txs[u])
    {
      KeepsOrderFacts(s, u);
      TxFrame(s.db, s.locks, s.issued, s'.db, s'.locks, s'.issued, u, s.txs[u]);
    }
  }

  lemma BeginInv(s: State, t: TxId, tx: Tx)
    requires Inv(s) && tx.rows == map[]
    requires tx.Creating? ==> tx.items == [] && tx.held.None? && tx.saved.None?
    requires tx.Changing? ==> tx.order.None? && tx.next == 0 && !tx.written
    requires tx.Editing? ==> tx.read.None? && tx.patch.None?
    ensures Inv(Begin(s, t, tx))
  {
    if t !in s.txs {
      if tx.Creating? {
        NothingTaken(s.db.products, tx.storeId, tx.lines[..0]);
        assert s.db.products + tx.rows == s.db.products;
      }
      Rewritten(s, Begin(s, t, tx), t, tx);
    }
  }

  lemma LockLineInv(s: State, t: TxId)
    requires Inv(s) && t in s.txs && s.txs[t].Creating?
    ensures Inv(DoLockLine(s, t, s.txs[t]))
  {
    hide Inv, CanFill, Deducted, ItemsOf, RunningTotal, Column;
    var tx := s.txs[t];
    var s' := DoLockLine(s, t, tx);
    EndInv(s, t);
    if s' != s && s' != End(s, t) {
      OwnInv(s, t);
      Rewritten(s, s', t, s'.txs[t]);
    }
  }

  lemma LineSaved(s: State, t: TxId, tx: Tx)
    requires tx.Creating? && TxInv(s.db, s.locks, s.issued, t, tx)
    requires DoSaveLine(s, t, tx) != s
    ensures var s' := DoSaveLine(s, t, tx);
            && t in s'.txs && s'.txs[t].Creating? && s'.txs[t].saved == tx.saved
            && s' == s.(txs := s.txs[t := s'.txs[t]])
            && TxInv(s.db, s.locks, s.issued, t, s'.txs[t])
  {
    hide CanFill, Deducted, ItemsOf, RunningTotal, Column, Charges;
    var n := |tx.items|;
    var q := tx.lines[n].productId;
    TakeLine(s.db.products, tx.storeId, tx.lines, n);
    assert (s.db.products + tx.rows)[q] == tx.held.value;
    var tx' := DoSaveLine(s, t, tx).txs[t];
    assert s.db.products + tx'.rows == (s.db.products + tx.rows)[q := tx'.rows[q]];
    assert tx.lines[..n + 1] == tx.lines[..n] + [tx.lines[n]];
  }

  lemma SaveLineInv(s: State, t: TxId)
    requires Inv(s) && t in s.txs && s.txs[t].Creating?
    ensures Inv(DoSaveLine(s, t, s.txs[t]))
  {
    hide Inv, TxInv, DoSaveLine;
    var s' := DoSaveLine(s, t, s.txs[t]);
    if s' != s {
      OwnInv(s, t);
      LineSaved(s, t, s.txs[t]);
      Rewritten(s, s', t, s'.txs[t]);
    }
  }

  lemma InsertOrderInv(s: State, t: TxId, orderId: Uuid)
    requires Inv(s) && t in s.txs && s.txs[t].Creating?
    ensures Inv(DoInsertOrder(s, t, s.txs[t], orderId))
  {
    hide Inv, CanFill, Deducted, ItemsOf, RunningTotal, Column, Charges;
    var tx := s.txs[t];
    var s' := DoInsertOrder(s, t, tx, orderId);
    EndInv(s, t);
    if s' != s && s' != End(s, t) {
      OwnInv(s, t);
      Rewritten(s, s', t, s'.txs[t]);
    }
  }

  lemma ReadOrderInv(s: State, t: TxId)
    requires Inv(s) && t in s.txs && s.txs[t].Changing?
    ensures Inv(DoReadOrder(s, t, s.txs[t]))
  {
    hide Inv, CanRestock, Restocked;
    var tx := s.txs[t];
    var s' := DoReadOrder(s, t, tx);
    EndInv(s, t);
    if s' != s && s' != End(s, t) {
      OwnInv(s, t);
      NothingRestocked(s.db.products, tx.storeId, s.db.orders[tx.orderId].items[..0]);
      assert s.db.products + tx.rows == s.db.products;
      Rewritten(s, s', t, s'.txs[t]);
    }
  }

  /** The product of the item that comes next, unless it was removed or belongs elsewhere. */
  predicate NextInStore(s: State, tx: Tx) {
    && tx.Changing? && tx.order.Some? && tx.next < |tx.order.value.items|
    && var id := tx.order.value.items[tx.next].productId; id.Some? && InStore(s.db.products, tx.storeId, id.value)
  }

  lemma ItemSkipped(s: State, t: TxId, tx: Tx)
    requires tx.Changing? && TxInv(s.db, s.locks, s.issued, t, tx)
    requires DoIncrement(s, t, tx) != s && DoIncrement(s, t, tx) != End(s, t)
    requires !NextInStore(s, tx)
    ensures var s' := DoIncrement(s, t, tx);
            && t in s'.txs && s'.txs[t].Changing?
            && s' == s.(locks := s'.locks, txs := s.txs[t := s'.txs[t]])
            && KeepsOthersLocks(s.locks, s'.locks, t)
            && TxInv(s.db, s'.locks, s.issued, t, s'.txs[t])
  {
    hide CanRestock, Restocked;
    RestockedNext(s.db.products, tx.storeId, tx.order.value.items, tx.next);
  }

  lemma ItemReturned(s: State, t: TxId, tx: Tx)
    requires tx.Changing? && TxInv(s.db, s.locks, s.issued, t, tx)
    requires DoIncrement(s, t, tx) != s && DoIncrement(s, t, tx) != End(s, t)
    requires NextInStore(s, tx)
    ensures var s' := DoIncrement(s, t, tx);
            && t in s'.txs && s'.txs[t].Changing?
            && s' == s.(locks := s'.locks, txs := s.txs[t := s'.txs[t]])
            && KeepsOthersLocks(s.locks, s'.locks, t)
            && TxInv(s.db, s'.locks, s.issued, t, s'.txs[t])
  {
    hide CanRestock, Restocked;
    var items := tx.order.value.items;
    RestockedNext(s.db.products, tx.storeId, items, tx.next);
    var tx' := DoIncrement(s, t, tx).txs[t];
    var p := items[tx.next].productId.value;
    assert (s.db.products + tx.rows)[p] == Current(s.db, tx, p);
    assert s.db.products + tx'.rows == (s.db.products + tx.rows)[p := tx'.rows[p]];
  }

  lemma IncrementInv(s: State, t: TxId)
    requires Inv(s) && t in s.txs && s.txs[t].Changing?
    ensures Inv(DoIncrement(s, t, s.txs[t]))
  {
    hide Inv, TxInv, DoIncrement;
    var s' := DoIncrement(s, t, s.txs[t]);
    EndInv(s, t);
    if s' != s && s' != End(s, t) {
      OwnInv(s, t);
      if NextInStore(s, s.txs[t]) {
        ItemReturned(s, t, s.txs[t]);
      } else {
        ItemSkipped(s, t, s.txs[t]);
      }
      Rewritten(s, s', t, s'.txs[t]);
    }
  }

  lemma SaveStatusInv(s: State, t: TxId)
    requires Inv(s) && t in s.txs && s.txs[t].Changing?
    ensures Inv(DoSaveStatus(s, t, s.txs[t]))
  {
    hide Inv, CanRestock, Restocked;
    var tx := s.txs[t];
    var s' := DoSaveStatus(s, t, tx);
    if s' != s {
      OwnInv(s, t);
      Rewritten(s, s', t, s'.txs[t]);
    }
  }

  lemma ReadRowInv(s: State, t: TxId)
    requires Inv(s) && t in s.txs && s.txs[t].Editing?
    ensures Inv(DoReadRow(s, t, s.txs[t]))
  {
    hide Inv;
    var s' := DoReadRow(s, t, s.txs[t]);
    EndInv(s, t);
    if s' != s && s' != End(s, t) {
      OwnInv(s, t);
      Rewritten(s, s', t, s'.txs[t]);
    }
  }

  lemma WriteEditInv(s: State, t: TxId, patch: ProductPatch)
    requires Inv(s) && t in s.txs && s.txs[t].Editing?
    ensures Inv(DoWriteEdit(s, t, s.txs[t], patch))
  {
    hide Inv, Patched, InRange, CategoryFits;
    var tx := s.txs[t];
    var s' := DoWriteEdit(s, t, tx, patch);
    EndInv(s, t);
    if s' != s && s' != End(s, t) {
      OwnInv(s, t);
      Rewritten(s, s', t, s'.txs[t]);
    }
  }

  // ----- the commit -----

  predicate LogsOne(s: State, s': State) {
    |s'.log| == |s.log| + 1 && s'.log[..|s.log|] == s.log
  }

  /** The commit does what its request, run alone on the committed tables, does. */
  predicate CommitsOp(s: State, s': State)
    requires LogsOne(s, s')
  {
    && Ledger.Accepted(s.db, s'.log[|s.log|])
    && s'.db == Ledger.Step(s.db, s'.log[|s.log|])
  }

  /** Some unit that the order's items name is of a product of the store. */
  predicate HasUnits(db: Db, storeId: Uuid, items: seq<Item>) {
    exists p :: p in db.products && InStore(db.products, storeId, p) && Returned(items, p) > 0
  }

  /** Since the read, a column has changed that the request does not assign. */
  predicate LeavesChange(read: Product, now: Product, patch: ProductPatch) {
    || (patch.name.None? && now.name != read.name)
    || (patch.description.None? && now.description != read.description)
    || (patch.price.None? && now.price != read.price)
    || (patch.stock.None? && now.stock != read.stock)
    || (!(patch.categoryId.Some? && patch.relinks) && now.categoryId != read.categoryId)
    || now.storeId != read.storeId || now.imageUrl != read.imageUrl || now.createdAt != read.createdAt
  }

  lemma PatchedAlike(read: Product, now: Product, patch: ProductPatch)
    ensures Patched(read, patch) == Patched(now, patch) <==> !LeavesChange(read, now, patch)
  {
  }

  /**
   The transaction is ready to commit on a read that no longer holds: by now the status change
   moves the order into CANCELLED, or no longer does, and its items have units to restock; or a
   column that the edit does not assign, and writes back as it was read, has changed.
   */
  predicate Stale(s: State, t: TxId) {
    t in s.txs &&
    match s.txs[t]
    case Creating(_, _, _, _, _, _, _) => false
    case Changing(storeId, orderId, status, _, order, _, written) =>
      && order.Some? && written && orderId in s.db.orders
      && NewlyCancelled(order.value, status) != NewlyCancelled(s.db.orders[orderId], status)
      && HasUnits(s.db, storeId, order.value.items)
    case Editing(_, id, _, read, patch) =>
      && read.Some? && patch.Some? && id in s.db.products
      && LeavesChange(read.value, s.db.products[id], patch.value)
  }

  /** The commit of t writes only rows that t had locked, so the others know what they knew. */
  lemma FinishInv(s: State, t: TxId, db: Db, op: Ledger.Op)
    requires Inv(s) && t in s.txs
    requires db.products == s.db.products + s.txs[t].rows && db.categories == s.db.categories
    requires OwnsRows(s.db, s.locks, t, s.txs[t].rows)
    requires forall p :: p in s.db.products ==> db.products[p].storeId == s.db.products[p].storeId
    requires db.orders.Keys <= s.issued
    requires forall o :: o in s.db.orders ==> o in db.orders && SameButStatus(db.orders[o], s.db.orders[o])
    requires forall o :: o in db.orders && o !in s.db.orders ==> s.txs[t].Creating? && s.txs[t].saved == Some(o)
    ensures Inv(Finish(s, t, db, op))
  {
    hide TxInv;
    var s' := Finish(s, t, db, op);
    forall u | u in s'.txs
      ensures TxInv(s'.db, s'.locks, s'.issued, u, s'.txs[u])
    {
      KeepsOrderFacts(s, u);
      TxFrame(s.db, s.locks, s.issued, s'.db, s'.locks, s'.issued, u, s.txs[u]);
    }
  }

  /** The transaction has executed all its statements. */
  predicate Ready(tx: Tx) {
    match tx
    case Creating(_, _, _, _, _, _, saved) => saved.Some?
    case Changing(_, _, _, _, order, _, written) => order.Some? && written
    case Editing(_, _, _, read, patch) => read.Some? && patch.Some?
  }

  /** The request of a transaction that is ready. */
  function RequestOf(tx: Tx): (op: Ledger.Op)
    requires Ready(tx)
  {
    match tx
    case Creating(storeId, lines, now, _, _, _, saved) => Ledger.Place(storeId, lines, saved.value, now)
    case Changing(storeId, orderId, status, _, _, _, _) => Ledger.Change(storeId, orderId, status)
    case Editing(storeId, id, _, _, patch) => Ledger.Edit(storeId, id, patch.value)
  }

  /** The transaction is gone and holds no lock; nothing else about the others has changed. */
  predicate Ended(s: State, t: TxId, s': State) {
    && s'.txs == s.txs - {t} && s'.issued == s.issued
    && (forall p :: p in s'.locks ==> s'.locks[p] != t)
    && (forall p :: p in s.locks && s.locks[p] != t ==> p in s'.locks && s'.locks[p] == s.locks[p])
    && s'.locks.Keys <= s.locks.Keys
  }

  /**
   What a commit amounts to. Before all statements are executed there is nothing to commit; then
   the transaction ends, its request is logged, and it is serial exactly when it is not stale.
   */
  predicate CommitRight(s: State, t: TxId, s': State)
    requires t in s.txs
  {
    && Inv(s')
    && if !Ready(s.txs[t]) then s' == s && !Stale(s, t)
       else
         && Ended(s, t, s')
         && s'.log == s.log + [RequestOf(s.txs[t])]
         && LogsOne(s, s') && (CommitsOp(s, s') <==> !Stale(s, t))
  }

  lemma FinishEnds(s: State, t: TxId, db: Db, op: Ledger.Op)
    ensures var s' := Finish(s, t, db, op); Ended(s, t, s') && LogsOne(s, s') && s'.log == s.log + [op]
  {
  }

  lemma CommitCreating(s: State, t: TxId)
    requires Inv(s) && t in s.txs && s.txs[t].Creating?
    ensures CommitRight(s, t, DoCommit(s, t, s.txs[t]))
  {
    hide Ended, LogsOne;
    hide Inv, RunningTotal, Column, Charges, CanFill, Deducted, ItemsOf, Notice;
    var tx := s.txs[t];
    var s' := DoCommit(s, t, tx);
    if tx.saved.Some? {
      OwnInv(s, t);
      assert tx.lines[..|tx.lines|] == tx.lines;
      forall p | p in s.db.products
        ensures Deducted(s.db.products, tx.lines)[p].storeId == s.db.products[p].storeId
      {
        DeductedKeepsStore(s.db.products, tx.lines, p);
      }
      FinishEnds(s, t, s'.db, s'.log[|s.log|]);
      FinishInv(s, t, s'.db, s'.log[|s.log|]);
    }
  }

  lemma DeductedKeepsStore(products: map<Uuid, Product>, lines: seq<Line>, p: Uuid)
    requires p in products
    ensures p in Deducted(products, lines) && Deducted(products, lines)[p].storeId == products[p].storeId
  {
  }

  lemma RestockedKeepsStore(products: map<Uuid, Product>, storeId: Uuid, items: seq<Item>)
    ensures var restocked := Restocked(products, storeId, items);
            restocked.Keys == products.Keys && forall p :: p in products ==> restocked[p].storeId == products[p].storeId
  {
    hide Returned;
  }

  /** Restocking changes nothing exactly when the items have no units in the store. */
  lemma RestockedSame(db: Db, storeId: Uuid, items: seq<Item>)
    ensures Restocked(db.products, storeId, items) == db.products <==> !HasUnits(db, storeId, items)
    ensures !HasUnits(db, storeId, items) ==> CanRestock(db.products, storeId, items)
  {
    hide Returned;
    if p :| p in db.products && InStore(db.products, storeId, p) && Returned(items, p) > 0 {
      assert Restocked(db.products, storeId, items)[p] != db.products[p];
    }
  }

  lemma CommitChanging(s: State, t: TxId)
    requires Inv(s) && t in s.txs && s.txs[t].Changing?
    ensures CommitRight(s, t, DoCommit(s, t, s.txs[t]))
  {
    hide Ended, LogsOne;
    hide Inv, CanRestock, Restocked, CanPlace, Placed, ProductRemoved, HasUnits, Ledger.CanEdit, LeavesChange, CategoryFits, InRange, Patched;
    var tx := s.txs[t];
    var s' := DoCommit(s, t, tx);
    if tx.order.Some? && tx.written {
      OwnInv(s, t);
      var items := tx.order.value.items;
      assert items[..|items|] == items;
      assert s.db.products + map[] == s.db.products;
      RestockedKeepsStore(s.db.products, tx.storeId, items);
      RestockedSame(s.db, tx.storeId, items);
      FinishEnds(s, t, s'.db, s'.log[|s.log|]);
      FinishInv(s, t, s'.db, s'.log[|s.log|]);
    }
  }

  lemma CommitEditing(s: State, t: TxId)
    requires Inv(s) && t in s.txs && s.txs[t].Editing?
    ensures CommitRight(s, t, DoCommit(s, t, s.txs[t]))
  {
    hide Ended, LogsOne;
    hide Inv, CanPlace, Placed, CanChange, Changed, ProductRemoved, CategoryFits, InRange, Patched, LeavesChange;
    var tx := s.txs[t];
    var s' := DoCommit(s, t, tx);
    if tx.patch.Some? {
      OwnInv(s, t);
      PatchedAlike(tx.read.value, s.db.products[tx.id], tx.patch.value);
      PatchedKeepsStore(tx.read.value, tx.patch.value);
      assert s.db.products + tx.rows == s.db.products[tx.id := tx.rows[tx.id]];
      FinishEnds(s, t, s'.db, s'.log[|s.log|]);
      FinishInv(s, t, s'.db, s'.log[|s.log|]);
    }
  }

  lemma CommitInv(s: State, t: TxId)
    requires Inv(s) && t in s.txs
    ensures CommitRight(s, t, DoCommit(s, t, s.txs[t]))
  {
    hide Inv, CommitRight, DoCommit;
    match s.txs[t]
    case Creating(_, _, _, _, _, _, _) => CommitCreating(s, t);
    case Changing(_, _, _, _, _, _, _) => CommitChanging(s, t);
    case Editing(_, _, _, _, _) => CommitEditing(s, t);
  }

  /** A step that commits is serial exactly when it is not stale; no other step touches tables or log. */
  predicate StepRight(s: State, a: Action, s': State) {
    if a.Commit? && a.t in s.txs then CommitRight(s, a.t, s') else Inv(s') && s'.db == s.db && s'.log == s.log
  }

  lemma StepInv(s: State, a: Action)
    requires Inv(s)
    ensures StepRight(s, a, Step(s, a))
  {
    hide Inv, CommitRight, Notice, RunningTotal, Column;
    match a
    case BeginCreate(t, storeId, lines, now) => BeginInv(s, t, Creating(storeId, lines, now, map[], [], None, None));
    case BeginChange(t, storeId, orderId, status) => BeginInv(s, t, Changing(storeId, orderId, status, map[], None, 0, false));
    case BeginEdit(t, storeId, id) => BeginInv(s, t, Editing(storeId, id, map[], None, None));
    case LockLine(t) => if t in s.txs && s.txs[t].Creating? { LockLineInv(s, t); }
    case SaveLine(t) => if t in s.txs && s.txs[t].Creating? { SaveLineInv(s, t); }
    case InsertOrder(t, orderId) => if t in s.txs && s.txs[t].Creating? { InsertOrderInv(s, t, orderId); }
    case ReadOrder(t) => if t in s.txs && s.txs[t].Changing? { ReadOrderInv(s, t); }
    case Increment(t) => if t in s.txs && s.txs[t].Changing? { IncrementInv(s, t); }
    case SaveStatus(t) => if t in s.txs && s.txs[t].Changing? { SaveStatusInv(s, t); }
    case ReadRow(t) => if t in s.txs && s.txs[t].Editing? { ReadRowInv(s, t); }
    case WriteEdit(t, patch) => if t in s.txs && s.txs[t].Editing? { WriteEditInv(s, t, patch); }
    case Commit(t) => if t in s.txs { CommitInv(s, t); }
    case Abort(t) => EndInv(s, t);
  }

  /** A ready transaction that is not stale does commit: the tables are those of its request run alone. */
  lemma {:induction false} ReadyCommits(db: Db, actions: seq<Action>, t: TxId)
    requires var s := Exec(db, actions); t in s.txs && Ready(s.txs[t]) && !Stale(s, t)
    ensures var s, s' := Exec(db, actions), Exec(db, actions + [Commit(t)]);
            && Ledger.Accepted(s.db, RequestOf(s.txs[t]))
            && s'.db == Ledger.Step(s.db, RequestOf(s.txs[t]))
            && s'.log == s.log + [RequestOf(s.txs[t])]
            && Ended(s, t, s')
  {
    hide Exec, Inv, Stale, DoCommit, Ended, Ledger.Step, Ledger.Accepted;
    RunInv(db, actions);
    CommitInv(Exec(db, actions), t);
    ExecNext(db, actions, Commit(t));
  }

  /** An abort from outside leaves the committed tables and the log as they were. */
  lemma AbortLeavesNothing(s: State, t: TxId)
    requires t in s.txs
    ensures var s' := Step(s, Abort(t)); Ended(s, t, s') && s'.db == s.db && s'.log == s.log
  {
  }

  // ----- each request has its run -----

  /** Only transaction t is open, on the committed tables db, and only it holds locks. */
  predicate OnlyTx(s: State, db: Db, t: TxId, tx: Tx) {
    && s.db == db && s.log == [] && s.issued == db.orders.Keys && s.txs == map[t := tx]
    && forall p :: p in s.locks ==> s.locks[p] == t
  }

  lemma LineGoesOn(s: State, db: Db, t: TxId, tx: Tx)
    requires OnlyTx(s, db, t, tx) && Inv(s) && tx.Creating? && CanFill(db.products, tx.storeId, tx.lines)
    requires tx.held.None? && tx.saved.None? && |tx.items| < |tx.lines|
    ensures var s' := Step(s, LockLine(t));
            && t in s'.txs && s'.txs[t] == tx.(held := s'.txs[t].held) && s'.txs[t].held.Some?
            && OnlyTx(s', db, t, s'.txs[t])
  {
    hide Inv, CanFill, RunningTotal, Column;
    if t !in DoLockLine(s, t, tx).txs {
      LineRefusal(s, t);
    }
    CanFillInStore(db.products, tx.storeId, tx.lines, |tx.items|);
  }

  lemma CanFillInStore(products: map<Uuid, Product>, storeId: Uuid, lines: seq<Line>, i: nat)
    requires CanFill(products, storeId, lines) && i < |lines|
    ensures InStore(products, storeId, lines[i].productId)
  {
  }

  lemma {:induction false} TakeLines(db: Db, storeId: Uuid, lines: seq<Line>, now: nat, k: nat)
    returns (actions: seq<Action>, tx: Tx)
    requires CanFill(db.products, storeId, lines) && k <= |lines|
    ensures tx.Creating? && tx.storeId == storeId && tx.lines == lines && tx.now == now
    ensures |tx.items| == k && tx.held.None? && tx.saved.None?
    ensures OnlyTx(Exec(db, actions), db, 0, tx)
  {
    hide Exec, CanFill, RunningTotal, Column, Inv;
    if k == 0 {
      tx := Creating(storeId, lines, now, map[], [], None, None);
      actions := [BeginCreate(0, storeId, lines, now)];
      ExecNone(db);
      ExecNext(db, [], actions[0]);
      assert [] + [actions[0]] == actions;
    } else {
      var before, was := TakeLines(db, storeId, lines, now, k - 1);
      var locked := before + [LockLine(0)];
      RunInv(db, before);
      LineGoesOn(Exec(db, before), db, 0, was);
      ExecNext(db, before, LockLine(0));
      actions := locked + [SaveLine(0)];
      ExecNext(db, locked, SaveLine(0));
      tx := Exec(db, actions).txs[0];
    }
  }

  lemma OrderGoesOn(s: State, db: Db, t: TxId, tx: Tx, orderId: Uuid)
    requires OnlyTx(s, db, t, tx) && Inv(s) && tx.Creating? && CanPlace(db, tx.storeId, tx.lines) && orderId !in db.orders
    requires tx.held.None? && tx.saved.None? && |tx.items| == |tx.lines|
    ensures OnlyInserted(Step(s, InsertOrder(t, orderId)), db, t, tx.(saved := Some(orderId)))
  {
    hide Inv, CanPlace, RunningTotal, Column;
    if t !in DoInsertOrder(s, t, tx, orderId).txs {
      OrderRefusal(s, t, orderId);
    }
  }

  predicate OnlyInserted(s: State, db: Db, t: TxId, tx: Tx) {
    s.db == db && s.log == [] && s.txs == map[t := tx]
  }

  lemma PlaceRun(db: Db, op: Ledger.Op) returns (actions: seq<Action>)
    requires op.Place? && Ledger.Accepted(db, op)
    ensures OnlyReady(Exec(db, actions), db, op)
  {
    hide Exec, RunningTotal, Column, Inv, CanFill;
    var taken, tx := TakeLines(db, op.storeId, op.lines, op.now, |op.lines|);
    RunInv(db, taken);
    OrderGoesOn(Exec(db, taken), db, 0, tx, op.orderId);
    actions := taken + [InsertOrder(0, op.orderId)];
    ExecNext(db, taken, InsertOrder(0, op.orderId));
  }

  /** Transaction 0 is ready with this request and alone on the tables that it read. */
  predicate OnlyReady(s: State, db: Db, op: Ledger.Op) {
    && s.db == db && s.log == [] && s.txs.Keys == {0} && Ready(s.txs[0]) && RequestOf(s.txs[0]) == op
    && (op.Change? ==> op.orderId in db.orders && s.txs[0].order == Some(db.orders[op.orderId]))
    && (op.Edit? ==> op.id in db.products && s.txs[0].read == Some(db.products[op.id]))
  }

  lemma ItemGoesOn(s: State, db: Db, t: TxId, tx: Tx)
    requires OnlyTx(s, db, t, tx) && Inv(s) && tx.Changing? && tx.order.Some? && !tx.written
    requires NewlyCancelled(tx.order.value, tx.status) && CanRestock(db.products, tx.storeId, tx.order.value.items)
    requires tx.next < |tx.order.value.items|
    ensures var s' := Step(s, Increment(t));
            && t in s'.txs && s'.txs[t] == tx.(rows := s'.txs[t].rows, next := tx.next + 1)
            && OnlyTx(s', db, t, s'.txs[t])
  {
    hide Inv, CanRestock;
    NotRefused(s, t);
  }

  lemma NotRefused(s: State, t: TxId)
    requires Inv(s) && t in s.txs && s.txs[t].Changing? && s.txs[t].order.Some?
    requires CanRestock(s.db.products, s.txs[t].storeId, s.txs[t].order.value.items)
    ensures t in DoIncrement(s, t, s.txs[t]).txs
  {
    hide Inv, CanRestock, DoIncrement;
    if t !in DoIncrement(s, t, s.txs[t]).txs {
      IncrementRefusal(s, t);
    }
  }

  lemma {:induction false} ReturnItems(db: Db, storeId: Uuid, orderId: Uuid, status: OrderStatus, k: nat)
    returns (actions: seq<Action>, tx: Tx)
    requires CanChange(db, storeId, orderId, status)
    requires k <= if NewlyCancelled(db.orders[orderId], status) then |db.orders[orderId].items| else 0
    ensures tx == Changing(storeId, orderId, status, tx.rows, Some(db.orders[orderId]), k, false) && tx.Changing?
    ensures OnlyTx(Exec(db, actions), db, 0, tx)
  {
    hide Exec, CanRestock, Inv;
    if k == 0 {
      tx := Changing(storeId, orderId, status, map[], Some(db.orders[orderId]), 0, false);
      var begun := [BeginChange(0, storeId, orderId, status)];
      ExecNone(db);
      ExecNext(db, [], begun[0]);
      assert [] + [begun[0]] == begun;
      actions := begun + [ReadOrder(0)];
      ExecNext(db, begun, ReadOrder(0));
    } else {
      var before, was := ReturnItems(db, storeId, orderId, status, k - 1);
      RunInv(db, before);
      ItemGoesOn(Exec(db, before), db, 0, was);
      actions := before + [Increment(0)];
      ExecNext(db, before, Increment(0));
      tx := Exec(db, actions).txs[0];
    }
  }

  lemma ChangeRun(db: Db, op: Ledger.Op) returns (actions: seq<Action>)
    requires op.Change? && Ledger.Accepted(db, op)
    ensures OnlyReady(Exec(db, actions), db, op)
  {
    hide Exec, CanRestock, Inv;
    var order := db.orders[op.orderId];
    var returned, tx := ReturnItems(db, op.storeId, op.orderId, op.status,
                                    if NewlyCancelled(order, op.status) then |order.items| else 0);
    actions := returned + [SaveStatus(0)];
    ExecNext(db, returned, SaveStatus(0));
  }

  lemma EditRun(db: Db, op: Ledger.Op) returns (actions: seq<Action>)
    requires op.Edit? && Ledger.Accepted(db, op)
    ensures OnlyReady(Exec(db, actions), db, op)
  {
    hide Exec, Patched, InRange, CategoryFits;
    var begun := [BeginEdit(0, op.storeId, op.id)];
    var read := begun + [ReadRow(0)];
    ExecNone(db);
    ExecNext(db, [], begun[0]);
    assert [] + [begun[0]] == begun;
    ExecNext(db, begun, ReadRow(0));
    actions := read + [WriteEdit(0, op.patch)];
    ExecNext(db, read, WriteEdit(0, op.patch));
  }

  lemma ReadyNotStale(s: State, db: Db, op: Ledger.Op)
    requires OnlyReady(s, db, op)
    ensures !Stale(s, 0)
  {
    hide HasUnits;
  }

  /**
   Every request that is accepted has a run of its own statements, from its begin to its commit,
   that leaves the tables as the request run alone leaves them, and no transaction or lock behind.
   */
  lemma {:induction false} RequestHasRun(db: Db, op: Ledger.Op) returns (actions: seq<Action>)
    requires Ledger.Accepted(db, op) && (op.Place? || op.Change? || op.Edit?)
    ensures var s := Exec(db, actions);
            s.db == Ledger.Step(db, op) && s.log == [op] && s.txs == map[] && s.locks == map[]
  {
    hide Exec, Ledger.Accepted, Ledger.Step, Stale, Inv;
    match op {
      case Place(_, _, _, _) => actions := PlaceRun(db, op);
      case Change(_, _, _) => actions := ChangeRun(db, op);
      case Edit(_, _, _) => actions := EditRun(db, op);
      case _ =>
    }
    var s := Exec(db, actions);
    ReadyNotStale(s, db, op);
    ReadyCommits(db, actions, 0);
    actions := actions + [Commit(0)];
    assert s.txs - {0} == map[];
    LocksOfOne(db, actions);
    assert Exec(db, actions).locks == map[];
  }

  /** Locks belong to open transactions. */
  predicate LocksOpen(s: State) {
    forall p :: p in s.locks ==> s.locks[p] in s.txs
  }

  lemma StepLocks(s: State, a: Action)
    requires LocksOpen(s)
    ensures LocksOpen(Step(s, a))
  {
    hide RunningTotal, Column, Notice, Patched;
  }

  lemma {:induction false} LocksOfOne(db: Db, actions: seq<Action>)
    ensures LocksOpen(Exec(db, actions))
  {
    hide Step;
    if |actions| == 0 {
    } else {
      LocksOfOne(db, actions[..|actions| - 1]);
      StepLocks(Exec(db, actions[..|actions| - 1]), actions[|actions| - 1]);
    }
  }

  // ----- refusals -----

  /** The request of a transaction, run alone on the given tables, would be accepted. */
  predicate AcceptedAlone(db: Db, tx: Tx, patch: ProductPatch) {
    match tx
    case Creating(storeId, lines, _, _, _, _, _) => CanPlace(db, storeId, lines)
    case Changing(storeId, orderId, status, _, _, _, _) => CanChange(db, storeId, orderId, status)
    case Editing(storeId, id, _, _, _) => Ledger.CanEdit(db, storeId, id, patch)
  }

  /** What was read no longer decides the request as the committed tables do. */
  predicate ReadOutdated(db: Db, tx: Tx, patch: ProductPatch) {
    match tx
    case Creating(_, _, _, _, _, _, _) => false
    case Changing(_, orderId, status, _, order, _, _) =>
      order.Some? && orderId in db.orders && NewlyCancelled(order.value, status) != NewlyCancelled(db.orders[orderId], status)
    case Editing(_, id, _, read, _) => read.Some? && id in db.products && LeavesChange(read.value, db.products[id], patch)
  }

  lemma LineRefusal(s: State, t: TxId)
    requires Inv(s) && t in s.txs && s.txs[t].Creating? && DoLockLine(s, t, s.txs[t]) != s
    requires t !in DoLockLine(s, t, s.txs[t]).txs
    ensures !CanFill(s.db.products, s.txs[t].storeId, s.txs[t].lines)
  {
    hide Inv, CanFill, Deducted, ItemsOf, RunningTotal, Column, Charges;
    OwnInv(s, t);
    var tx := s.txs[t];
    var n := |tx.items|;
    TakeLine(s.db.products, tx.storeId, tx.lines, n);
    var p := tx.lines[n].productId;
    DeductedKeepsRows(s.db.products, tx.lines[..n], tx.storeId, p);
    if InStore(s.db.products, tx.storeId, p) {
      assert (s.db.products + tx.rows)[p] == Current(s.db, tx, p);
    }
  }

  lemma DeductedKeepsRows(products: map<Uuid, Product>, lines: seq<Line>, storeId: Uuid, p: Uuid)
    ensures InStore(Deducted(products, lines), storeId, p) <==> InStore(products, storeId, p)
  {
  }

  lemma OrderRefusal(s: State, t: TxId, orderId: Uuid)
    requires Inv(s) && t in s.txs && s.txs[t].Creating?
    requires t !in DoInsertOrder(s, t, s.txs[t], orderId).txs
    ensures !CanPlace(s.db, s.txs[t].storeId, s.txs[t].lines)
  {
    hide Inv, CanFill, Deducted, ItemsOf, RunningTotal, Column, Charges;
    OwnInv(s, t);
    var tx := s.txs[t];
    assert tx.lines[..|tx.lines|] == tx.lines;
  }

  lemma IncrementRefusal(s: State, t: TxId)
    requires Inv(s) && t in s.txs && s.txs[t].Changing?
    requires t !in DoIncrement(s, t, s.txs[t]).txs
    ensures var tx := s.txs[t];
            && tx.order.Some? && NewlyCancelled(tx.order.value, tx.status)
            && OwnsOrder(s.db, tx.storeId, tx.orderId) && SameButStatus(s.db.orders[tx.orderId], tx.order.value)
            && !CanRestock(s.db.products, tx.storeId, tx.order.value.items)
  {
    hide Inv, CanRestock, Restocked;
    OwnInv(s, t);
    var tx := s.txs[t];
    var items := tx.order.value.items;
    RestockedNext(s.db.products, tx.storeId, items, tx.next);
    var p := items[tx.next].productId.value;
    assert (s.db.products + tx.rows)[p] == Current(s.db, tx, p);
    if CanRestock(s.db.products, tx.storeId, items) {
      CanRestockPrefix(s.db.products, tx.storeId, items, tx.next + 1);
    }
  }

  lemma ChangeRefusal(s: State, t: TxId, a: Action)
    requires Inv(s) && t in s.txs && s.txs[t].Changing? && (a == ReadOrder(t) || a == Increment(t))
    requires t !in Step(s, a).txs
    ensures var tx := s.txs[t];
            !CanChange(s.db, tx.storeId, tx.orderId, tx.status) ||
            (tx.order.Some? && tx.orderId in s.db.orders &&
             NewlyCancelled(tx.order.value, tx.status) != NewlyCancelled(s.db.orders[tx.orderId], tx.status))
  {
    hide Inv, CanRestock, DoIncrement;
    if a == Increment(t) {
      IncrementRefusal(s, t);
    }
  }

  lemma EditRefusal(s: State, t: TxId, a: Action, patch: ProductPatch)
    requires Inv(s) && t in s.txs && s.txs[t].Editing? && (a == ReadRow(t) || a == WriteEdit(t, patch))
    requires t !in Step(s, a).txs
    ensures var tx := s.txs[t];
            !Ledger.CanEdit(s.db, tx.storeId, tx.id, patch) ||
            (tx.read.Some? && tx.id in s.db.products && LeavesChange(tx.read.value, s.db.products[tx.id], patch))
  {
    hide Inv, Patched, LeavesChange, InRange, CategoryFits;
    OwnInv(s, t);
    var tx := s.txs[t];
    if tx.read.Some? && tx.id in s.db.products {
      PatchedAlike(tx.read.value, s.db.products[tx.id], patch);
    }
  }

  /** A statement that ends its own transaction; an abort may come from outside at any time. */
  predicate Refuses(s: State, a: Action) {
    a.t in s.txs && !a.Commit? && !a.Abort? && a.t !in Step(s, a).txs
  }

  /**
   In every interleaving, a request is refused only if at that moment it would be refused when
   run alone on the committed tables, or what it read is out of date. No creation is refused wrongly.
   */
  lemma {:induction false} RefusalsAreRight(db: Db, actions: seq<Action>, a: Action, patch: ProductPatch)
    requires Refuses(Exec(db, actions), a)
    requires a.WriteEdit? ==> patch == a.patch
    ensures var s := Exec(db, actions);
            !AcceptedAlone(s.db, s.txs[a.t], patch) || ReadOutdated(s.db, s.txs[a.t], patch)
  {
    hide Exec, Inv, CanFill, CanRestock, CanChange, RunningTotal, Column, LeavesChange, Ledger.CanEdit;
    hide DoLockLine, DoSaveLine, DoInsertOrder, DoReadOrder, DoIncrement, DoSaveStatus, DoReadRow, DoWriteEdit;
    RunInv(db, actions);
    var s := Exec(db, actions);
    match a
    case LockLine(t) => LineRefusal(s, t);
    case InsertOrder(t, orderId) => OrderRefusal(s, t, orderId);
    case ReadOrder(t) => ChangeRefusal(s, t, a);
    case Increment(t) => ChangeRefusal(s, t, a);
    case ReadRow(t) => EditRefusal(s, t, a, patch);
    case WriteEdit(t, _) => EditRefusal(s, t, a, patch);
    case SaveLine(t) => SavesGoOn(s, t);
    case SaveStatus(t) => SavesGoOn(s, t);
    case _ =>
  }

  lemma SavesGoOn(s: State, t: TxId)
    requires t in s.txs
    ensures t in Step(s, SaveLine(t)).txs && t in Step(s, SaveStatus(t)).txs
  {
  }

  // ----- whole runs -----

  lemma {:induction false} RunInv(db: Db, actions: seq<Action>)
    ensures Inv(Exec(db, actions))
  {
    hide Step, Inv, CommitsOp, Stale;
    if |actions| == 0 {
      InitInv(db);
    } else {
      RunInv(db, actions[..|actions| - 1]);
      StepInv(Exec(db, actions[..|actions| - 1]), actions[|actions| - 1]);
    }
  }

  /** So far the committed tables are those of the log run one at a time, each request accepted there. */
  predicate SerialNow(db: Db, s: State) {
    s.db == Ledger.Run(db, s.log) && AllAccepted(db, s.log)
  }

  predicate AlwaysSerial(db: Db, actions: seq<Action>) {
    && SerialNow(db, Exec(db, actions))
    && (|actions| > 0 ==> AlwaysSerial(db, actions[..|actions| - 1]))
  }

  /** No transaction of the run commits on a stale read. */
  predicate NoStaleCommit(db: Db, actions: seq<Action>) {
    |actions| > 0 ==>
      var before, last := actions[..|actions| - 1], actions[|actions| - 1];
      && NoStaleCommit(db, before)
      && !(last.Commit? && Stale(Exec(db, before), last.t))
  }

  lemma SerialNext(db: Db, s: State, a: Action)
    requires Inv(s) && SerialNow(db, s)
    ensures SerialNow(db, Step(s, a)) <==> !(a.Commit? && Stale(s, a.t))
  {
    hide Step, Inv, Ledger.Step, Ledger.Accepted, HasUnits, LeavesChange;
    StepInv(s, a);
  }

  /**
   At every point of an interleaving the committed tables are those of running the committed
   requests one at a time in commit order, each accepted there, exactly when no transaction
   has committed on a stale read. Order creations never do.
   */
  lemma {:induction false} SerialExactly(db: Db, actions: seq<Action>)
    ensures AlwaysSerial(db, actions) <==> NoStaleCommit(db, actions)
  {
    hide Step, Inv, Stale, SerialNow;
    if |actions| == 0 {
      assert SerialNow(db, Exec(db, actions)) by { SerialAtStart(db); }
    } else {
      var before := actions[..|actions| - 1];
      SerialExactly(db, before);
      RunInv(db, before);
      if AlwaysSerial(db, before) {
        AlwaysNow(db, before);
        SerialNext(db, Exec(db, before), actions[|actions| - 1]);
      }
    }
  }

  lemma AlwaysNow(db: Db, actions: seq<Action>)
    requires AlwaysSerial(db, actions)
    ensures SerialNow(db, Exec(db, actions))
  {
    hide SerialNow, Exec;
  }

  lemma SerialAtStart(db: Db)
    ensures SerialNow(db, State(db, map[], map[], db.orders.Keys, []))
  {
  }

  // ----- requests that keep apart -----

  /** At most one status change of each order is in flight. */
  predicate NoOverlap(s: State) {
    forall t, u :: t in s.txs && u in s.txs && t != u && s.txs[t].Changing? && s.txs[u].Changing? ==>
      s.txs[t].orderId != s.txs[u].orderId
  }

  /** At no point of the run are two status changes of one order in flight. */
  predicate OneChangePerOrder(db: Db, actions: seq<Action>) {
    && NoOverlap(Exec(db, actions))
    && (|actions| > 0 ==> OneChangePerOrder(db, actions[..|actions| - 1]))
  }

  /** Each edit that commits saves what it would save of the row as it is then. */
  predicate NoStaleEdit(db: Db, actions: seq<Action>) {
    |actions| > 0 ==>
      var before, last := actions[..|actions| - 1], actions[|actions| - 1];
      var s := Exec(db, before);
      && NoStaleEdit(db, before)
      && !(last.Commit? && last.t in s.txs && s.txs[last.t].Editing? && Stale(s, last.t))
  }

  /** Every status change knows the committed order as it is. */
  predicate OrdersCurrent(s: State) {
    forall t :: t in s.txs && s.txs[t].Changing? && s.txs[t].order.Some? ==>
      s.txs[t].orderId in s.db.orders && s.db.orders[s.txs[t].orderId] == s.txs[t].order.value
  }

  lemma CommitCurrent(s: State, t: TxId)
    requires Inv(s) && OrdersCurrent(s) && NoOverlap(s) && t in s.txs
    ensures OrdersCurrent(DoCommit(s, t, s.txs[t]))
  {
    hide Inv, RunningTotal, Column, Charges, Notice;
    CreatesNewOrder(s, t);
  }

  lemma StepCurrent(s: State, a: Action)
    requires Inv(s) && OrdersCurrent(s) && NoOverlap(s)
    ensures OrdersCurrent(Step(s, a))
  {
    hide Inv, NoOverlap, DoCommit, RunningTotal, Column, Patched, InRange, CategoryFits;
    if a.Commit? && a.t in s.txs {
      CommitCurrent(s, a.t);
    }
  }

  lemma CreatesNewOrder(s: State, t: TxId)
    requires Inv(s) && t in s.txs
    ensures s.txs[t].Creating? && s.txs[t].saved.Some? ==> s.txs[t].saved.value !in s.db.orders
  {
    hide LinesTaken, LineHeld;
  }

  lemma {:induction false} RunCurrent(db: Db, actions: seq<Action>)
    requires OneChangePerOrder(db, actions)
    ensures OrdersCurrent(Exec(db, actions))
  {
    hide Step, OrdersCurrent, Inv;
    if |actions| == 0 {
      assert OrdersCurrent(Exec(db, actions)) by { StartsCurrent(db); }
    } else {
      var before := actions[..|actions| - 1];
      RunCurrent(db, before);
      RunInv(db, before);
      OverlapsNow(db, before);
      StepCurrent(Exec(db, before), actions[|actions| - 1]);
    }
  }

  lemma StartsCurrent(db: Db)
    ensures OrdersCurrent(State(db, map[], map[], db.orders.Keys, []))
  {
  }

  lemma OverlapsNow(db: Db, actions: seq<Action>)
    requires OneChangePerOrder(db, actions)
    ensures NoOverlap(Exec(db, actions))
  {
    hide Exec, NoOverlap;
  }

  lemma CurrentNotStale(s: State, t: TxId)
    requires OrdersCurrent(s) && Stale(s, t)
    ensures t in s.txs && s.txs[t].Editing?
  {
    hide LeavesChange, HasUnits;
  }

  lemma {:induction false} ApartNotStale(db: Db, actions: seq<Action>)
    requires OneChangePerOrder(db, actions) && NoStaleEdit(db, actions)
    ensures NoStaleCommit(db, actions)
  {
    hide Step, Stale, OrdersCurrent, NoOverlap;
    if |actions| == 0 {
    } else {
      var before, last := actions[..|actions| - 1], actions[|actions| - 1];
      ApartNotStale(db, before);
      RunCurrent(db, before);
      if last.Commit? && Stale(Exec(db, before), last.t) {
        CurrentNotStale(Exec(db, before), last.t);
      }
    }
  }

  /**
   In particular: any creations, status changes that do not overlap on one order, and edits
   whose row did not change between read and save commit as if run one at a time.
   */
  lemma {:induction false} EveryInterleavingIsSerial(db: Db, actions: seq<Action>)
    requires OneChangePerOrder(db, actions) && NoStaleEdit(db, actions)
    ensures var s := Exec(db, actions); s.db == Ledger.Run(db, s.log) && AllAccepted(db, s.log)
  {
    hide Exec, OneChangePerOrder, NoStaleEdit, NoStaleCommit;
    ApartNotStale(db, actions);
    SerialExactly(db, actions);
    AlwaysNow(db, actions);
  }

  lemma InitInv(db: Db)
    ensures Inv(State(db, map[], map[], db.orders.Keys, []))
  {
  }

  // ----- why status changes of one order must not overlap -----

  lemma ExecNext(db: Db, actions: seq<Action>, a: Action)
    ensures Exec(db, actions + [a]) == Step(Exec(db, actions), a)
  {
    assert (actions + [a])[..|actions|] == actions;
  }

  function Tea(stock: int): (product: Product) {
    Product(7, None, "tea", None, 500, stock, None, 0)
  }

  function TwoTeas(): (order: Order) {
    Order(7, Pending, 1000, [Item(Some(1), "tea", 2, 500)], 0)
  }

  /** A cancellation that has read the order as PENDING. */
  function Cancelling(rows: map<Uuid, Product>, next: nat): (tx: Tx) {
    Changing(7, 3, Cancelled, rows, Some(TwoTeas()), next, false)
  }

  lemma CancelAfterRead(db: Db, actions: seq<Action>, t: TxId, stock: int) returns (more: seq<Action>)
    requires var s := Exec(db, actions);
             s.db.products == map[1 := Tea(stock)] && s.locks == map[] && t in s.txs && s.txs[t] == Cancelling(map[], 0)
    requires stock < 100
    ensures var s, s' := Exec(db, actions), Exec(db, more);
            && s'.db.products == map[1 := Tea(stock + 2)] && s'.locks == map[]
            && s'.txs == s.txs - {t} && s'.log == s.log + [Ledger.Change(7, 3, Cancelled)]
  {
    hide Exec, Step;
    var a1 := actions + [Increment(t)];
    var a2 := a1 + [SaveStatus(t)];
    more := a2 + [Commit(t)];
    ExecNext(db, actions, Increment(t));
    ExecNext(db, a1, SaveStatus(t));
    ExecNext(db, a2, Commit(t));
    CancelIncrement(Exec(db, actions), t, stock);
    CancelCommit(Exec(db, a1), t, stock + 2);
  }

  lemma CancelIncrement(s: State, t: TxId, stock: int)
    requires s.db.products == map[1 := Tea(stock)] && s.locks == map[] && t in s.txs && s.txs[t] == Cancelling(map[], 0)
    requires stock < 100
    ensures Step(s, Increment(t)) ==
            s.(locks := map[1 := t], txs := s.txs[t := Cancelling(map[1 := Tea(stock + 2)], 1)])
  {
  }

  lemma CancelCommit(s: State, t: TxId, stock: int)
    requires s.db.products == map[1 := Tea(stock - 2)]
    requires s.locks == map[1 := t] && t in s.txs
    requires s.txs[t] == Cancelling(map[1 := Tea(stock)], 1)
    ensures var s' := Step(Step(s, SaveStatus(t)), Commit(t));
            && s'.db.products == map[1 := Tea(stock)] && s'.locks == map[]
            && s'.txs == s.txs - {t} && s'.log == s.log + [Ledger.Change(7, 3, Cancelled)]
  {
  }

  lemma TwoReads(db: Db) returns (actions: seq<Action>)
    requires db.products == map[1 := Tea(10)] && db.orders == map[3 := TwoTeas()]
    ensures var s := Exec(db, actions);
            && s.db == db && s.locks == map[] && s.log == []
            && s.txs == map[1 := Cancelling(map[], 0), 2 := Cancelling(map[], 0)]
  {
    hide Exec;
    var a1 := [BeginChange(1, 7, 3, Cancelled)];
    var a2 := a1 + [BeginChange(2, 7, 3, Cancelled)];
    var a3 := a2 + [ReadOrder(1)];
    actions := a3 + [ReadOrder(2)];
    ExecNone(db);
    assert [] + a1 == a1;
    ExecNext(db, [], BeginChange(1, 7, 3, Cancelled));
    ExecNext(db, a1, BeginChange(2, 7, 3, Cancelled));
    ExecNext(db, a2, ReadOrder(1));
    assert Exec(db, a3).txs == map[1 := Cancelling(map[], 0), 2 := Changing(7, 3, Cancelled, map[], None, 0, false)];
    ExecNext(db, a3, ReadOrder(2));
  }

  lemma ExecNone(db: Db)
    ensures Exec(db, []) == State(db, map[], map[], db.orders.Keys, [])
  {
  }

  lemma SerialCancels(db: Db, log: seq<Ledger.Op>)
    requires db.products == map[1 := Tea(10)] && db.orders == map[3 := TwoTeas()]
    requires log == [Ledger.Change(7, 3, Cancelled), Ledger.Change(7, 3, Cancelled)]
    ensures Ledger.Run(db, log).products == map[1 := Tea(12)]
  {
    assert log[..1][..0] == [];
    assert Returned(TwoTeas().items, 1) == 2;
    assert Ledger.Step(db, log[0]).products == map[1 := Tea(12)];
    assert Ledger.Run(db, log[..1]) == Ledger.Step(db, log[0]);
  }

  /**
   Two overlapping cancellations of one order both read it as PENDING, so both give its
   two units back: 14 instead of the 12 of any serial run.
   */
  lemma OverlappingCancelsRestockTwice() returns (db: Db, actions: seq<Action>)
    ensures db.products == map[1 := Tea(10)]
    ensures Exec(db, actions).db.products == map[1 := Tea(14)]
    ensures Ledger.Run(db, Exec(db, actions).log).products == map[1 := Tea(12)]
  {
    hide Exec, Ledger.Run;
    db := Db(map[1 := Tea(10)], map[], map[3 := TwoTeas()], [], map[], map[]);
    var both := TwoReads(db);
    var one := CancelAfterRead(db, both, 1, 10);
    actions := CancelAfterRead(db, one, 2, 12);
    SerialCancels(db, Exec(db, actions).log);
  }

  // ----- why a stale edit is not serial -----

  const RENAME := ProductPatch(Some("green tea"), None, None, None, None, true)

  const REPRICE := ProductPatch(None, None, Some(700), None, None, true)

  function Saving(patch: ProductPatch): (tx: Tx) {
    Editing(7, 1, map[1 := Patched(Tea(10), patch)], Some(Tea(10)), Some(patch))
  }

  lemma EditAfterRead(db: Db, actions: seq<Action>, t: TxId, patch: ProductPatch) returns (more: seq<Action>)
    requires patch == RENAME || patch == REPRICE
    requires var s := Exec(db, actions);
             && s.db.products.Keys == {1} && s.locks == map[] && t in s.txs
             && s.txs[t] == Editing(7, 1, map[], Some(Tea(10)), None)
    ensures var s, s' := Exec(db, actions), Exec(db, more);
            && s'.db.products == map[1 := Patched(Tea(10), patch)] && s'.locks == map[]
            && s'.txs == s.txs - {t} && s'.log == s.log + [Ledger.Edit(7, 1, patch)]
  {
    hide Exec, Step;
    var written := actions + [WriteEdit(t, patch)];
    more := written + [Commit(t)];
    ExecNext(db, actions, WriteEdit(t, patch));
    ExecNext(db, written, Commit(t));
    EditSteps(Exec(db, actions), t, patch);
  }

  lemma EditSteps(s: State, t: TxId, patch: ProductPatch)
    requires patch == RENAME || patch == REPRICE
    requires s.db.products.Keys == {1} && s.locks == map[] && t in s.txs
    requires s.txs[t] == Editing(7, 1, map[], Some(Tea(10)), None)
    ensures var s' := Step(Step(s, WriteEdit(t, patch)), Commit(t));
            && s'.db.products == map[1 := Patched(Tea(10), patch)] && s'.locks == map[]
            && s'.txs == s.txs - {t} && s'.log == s.log + [Ledger.Edit(7, 1, patch)]
  {
    var s1 := Step(s, WriteEdit(t, patch));
    assert s1 == s.(locks := map[1 := t], txs := s.txs[t := Saving(patch)]);
  }

  lemma TwoRowReads(db: Db) returns (actions: seq<Action>)
    requires db.products == map[1 := Tea(10)]
    ensures var s, tx := Exec(db, actions), Editing(7, 1, map[], Some(Tea(10)), None);
            s.db == db && s.locks == map[] && s.log == [] && s.txs == map[1 := tx, 2 := tx]
  {
    hide Exec;
    var a1 := [BeginEdit(1, 7, 1)];
    var a2 := a1 + [BeginEdit(2, 7, 1)];
    var a3 := a2 + [ReadRow(1)];
    actions := a3 + [ReadRow(2)];
    ExecNone(db);
    assert [] + a1 == a1;
    ExecNext(db, [], BeginEdit(1, 7, 1));
    ExecNext(db, a1, BeginEdit(2, 7, 1));
    ExecNext(db, a2, ReadRow(1));
    assert Exec(db, a3).txs == map[1 := Editing(7, 1, map[], Some(Tea(10)), None), 2 := Editing(7, 1, map[], None, None)];
    ExecNext(db, a3, ReadRow(2));
  }

  lemma SerialEdits(db: Db, log: seq<Ledger.Op>)
    requires db.products == map[1 := Tea(10)]
    requires log == [Ledger.Edit(7, 1, REPRICE), Ledger.Edit(7, 1, RENAME)]
    ensures Ledger.Run(db, log).products == map[1 := Tea(10).(price := 700, name := "green tea")]
  {
    assert log[..1][..0] == [];
    assert Ledger.Step(db, log[0]).products == map[1 := Tea(10).(price := 700)];
    assert Ledger.Run(db, log[..1]) == Ledger.Step(db, log[0]);
  }

  /** Of two overlapping edits, one of the price and one of the name, the later save takes the price back. */
  lemma OverlappingEditsLosePrice() returns (db: Db, actions: seq<Action>)
    ensures db.products == map[1 := Tea(10)]
    ensures Exec(db, actions).db.products == map[1 := Tea(10).(name := "green tea")]
    ensures Ledger.Run(db, Exec(db, actions).log).products == map[1 := Tea(10).(price := 700, name := "green tea")]
  {
    hide Exec, Ledger.Run;
    db := Db(map[1 := Tea(10)], map[], map[], [], map[], map[]);
    var both := TwoRowReads(db);
    var one := EditAfterRead(db, both, 1, REPRICE);
    actions := EditAfterRead(db, one, 2, RENAME);
    SerialEdits(db, Exec(db, actions).log);
  }
}
