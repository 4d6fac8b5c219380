/**
 The outbox row of an order commits with the order: in every interleaving, with any
 aborts, each committed order has exactly one, and an order that rolled back has none.
 */
module Notices {
  import opened Schema
  import opened Orders
  import opened Money
  import opened Interleaving
  import Serializability
  import Delivery
  import Outbox
  import Binary64

  predicate HasOwner(db: Db, storeId: Uuid) {
    storeId in db.stores && db.stores[storeId].ownerId in db.emails
  }

  /** The outbox rows about an order. */
  function Rows(outbox: seq<Mail>, orderId: Uuid): (n: nat) {
    if |outbox| == 0 then 0
    else Rows(outbox[..|outbox| - 1], orderId) + if outbox[|outbox| - 1].orderId == orderId then 1 else 0
  }

  /** The order was committed since the start. */
  predicate IsNew(start: Db, db: Db, orderId: Uuid) {
    orderId in db.orders && orderId !in start.orders
  }

  predicate Notified(start: Db, db: Db, orderId: Uuid) {
    IsNew(start, db, orderId) && HasOwner(start, db.orders[orderId].storeId)
  }

  predicate StoredTotal(order: Order) {
    var total := Column(RunningTotal(Charges(order.items)));
    order.total == total && total < NUMERIC_10_2
  }

  /** The mail tells the owner about this order, with the total of its items. */
  predicate Confirms(start: Db, mail: Mail, order: Order) {
    && HasOwner(start, order.storeId)
    && mail.to == start.emails[start.stores[order.storeId].ownerId]
    && mail.storeName == start.stores[order.storeId].name
    && mail.total == Binary64.ToFixed2(RunningTotal(Charges(order.items)))
  }

  // ----- invariant -----

  ghost predicate OutboxFits(start: Db, db: Db) {
    && db.stores == start.stores && db.emails == start.emails
    && start.orders.Keys <= db.orders.Keys
    && (forall id :: IsNew(start, db, id) ==> StoredTotal(db.orders[id]))
    && |start.outbox| <= |db.outbox| && db.outbox[..|start.outbox|] == start.outbox
    && (forall id :: Rows(db.outbox, id) == Rows(start.outbox, id) + if Notified(start, db, id) then 1 else 0)
    && (forall k :: |start.outbox| <= k < |db.outbox| ==>
          var id := db.outbox[k].orderId;
          IsNew(start, db, id) && Confirms(start, db.outbox[k], db.orders[id]))
  }

  // ----- steps -----

  lemma {:induction false} RowsSplit(a: seq<Mail>, b: seq<Mail>, id: Uuid)
    requires |b| <= 1
    ensures Rows(a + b, id) == Rows(a, id) + if b != [] && b[0].orderId == id then 1 else 0
  {
    if |b| == 0 {
      assert a + b == a;
    } else {
      assert (a + b)[..|a|] == a;
    }
  }

  lemma OrderCommitted(start: Db, db: Db, db': Db, id: Uuid, order: Order)
    requires OutboxFits(start, db) && id !in db.orders && StoredTotal(order)
    requires db'.orders == db.orders[id := order] && db'.stores == db.stores && db'.emails == db.emails
    requires db'.outbox == db.outbox + Notice(db, order.storeId, id, RunningTotal(Charges(order.items)))
    ensures OutboxFits(start, db')
  {
    hide StoredTotal, RunningTotal, Rows;
    var mails := Notice(db, order.storeId, id, RunningTotal(Charges(order.items)));
    forall other
      ensures Rows(db'.outbox, other) == Rows(start.outbox, other) + if Notified(start, db', other) then 1 else 0
    {
      RowsSplit(db.outbox, mails, other);
    }
  }

  lemma StatusCommitted(start: Db, db: Db, db': Db, id: Uuid, status: OrderStatus)
    requires OutboxFits(start, db) && id in db.orders
    requires db'.orders == db.orders[id := db.orders[id].(status := status)]
    requires db'.stores == db.stores && db'.emails == db.emails && db'.outbox == db.outbox
    ensures OutboxFits(start, db')
  {
    hide RunningTotal, Column, Rows;
  }

  /** What a transaction that is ready to commit knows about the committed orders. */
  lemma ReadyToCommit(s: State, t: TxId)
    requires Serializability.Inv(s) && t in s.txs
    ensures var tx := s.txs[t];
            && (tx.Creating? && tx.saved.Some? ==>
                  tx.saved.value !in s.db.orders && Column(RunningTotal(Charges(tx.items))) < NUMERIC_10_2)
            && (tx.Changing? && tx.order.Some? ==>
                  tx.orderId in s.db.orders && Serializability.SameButStatus(s.db.orders[tx.orderId], tx.order.value))
  {
    hide Serializability.LinesTaken, Serializability.LineHeld, RunningTotal, Column;
  }

  lemma CommitFits(start: Db, s: State, t: TxId)
    requires Serializability.Inv(s) && t in s.txs && OutboxFits(start, s.db)
    ensures OutboxFits(start, DoCommit(s, t, s.txs[t]).db)
  {
    hide Serializability.Inv, OutboxFits, RunningTotal, Column, Notice;
    ReadyToCommit(s, t);
    var s' := DoCommit(s, t, s.txs[t]);
    if s' != s {
      match s.txs[t]
      case Creating(_, _, _, _, _, _, saved) =>
        OrderCommitted(start, s.db, s'.db, saved.value, s'.db.orders[saved.value]);
      case Changing(_, orderId, status, _, _, _, _) =>
        StatusCommitted(start, s.db, s'.db, orderId, status);
      case Editing(_, _, _, _, _) =>
        ProductsCommitted(start, s.db, s'.db);
    }
  }

  lemma ProductsCommitted(start: Db, db: Db, db': Db)
    requires OutboxFits(start, db) && db' == db.(products := db'.products)
    ensures OutboxFits(start, db')
  {
    hide StoredTotal, Confirms, Rows;
  }

  lemma {:induction false} RunFits(start: Db, actions: seq<Action>)
    ensures OutboxFits(start, Exec(start, actions).db)
  {
    hide Serializability.Inv, Serializability.CommitRight, OutboxFits, DoCommit;
    if |actions| == 0 {
      StartFits(start);
    } else {
      var s, a := Exec(start, actions[..|actions| - 1]), actions[|actions| - 1];
      RunFits(start, actions[..|actions| - 1]);
      Serializability.RunInv(start, actions[..|actions| - 1]);
      Serializability.StepInv(s, a);
      if a.Commit? && a.t in s.txs {
        CommitFits(start, s, a.t);
      }
    }
  }

  lemma StartFits(start: Db)
    ensures OutboxFits(start, start)
  {
    hide StoredTotal, Confirms, Rows;
  }

  // ----- results -----

  /**
   In every interleaving an order has one new outbox row if it was committed and its store
   and owner exist, and none if it was rolled back, is still open, or has no recipient.
   */
  lemma {:induction false} OneRowPerOrder(start: Db, actions: seq<Action>, orderId: Uuid)
    ensures Rows(Exec(start, actions).db.outbox, orderId) ==
            Rows(start.outbox, orderId) + if Notified(start, Exec(start, actions).db, orderId) then 1 else 0
  {
    RunFits(start, actions);
  }

  /** Each new row is addressed to the owner of its order's store and shows the exact total of the items. */
  lemma {:induction false} RowsShowTheirOrder(start: Db, actions: seq<Action>, k: nat)
    requires |start.outbox| <= k < |Exec(start, actions).db.outbox|
    ensures var db := Exec(start, actions).db;
            var mail := db.outbox[k];
            && IsNew(start, db, mail.orderId)
            && var order := db.orders[mail.orderId];
               && Confirms(start, mail, order)
               && (|order.items| <= MAX_LINES ==>
                     mail.total == order.total == ExactCents(Charges(order.items)))
  {
    hide RunningTotal, Column, ExactCents, Rows, Exec;
    RunFits(start, actions);
    var db := Exec(start, actions).db;
    var order := db.orders[db.outbox[k].orderId];
    if |order.items| <= MAX_LINES {
      TotalOverflowsExactly(Charges(order.items));
      StoredTotalIsExact(Charges(order.items));
    }
  }

  /** The pollers find the new outbox rows, and rows of other types that are not mails. */
  predicate FindsNewRows(start: Db, actions: seq<Action>, polls: seq<Delivery.Action>) {
    var outbox := Exec(start, actions).db.outbox;
    && |start.outbox| <= |outbox|
    && forall k :: 0 <= k < |polls| && polls[k].Publish? && polls[k].event.eventType == Outbox.SEND_EMAIL ==>
      polls[k].event.payload in outbox[|start.outbox|..]
  }

  /** From order to queue: each mail that any poller enqueues confirms a committed order to its store's owner. */
  lemma {:induction false} QueuedMailsConfirmOrders(start: Db, actions: seq<Action>, n: nat, polls: seq<Delivery.Action>, j: nat)
    requires FindsNewRows(start, actions, polls) && j < |Delivery.Run(n, polls).queue|
    ensures var db, mail := Exec(start, actions).db, Delivery.Run(n, polls).queue[j].mail;
            IsNew(start, db, mail.orderId) && Confirms(start, mail, db.orders[mail.orderId])
  {
    hide Exec, Delivery.Run, Confirms, Rows;
    Delivery.JobsWerePublished(n, polls);
    RunFits(start, actions);
    var outbox := Exec(start, actions).db.outbox;
    var mail := Delivery.Run(n, polls).queue[j].mail;
    assert Delivery.PublishedIn(n, polls, Delivery.Run(n, polls).queue[j].id, mail);
    var i :| 0 <= i < |outbox| - |start.outbox| && outbox[|start.outbox|..][i] == mail;
    assert outbox[|start.outbox| + i] == mail;
  }

  /**
   The other half: once the outbox row of a committed order is marked processed, the order's
   confirmation, addressed to its store's owner, is on the queue.
   */
  lemma {:induction false} ProcessedOrdersAreQueued(start: Db, actions: seq<Action>, n: nat, polls: seq<Delivery.Action>, id: Uuid)
    requires FindsNewRows(start, actions, polls)
    requires var events := Delivery.Run(n, polls).events; Delivery.IsMail(events, id) && events[id].processed
    ensures var db, mail := Exec(start, actions).db, Delivery.Run(n, polls).events[id].payload;
            && Delivery.Job(id, mail) in Delivery.Run(n, polls).queue
            && Notified(start, db, mail.orderId) && Confirms(start, mail, db.orders[mail.orderId])
  {
    hide Exec, Delivery.Run, Confirms, Rows;
    Delivery.ProcessedWasEnqueued(n, polls, id);
    var queue := Delivery.Run(n, polls).queue;
    var j :| 0 <= j < |queue| && queue[j] == Delivery.Job(id, Delivery.Run(n, polls).events[id].payload);
    QueuedMailsConfirmOrders(start, actions, n, polls, j);
    ConfirmsOwner(start, queue[j].mail, Exec(start, actions).db.orders[queue[j].mail.orderId]);
  }

  lemma ConfirmsOwner(start: Db, mail: Mail, order: Order)
    requires Confirms(start, mail, order)
    ensures HasOwner(start, order.storeId)
  {
  }
}
