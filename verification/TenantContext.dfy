/**
 RlsContextInterceptor and the row level security policy: a request's handler runs
 inside one transaction whose connection carries the request's store as a
 transaction-local setting, and connections are pooled.
 */
module TenantContext {
  import opened Schema

  type Table = map<Uuid, Product>

  /** The tenant_isolation policy: a row is visible only under its own store's setting. */
  function Visible(rows: Table, tenant: Option<Uuid>): (r: Table) {
    map p | p in rows && tenant == Some(rows[p].storeId) :: rows[p]
  }

  /** WHERE storeId = :storeId */
  function OfStore(rows: Table, storeId: Uuid): (r: Table) {
    map p | p in rows && rows[p].storeId == storeId :: rows[p]
  }

  /** WITH CHECK: a row is written only under its own store's setting; otherwise the statement fails. */
  predicate Writable(rowStore: Uuid, tenant: Option<Uuid>) {
    tenant == Some(rowStore)
  }

  // ----- one request -----

  // What a handler does with the database, in order: queries, inserts or updates of a row
  // of some store, possibly inside nested withTransaction calls, or an exception.
  datatype Stmt = Select(rows: Table) | Save(rowStore: Uuid) | Nested(body: seq<Stmt>) | Throw

  // The tables a handler has queried, the stores of the rows it has written, and whether it threw.
  datatype Trace = Trace(tables: seq<Table>, saved: seq<Uuid>, threw: bool)

  const NOTHING := Trace([], [], false)

  const THREW := Trace([], [], true)

  /** What is done after an exception is not done. */
  function Then(first: Trace, rest: Trace): (r: Trace) {
    if first.threw then first
    else Trace(first.tables + rest.tables, first.saved + rest.saved, rest.threw)
  }

  /** One statement under a setting: a write that the policy rejects throws. */
  function Alone(stmt: Stmt, tenant: Option<Uuid>): (r: Trace)
    decreases stmt
  {
    match stmt
    case Select(rows) => Trace([rows], [], false)
    case Save(rowStore) => if Writable(rowStore, tenant) then Trace([], [rowStore], false) else THREW
    case Nested(inner) => Traced(inner, tenant)
    case Throw => THREW
  }

  function Traced(body: seq<Stmt>, tenant: Option<Uuid>): (r: Trace)
    decreases body
  {
    if |body| == 0 then NOTHING else Then(Alone(body[0], tenant), Traced(body[1..], tenant))
  }

  function AllVisible(tables: seq<Table>, tenant: Option<Uuid>): (r: seq<Table>)
    ensures |r| == |tables|
  {
    seq(|tables|, i requires 0 <= i < |tables| => Visible(tables[i], tenant))
  }

  lemma AllVisibleSplits(a: seq<Table>, b: seq<Table>, tenant: Option<Uuid>)
    ensures AllVisible(a + b, tenant) == AllVisible(a, tenant) + AllVisible(b, tenant)
    ensures AllVisible([], tenant) == []
    ensures forall rows :: AllVisible([rows], tenant) == [Visible(rows, tenant)]
  {
  }

  lemma ThenAssociates(a: Trace, b: Trace, c: Trace)
    ensures Then(Then(a, b), c) == Then(a, Then(b, c))
    ensures Then(a, NOTHING) == a && Then(NOTHING, a) == a
  {
    assert [] + a.tables == a.tables && [] + a.saved == a.saved;
    assert a.tables + [] == a.tables && a.saved + [] == a.saved;
    assert a.tables + b.tables + c.tables == a.tables + (b.tables + c.tables);
    assert a.saved + b.saved + c.saved == a.saved + (b.saved + c.saved);
  }

  lemma ThenKeeps(done: Trace, step: Trace, rest: Trace)
    requires !done.threw
    ensures Then(done, step) == Trace(done.tables + step.tables, done.saved + step.saved, step.threw)
    ensures step.threw ==> Then(done, Then(step, rest)) == Then(done, step)
  {
  }

  /** One statement of a handler, and what is left to do after it. */
  lemma TracedNext(body: seq<Stmt>, i: nat, tenant: Option<Uuid>)
    requires i < |body|
    ensures Traced(body[i..], tenant) == Then(Alone(body[i], tenant), Traced(body[i + 1..], tenant))
  {
    assert body[i..][1..] == body[i + 1..];
  }

  lemma TracedNothing(body: seq<Stmt>, tenant: Option<Uuid>)
    requires body == []
    ensures Traced(body, tenant) == NOTHING
  {
  }

  // ----- a handler without its nesting -----

  /** The handler's statements in order, with the nested bodies in place. */
  function Flat(body: seq<Stmt>): (stmts: seq<Stmt>)
    decreases body
  {
    if |body| == 0 then []
    else (if body[0].Nested? then Flat(body[0].body) else [body[0]]) + Flat(body[1..])
  }

  lemma {:induction false} FlatSplit(a: seq<Stmt>, b: seq<Stmt>)
    ensures Flat(a + b) == Flat(a) + Flat(b)
  {
    if |a| == 0 {
      assert a + b == b;
    } else {
      assert (a + b)[0] == a[0] && (a + b)[1..] == a[1..] + b;
      FlatSplit(a[1..], b);
    }
  }

  lemma FlatOne(stmt: Stmt)
    ensures Flat([stmt]) == if stmt.Nested? then Flat(stmt.body) else [stmt]
  {
    assert [stmt][1..] == [] && Flat([stmt][1..]) == [];
  }

  /** A nested body stands where its withTransaction call does, and every other statement for itself. */
  lemma FlatSplices(a: seq<Stmt>, stmt: Stmt, b: seq<Stmt>)
    ensures Flat(a + [stmt] + b) == Flat(a) + (if stmt.Nested? then Flat(stmt.body) else [stmt]) + Flat(b)
  {
    hide Flat;
    FlatSplit(a + [stmt], b);
    FlatSplit(a, [stmt]);
    FlatOne(stmt);
  }

  /** An exception, or a write that the policy rejects. */
  predicate Stops(stmt: Stmt, tenant: Option<Uuid>) {
    stmt.Throw? || (stmt.Save? && tenant != Some(stmt.rowStore))
  }

  /** The first statement that stops the handler, or the end. */
  function StopAt(stmts: seq<Stmt>, tenant: Option<Uuid>): (n: nat)
    ensures n <= |stmts|
    ensures n < |stmts| ==> Stops(stmts[n], tenant)
    ensures forall i :: 0 <= i < n ==> !Stops(stmts[i], tenant)
  {
    if |stmts| == 0 || Stops(stmts[0], tenant) then 0 else 1 + StopAt(stmts[1..], tenant)
  }

  function TablesOf(stmts: seq<Stmt>): (tables: seq<Table>) {
    if |stmts| == 0 then []
    else (if stmts[0].Select? then [stmts[0].rows] else []) + TablesOf(stmts[1..])
  }

  function StoresOf(stmts: seq<Stmt>): (stores: seq<Uuid>) {
    if |stmts| == 0 then []
    else (if stmts[0].Save? then [stmts[0].rowStore] else []) + StoresOf(stmts[1..])
  }

  lemma OfOne(stmt: Stmt)
    ensures TablesOf([stmt]) == if stmt.Select? then [stmt.rows] else []
    ensures StoresOf([stmt]) == if stmt.Save? then [stmt.rowStore] else []
  {
    assert [stmt][1..] == [];
    assert TablesOf([stmt]) == (if stmt.Select? then [stmt.rows] else []) + TablesOf([stmt][1..]);
    assert StoresOf([stmt]) == (if stmt.Save? then [stmt.rowStore] else []) + StoresOf([stmt][1..]);
  }

  /** Each query and each write counts once, where it stands. */
  lemma OfStatement(a: seq<Stmt>, stmt: Stmt, b: seq<Stmt>)
    ensures TablesOf(a + [stmt] + b) == TablesOf(a) + (if stmt.Select? then [stmt.rows] else []) + TablesOf(b)
    ensures StoresOf(a + [stmt] + b) == StoresOf(a) + (if stmt.Save? then [stmt.rowStore] else []) + StoresOf(b)
  {
    hide TablesOf, StoresOf;
    TablesSplit(a + [stmt], b);
    TablesSplit(a, [stmt]);
    StoresSplit(a + [stmt], b);
    StoresSplit(a, [stmt]);
    OfOne(stmt);
  }

  /** What the statements before the first stop do. */
  function FlatTrace(stmts: seq<Stmt>, tenant: Option<Uuid>): (r: Trace) {
    var n := StopAt(stmts, tenant);
    Trace(TablesOf(stmts[..n]), StoresOf(stmts[..n]), n < |stmts|)
  }

  lemma {:induction false} TablesSplit(a: seq<Stmt>, b: seq<Stmt>)
    ensures TablesOf(a + b) == TablesOf(a) + TablesOf(b)
  {
    if |a| == 0 {
      assert a + b == b;
    } else {
      assert (a + b)[0] == a[0] && (a + b)[1..] == a[1..] + b;
      TablesSplit(a[1..], b);
    }
  }

  lemma {:induction false} StoresSplit(a: seq<Stmt>, b: seq<Stmt>)
    ensures StoresOf(a + b) == StoresOf(a) + StoresOf(b)
  {
    if |a| == 0 {
      assert a + b == b;
    } else {
      assert (a + b)[0] == a[0] && (a + b)[1..] == a[1..] + b;
      StoresSplit(a[1..], b);
    }
  }

  lemma StopAtIs(stmts: seq<Stmt>, tenant: Option<Uuid>, n: nat)
    requires n <= |stmts| && (n < |stmts| ==> Stops(stmts[n], tenant))
    requires forall i :: 0 <= i < n ==> !Stops(stmts[i], tenant)
    ensures StopAt(stmts, tenant) == n
  {
    var m := StopAt(stmts, tenant);
    assert m == |stmts| || Stops(stmts[m], tenant);
  }

  lemma SplitStopped(a: seq<Stmt>, b: seq<Stmt>, tenant: Option<Uuid>)
    requires StopAt(a, tenant) < |a|
    ensures FlatTrace(a + b, tenant) == FlatTrace(a, tenant)
  {
    hide TablesOf, StoresOf;
    var m := StopAt(a, tenant);
    StopAtIs(a + b, tenant, m);
    assert (a + b)[..m] == a[..m];
  }

  lemma {:induction false} StopAfter(a: seq<Stmt>, b: seq<Stmt>, tenant: Option<Uuid>)
    requires StopAt(a, tenant) == |a|
    ensures StopAt(a + b, tenant) == |a| + StopAt(b, tenant)
  {
    hide Stops;
    if |a| == 0 {
      assert a + b == b;
    } else {
      assert (a + b)[0] == a[0] && (a + b)[1..] == a[1..] + b;
      StopAfter(a[1..], b, tenant);
    }
  }

  lemma SplitGoesOn(a: seq<Stmt>, b: seq<Stmt>, tenant: Option<Uuid>)
    requires StopAt(a, tenant) == |a|
    ensures FlatTrace(a + b, tenant) == Then(FlatTrace(a, tenant), FlatTrace(b, tenant))
  {
    hide TablesOf, StoresOf, StopAt, Stops;
    var n := StopAt(b, tenant);
    StopAfter(a, b, tenant);
    assert (a + b)[..|a| + n] == a + b[..n] && a[..|a|] == a;
    TablesSplit(a, b[..n]);
    StoresSplit(a, b[..n]);
  }

  lemma FlatTraceSplit(a: seq<Stmt>, b: seq<Stmt>, tenant: Option<Uuid>)
    ensures FlatTrace(a + b, tenant) == Then(FlatTrace(a, tenant), FlatTrace(b, tenant))
  {
    hide TablesOf, StoresOf, StopAt;
    if StopAt(a, tenant) < |a| {
      SplitStopped(a, b, tenant);
    } else {
      SplitGoesOn(a, b, tenant);
    }
  }

  lemma FlatTraceOne(stmt: Stmt, tenant: Option<Uuid>)
    requires !stmt.Nested?
    ensures FlatTrace([stmt], tenant) == Alone(stmt, tenant)
  {
    StopAtIs([stmt], tenant, if Stops(stmt, tenant) then 0 else 1);
    assert [stmt][..1] == [stmt] && [stmt][..0] == [];
    OfOne(stmt);
  }

  /** A handler does what its statements, spliced into one list, do before the first that stops it. */
  lemma {:induction false} TracedIsFlat(body: seq<Stmt>, tenant: Option<Uuid>)
    ensures Traced(body, tenant) == FlatTrace(Flat(body), tenant)
    decreases body
  {
    if |body| == 0 {
    } else {
      TracedIsFlat(body[1..], tenant);
      if body[0].Nested? {
        TracedIsFlat(body[0].body, tenant);
        FlatTraceSplit(Flat(body[0].body), Flat(body[1..]), tenant);
      } else {
        FlatTraceOne(body[0], tenant);
        FlatTraceSplit([body[0]], Flat(body[1..]), tenant);
      }
    }
  }

  /** Every row a handler writes belongs to the store of the setting; without one it writes none. */
  lemma {:induction false} SavesAreOwn(stmts: seq<Stmt>, tenant: Option<Uuid>)
    requires forall i :: 0 <= i < |stmts| ==> !Stops(stmts[i], tenant)
    ensures forall i :: 0 <= i < |StoresOf(stmts)| ==> Some(StoresOf(stmts)[i]) == tenant
  {
    if |stmts| > 0 {
      SavesAreOwn(stmts[1..], tenant);
      assert !Stops(stmts[0], tenant);
    }
  }

  class Connection {
    var inTransaction: bool
    // The transaction-local setting app.current_store_id.
    var tenant: Option<Uuid>

    predicate Idle()
      reads this
    {
      !inTransaction && tenant.None?
    }

    constructor ()
      ensures Idle()
    {
      inTransaction, tenant := false, None;
    }

    method Begin()
      requires Idle()
      modifies this
      ensures inTransaction && tenant.None?
    {
      inTransaction := true;
    }

    /** set_config('app.current_store_id', storeId, true) */
    method SetLocal(storeId: Uuid)
      requires inTransaction
      modifies this
      ensures inTransaction && tenant == Some(storeId)
    {
      tenant := Some(storeId);
    }

    /** COMMIT or ROLLBACK: a transaction-local setting ends with its transaction. */
    method End()
      requires inTransaction
      modifies this
      ensures Idle()
    {
      inTransaction, tenant := false, None;
    }
  }

  class RlsContextInterceptor {

    constructor () {
    }

    /**
     The handler on one connection. In an active transaction withTransaction runs its body in
     it; without one each statement commits by itself and withTransaction opens its own.
     */
    method Handle(connection: Connection, body: seq<Stmt>) returns (replies: seq<Table>, saved: seq<Uuid>, threw: bool)
      requires connection.inTransaction || connection.Idle()
      modifies connection
      ensures connection.inTransaction == old(connection.inTransaction) && connection.tenant == old(connection.tenant)
      ensures var tenant, stmts := old(connection.tenant), Flat(body);
              var n := StopAt(stmts, tenant);
              replies == AllVisible(TablesOf(stmts[..n]), tenant) && saved == StoresOf(stmts[..n]) && (threw <==> n < |stmts|)
      decreases body
    {
      hide Traced, Visible, AllVisible, Then, Flat, StopAt, TablesOf, StoresOf;
      replies, saved, threw := [], [], false;
      var tenant := connection.tenant;
      ghost var done := NOTHING;
      assert body[0..] == body;
      ThenAssociates(Traced(body, tenant), done, done);
      AllVisibleSplits([], [], tenant);
      for i := 0 to |body|
        invariant !threw && !done.threw
        invariant connection.inTransaction == old(connection.inTransaction) && connection.tenant == tenant
        invariant Then(done, Traced(body[i..], tenant)) == Traced(body, tenant)
        invariant replies == AllVisible(done.tables, tenant) && saved == done.saved
      {
        ghost var step := Alone(body[i], tenant);
        TracedNext(body, i, tenant);
        ThenKeeps(done, step, Traced(body[i + 1..], tenant));
        ThenAssociates(done, step, Traced(body[i + 1..], tenant));
        AllVisibleSplits(done.tables, step.tables, tenant);
        match body[i] {
          case Select(rows) =>
            replies := replies + [Visible(rows, tenant)];
          case Save(rowStore) =>
            if Writable(rowStore, tenant) {
              saved := saved + [rowStore];
            } else {
              threw := true;
            }
          case Nested(inner) =>
            var opens := !connection.inTransaction;
            if opens {
              connection.Begin();
            }
            var more, written, failed := Handle(connection, inner);
            TracedIsFlat(inner, tenant);
            if opens {
              connection.End();
            }
            replies, saved, threw := replies + more, saved + written, failed;
          case Throw =>
            threw := true;
        }
        done := Then(done, step);
        if threw {
          TracedIsFlat(body, tenant);
          return;
        }
      }
      TracedIsFlat(body, tenant);
      TracedNothing(body[|body|..], tenant);
      ThenAssociates(done, done, done);
    }

    /**
     With a store, the handler runs in one transaction that carries it and commits unless it
     throws. Without one, the handler simply runs: the policy shows it no row and lets it write none.
     */
    method Intercept(connection: Connection, storeId: Option<Uuid>, body: seq<Stmt>)
      returns (replies: seq<Table>, saved: seq<Uuid>, threw: bool)
      requires connection.Idle()
      modifies connection
      ensures connection.Idle()
      ensures var stmts := Flat(body);
              var n := StopAt(stmts, storeId);
              && (threw <==> n < |stmts|) && saved == StoresOf(stmts[..n]) && |replies| == |TablesOf(stmts[..n])|
              && forall i :: 0 <= i < |replies| ==>
                   replies[i] == match storeId case Some(s) => OfStore(TablesOf(stmts[..n])[i], s) case None => map[]
      ensures forall i :: 0 <= i < |saved| ==> Some(saved[i]) == storeId
    {
      SavesAreOwn(Flat(body)[..StopAt(Flat(body), storeId)], storeId);
      if storeId.None? {
        replies, saved, threw := Handle(connection, body);
        return;
      }
      connection.Begin();
      connection.SetLocal(storeId.value);
      replies, saved, threw := Handle(connection, body);
      connection.End();
    }
  }

  // ----- many requests over pooled connections -----

  type RequestId = nat
  type ConnectionId = nat

  datatype Conn = Conn(tenant: Option<Uuid>, lease: Option<RequestId>)

  // conn: the connection of the request's transaction. ready: the tenant has been set.
  // depth: how many withTransaction calls of the handler are open.
  datatype Req = Req(storeId: Option<Uuid>, conn: Option<ConnectionId>, ready: bool, depth: nat)

  // One statement: whose request made it and the setting it ran under; for a query the table
  // and the rows it returned, for a write the store of its row and whether it was accepted.
  datatype Entry =
    | Queried(storeId: Option<Uuid>, tenant: Option<Uuid>, rows: Table, returned: Table)
    | Wrote(storeId: Option<Uuid>, tenant: Option<Uuid>, rowStore: Uuid, accepted: bool)

  datatype Pool = Pool(conns: map<ConnectionId, Conn>, reqs: map<RequestId, Req>, log: seq<Entry>)

  datatype Action =
    | Connect(c: ConnectionId)
    | Arrive(r: RequestId, storeId: Option<Uuid>)
    | OpenTransaction(r: RequestId, c: ConnectionId)
    | SetTenant(r: RequestId)
    | EnterTransaction(r: RequestId, c: ConnectionId)
    | LeaveTransaction(r: RequestId)
    | Query(r: RequestId, c: ConnectionId, rows: Table)
    | Write(r: RequestId, c: ConnectionId, rowStore: Uuid)
    | Finish(r: RequestId)
    | LoseConnection(c: ConnectionId)

  predicate Available(s: Pool, c: ConnectionId) {
    c in s.conns && s.conns[c].lease.None?
  }

  function Lease(s: Pool, r: RequestId, c: ConnectionId): (s': Pool)
    requires r in s.reqs && c in s.conns
  {
    s.(conns := s.conns[c := s.conns[c].(lease := Some(r))], reqs := s.reqs[r := s.reqs[r].(conn := Some(c))])
  }

  /** The end of a transaction resets its setting and returns its connection. */
  function Release(s: Pool, c: ConnectionId): (s': Pool) {
    s.(conns := s.conns[c := Conn(None, None)])
  }

  function Logged(s: Pool, r: RequestId, c: ConnectionId, rows: Table): (s': Pool)
    requires r in s.reqs && c in s.conns
  {
    var tenant := s.conns[c].tenant;
    s.(log := s.log + [Queried(s.reqs[r].storeId, tenant, rows, Visible(rows, tenant))])
  }

  function LoggedWrite(s: Pool, r: RequestId, c: ConnectionId, rowStore: Uuid): (s': Pool)
    requires r in s.reqs && c in s.conns
  {
    var tenant := s.conns[c].tenant;
    s.(log := s.log + [Wrote(s.reqs[r].storeId, tenant, rowStore, Writable(rowStore, tenant))])
  }

  /** May the request's handler run now? With a store, only inside its transaction, once the tenant is set. */
  predicate Handling(req: Req) {
    req.storeId.Some? ==> req.conn.Some? && req.ready
  }

  /** The connection of a statement: the transaction's, else any idle one. */
  function StatementOn(s: Pool, r: RequestId, c: ConnectionId): (on: Option<ConnectionId>) {
    if r !in s.reqs || !Handling(s.reqs[r]) then None
    else if s.reqs[r].conn.Some? then if s.reqs[r].conn.value in s.conns then s.reqs[r].conn else None
    else if Available(s, c) then Some(c)
    else None
  }

  function Step(s: Pool, a: Action): (s': Pool) {
    match a
    case Connect(c) => if c in s.conns then s else s.(conns := s.conns[c := Conn(None, None)])
    case Arrive(r, storeId) => if r in s.reqs then s else s.(reqs := s.reqs[r := Req(storeId, None, false, 0)])
    case OpenTransaction(r, c) =>
      if r !in s.reqs || s.reqs[r].storeId.None? || s.reqs[r].conn.Some? || s.reqs[r].ready || !Available(s, c) then s
      else Lease(s, r, c)
    case SetTenant(r) =>
      if r !in s.reqs || s.reqs[r].storeId.None? || s.reqs[r].conn.None? || s.reqs[r].ready then s
      else
        var c := s.reqs[r].conn.value;
        if c !in s.conns then s
        else
          s.(conns := s.conns[c := s.conns[c].(tenant := s.reqs[r].storeId)],
             reqs := s.reqs[r := s.reqs[r].(ready := true)])
    case EnterTransaction(r, c) =>
      if r !in s.reqs || !Handling(s.reqs[r]) then s
      else if s.reqs[r].conn.Some? then s.(reqs := s.reqs[r := s.reqs[r].(depth := s.reqs[r].depth + 1)])
      else if !Available(s, c) then s
      else var leased := Lease(s, r, c); leased.(reqs := leased.reqs[r := leased.reqs[r].(depth := 1)])
    case LeaveTransaction(r) =>
      if r !in s.reqs || s.reqs[r].depth == 0 then s
      else
        var req := s.reqs[r].(depth := s.reqs[r].depth - 1);
        if req.storeId.None? && req.depth == 0 && req.conn.Some? then
          Release(s, req.conn.value).(reqs := s.reqs[r := req.(conn := None)])
        else s.(reqs := s.reqs[r := req])
    case Query(r, c, rows) =>
      var on := StatementOn(s, r, c);
      if on.None? then s else Logged(s, r, on.value, rows)
    case Write(r, c, rowStore) =>
      var on := StatementOn(s, r, c);
      if on.None? then s else LoggedWrite(s, r, on.value, rowStore)
    case Finish(r) =>
      if r !in s.reqs then s
      else if s.reqs[r].conn.Some? then Release(s, s.reqs[r].conn.value).(reqs := s.reqs - {r})
      else s.(reqs := s.reqs - {r})
    case LoseConnection(c) =>
      if c !in s.conns then s
      else
        var rest := s.(conns := s.conns - {c});
        if s.conns[c].lease.Some? then rest.(reqs := s.reqs - {s.conns[c].lease.value}) else rest
  }

  function Exec(actions: seq<Action>): (s: Pool) {
    if |actions| == 0 then Pool(map[], map[], [])
    else Step(Exec(actions[..|actions| - 1]), actions[|actions| - 1])
  }

  /** A leased connection and its request name each other; an idle one carries no tenant. */
  predicate LeasesMatch(s: Pool) {
    && (forall c :: c in s.conns && s.conns[c].lease.None? ==> s.conns[c].tenant.None?)
    && (forall c :: c in s.conns && s.conns[c].lease.Some? ==>
          s.conns[c].lease.value in s.reqs && s.reqs[s.conns[c].lease.value].conn == Some(c))
    && (forall r :: r in s.reqs && s.reqs[r].conn.Some? ==>
          s.reqs[r].conn.value in s.conns && s.conns[s.reqs[r].conn.value].lease == Some(r))
  }

  /** The connection of a request carries its store once set, and nothing before that or without a store. */
  predicate TenantsMatch(s: Pool) {
    forall r :: r in s.reqs ==>
      var req := s.reqs[r];
      && (req.ready ==> req.storeId.Some? && req.conn.Some?)
      && (req.conn.Some? && req.conn.value in s.conns ==>
            s.conns[req.conn.value].tenant == if req.ready then req.storeId else None)
  }

  /**
   Each statement ran under exactly its request's store: a query returned exactly that store's
   rows, and a write was accepted exactly if its row is that store's.
   */
  predicate LogSafe(log: seq<Entry>) {
    forall i :: 0 <= i < |log| ==>
      && log[i].tenant == log[i].storeId
      && match log[i]
         case Queried(Some(storeId), _, rows, returned) => returned == OfStore(rows, storeId)
         case Queried(None, _, _, returned) => returned == map[]
         case Wrote(storeId, _, rowStore, accepted) => accepted <==> storeId == Some(rowStore)
  }

  predicate Safe(s: Pool) {
    LeasesMatch(s) && TenantsMatch(s) && LogSafe(s.log)
  }

  lemma LoggedSafe(s: Pool, r: RequestId, c: ConnectionId, rows: Table, rowStore: Uuid)
    requires Safe(s) && r in s.reqs && c in s.conns && s.conns[c].tenant == s.reqs[r].storeId
    ensures Safe(Logged(s, r, c, rows)) && Safe(LoggedWrite(s, r, c, rowStore))
  {
    var tenant := s.conns[c].tenant;
    assert Visible(rows, tenant) == match tenant case Some(storeId) => OfStore(rows, storeId) case None => map[];
  }

  lemma StatementSafe(s: Pool, r: RequestId, c: ConnectionId, rows: Table, rowStore: Uuid)
    requires Safe(s)
    ensures Safe(Step(s, Query(r, c, rows))) && Safe(Step(s, Write(r, c, rowStore)))
  {
    hide Visible, OfStore, Logged, LoggedWrite, LogSafe;
    var on := StatementOn(s, r, c);
    if on.Some? {
      LoggedSafe(s, r, on.value, rows, rowStore);
    }
  }

  lemma ReleaseSafe(s: Pool, r: RequestId, req: Option<Req>)
    requires Safe(s) && r in s.reqs && s.reqs[r].conn.Some?
    requires req.Some? ==> req.value.conn.None? && !req.value.ready
    ensures Safe(Release(s, s.reqs[r].conn.value).(reqs := if req.Some? then s.reqs[r := req.value] else s.reqs - {r}))
  {
    hide LogSafe;
  }

  lemma LeaseSafe(s: Pool, r: RequestId, c: ConnectionId)
    requires Safe(s) && r in s.reqs && s.reqs[r].conn.None? && Available(s, c)
    ensures Safe(Lease(s, r, c))
    ensures var leased := Lease(s, r, c); Safe(leased.(reqs := leased.reqs[r := leased.reqs[r].(depth := 1)]))
  {
    hide LogSafe;
  }

  lemma TransactionSafe(s: Pool, r: RequestId, c: ConnectionId)
    requires Safe(s)
    ensures Safe(Step(s, OpenTransaction(r, c)))
    ensures Safe(Step(s, EnterTransaction(r, c)))
  {
    hide LogSafe, Lease;
    if r in s.reqs && s.reqs[r].conn.None? && Available(s, c) {
      LeaseSafe(s, r, c);
    }
  }

  lemma LeaveSafe(s: Pool, r: RequestId)
    requires Safe(s)
    ensures Safe(Step(s, LeaveTransaction(r)))
  {
    hide LogSafe, Release;
    if r in s.reqs && s.reqs[r].conn.Some? && s.reqs[r].depth > 0 {
      ReleaseSafe(s, r, Some(s.reqs[r].(depth := s.reqs[r].depth - 1, conn := None, ready := false)));
    }
  }

  lemma FinishSafe(s: Pool, r: RequestId)
    requires Safe(s)
    ensures Safe(Step(s, Finish(r)))
  {
    hide LogSafe, Release;
    if r in s.reqs && s.reqs[r].conn.Some? {
      ReleaseSafe(s, r, None);
    }
  }

  lemma ConnectSafe(s: Pool, c: ConnectionId)
    requires Safe(s)
    ensures Safe(Step(s, Connect(c)))
  {
    hide LogSafe;
    if c !in s.conns {
      var s' := s.(conns := s.conns[c := Conn(None, None)]);
      assert Step(s, Connect(c)) == s';
      hide Step;
      forall r | r in s.reqs && s.reqs[r].conn.Some?
        ensures s.reqs[r].conn.value in s.conns && s'.conns[s.reqs[r].conn.value] == s.conns[s.reqs[r].conn.value]
      {
      }
    }
  }

  lemma LoseSafe(s: Pool, c: ConnectionId)
    requires Safe(s)
    ensures Safe(Step(s, LoseConnection(c)))
  {
    hide LogSafe;
    var s' := Step(s, LoseConnection(c));
    assert forall r :: r in s'.reqs && s'.reqs[r].conn.Some? ==> s'.reqs[r].conn.value != c;
  }

  lemma ArriveSafe(s: Pool, r: RequestId, storeId: Option<Uuid>)
    requires Safe(s)
    ensures Safe(Step(s, Arrive(r, storeId)))
  {
    hide LogSafe;
  }

  lemma SetTenantSafe(s: Pool, r: RequestId)
    requires Safe(s)
    ensures Safe(Step(s, SetTenant(r)))
  {
    hide LogSafe;
  }

  lemma StepSafe(s: Pool, a: Action)
    requires Safe(s)
    ensures Safe(Step(s, a))
  {
    hide Step, Safe;
    match a
    case Query(r, c, rows) => StatementSafe(s, r, c, rows, 0);
    case Write(r, c, rowStore) => StatementSafe(s, r, c, map[], rowStore);
    case OpenTransaction(r, c) => TransactionSafe(s, r, c);
    case EnterTransaction(r, c) => TransactionSafe(s, r, c);
    case LeaveTransaction(r) => LeaveSafe(s, r);
    case Finish(r) => FinishSafe(s, r);
    case Connect(c) => ConnectSafe(s, c);
    case LoseConnection(c) => LoseSafe(s, c);
    case Arrive(r, storeId) => ArriveSafe(s, r, storeId);
    case SetTenant(r) => SetTenantSafe(s, r);
  }

  /**
   However requests interleave over reused and lost connections, every query and write runs
   under its own request's store, and every idle connection carries no tenant.
   */
  lemma {:induction false} PoolIsSafe(actions: seq<Action>)
    ensures Safe(Exec(actions))
  {
    hide Step;
    if |actions| == 0 {
    } else {
      PoolIsSafe(actions[..|actions| - 1]);
      StepSafe(Exec(actions[..|actions| - 1]), actions[|actions| - 1]);
    }
  }

  // ----- a request is served -----

  function Steps(s: Pool, actions: seq<Action>): (s': Pool)
    decreases |actions|
  {
    if |actions| == 0 then s else Steps(Step(s, actions[0]), actions[1..])
  }

  lemma {:induction false} StepsSplit(s: Pool, a: seq<Action>, b: seq<Action>)
    ensures Steps(s, a + b) == Steps(Steps(s, a), b)
    decreases |a|
  {
    if |a| == 0 {
      assert a + b == b;
    } else {
      assert (a + b)[0] == a[0] && (a + b)[1..] == a[1..] + b;
      StepsSplit(Step(s, a[0]), a[1..], b);
    }
  }

  /** The actions of a handler: c stands for any connection, as the request has its own. */
  function ActionsOf(r: RequestId, c: ConnectionId, body: seq<Stmt>): (actions: seq<Action>)
    decreases body
  {
    if |body| == 0 then []
    else
      (match body[0]
       case Select(rows) => [Query(r, c, rows)]
       case Save(rowStore) => [Write(r, c, rowStore)]
       case Nested(inner) => [EnterTransaction(r, c)] + ActionsOf(r, c, inner) + [LeaveTransaction(r)]
       case Throw => [])
      + ActionsOf(r, c, body[1..])
  }

  /** What a store's statements leave in the log: its own rows, and its own writes accepted. */
  function Entries(storeId: Uuid, stmts: seq<Stmt>): (log: seq<Entry>) {
    if |stmts| == 0 then []
    else
      (match stmts[0]
       case Select(rows) => [Queried(Some(storeId), Some(storeId), rows, OfStore(rows, storeId))]
       case Save(rowStore) => [Wrote(Some(storeId), Some(storeId), rowStore, rowStore == storeId)]
       case _ => [])
      + Entries(storeId, stmts[1..])
  }

  lemma {:induction false} EntriesSplit(storeId: Uuid, a: seq<Stmt>, b: seq<Stmt>)
    ensures Entries(storeId, a + b) == Entries(storeId, a) + Entries(storeId, b)
  {
    if |a| == 0 {
      assert a + b == b;
    } else {
      assert (a + b)[0] == a[0] && (a + b)[1..] == a[1..] + b;
      EntriesSplit(storeId, a[1..], b);
    }
  }

  /** The request's handler runs on connection c, which carries its store. */
  predicate Serving(s: Pool, r: RequestId, c: ConnectionId, storeId: Uuid) {
    && r in s.reqs && s.reqs[r].storeId == Some(storeId) && s.reqs[r].conn == Some(c) && s.reqs[r].ready
    && c in s.conns && s.conns[c].tenant == Some(storeId)
  }

  lemma OneStatement(s: Pool, r: RequestId, c: ConnectionId, other: ConnectionId, storeId: Uuid, stmt: Stmt)
    requires Serving(s, r, c, storeId) && (stmt.Select? || stmt.Save?)
    ensures Steps(s, ActionsOf(r, other, [stmt])) == s.(log := s.log + Entries(storeId, [stmt]))
  {
    hide Steps;
    var a := if stmt.Select? then Query(r, other, stmt.rows) else Write(r, other, stmt.rowStore);
    assert [stmt][1..] == [];
    assert ActionsOf(r, other, [stmt]) == [a] + ActionsOf(r, other, [stmt][1..]) == [a];
    StepsOfOne(s, a);
    if stmt.Select? {
      assert Visible(stmt.rows, Some(storeId)) == OfStore(stmt.rows, storeId);
      assert Entries(storeId, [stmt]) ==
             [Queried(Some(storeId), Some(storeId), stmt.rows, OfStore(stmt.rows, storeId))] + Entries(storeId, [stmt][1..]);
    } else {
      assert Entries(storeId, [stmt]) ==
             [Wrote(Some(storeId), Some(storeId), stmt.rowStore, stmt.rowStore == storeId)] + Entries(storeId, [stmt][1..]);
    }
  }

  lemma ActionsNext(r: RequestId, other: ConnectionId, body: seq<Stmt>)
    requires |body| > 0
    ensures ActionsOf(r, other, body) == ActionsOf(r, other, [body[0]]) + ActionsOf(r, other, body[1..])
    ensures body[0].Nested? ==>
              ActionsOf(r, other, [body[0]]) ==
              [EnterTransaction(r, other)] + ActionsOf(r, other, body[0].body) + [LeaveTransaction(r)]
    ensures body[0].Throw? ==> ActionsOf(r, other, [body[0]]) == []
  {
    assert [body[0]][1..] == [] && ActionsOf(r, other, []) == [];
  }

  lemma EnterAndLeave(s: Pool, r: RequestId, c: ConnectionId, other: ConnectionId, storeId: Uuid)
    requires Serving(s, r, c, storeId)
    ensures var inside := Step(s, EnterTransaction(r, other));
            && Serving(inside, r, c, storeId) && inside.log == s.log
            && forall log :: Step(inside.(log := log), LeaveTransaction(r)) == s.(log := log)
  {
    assert s.reqs[r := s.reqs[r].(depth := s.reqs[r].depth + 1)][r := s.reqs[r]] == s.reqs;
  }

  lemma StepsOfOne(s: Pool, a: Action)
    ensures Steps(s, [a]) == Step(s, a)
  {
    assert Steps(Step(s, a), [a][1..]) == Step(s, a);
  }

  /** The first statement, spliced in if it is nested. */
  function Head(body: seq<Stmt>): (stmts: seq<Stmt>)
    requires |body| > 0
  {
    if body[0].Nested? then Flat(body[0].body) else [body[0]]
  }

  lemma FlatNext(body: seq<Stmt>)
    requires |body| > 0
    ensures Flat(body) == Head(body) + Flat(body[1..])
  {
  }

  lemma LogNext(log: seq<Entry>, storeId: Uuid, a: seq<Stmt>, b: seq<Stmt>)
    ensures log + Entries(storeId, a) + Entries(storeId, b) == log + Entries(storeId, a + b)
  {
    EntriesSplit(storeId, a, b);
    assert log + Entries(storeId, a) + Entries(storeId, b) == log + (Entries(storeId, a) + Entries(storeId, b));
  }

  lemma NoStatements(s: Pool, r: RequestId, other: ConnectionId, storeId: Uuid, body: seq<Stmt>)
    requires body == []
    ensures Steps(s, ActionsOf(r, other, body)) == s.(log := s.log + Entries(storeId, Flat(body)))
  {
    assert s.log + [] == s.log;
  }

  /** Every statement of the handler, nested ones included, runs once, in order, and under its store. */
  lemma {:induction false} HandlerIsServed(s: Pool, r: RequestId, c: ConnectionId, other: ConnectionId, storeId: Uuid, body: seq<Stmt>)
    requires Serving(s, r, c, storeId)
    ensures Steps(s, ActionsOf(r, other, body)) == s.(log := s.log + Entries(storeId, Flat(body)))
    decreases body, 1
  {
    hide Step, Steps, ActionsOf, Entries, Serving, Flat, Head;
    if |body| == 0 {
      NoStatements(s, r, other, storeId, body);
    } else {
      ActionsNext(r, other, body);
      StepsSplit(s, ActionsOf(r, other, [body[0]]), ActionsOf(r, other, body[1..]));
      FirstIsServed(s, r, c, other, storeId, body);
      var after := s.(log := s.log + Entries(storeId, Head(body)));
      ServingKept(s, after.log, r, c, storeId);
      HandlerIsServed(after, r, c, other, storeId, body[1..]);
      LogNext(s.log, storeId, Head(body), Flat(body[1..]));
      FlatNext(body);
    }
  }

  lemma ServingKept(s: Pool, log: seq<Entry>, r: RequestId, c: ConnectionId, storeId: Uuid)
    requires Serving(s, r, c, storeId)
    ensures Serving(s.(log := log), r, c, storeId)
  {
  }

  lemma {:induction false} FirstIsServed(s: Pool, r: RequestId, c: ConnectionId, other: ConnectionId, storeId: Uuid, body: seq<Stmt>)
    requires Serving(s, r, c, storeId) && |body| > 0
    ensures Steps(s, ActionsOf(r, other, [body[0]])) == s.(log := s.log + Entries(storeId, Head(body)))
    decreases body, 0
  {
    hide Step, Serving;
    ActionsNext(r, other, body);
    match body[0]
    case Nested(inner) =>
      hide Steps, ActionsOf, Entries;
      var inside := Step(s, EnterTransaction(r, other));
      var middle := ActionsOf(r, other, inner);
      EnterAndLeave(s, r, c, other, storeId);
      StepsSplit(s, [EnterTransaction(r, other)] + middle, [LeaveTransaction(r)]);
      StepsSplit(s, [EnterTransaction(r, other)], middle);
      StepsOfOne(s, EnterTransaction(r, other));
      HandlerIsServed(inside, r, c, other, storeId, inner);
      StepsOfOne(Steps(inside, middle), LeaveTransaction(r));
    case Throw =>
      assert [body[0]][1..] == [] && Entries(storeId, [body[0]]) == [] + Entries(storeId, [body[0]][1..]);
      assert s.log + [] == s.log;
    case _ => OneStatement(s, r, c, other, storeId, body[0]);
  }

  /**
   A request of a store that gets an idle connection has its whole handler served under its
   store, and gives the connection back as it was.
   */
  lemma {:induction false} RequestIsServed(s: Pool, r: RequestId, c: ConnectionId, storeId: Uuid, body: seq<Stmt>)
    requires Safe(s) && r !in s.reqs && Available(s, c)
    ensures Steps(s, [Arrive(r, Some(storeId)), OpenTransaction(r, c), SetTenant(r)] + ActionsOf(r, c, body) + [Finish(r)]) ==
            s.(log := s.log + Entries(storeId, Flat(body)))
  {
    hide LogSafe, ActionsOf, Entries, Flat;
    var opening, middle := [Arrive(r, Some(storeId)), OpenTransaction(r, c), SetTenant(r)], ActionsOf(r, c, body);
    StepsSplit(s, opening + middle, [Finish(r)]);
    StepsSplit(s, opening, middle);
    var open := Opened(s, r, c, storeId);
    HandlerIsServed(open, r, c, c, storeId, body);
    StepsOfOne(Steps(open, middle), Finish(r));
    assert s.conns[c] == Conn(None, None);
    assert open.reqs - {r} == s.reqs;
    assert open.conns[c := Conn(None, None)] == s.conns;
  }

  lemma Opened(s: Pool, r: RequestId, c: ConnectionId, storeId: Uuid) returns (open: Pool)
    requires r !in s.reqs && Available(s, c)
    ensures open == Steps(s, [Arrive(r, Some(storeId)), OpenTransaction(r, c), SetTenant(r)])
    ensures Serving(open, r, c, storeId)
    ensures open == s.(conns := s.conns[c := Conn(Some(storeId), Some(r))], reqs := s.reqs[r := Req(Some(storeId), Some(c), true, 0)])
  {
    hide Steps;
    var a, b := Step(s, Arrive(r, Some(storeId))), Step(Step(s, Arrive(r, Some(storeId))), OpenTransaction(r, c));
    open := Step(b, SetTenant(r));
    var actions := [Arrive(r, Some(storeId)), OpenTransaction(r, c), SetTenant(r)];
    StepsSplit(s, [actions[0]], [actions[1], actions[2]]);
    StepsSplit(a, [actions[1]], [actions[2]]);
    StepsOfOne(s, actions[0]);
    StepsOfOne(a, actions[1]);
    StepsOfOne(b, actions[2]);
    assert [actions[0]] + [actions[1], actions[2]] == actions && [actions[1]] + [actions[2]] == [actions[1], actions[2]];
  }
}
