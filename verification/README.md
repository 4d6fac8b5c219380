# Verified model of the store back end

A Dafny model of the transactional back end of a multi-tenant store API (NestJS,
TypeORM, Postgres) and of the protocols that run on it, with proofs of what they keep.
`dafny verify dfyconfig.toml` checks all of it.

## What is modelled

Services that update rows are classes over the tables they update. Each method is proved
against a specification function on table values, and the properties are proved about
those functions: for one request, for whole runs of requests, and for every interleaving
of SQL statements. A state machine is a total function `Step`; an action that is not
possible in a state leaves it as it is, so a run is any sequence of actions.

| files | content |
|---|---|
| `Binary64`, `Money` | JavaScript numbers as binary64 (section 4.3.1 of IEEE 754-2019), their decimal text, `toFixed(2)`, and the money total of an order against the exact sum of its lines |
| `Schema`, `Listing` | the tables, and lists ordered by creation time and cut into pages |
| `Catalogue`, `Orders` | ProductsService, CategoriesService and OrdersService |
| `Ledger` | order creation against its aggregate meaning, and where every unit of stock goes over a run |
| `Interleaving`, `Serializability`, `Notices` | creations, status changes and edits as transactions whose statements interleave under row locks: no negative stock, the exact condition for equivalence with the serial run in commit order, one outbox row per committed order |
| `Tenancy`, `Isolation` | all requests of a store, and non-interference between stores |
| `TenantContext` | the tenant transaction, the row level security policy and the connection pool |
| `Idempotency`, `IdempotencyProtocol` | the Idempotency-Key interceptor, alone and as a protocol with failures and crashes |
| `Outbox`, `Delivery` | the outbox poller, alone and with any number of pollers that fail and crash |
| `Accounts`, `Seats`, `Webhooks`, `ResetTokens` | users, stores and subscriptions: seats, redelivered webhooks, reset tokens, revoked sessions |
| `ApiClient` | the web client's coalesced token refresh |

## Assumptions

- Postgres runs READ COMMITTED. A locking read and an update see the latest committed row,
  and a row lock lasts until its transaction ends. A deadlock is an abort; a transaction
  can abort between any two statements.
- The tenant transaction is the outer interceptor and the idempotency interceptor the inner
  one, as their modules are imported in that order (apps/api/src/app.module.ts:94-98). So
  the idempotency record is written on a connection of its own, and takes effect at once,
  before the order's transaction commits.
- A statement that reports a failure has either taken effect or not. Adding a job to the
  mail queue takes effect entirely or not at all.
- Generated identifiers are not in use yet. They are modelled as numbers.
- Saving a loaded entity writes all of its columns, those that the request did not assign as
  they were read. TypeORM re-reads the row and writes the columns that differ from the re-read,
  so a change that commits between the re-read and the update may survive; the edit half of
  `SerialExactly` and `OverlappingEditsLosePrice` rest on this assumption.
- Binary64 exponents are unbounded: amounts are zero or between a cent and far below 2^1024.
- SHA-256 has no collisions among the reset tokens, and issued tokens differ. The outcome of
  a bcrypt comparison is an arbitrary parameter.
- A query without a tenant returns no row under the policy. Postgres can raise an error
  instead, which returns no row either.

## Where the code does less than its comments suggest

Each item is false of the code on some input; the model has that input, and the condition
under which the property holds.

- A move out of CANCELLED takes no stock back, so it invents units
  (`RevivingInventsUnits`; `ChangeConservesUnlessReviving` says exactly when).
- Interleavings are not always serial: overlapping cancellations of one order return its stock
  twice (`OverlappingCancelsRestockTwice`), and of two overlapping edits of a product one can
  be lost (`OverlappingEditsLosePrice`). `SerialExactly` says exactly when they are.
- A replay can report an order that is never committed: its commit fails
  (`ReplayWithoutOrder`), or its request was failing already (`ReplayOfFailing`).
  `ReplayedOrderExactly` says exactly when the order is committed or still pending, and
  `UsedUpExactly` when a key is used up.
- A retry can run a handler again after the write of its result failed, which undoes nothing
  that a handler did outside the tenant transaction, as the checkout session does.
  `CompletedHandlersBounded` bounds how often; `AtMostOneOrder` is about orders only.
- Two pollers at a time can send a mail twice (`TwoPollersSendTwice`). `SentOnceExactly` says
  exactly when a mail is enqueued at most once, for any number of pollers.
- When the record of a webhook fails after the event was applied, its redelivery is applied
  again and can undo a later event (`LostRecordRevivesPlan`; `RepeatsHarmlessExactly`).

## Model

| member | source | states |
|---|---|---|
| `Binary64.RoundIsNearest` | apps/api/src/orders/orders.service.ts:62-96 | rounding as the additions do it: no 53-bit number is closer to the real result, so the arithmetic below is that of JavaScript numbers |
| `Binary64.RoundRelativeError` | apps/api/src/orders/orders.service.ts:96 | one operation errs by at most 2^-53 of its result |
| `Binary64.ToFixed2IsNearest` | apps/api/src/orders/orders.service.ts:126 | toFixed(2) prints the nearest number of cents, the larger of two |
| `Money.LineTotalError` | apps/api/src/orders/orders.service.ts:96 | price * quantity, with a price read by parseFloat, is off by at most three half units in the last place |
| `Money.RunningTotalError` | apps/api/src/orders/orders.service.ts:62-96 | the running total is within its tolerance, below half a cent, of the exact total, for up to 671,000 lines whose exact total is below 10^8 |
| `Money.StoredTotalIsExact` | apps/api/src/orders/orders.service.ts:99-126 | the total stored in numeric(10,2) and the total printed in the mail are both exactly the sum of unit price times quantity |
| `Money.TotalOverflowsExactly` | apps/api/src/orders/orders.service.ts:99-105 | storing the total fails exactly when the exact total does not fit the column |
| `Money.PriceRoundTrip` | apps/api/src/common/utils/decimal.transformer.ts:10-14 | a price read from its column and written back is the same, so unit prices are copied without loss |
| `Listing.NewestFirstSorted` | apps/api/src/products/products.service.ts:82 | in a list each row is newer than the ones after it, and none is listed twice |
| `Listing.NewestFirstMembers` | apps/api/src/products/products.service.ts:60-86 | the list holds every selected row and no other |
| `Listing.PagesCoverList` | apps/api/src/common/dto/pagination.dto.ts:34-45 | the pages that totalPages announces, put together, are the whole list: nothing is skipped or repeated |
| `Catalogue.ProductsService.Create` | apps/api/src/products/products.service.ts:37-51 | succeeds iff the named category is in the store and the values fit their columns; adds exactly that row, otherwise nothing changes, with the right error |
| `Catalogue.ProductsService.FindOne` | apps/api/src/products/products.service.ts:90-99 | the product with its category iff the store owns it, otherwise not found |
| `Catalogue.ProductsService.Update` | apps/api/src/products/products.service.ts:101-112 | succeeds iff the store owns the product and the named category and the values fit; changes exactly that row, and says which condition failed |
| `Catalogue.ProductsService.Remove` | apps/api/src/products/products.service.ts:114-117 | removes an owned product, and every order item that pointed to it loses its link; otherwise nothing changes |
| `Catalogue.ProductsService.SetImage` | apps/api/src/products/products.service.ts:119-127 | sets the image of an owned product and changes nothing else |
| `Catalogue.ProductsService.FindAll` | apps/api/src/products/products.service.ts:53-88 | the filters added one by one select exactly the store's rows that pass all of them; the reply is the page of those, newest first, with their count |
| `Catalogue.ProductListShows` | apps/api/src/products/products.service.ts:60-87 | which column each filter compares, and that the page shows, in order, exactly its share of the rows that pass, with their categories and the count of all |
| `Catalogue.CategoriesService.Create` | apps/api/src/categories/categories.service.ts:28-32 | adds exactly the new category |
| `Catalogue.CategoriesService.FindAll` | apps/api/src/categories/categories.service.ts:34-36 | a category is in the reply iff the store owns it, with its row as it is |
| `Catalogue.CategoriesService.FindOne` | apps/api/src/categories/categories.service.ts:38-44 | the category iff the store owns it |
| `Catalogue.CategoriesService.Update` | apps/api/src/categories/categories.service.ts:46-54 | renames an owned category and changes nothing else |
| `Catalogue.CategoriesService.Remove` | apps/api/src/categories/categories.service.ts:56-59 | removes an owned category, and every product that named it loses the link |
| `Orders.OrdersService.Create` | apps/api/src/orders/orders.service.ts:59-132 | the loop equals its aggregate: it succeeds iff each product is in the store with stock for all its lines together and the total fits; then each item keeps the id, name, price and quantity of its line, the order is stored with them as PENDING, and each stock is lowered by what was ordered of it; on failure nothing changes and the error names a product that is missing or short, with its name and figures, at the first line that the stock left by earlier lines refuses |
| `Orders.OrdersService.UpdateStatus` | apps/api/src/orders/orders.service.ts:178-212 | succeeds iff the store owns the order and no restocked stock leaves the column's range; stores the new status, and a move into CANCELLED returns each item once while any other change leaves stock alone; on failure nothing changes and a product that would leave the range exists |
| `Orders.OrdersService.FindAll` | apps/api/src/orders/orders.service.ts:134-165 | exactly the page of the store's orders that pass the filters, newest first, with their count |
| `Orders.OrderListShows` | apps/api/src/orders/orders.service.ts:141-164 | which column each filter compares, and that the page shows, in order, exactly its share of the orders that pass, with the count of all |
| `Orders.OrdersService.FindOne` | apps/api/src/orders/orders.service.ts:167-176 | the order iff the store owns it |
| `Orders.TakeLine` | apps/api/src/orders/orders.service.ts:65-97 | one turn of the loop: a line is refused by the remaining stock exactly when the prefix with it cannot be filled, otherwise stock, items and total extend the prefix's |
| `Orders.RestockedNext` | apps/api/src/orders/orders.service.ts:197-206 | one increment extends the aggregate restocking of the items before it, and its range check decides the longer prefix |
| `Ledger.LineOrderIsIrrelevant` | apps/api/src/orders/orders.service.ts:65-97 | whether the stock covers an order, the stocks it leaves and its exact total are the same for any order of the lines |
| `Ledger.LineOrderDoesNotDecide` | apps/api/src/orders/orders.service.ts:62-105 | an order of up to 671,000 lines is accepted or refused whatever the order of its lines, although its total is rounded line by line |
| `Ledger.PlacementIsExact` | apps/api/src/orders/orders.service.ts:59-128 | an order run alone succeeds iff stock covers each product's summed lines and the exact total is below 10^8; the stored and the mailed total are the exact one |
| `Ledger.CancellingUndoesPlacing` | apps/api/src/orders/orders.service.ts:178-212 | creating and then cancelling an order restores every product exactly, and the cancellation cannot fail |
| `Ledger.StockLedger` | apps/api/src/orders/orders.service.ts:65-209 | over any run, a surviving product's stock is its start plus manual edits, minus everything ordered, plus each order's quantity once per move to CANCELLED |
| `Ledger.StockAndHeldLedger` | apps/api/src/orders/orders.service.ts:193-209 | stock plus units held by live orders changes by manual edits and by moves out of CANCELLED only |
| `Ledger.Conserved` | apps/api/src/orders/orders.service.ts:193-209 | if no order leaves CANCELLED, stock plus units held by live orders is conserved up to manual edits |
| `Ledger.ChangeConservesUnlessReviving` | apps/api/src/orders/orders.service.ts:193-209 | a status change conserves a product's units iff it does not move an order that has some out of CANCELLED |
| `Ledger.RevivingInventsUnits` | apps/api/src/orders/orders.service.ts:193-209 | a concrete move out of CANCELLED that invents two units |
| `Interleaving.StockNeverNegative` | apps/api/src/orders/orders.service.ts:80-87 | in every interleaving of creations, cancellations and edits that read a row, without a lock, and save it later, with aborts, no committed or uncommitted stock is negative |
| `Serializability.SerialExactly` | apps/api/src/orders/orders.service.ts:59-210 | at every point of an interleaving the committed tables are those of the committed requests run one at a time in commit order, each accepted there, iff no transaction committed on a stale read: a status change whose move into CANCELLED is another one by now, with units to restock, or an edit that writes back a column that changed; for edits this rests on the assumption that saving a loaded entity writes all of its columns |
| `Serializability.CommitInv` | apps/api/src/orders/orders.service.ts:193-210 | for one commit: it does nothing before all statements are executed; then it ends the transaction, frees its locks and logs its request, and does what the request does alone on the committed tables iff it is not stale |
| `Serializability.ReadyCommits` | apps/api/src/orders/orders.service.ts:60-105 | in every interleaving a transaction that has executed its statements and is not stale commits: the tables are those of its request run alone, and it holds no lock |
| `Serializability.RequestHasRun` | apps/api/src/orders/orders.service.ts:59-212 | every accepted creation, status change or edit has a run of its own statements, from begin to commit, that leaves the tables of the request run alone and no transaction or lock |
| `Serializability.AbortLeavesNothing` | apps/api/src/orders/orders.service.ts:60 | an abort leaves the committed tables and frees the locks |
| `Serializability.RefusalsAreRight` | apps/api/src/orders/orders.service.ts:66-212 | in every interleaving a request is refused only if it would be refused when run alone on the tables committed at that moment, or, for status changes and edits, what it read is out of date; no creation is refused wrongly |
| `Serializability.EveryInterleavingIsSerial` | apps/api/src/orders/orders.service.ts:59-105 | in particular the committed tables are those of the committed requests run one at a time, if no two status changes of one order overlap and each edited row is unchanged between read and save in the columns the edit leaves alone |
| `Serializability.FinishInv` | apps/api/src/orders/orders.service.ts:66-90 | a commit writes only rows its transaction has locked, so what every other transaction knows still holds, up to the status of orders |
| `Serializability.OverlappingCancelsRestockTwice` | apps/api/src/orders/orders.service.ts:185-206 | two overlapping cancellations of one order return its stock twice, which no serial run does |
| `Serializability.OverlappingEditsLosePrice` | apps/api/src/products/products.service.ts:106-111 | of two overlapping edits, of the price and of the name, the later save takes the price back, which no serial run does |
| `Notices.OneRowPerOrder` | apps/api/src/orders/orders.service.ts:105-128 | in every interleaving an order has exactly one new outbox row iff it was committed and its store and owner exist, and none if it was rolled back |
| `Notices.RowsShowTheirOrder` | apps/api/src/orders/orders.service.ts:118-128 | each new row goes to the owner of its order's store and shows the exact total of the order's items |
| `Tenancy.Api.Serve` | apps/api/src/products/products.service.ts:37-127 | every request, served by the services' methods, has the reply and the new tables of the function that the isolation results are about |
| `Tenancy.RepliesTell` | apps/api/src/products/products.service.ts:37-127 | a request is refused iff what it names is not the store's or its values do not fit, and then nothing changes; otherwise the reply shows the rows as they are afterwards |
| `Tenancy.LedgerStepIsExec` | apps/api/src/orders/orders.service.ts:59-212 | the serial runs of the ledger and of the interleavings do, request by request, what the services do |
| `Tenancy.RefusedOnce` | apps/api/src/orders/orders.service.ts:65-87 | there is one line at which an order is refused, so its error is determined |
| `Isolation.NonInterference` | apps/api/src/orders/orders.service.ts:68-75 | two databases that agree on a store's rows give the same reply to its request, add the same mails, and still agree on its rows afterwards |
| `Isolation.OtherStoresUnchanged` | apps/api/src/categories/categories.service.ts:38-59 | no request of another store changes a store's rows |
| `Isolation.KeepsLinks` | apps/api/src/products/products.service.ts:37-51 | every request keeps a product's category, and an order item's product, in the same store |
| `Isolation.RunOfOwnRequests` | apps/api/src/products/products.service.ts:101-127 | in any run of any number of stores, a store's rows are what its own requests alone make of the rows it began with, and the mails its requests write are the same |
| `Isolation.RepliesOfOwnRequests` | apps/api/src/orders/orders.service.ts:185-205 | each reply is the one the store would get if no other store had ever made a request |
| `TenantContext.RlsContextInterceptor.Intercept` | apps/api/src/tenant-context/rls-context.interceptor.ts:54-76 | with nested bodies spliced in, exactly the statements before the first exception or rejected write run: with a store each query returns exactly its rows and each write is of its rows, without one no row is shown or written; it throws iff there is such a stop, and the connection goes back without a tenant |
| `TenantContext.RlsContextInterceptor.Handle` | apps/api/src/orders/orders.service.ts:42-60 | nested withTransaction calls run on the connection of the open transaction, or open their own when there is none; with nested bodies spliced in, exactly the statements before the first stop run, in order, under one setting |
| `TenantContext.FlatSplices` | apps/api/src/orders/orders.service.ts:59-60 | splicing puts a nested body where its withTransaction call stands, and keeps every other statement |
| `TenantContext.RequestIsServed` | apps/api/src/tenant-context/rls-context.interceptor.ts:54-76 | a store's request that gets an idle connection has its whole handler, nested statements included, run once, in order and under its store, and gives the connection back as it was |
| `TenantContext.PoolIsSafe` | apps/api/src/tenant-context/rls-context.interceptor.ts:64-75 | for any interleaving over reused and lost connections, every query and write runs under its own request's store: a query returns exactly that store's rows, a write is accepted iff its row is that store's; idle connections carry no tenant |
| `TenantContext.LoggedSafe` | apps/api/src/database/migrations/1787827796841-EnableRlsOnProducts.ts:30-34 | under the policy an unfiltered query on a connection with the request's tenant returns exactly the filtered rows, and a write passes its check iff the row is the tenant's |
| `Idempotency.KeysAreInjective` | apps/api/src/idempotency/idempotency.interceptor.ts:69-70 | for stores and routes without a colon, two keys are equal iff store, route and client key are, whatever the client sends |
| `Idempotency.KeysCollideExactly` | apps/api/src/idempotency/idempotency.interceptor.ts:69-70 | for stores without a colon and any routes, two different triples can share a key iff the stores are equal and one route is the other continued after a colon; no route that takes the header has one today |
| `Idempotency.IdempotencyInterceptor.Intercept` | apps/api/src/idempotency/idempotency.interceptor.ts:55-126 | without the header the handler simply runs; with it, a recorded result is replayed, a reservation gives 409, the handler's own result or error reaches the client, and the record is written, kept or removed as each statement ends, before or after taking effect |
| `Idempotency.RetryReplays` | apps/api/src/idempotency/idempotency.interceptor.ts:72-84 | a retry of an answered request replays the same response without running the handler |
| `Idempotency.FailureLeavesNothingExactly` | apps/api/src/idempotency/idempotency.interceptor.ts:113-124 | a request that ends in an error leaves the records as they were iff its insert did not take effect after all or its delete did |
| `IdempotencyProtocol.AtMostOneOrder` | apps/api/src/idempotency/idempotency.interceptor.ts:72-125 | in any interleaving of requests with one key, with failed handlers, statements and commits and crashes anywhere, at most one order is committed; this is about effects in the tenant transaction only |
| `IdempotencyProtocol.HandlersNeverOverlap` | apps/api/src/idempotency/idempotency.interceptor.ts:86-104 | handlers of one key never run at the same time |
| `IdempotencyProtocol.CompletedHandlersBounded` | apps/api/src/idempotency/idempotency.interceptor.ts:104-125 | for a handler of any kind, also one whose effects are outside the transaction: it completes at most once more than the record of its result reports a failure |
| `IdempotencyProtocol.OnlyTheHolderWrites` | apps/api/src/idempotency/idempotency.interceptor.ts:86-120 | a record is inserted only where there is none, and then changed or removed only by the request that reserved it |
| `IdempotencyProtocol.ResultIsNeverOverwritten` | apps/api/src/idempotency/idempotency.interceptor.ts:104-112 | a recorded result stays as it is until it is removed |
| `IdempotencyProtocol.RivalsGetConflict` | apps/api/src/idempotency/idempotency.interceptor.ts:72-102 | while a result is pending, every other request with the key gets 409, at the lookup and at the insert |
| `IdempotencyProtocol.OrderIsFinal` | apps/api/src/idempotency/idempotency.interceptor.ts:72-84 | once an order is committed, its record stays for good and every later answer is that response, 409 or an error |
| `IdempotencyProtocol.InterceptIsARun` | apps/api/src/idempotency/idempotency.interceptor.ts:55-126 | the interceptor run alone, however its statements and the commit end, is a run of the protocol with the same record and answer, and the order is committed iff the handler ran, was answered and the commit took effect |
| `IdempotencyProtocol.UsedUpForGood` | apps/api/src/idempotency/idempotency.interceptor.ts:72-84 | a record whose holder is gone without a committed order stays, and its key never gets one |
| `IdempotencyProtocol.UsedUpExactly` | apps/api/src/idempotency/idempotency.interceptor.ts:72-125 | a key has a record that no order will ever back iff, somewhere in the run, its commit failed without effect, its holder crashed, the delete of a failed request did not take effect, or an insert took effect although it reported a failure |
| `IdempotencyProtocol.ReplayStandsOn` | apps/api/src/idempotency/idempotency.interceptor.ts:72-84 | behind a replay there is exactly one of: a committed order with that response, an order about to be committed, an order being rolled back, or a used-up key |
| `IdempotencyProtocol.ReplayedOrderExactly` | apps/api/src/idempotency/idempotency.interceptor.ts:72-84 | however the run goes on, the order that a replay reported is committed or still pending iff at the replay it was committed, or recorded with no losing step after it; if the key was used up there is never an order |
| `IdempotencyProtocol.RecordedFate` | apps/api/src/idempotency/idempotency.interceptor.ts:104-112 | a recorded result is committed or pending until a step loses it, and then the key is used up: never both, never neither |
| `IdempotencyProtocol.FailingNeverCommits` | apps/api/src/idempotency/idempotency.interceptor.ts:113-124 | a request that is failing never gets an order, so neither does a replay of its result |
| `IdempotencyProtocol.ReplayOfFailing` | apps/api/src/idempotency/idempotency.interceptor.ts:104-124 | a run in which a result is recorded by a write that reports a failure, is replayed, and then the key is freed without an order |
| `IdempotencyProtocol.ReplayWithoutOrder` | apps/api/src/tenant-context/rls-context.interceptor.ts:64-75 | a run in which the commit fails after the result was recorded, and a retry is answered with it |
| `Outbox.OutboxService.WriteSendEmail` | apps/api/src/outbox/outbox.service.ts:16-28 | adds exactly one unprocessed send-email row with the message |
| `Outbox.OutboxProcessor.PollOnce` | apps/api/src/outbox/outbox.processor.ts:63-94 | takes the oldest unprocessed rows, at most twenty, enqueues their mails in that order and marks exactly those whose statements worked, under any failures |
| `Outbox.PollTakesTwenty` | apps/api/src/outbox/outbox.processor.ts:64-68 | a poll without failures takes the oldest twenty rows off the backlog |
| `Outbox.MailsArePayloads` | apps/api/src/outbox/outbox.processor.ts:70-74 | without failures the mails of send-email rows are their payloads, each once and in order |
| `Outbox.PollsDrainBacklog` | apps/api/src/outbox/outbox.processor.ts:63-94 | n polls take the oldest 20 n rows and enqueue the mails of exactly those, once each and oldest first |
| `Outbox.BacklogEmptiesOnTime` | apps/api/src/outbox/outbox.processor.ts:64-93 | a backlog of n rows is empty after p polls iff p is at least n/20 rounded up, and each poll returns min(20, remaining) |
| `Delivery.ProcessedWasEnqueued` | apps/api/src/outbox/outbox.processor.ts:70-91 | with any number of pollers, failures and crashes, a processed send-email row has a job with its id and its very mail on the queue |
| `Delivery.EnqueueAccount` | apps/api/src/outbox/outbox.processor.ts:70-91 | a row was enqueued exactly as often as it was marked, lost before its mark, or is about to be marked |
| `Delivery.CrashLosesPlace` | apps/api/src/outbox/outbox.processor.ts:70-91 | a crash keeps rows and queue, and the row in the poller's hand counts as lost |
| `Delivery.ExactEnqueues` | apps/api/src/outbox/outbox.processor.ts:70-91 | with one poller at a time, a row was enqueued once if processed, plus once per enqueuing not followed by its mark |
| `Delivery.SentOnceExactly` | apps/api/src/outbox/outbox.processor.ts:70-91 | with any number of pollers, failures and crashes, a row was enqueued at most once iff no step enqueued it while it was processed, lost before, or in a poller's hand |
| `Delivery.OnePollerSendsOnce` | apps/api/src/outbox/outbox.processor.ts:70-91 | with one poller at a time, that is iff no enqueuing went without its mark, or one did and is not retried yet |
| `Delivery.JobsWerePublished` | apps/api/src/outbox/outbox.processor.ts:73 | every job on the queue, and every row, has the mail of the publication that wrote the row under its id, when the id was not in use |
| `Delivery.PollIsARun` | apps/api/src/outbox/outbox.processor.ts:63-94 | a whole poll under any failures is a run of the poller machine with the same rows and mails |
| `Notices.QueuedMailsConfirmOrders` | apps/api/src/outbox/outbox.processor.ts:73 | from order to queue: every mail that any poller enqueues confirms a committed order to the owner of its store |
| `Notices.ProcessedOrdersAreQueued` | apps/api/src/outbox/outbox.processor.ts:63-91 | once the outbox row of a committed order is processed, the order's confirmation to its store's owner is on the queue |
| `Delivery.TwoPollersSendTwice` | apps/api/src/outbox/outbox.processor.ts:64-77 | two pollers at a time enqueue one row twice although every statement works |
| `Accounts.AuthService.Register` | apps/api/src/auth/auth.service.ts:54-94 | the answer and the new tables of the specified request: refused iff the email is taken, otherwise owner, store and free subscription are created |
| `Accounts.AuthService.Login` | apps/api/src/auth/auth.service.ts:96-143 | the four errors in order: no such email or wrong password, suspended store, staff over the limit; otherwise the user gets the token; nothing else changes |
| `Accounts.AuthService.Refresh` | apps/api/src/auth/auth.service.ts:145-168 | succeeds iff the user has a stored hash and the comparison holds; then only that user's hash changes, otherwise nothing |
| `Accounts.AuthService.Logout` | apps/api/src/auth/auth.service.ts:170-172 | afterwards every refresh of the user is refused; no other user and no other table changes |
| `Accounts.AuthService.RequestPasswordReset` | apps/api/src/auth/auth.service.ts:179-205 | the user of the email gets the digest and an expiry one hour away; nothing else changes |
| `Accounts.AuthService.ResetPassword` | apps/api/src/auth/auth.service.ts:212-243 | succeeds iff a user has the token and it is not expired; then that user has the new password, no token and no refresh hash, otherwise nothing changes |
| `Accounts.StoresService.InviteStaff` | apps/api/src/stores/stores.service.ts:53-81 | refused for a taken email or a full plan, otherwise adds exactly the staff user |
| `Accounts.StoresService.UpdateStaff` | apps/api/src/stores/stores.service.ts:83-93 | changes only a staff user of the store, and refuses another account's email |
| `Accounts.StoresService.RemoveStaff` | apps/api/src/stores/stores.service.ts:95-98 | removes only a staff user of the store |
| `Accounts.BillingService.CreateCheckoutSession` | apps/api/src/billing/billing.service.ts:73-90 | an immediate plan is applied to the store's subscription iff the staff fits it, and the refusal tells both counts |
| `Accounts.BillingService.HandleWebhook` | apps/api/src/billing/billing.service.ts:92-137 | an event not recorded before puts the store on the paid plan with the provider's ids, or the holder of the ended subscription on the free plan; the record is written last and can fail; a recorded event changes nothing |
| `Accounts.AdminService.SetSuspended` | apps/api/src/admin/admin.service.ts:31-39 | sets the flag of an existing store and nothing else |
| `Accounts.BillingService.ApplyPlanChange` | apps/api/src/billing/billing.service.ts:139-154 | the store has the seats of the plan and the ids given, or keeps its ids when none are; no other store's subscription changes and none is created |
| `Seats.ExcessNeverGrows` | apps/api/src/stores/stores.service.ts:53-81 | between webhooks the staff beyond a plan's limit never grows, over any requests |
| `Seats.StaffWithinLargestPlan` | apps/api/src/stores/stores.service.ts:58-70 | with any webhooks, no store has more staff than the largest plan allows |
| `Seats.DirectChangesKeepSeats` | apps/api/src/billing/billing.service.ts:46-61 | with direct plan changes only, staff stays within the plan's limit and no login is refused for it |
| `Seats.LoginRefusedExactlyOverLimit` | apps/api/src/auth/auth.service.ts:129-140 | after any run, a user with the right password in a store that is not suspended is refused iff it is staff of a store over its limit; never the owner |
| `Seats.EndedPlanLeavesExtraStaff` | apps/api/src/billing/billing.service.ts:121-131 | for every store: when its subscription ends, its staff beyond one is over the limit, and its staff is refused login iff there is any |
| `Webhooks.RedeliveriesChangeNothing` | apps/api/src/billing/billing.service.ts:104-112 | dropping every delivery of an event already recorded, anywhere in a run of any requests, gives the same tables |
| `Webhooks.EachEventOnce` | apps/api/src/billing/billing.service.ts:104-137 | what is left holds each recorded event once and records the same events |
| `Webhooks.DeliveryHarmlessExactly` | apps/api/src/billing/billing.service.ts:114-131 | a delivery changes no subscription iff its event is recorded, or the checkout's values are already there or its store unknown, or the ended subscription is unknown or already free |
| `Webhooks.RepeatsHarmlessExactly` | apps/api/src/billing/billing.service.ts:104-136 | at every point of a run with any failed records the repeated deliveries have made no difference iff each found its event recorded or already settled |
| `Webhooks.ReplacedSubscriptionIsDead` | apps/api/src/billing/billing.service.ts:121-131 | after a checkout replaced a provider subscription that no other store held, its end changes no subscription, however late |
| `Webhooks.EndedSubscriptionFreesItsStore` | apps/api/src/billing/billing.service.ts:121-131 | the end of a subscription held by one store puts that store, and no other, on the free plan |
| `Webhooks.LostRecordRevivesPlan` | apps/api/src/billing/billing.service.ts:114-136 | an event whose record failed is applied again on redelivery and undoes a later one |
| `ResetTokens.ResetSucceedsExactly` | apps/api/src/auth/auth.service.ts:212-243 | a reset succeeds iff its token is the latest issued for the user, unused, and at most 3,600,000 ms old |
| `ResetTokens.TokenWorksOnce` | apps/api/src/auth/auth.service.ts:232-242 | no token resets a password twice |
| `ResetTokens.PendingIsLatest` | apps/api/src/auth/auth.service.ts:195-198 | the stored token of a user is the latest issued and unused one, over any run |
| `ResetTokens.NoRefreshUntilLogin` | apps/api/src/auth/auth.service.ts:145-172 | after a logout or a reset no refresh of the user is accepted, whatever it presents, until the user logs in again |
| `ApiClient.ApiClient.RefreshAccessToken` | apps/web/src/lib/api-client.ts:32-52 | joins the refresh under way, or starts one |
| `ApiClient.ApiClient.OnResponse` | apps/web/src/lib/api-client.ts:77-84 | a 401 of a first request joins a refresh unless the call opted out; any other response ends the call |
| `ApiClient.ApiClient.Finally` | apps/web/src/lib/api-client.ts:48-50 | the promise is cleared and the outcome kept; no call and no other refresh changes, and then every refresh is settled, so the next 401 starts a new one |
| `ApiClient.UnauthorizedCallWaits` | apps/web/src/lib/api-client.ts:79-80 | a 401 makes the call await the refresh under way, or one that it starts |
| `ApiClient.AwaitingCallGoesOn` | apps/web/src/lib/api-client.ts:79-87 | a call that awaits a settled refresh sends again and ends with that answer if it succeeded, and ends with its 401 otherwise |
| `ApiClient.PlainCallEnds` | apps/web/src/lib/api-client.ts:77-79 | any other response ends the call with one request sent |
| `ApiClient.OneRefreshInFlight` | apps/web/src/lib/api-client.ts:30-52 | in any interleaving of calls at most one refresh is in flight |
| `ApiClient.CallIsBounded` | apps/web/src/lib/api-client.ts:79-90 | a call sends its request at most twice, awaits at most one refresh, and sends twice iff that refresh succeeded |
| `ApiClient.CallerGetsLastResponse` | apps/web/src/lib/api-client.ts:77-103 | the caller gets the last response, and a 401 only if the retry got one or the refresh failed |
| `ApiClient.JoinersSeeOneOutcome` | apps/web/src/lib/api-client.ts:33-51 | calls that joined the same refresh act alike once past it |
| `ApiClient.BurstStartsOneRefresh` | apps/web/src/lib/api-client.ts:33-35 | however many calls get a 401 before a refresh settles, they start at most one |

## Left out

- Controllers, guards, decorators, validation pipes, metrics, logging, audit log, health checks, seed and shell scripts, React pages and hooks: plumbing around the services modelled here.
- Stripe, SMTP, S3, BullMQ, Redis, JWT and TypeORM internals, image uploads and their signatures: payloads are opaque, and a webhook arrives as the event that the provider code parsed.
- Refresh-token rotation: it rests on bcrypt of a JWT, which reads 72 bytes only. What is proved is the null-hash behaviour.
- Deadlock freedom and any liveness: a crash leaves a reservation for good, and product locks are taken in request order.
- `decrementStock`, and `setImage` and `inviteStaff` in interleavings: they too read and then write without a lock, as the modelled edits do. The seat and ledger results are about serial runs.
- The lock that a status write takes on its order row: without it the model has more interleavings, not fewer.
- Creation and removal of products and changes of categories in interleavings: they occur in the serial runs of `Ledger` and `Isolation`.
- Which product fields an incomplete PATCH leaves alone, and whether it moves the product to the new category: the DTO's default and the loaded category leave that to the library. An edit writes any non-negative stock or none, and `relinks` is arbitrary.
- The order of rows created at the same instant and the collation of the category list: the database chooses the first, the model takes the larger id first; the second is a map.
- The policies on categories and orders as tables of their own: `TenantContext` reads tables of product rows, and the three policies are the same condition on the store column.
- Several subscriptions with the same provider id: the database returns any of them, the model the one of the smallest store id. No result on replaced or held subscriptions depends on it.
- The rendered subject and body of mails: a mail is its recipient and the values it shows.
- `listStaff`, `findMine`, `updateMine`, `getSubscription`, the administration lists and order filters by date beyond comparison: queries with one branch.
- A failing mail queue in `register` and `requestPasswordReset`: the account or token is stored all the same.
- Text: for more than 17 digits the function keeps the number itself; every binary64 number needs at most 17, which is not proved, and nothing depends on it.
- StoredTotalIsExact: holds up to 671,000 lines, because the error bound of one addition, 2^-27 dollars, must stay below half a cent in sum.
- OneRowPerOrder: states that the row is there, not when it is sent, because delivery needs a poller to run.
