/** OutboxService and OutboxProcessor: one poll, and what a series of polls delivers. */
module Outbox {
  import opened Schema
  import opened Listing

  datatype Event = Event(eventType: string, payload: Mail, processed: bool, createdAt: nat)

  type Events = map<Uuid, Event>

  const BATCH_SIZE := 20

  const SEND_EMAIL := "send-email"

  // What goes wrong while one event is processed. A failed update may still have taken effect.
  datatype Fault = Fine | EnqueueFails | UpdateFails(applied: bool)

  // ----- one poll -----

  function Unprocessed(events: Events): (at: map<Uuid, nat>) {
    map e | e in events && !events[e].processed :: events[e].createdAt
  }

  /** The oldest unprocessed events, at most BATCH_SIZE of them. */
  function Batch(events: Events): (ids: seq<Uuid>)
    ensures |ids| == Min(BATCH_SIZE, |Unprocessed(events)|)
  {
    OldestFirst(Unprocessed(events))[..Min(BATCH_SIZE, |Unprocessed(events)|)]
  }

  function MarkProcessed(events: Events, id: Uuid): (r: Events)
    ensures r.Keys == events.Keys
  {
    if id in events then events[id := events[id].(processed := true)] else events
  }

  /** The mails that processing the given events enqueues. */
  function Mails(events: Events, ids: seq<Uuid>, fault: Uuid -> Fault): (mails: seq<Mail>) {
    if |ids| == 0 then []
    else
      var id := ids[|ids| - 1];
      Mails(events, ids[..|ids| - 1], fault) +
      if id in events && events[id].eventType == SEND_EMAIL && fault(id) != EnqueueFails then [events[id].payload] else []
  }

  /** Is the event marked? A failure of either statement leaves it, unless the update took effect. */
  predicate Marked(events: Events, id: Uuid, fault: Uuid -> Fault) {
    id in events &&
    match fault(id)
    case Fine => true
    case EnqueueFails => events[id].eventType != SEND_EMAIL
    case UpdateFails(applied) => applied
  }

  function AllMarked(events: Events, ids: seq<Uuid>, fault: Uuid -> Fault): (r: Events)
    ensures r.Keys == events.Keys
  {
    map e | e in events ::
      if e in ids && Marked(events, e, fault) then events[e].(processed := true) else events[e]
  }

  lemma MarkedNext(events: Events, ids: seq<Uuid>, id: Uuid, fault: Uuid -> Fault)
    requires id in events
    ensures AllMarked(events, ids + [id], fault) ==
            if Marked(events, id, fault) then MarkProcessed(AllMarked(events, ids, fault), id) else AllMarked(events, ids, fault)
  {
    assert forall e :: e in ids + [id] <==> e in ids || e == id;
  }

  class OutboxService {
    const events: OutboxTable

    constructor (events: OutboxTable)
      ensures this.events == events
    {
      this.events := events;
    }

    /** Writes the row through the caller's transaction. */
    method WriteSendEmail(message: Mail, id: Uuid, now: nat)
      requires id !in events.rows
      modifies events
      ensures events.rows == old(events.rows)[id := Event(SEND_EMAIL, message, false, now)]
    {
      events.rows := events.rows[id := Event(SEND_EMAIL, message, false, now)];
    }
  }

  class OutboxTable {
    var rows: Events

    constructor ()
      ensures rows == map[]
    {
      rows := map[];
    }
  }

  class OutboxProcessor {
    const events: OutboxTable
    var queue: seq<Mail>

    constructor (events: OutboxTable)
      ensures this.events == events && queue == []
    {
      this.events := events;
      queue := [];
    }

    method PollOnce(fault: Uuid -> Fault) returns (polled: nat)
      modifies this`queue, events
      ensures polled == |Batch(old(events.rows))|
      ensures events.rows == AllMarked(old(events.rows), Batch(old(events.rows)), fault)
      ensures queue == old(queue) + Mails(old(events.rows), Batch(old(events.rows)), fault)
    {
      hide OldestFirst;
      var rows := events.rows;
      var pending := Batch(rows);
      BatchIsUnprocessed(rows);
      for i := 0 to |pending|
        invariant events.rows == AllMarked(rows, pending[..i], fault)
        invariant queue == old(queue) + Mails(rows, pending[..i], fault)
      {
        var id := pending[i];
        var event := rows[id];
        assert pending[..i + 1] == pending[..i] + [id];
        assert pending[..i + 1][..i] == pending[..i];
        MarkedNext(rows, pending[..i], id, fault);
        if event.eventType == SEND_EMAIL {
          if fault(id).EnqueueFails? {
            continue;
          }
          queue := queue + [event.payload];
        }
        if !fault(id).UpdateFails? || fault(id).applied {
          events.rows := MarkProcessed(events.rows, id);
        }
      }
      assert pending[..|pending|] == pending;
      polled := |pending|;
    }
  }

  lemma BatchIsUnprocessed(events: Events)
    ensures forall id :: id in Batch(events) ==> id in events && !events[id].processed
  {
    hide OldestFirst;
    forall id | id in Batch(events)
      ensures id in events && !events[id].processed
    {
      OldestFirstMembers(Unprocessed(events), id);
    }
  }

  // ----- a backlog without faults -----

  const NO_FAULT: Uuid -> Fault := id => Fine

  function Polled(events: Events): (r: Events) {
    AllMarked(events, Batch(events), NO_FAULT)
  }

  function AfterPolls(events: Events, n: nat): (r: Events) {
    if n == 0 then events else Polled(AfterPolls(events, n - 1))
  }

  /** Everything n polls enqueue, in order. */
  function Enqueued(events: Events, n: nat): (mails: seq<Mail>) {
    if n == 0 then []
    else
      var before := AfterPolls(events, n - 1);
      Enqueued(events, n - 1) + Mails(before, Batch(before), NO_FAULT)
  }

  function Backlog(events: Events): (ids: seq<Uuid>) {
    OldestFirst(Unprocessed(events))
  }

  lemma MarkingRemoves(events: Events, id: Uuid)
    requires id in Unprocessed(events)
    ensures Unprocessed(MarkProcessed(events, id)) == Unprocessed(events) - {id}
  {
  }

  lemma NothingMarked(events: Events, ids: seq<Uuid>)
    requires ids == []
    ensures AllMarked(events, ids, NO_FAULT) == events
  {
  }

  lemma {:induction false} MarkPrefix(events: Events, n: nat)
    requires n <= |Backlog(events)|
    ensures Backlog(AllMarked(events, Backlog(events)[..n], NO_FAULT)) == Backlog(events)[n..]
  {
    hide OldestFirst, AllMarked, Unprocessed, MarkProcessed;
    var ids := Backlog(events);
    if n == 0 {
      NothingMarked(events, ids[..0]);
    } else {
      MarkPrefix(events, n - 1);
      var before := AllMarked(events, ids[..n - 1], NO_FAULT);
      var id := ids[n - 1];
      assert ids[..n] == ids[..n - 1] + [id];
      assert ids[n - 1..][0] == id && ids[n - 1..][1..] == ids[n..];
      OldestFirstNext(Unprocessed(before));
      MarkingRemoves(before, id);
      UnprocessedExists(before, id);
      MarkedNext(events, ids[..n - 1], id, NO_FAULT);
    }
  }

  lemma UnprocessedExists(events: Events, id: Uuid)
    requires id in Unprocessed(events)
    ensures id in events
  {
  }

  /** Without failures, the mails of send-email rows are their payloads, each once and in order. */
  lemma {:induction false} MailsArePayloads(events: Events, ids: seq<Uuid>)
    requires forall i :: 0 <= i < |ids| ==> ids[i] in events && events[ids[i]].eventType == "send-email"
    ensures |Mails(events, ids, NO_FAULT)| == |ids|
    ensures forall i :: 0 <= i < |ids| ==> Mails(events, ids, NO_FAULT)[i] == events[ids[i]].payload
  {
    if |ids| == 0 {
    } else {
      var n := |ids| - 1;
      MailsArePayloads(events, ids[..n]);
      assert Mails(events, ids, NO_FAULT) == Mails(events, ids[..n], NO_FAULT) + [events[ids[n]].payload];
    }
  }

  /** One poll takes the oldest twenty off the backlog. */
  lemma PollTakesTwenty(events: Events)
    ensures Backlog(Polled(events)) == Backlog(events)[Min(BATCH_SIZE, |Backlog(events)|)..]
  {
    MarkPrefix(events, Min(BATCH_SIZE, |Backlog(events)|));
  }

  lemma {:induction false} MailsSplit(events: Events, a: seq<Uuid>, b: seq<Uuid>, fault: Uuid -> Fault)
    ensures Mails(events, a + b, fault) == Mails(events, a, fault) + Mails(events, b, fault)
  {
    if |b| == 0 {
      assert a + b == a;
    } else {
      var n := |b| - 1;
      assert (a + b)[..|a + b| - 1] == a + b[..n];
      MailsSplit(events, a, b[..n], fault);
    }
  }

  lemma {:induction false} MailsOfSamePayloads(a: Events, b: Events, ids: seq<Uuid>, fault: Uuid -> Fault)
    requires a.Keys == b.Keys
    requires forall e :: e in a ==> a[e].eventType == b[e].eventType && a[e].payload == b[e].payload
    ensures Mails(a, ids, fault) == Mails(b, ids, fault)
  {
    if |ids| == 0 {
    } else {
      MailsOfSamePayloads(a, b, ids[..|ids| - 1], fault);
    }
  }

  /** How many of the given number of events n polls take. */
  function Taken(n: nat, total: nat): (taken: nat)
    ensures taken <= total
  {
    Min(20 * n, total)
  }

  lemma {:induction false} PollsKeepPayloads(events: Events, n: nat)
    ensures AfterPolls(events, n).Keys == events.Keys
    ensures forall e :: e in events ==>
              AfterPolls(events, n)[e].eventType == events[e].eventType && AfterPolls(events, n)[e].payload == events[e].payload
  {
    hide AllMarked, Batch;
    if n == 0 {
    } else {
      PollsKeepPayloads(events, n - 1);
      PayloadsKept(AfterPolls(events, n - 1), Batch(AfterPolls(events, n - 1)));
    }
  }

  lemma PayloadsKept(events: Events, ids: seq<Uuid>)
    ensures forall e :: e in events ==>
              && AllMarked(events, ids, NO_FAULT)[e].eventType == events[e].eventType
              && AllMarked(events, ids, NO_FAULT)[e].payload == events[e].payload
  {
  }

  lemma NoMails(events: Events, ids: seq<Uuid>)
    requires ids == []
    ensures Mails(events, ids, NO_FAULT) == []
  {
  }

  lemma NextTwenty(ids: seq<Uuid>, n: nat)
    requires n > 0
    ensures var before, after := Taken(n - 1, |ids|), Taken(n, |ids|);
            var step := Min(BATCH_SIZE, |ids[before..]|);
            ids[before..][step..] == ids[after..] && ids[..after] == ids[..before] + ids[before..][..step]
  {
  }

  /**
   After n polls without faults the backlog has lost its oldest 20 * n events, and the
   mails of exactly those have been enqueued, once each and oldest first.
   */
  lemma {:induction false} PollsDrainBacklog(events: Events, n: nat)
    ensures var taken := Taken(n, |Backlog(events)|);
            && Backlog(AfterPolls(events, n)) == Backlog(events)[taken..]
            && Enqueued(events, n) == Mails(events, Backlog(events)[..taken], NO_FAULT)
  {
    hide OldestFirst, Backlog, Mails, AllMarked, Batch, Polled, Min;
    var ids := Backlog(events);
    if n == 0 {
      assert Taken(0, |ids|) == 0 by { TakenNone(|ids|); }
      NoMails(events, ids[..0]);
    } else {
      var before := AfterPolls(events, n - 1);
      PollsDrainBacklog(events, n - 1);
      PollTakesTwenty(before);
      BatchIsPrefix(before);
      NextTwenty(ids, n);
      MailsSplit(events, ids[..Taken(n - 1, |ids|)], Batch(before), NO_FAULT);
      PollsKeepPayloads(events, n - 1);
      MailsOfSamePayloads(before, events, Batch(before), NO_FAULT);
    }
  }

  lemma TakenNone(total: nat)
    ensures Taken(0, total) == 0
  {
  }

  lemma BatchIsPrefix(events: Events)
    ensures Batch(events) == Backlog(events)[..Min(BATCH_SIZE, |Backlog(events)|)]
  {
  }

  /** A backlog of n events is empty after exactly ceil(n / 20) polls: then and not before. */
  lemma BacklogEmptiesOnTime(events: Events, polls: nat)
    ensures Backlog(AfterPolls(events, polls)) == [] <==> polls >= (|Backlog(events)| + BATCH_SIZE - 1) / BATCH_SIZE
    ensures |Batch(AfterPolls(events, polls))| ==
            if BATCH_SIZE * polls <= |Backlog(events)| then Min(BATCH_SIZE, |Backlog(events)| - BATCH_SIZE * polls) else 0
  {
    hide OldestFirst, Backlog, AllMarked, Mails;
    PollsDrainBacklog(events, polls);
    BatchIsPrefix(AfterPolls(events, polls));
  }
}
