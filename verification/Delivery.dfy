/**
 What the mail queue receives when any number of outbox pollers run side by side, each
 statement can fail and each poller can crash at any point.
 */
module Delivery {
  import opened Schema
  import opened Listing
  import opened Outbox

  // A mail on the queue, with the id of the outbox row it was read from.
  datatype Job = Job(id: Uuid, mail: Mail)

  // enqueued: the row at next is on the queue and not yet marked.
  datatype Poller = Idle | Busy(batch: seq<Uuid>, next: nat, enqueued: bool)

  // marked: the updates that took effect. lost: the rows enqueued without being marked.
  datatype State = State(
    events: Events, pollers: seq<Poller>, queue: seq<Job>, marked: seq<Uuid>, lost: seq<Uuid>)

  datatype Action =
    | Publish(id: Uuid, event: Event)
    | Find(w: nat)
    | Enqueue(w: nat, works: bool)
    | Mark(w: nat, fault: Fault)
    | Finish(w: nat)
    | Crash(w: nat)

  predicate At(s: State, w: nat) {
    w < |s.pollers| && s.pollers[w].Busy? && s.pollers[w].next < |s.pollers[w].batch|
  }

  function Row(s: State, w: nat): (id: Uuid)
    requires At(s, w)
  {
    s.pollers[w].batch[s.pollers[w].next]
  }

  /** The row a poller is at goes on the queue as it is. */
  predicate IsMail(events: Events, id: Uuid) {
    id in events && events[id].eventType == SEND_EMAIL
  }

  function Moved(s: State, w: nat): (s': State)
    requires At(s, w)
  {
    s.(pollers := s.pollers[w := s.pollers[w].(next := s.pollers[w].next + 1, enqueued := false)])
  }

  function DoEnqueue(s: State, w: nat, works: bool): (s': State)
    requires At(s, w)
  {
    if s.pollers[w].enqueued || !IsMail(s.events, Row(s, w)) then s
    else if !works then Moved(s, w)
    else
      s.(queue := s.queue + [Job(Row(s, w), s.events[Row(s, w)].payload)],
         pollers := s.pollers[w := s.pollers[w].(enqueued := true)])
  }

  function DoMark(s: State, w: nat, fault: Fault): (s': State)
    requires At(s, w)
  {
    if !s.pollers[w].enqueued && IsMail(s.events, Row(s, w)) then s
    else if fault == Fine || fault == UpdateFails(true) then
      Moved(s, w).(events := MarkProcessed(s.events, Row(s, w)), marked := s.marked + [Row(s, w)])
    else
      Moved(s, w).(lost := if s.pollers[w].enqueued then s.lost + [Row(s, w)] else s.lost)
  }

  function DoCrash(s: State, w: nat): (s': State)
    requires w < |s.pollers|
  {
    var lost := if At(s, w) && s.pollers[w].enqueued then s.lost + [Row(s, w)] else s.lost;
    s.(pollers := s.pollers[w := Idle], lost := lost)
  }

  function Step(s: State, a: Action): (s': State) {
    match a
    case Publish(id, event) =>
      if id in s.events then s else s.(events := s.events[id := event.(processed := false)])
    case Find(w) =>
      if w < |s.pollers| && s.pollers[w].Idle? then s.(pollers := s.pollers[w := Busy(Batch(s.events), 0, false)]) else s
    case Enqueue(w, works) => if At(s, w) then DoEnqueue(s, w, works) else s
    case Mark(w, fault) => if At(s, w) then DoMark(s, w, fault) else s
    case Finish(w) =>
      if w < |s.pollers| && s.pollers[w].Busy? && !At(s, w) then s.(pollers := s.pollers[w := Idle]) else s
    case Crash(w) => if w < |s.pollers| then DoCrash(s, w) else s
  }

  /** A run of n pollers on an outbox that starts empty. */
  function Run(n: nat, actions: seq<Action>): (s: State) {
    if |actions| == 0 then State(map[], seq(n, _ => Idle), [], [], [])
    else Step(Run(n, actions[..|actions| - 1]), actions[|actions| - 1])
  }

  lemma RunNext(n: nat, actions: seq<Action>, a: Action)
    ensures Run(n, actions + [a]) == Step(Run(n, actions), a)
  {
    assert (actions + [a])[..|actions|] == actions;
  }

  // ----- counting -----

  function Count(ids: seq<Uuid>, id: Uuid): (n: nat) {
    if |ids| == 0 then 0 else Count(ids[..|ids| - 1], id) + if ids[|ids| - 1] == id then 1 else 0
  }

  /** How often a row was enqueued. */
  function Sent(queue: seq<Job>, id: Uuid): (n: nat) {
    if |queue| == 0 then 0 else Sent(queue[..|queue| - 1], id) + if queue[|queue| - 1].id == id then 1 else 0
  }

  /** The poller has enqueued this row and is about to mark it. */
  predicate Holds(p: Poller, id: Uuid) {
    p.Busy? && p.enqueued && p.next < |p.batch| && p.batch[p.next] == id
  }

  function InHand(pollers: seq<Poller>, id: Uuid): (n: nat) {
    if |pollers| == 0 then 0
    else InHand(pollers[..|pollers| - 1], id) + if Holds(pollers[|pollers| - 1], id) then 1 else 0
  }

  lemma {:induction false} InHandUpdated(pollers: seq<Poller>, w: nat, p: Poller, id: Uuid)
    requires w < |pollers|
    ensures InHand(pollers[w := p], id) + (if Holds(pollers[w], id) then 1 else 0) ==
            InHand(pollers, id) + if Holds(p, id) then 1 else 0
  {
    var n := |pollers| - 1;
    if w == n {
      assert pollers[w := p][..n] == pollers[..n];
    } else {
      InHandUpdated(pollers[..n], w, p, id);
      assert pollers[w := p][..n] == pollers[..n][w := p];
    }
  }

  lemma {:induction false} NoneInHand(pollers: seq<Poller>, id: Uuid)
    requires forall w :: 0 <= w < |pollers| ==> pollers[w].Idle?
    ensures InHand(pollers, id) == 0
  {
    if |pollers| == 0 {
    } else {
      NoneInHand(pollers[..|pollers| - 1], id);
    }
  }

  lemma CountNext(ids: seq<Uuid>, id: Uuid, other: Uuid)
    ensures Count(ids + [id], other) == Count(ids, other) + if id == other then 1 else 0
  {
    assert (ids + [id])[..|ids|] == ids;
  }

  lemma SentNext(queue: seq<Job>, job: Job, other: Uuid)
    ensures Sent(queue + [job], other) == Sent(queue, other) + if job.id == other then 1 else 0
  {
    assert (queue + [job])[..|queue|] == queue;
  }

  // ----- the account of every row -----

  predicate BatchesKnown(s: State) {
    forall w :: 0 <= w < |s.pollers| && s.pollers[w].Busy? ==>
      && (forall k :: 0 <= k < |s.pollers[w].batch| ==> s.pollers[w].batch[k] in s.events)
      && (s.pollers[w].enqueued ==> At(s, w) && IsMail(s.events, Row(s, w)))
  }

  /** Each enqueuing of a row was followed by its mark or its loss, or is about to be marked. */
  predicate Accounted(s: State, id: Uuid) {
    && (IsMail(s.events, id) ==> Sent(s.queue, id) == Count(s.marked, id) + Count(s.lost, id) + InHand(s.pollers, id))
    && ((id in s.events && s.events[id].processed) <==> Count(s.marked, id) > 0)
    && (id !in s.events ==> Sent(s.queue, id) == Count(s.lost, id) == 0)
  }

  lemma PollerMoved(s: State, s': State, w: nat)
    requires BatchesKnown(s) && w < |s.pollers| == |s'.pollers|
    requires s'.pollers == s.pollers[w := s'.pollers[w]]
    requires s'.events.Keys == s.events.Keys
    requires forall e :: e in s.events ==> s'.events[e].eventType == s.events[e].eventType
    requires s'.pollers[w].Idle? ||
      (s.pollers[w].Busy? && s'.pollers[w].batch == s.pollers[w].batch &&
        (s'.pollers[w].enqueued ==> At(s', w) && IsMail(s'.events, Row(s', w))))
    ensures BatchesKnown(s')
  {
    forall v | 0 <= v < |s'.pollers| && s'.pollers[v].Busy?
      ensures s'.pollers[v].enqueued ==> At(s', v) && IsMail(s'.events, Row(s', v))
    {
      if v != w {
        assert s'.pollers[v] == s.pollers[v];
      }
    }
  }

  lemma EnqueueAccounted(s: State, w: nat, works: bool, id: Uuid)
    requires BatchesKnown(s) && At(s, w) && Accounted(s, id)
    ensures BatchesKnown(DoEnqueue(s, w, works)) && Accounted(DoEnqueue(s, w, works), id)
  {
    hide BatchesKnown, Count, Sent, InHand;
    var s' := DoEnqueue(s, w, works);
    if s' != s {
      PollerMoved(s, s', w);
      InHandUpdated(s.pollers, w, s'.pollers[w], id);
      SentNext(s.queue, Job(Row(s, w), s.events[Row(s, w)].payload), id);
    }
  }

  lemma MarkAccounted(s: State, w: nat, fault: Fault, id: Uuid)
    requires BatchesKnown(s) && At(s, w) && Accounted(s, id)
    ensures BatchesKnown(DoMark(s, w, fault)) && Accounted(DoMark(s, w, fault), id)
  {
    hide BatchesKnown, Count, Sent, InHand;
    var s' := DoMark(s, w, fault);
    if s' != s {
      RowKnown(s, w);
      PollerMoved(s, s', w);
      InHandUpdated(s.pollers, w, s'.pollers[w], id);
      CountNext(s.marked, Row(s, w), id);
      CountNext(s.lost, Row(s, w), id);
    }
  }

  lemma RowKnown(s: State, w: nat)
    requires BatchesKnown(s) && At(s, w)
    ensures Row(s, w) in s.events
    ensures s.pollers[w].enqueued ==> IsMail(s.events, Row(s, w))
  {
  }

  lemma CrashAccounted(s: State, w: nat, id: Uuid)
    requires BatchesKnown(s) && w < |s.pollers| && Accounted(s, id)
    ensures BatchesKnown(DoCrash(s, w)) && Accounted(DoCrash(s, w), id)
  {
    hide BatchesKnown, Count, Sent, InHand;
    var s' := DoCrash(s, w);
    PollerMoved(s, s', w);
    InHandUpdated(s.pollers, w, Idle, id);
    if At(s, w) {
      RowKnown(s, w);
      CountNext(s.lost, Row(s, w), id);
    }
  }

  lemma PublishAccounted(s: State, key: Uuid, event: Event, id: Uuid)
    requires BatchesKnown(s) && Accounted(s, id)
    requires key !in s.events
    ensures var s' := s.(events := s.events[key := event.(processed := false)]); BatchesKnown(s') && Accounted(s', id)
  {
    hide Count, Sent;
    if key == id {
      NoneHoldsUnknown(s.pollers, s, id);
    }
  }

  lemma {:induction false} NoneHoldsUnknown(pollers: seq<Poller>, s: State, id: Uuid)
    requires BatchesKnown(s) && id !in s.events && pollers <= s.pollers
    ensures InHand(pollers, id) == 0
  {
    if |pollers| == 0 {
    } else {
      var n := |pollers| - 1;
      NoneHoldsUnknown(pollers[..n], s, id);
      assert pollers[n] == s.pollers[n];
    }
  }

  lemma FindAccounted(s: State, w: nat, id: Uuid)
    requires BatchesKnown(s) && Accounted(s, id) && w < |s.pollers| && s.pollers[w].Idle?
    ensures var s' := s.(pollers := s.pollers[w := Busy(Batch(s.events), 0, false)]); BatchesKnown(s') && Accounted(s', id)
  {
    hide Count, Sent, InHand, Batch;
    BatchIsUnprocessed(s.events);
    InHandUpdated(s.pollers, w, Busy(Batch(s.events), 0, false), id);
  }

  lemma FinishAccounted(s: State, w: nat, id: Uuid)
    requires BatchesKnown(s) && Accounted(s, id) && w < |s.pollers| && !At(s, w)
    ensures var s' := s.(pollers := s.pollers[w := Idle]); BatchesKnown(s') && Accounted(s', id)
  {
    hide BatchesKnown, Count, Sent, InHand;
    PollerMoved(s, s.(pollers := s.pollers[w := Idle]), w);
    InHandUpdated(s.pollers, w, Idle, id);
  }

  lemma StepAccounted(s: State, a: Action, id: Uuid)
    requires BatchesKnown(s) && Accounted(s, id)
    ensures BatchesKnown(Step(s, a)) && Accounted(Step(s, a), id)
  {
    hide BatchesKnown, Accounted, Batch, DoEnqueue, DoMark, DoCrash;
    match a
    case Publish(key, event) => if key !in s.events { PublishAccounted(s, key, event, id); }
    case Find(w) => if w < |s.pollers| && s.pollers[w].Idle? { FindAccounted(s, w, id); }
    case Enqueue(w, works) => if At(s, w) { EnqueueAccounted(s, w, works, id); }
    case Mark(w, fault) => if At(s, w) { MarkAccounted(s, w, fault, id); }
    case Finish(w) => if w < |s.pollers| && !At(s, w) { FinishAccounted(s, w, id); }
    case Crash(w) => if w < |s.pollers| { CrashAccounted(s, w, id); }
  }

  lemma {:induction false} RunAccounted(n: nat, actions: seq<Action>, id: Uuid)
    ensures BatchesKnown(Run(n, actions)) && Accounted(Run(n, actions), id)
  {
    hide Step;
    if |actions| == 0 {
      NoneInHand(seq(n, _ => Idle), id);
    } else {
      RunAccounted(n, actions[..|actions| - 1], id);
      StepAccounted(Run(n, actions[..|actions| - 1]), actions[|actions| - 1], id);
    }
  }

  predicate JobsMatch(s: State) {
    forall j :: 0 <= j < |s.queue| ==>
      s.queue[j].id in s.events && s.queue[j].mail == s.events[s.queue[j].id].payload
  }

  lemma StepJobsMatch(s: State, a: Action)
    requires JobsMatch(s)
    ensures JobsMatch(Step(s, a))
  {
    hide Batch;
  }

  lemma {:induction false} RunJobsMatch(n: nat, actions: seq<Action>)
    ensures JobsMatch(Run(n, actions))
  {
    hide Step;
    if |actions| == 0 {
    } else {
      RunJobsMatch(n, actions[..|actions| - 1]);
      StepJobsMatch(Run(n, actions[..|actions| - 1]), actions[|actions| - 1]);
    }
  }

  lemma {:induction false} SentIsQueued(queue: seq<Job>, id: Uuid) returns (j: nat)
    requires Sent(queue, id) >= 1
    ensures j < |queue| && queue[j].id == id
  {
    j := |queue| - 1;
    if queue[j].id != id {
      j := SentIsQueued(queue[..j], id);
    }
  }

  /**
   At least once: with any number of pollers, crashes and failures, a send-email row that
   is marked processed has its mail on the queue.
   */
  lemma {:induction false} ProcessedWasEnqueued(n: nat, actions: seq<Action>, id: Uuid)
    requires var events := Run(n, actions).events; IsMail(events, id) && events[id].processed
    ensures Sent(Run(n, actions).queue, id) >= 1
    ensures Job(id, Run(n, actions).events[id].payload) in Run(n, actions).queue
  {
    hide Count, Sent, InHand, BatchesKnown, Run;
    RunAccounted(n, actions, id);
    RunJobsMatch(n, actions);
    var j := SentIsQueued(Run(n, actions).queue, id);
    assert Run(n, actions).queue[j] == Job(id, Run(n, actions).events[id].payload);
  }

  /** Exactly how often a row was enqueued, whatever the interleaving. */
  lemma EnqueueAccount(n: nat, actions: seq<Action>, id: Uuid)
    requires IsMail(Run(n, actions).events, id)
    ensures var s := Run(n, actions);
            Sent(s.queue, id) == Count(s.marked, id) + Count(s.lost, id) + InHand(s.pollers, id)
  {
    hide Count, Sent, InHand, BatchesKnown, Run;
    RunAccounted(n, actions, id);
  }

  /** A crash loses the poller's place and nothing else: rows and queue stay, and a row in its hand counts as lost. */
  lemma CrashLosesPlace(s: State, w: nat, id: Uuid)
    requires w < |s.pollers|
    ensures var s' := Step(s, Crash(w));
            && s'.events == s.events && s'.queue == s.queue && s'.marked == s.marked
            && s'.pollers == s.pollers[w := Idle]
            && Count(s'.lost, id) == Count(s.lost, id) + if Holds(s.pollers[w], id) then 1 else 0
  {
    hide Count;
    if At(s, w) {
      CountNext(s.lost, Row(s, w), id);
    }
  }

  // ----- nothing is made up -----

  /** The action at k wrote the row: its id was not in use. */
  predicate Writes(n: nat, actions: seq<Action>, k: nat, id: Uuid, mail: Mail) {
    && k < |actions| && actions[k].Publish? && actions[k].id == id
    && actions[k].event.payload == mail && actions[k].event.eventType == SEND_EMAIL
    && id !in Run(n, actions[..k]).events
  }

  predicate PublishedIn(n: nat, actions: seq<Action>, id: Uuid, mail: Mail) {
    exists k :: 0 <= k < |actions| && Writes(n, actions, k, id, mail)
  }

  predicate Genuine(n: nat, s: State, actions: seq<Action>) {
    && (forall id :: id in s.events && IsMail(s.events, id) ==> PublishedIn(n, actions, id, s.events[id].payload))
    && (forall j :: 0 <= j < |s.queue| ==> PublishedIn(n, actions, s.queue[j].id, s.queue[j].mail))
  }

  lemma PublishedLater(n: nat, actions: seq<Action>, a: Action, id: Uuid, mail: Mail)
    requires PublishedIn(n, actions, id, mail)
    ensures PublishedIn(n, actions + [a], id, mail)
  {
    hide Run;
    var k :| 0 <= k < |actions| && Writes(n, actions, k, id, mail);
    assert (actions + [a])[..k] == actions[..k];
    assert Writes(n, actions + [a], k, id, mail);
  }

  lemma PublishedNow(n: nat, actions: seq<Action>, a: Action, id: Uuid)
    ensures a.Publish? && a.id == id && a.event.eventType == SEND_EMAIL && id !in Run(n, actions).events ==>
              PublishedIn(n, actions + [a], id, a.event.payload)
  {
    hide Run;
    if a.Publish? && a.id == id && a.event.eventType == SEND_EMAIL && id !in Run(n, actions).events {
      assert (actions + [a])[..|actions|] == actions;
      assert Writes(n, actions + [a], |actions|, id, a.event.payload);
    }
  }

  lemma StepGenuine(n: nat, actions: seq<Action>, a: Action)
    requires Genuine(n, Run(n, actions), actions)
    ensures Genuine(n, Step(Run(n, actions), a), actions + [a])
  {
    hide PublishedIn, Batch, Run;
    var s := Run(n, actions);
    var s' := Step(s, a);
    forall id | IsMail(s'.events, id)
      ensures PublishedIn(n, actions + [a], id, s'.events[id].payload)
    {
      if IsMail(s.events, id) {
        PublishedLater(n, actions, a, id, s.events[id].payload);
      } else {
        PublishedNow(n, actions, a, id);
      }
    }
    forall j | 0 <= j < |s'.queue|
      ensures PublishedIn(n, actions + [a], s'.queue[j].id, s'.queue[j].mail)
    {
      PublishedLater(n, actions, a, s'.queue[j].id, s'.queue[j].mail);
    }
  }

  /** Every job on the queue is the payload of the send-email row that was written under its id. */
  lemma {:induction false} JobsWerePublished(n: nat, actions: seq<Action>)
    ensures Genuine(n, Run(n, actions), actions)
  {
    if |actions| == 0 {
    } else {
      hide Step, Run, Genuine;
      var before := actions[..|actions| - 1];
      JobsWerePublished(n, before);
      StepGenuine(n, before, actions[|actions| - 1]);
      RunNext(n, before, actions[|actions| - 1]);
      assert before + [actions[|actions| - 1]] == actions;
    }
  }

  // ----- when a mail is enqueued once -----

  /** The step enqueues a row that is processed, that was lost before, or that a poller has in hand. */
  predicate Doubles(s: State, a: Action, id: Uuid) {
    && a.Enqueue? && a.works && At(s, a.w) && !s.pollers[a.w].enqueued
    && Row(s, a.w) == id && IsMail(s.events, id)
    && (s.events[id].processed || Count(s.lost, id) > 0 || InHand(s.pollers, id) > 0)
  }

  lemma StepSentOnce(s: State, a: Action, id: Uuid)
    requires BatchesKnown(s) && Accounted(s, id)
    ensures Sent(Step(s, a).queue, id) <= 1 <==> Sent(s.queue, id) <= 1 && !Doubles(s, a, id)
  {
    hide Count, Sent, InHand, Batch, BatchesKnown;
    if a.Enqueue? && At(s, a.w) && IsMail(s.events, Row(s, a.w)) {
      SentNext(s.queue, Job(Row(s, a.w), s.events[Row(s, a.w)].payload), id);
    }
  }

  predicate DoublesAt(n: nat, actions: seq<Action>, k: nat, id: Uuid)
    requires k < |actions|
  {
    Doubles(Run(n, actions[..k]), actions[k], id)
  }

  /**
   With any number of pollers, failures and crashes, a row has been enqueued at most once exactly
   when no step enqueued it while it was processed, lost before or in a poller's hand.
   */
  lemma {:induction false} SentOnceExactly(n: nat, actions: seq<Action>, id: Uuid)
    ensures Sent(Run(n, actions).queue, id) <= 1 <==> forall k :: 0 <= k < |actions| ==> !DoublesAt(n, actions, k, id)
  {
    hide Step, Doubles, BatchesKnown, Accounted;
    if |actions| == 0 {
    } else {
      var m := |actions| - 1;
      var before := actions[..m];
      SentOnceExactly(n, before, id);
      RunAccounted(n, before, id);
      StepSentOnce(Run(n, before), actions[m], id);
      assert DoublesAt(n, actions, m, id) <==> Doubles(Run(n, before), actions[m], id);
      forall k | 0 <= k < m
        ensures DoublesAt(n, actions, k, id) <==> DoublesAt(n, before, k, id)
      {
        assert before[..k] == actions[..k];
      }
    }
  }

  // ----- one poller at a time -----

  predicate OneBusy(pollers: seq<Poller>) {
    forall v, w :: 0 <= v < w < |pollers| ==> pollers[v].Idle? || pollers[w].Idle?
  }

  /** At no point of the run are two pollers at work. */
  predicate OneAtATime(n: nat, actions: seq<Action>) {
    && OneBusy(Run(n, actions).pollers)
    && (|actions| > 0 ==> OneAtATime(n, actions[..|actions| - 1]))
  }

  /** The rows a poller has yet to treat: listed once each and unprocessed. */
  predicate Untreated(events: Events, p: Poller) {
    p.Busy? ==>
      && (forall k :: p.next <= k < |p.batch| ==> p.batch[k] in events && !events[p.batch[k]].processed)
      && (forall j, k :: p.next <= j < k < |p.batch| ==> p.batch[j] != p.batch[k])
  }

  predicate AllUntreated(s: State) {
    forall w :: 0 <= w < |s.pollers| ==> Untreated(s.events, s.pollers[w])
  }

  predicate MarkedOnce(s: State) {
    forall id :: id in s.events ==> Count(s.marked, id) == if s.events[id].processed then 1 else 0
  }

  lemma BatchDistinct(events: Events)
    ensures Untreated(events, Busy(Batch(events), 0, false))
  {
    hide OldestFirst;
    var batch := Batch(events);
    BatchIsUnprocessed(events);
    forall k, j | 0 <= j < k < |batch|
      ensures batch[j] != batch[k]
    {
      OldestFirstSorted(Unprocessed(events), j, k);
    }
  }

  lemma MarkOnce(s: State, w: nat, fault: Fault)
    requires At(s, w) && OneBusy(s.pollers) && AllUntreated(s) && MarkedOnce(s)
    ensures AllUntreated(DoMark(s, w, fault)) && MarkedOnce(DoMark(s, w, fault))
  {
    hide Count;
    var s' := DoMark(s, w, fault);
    var p := s.pollers[w];
    assert Untreated(s.events, p);
    AdvanceKeeps(s.events, p);
    forall v | 0 <= v < |s'.pollers|
      ensures Untreated(s'.events, s'.pollers[v])
    {
    }
    forall id | id in s'.events
      ensures Count(s'.marked, id) == if s'.events[id].processed then 1 else 0
    {
      CountNext(s.marked, Row(s, w), id);
    }
  }

  lemma AdvanceKeeps(events: Events, p: Poller)
    requires p.Busy? && p.next < |p.batch| && Untreated(events, p)
    ensures Untreated(events, p.(next := p.next + 1, enqueued := false))
    ensures Untreated(MarkProcessed(events, p.batch[p.next]), p.(next := p.next + 1, enqueued := false))
  {
  }

  lemma StepOnce(s: State, a: Action)
    requires OneBusy(s.pollers) && AllUntreated(s) && MarkedOnce(s) && BatchesKnown(s)
    requires forall id :: Accounted(s, id)
    ensures AllUntreated(Step(s, a)) && MarkedOnce(Step(s, a))
  {
    hide Batch, DoMark, Sent, Count, InHand, Accounted;
    match a
    case Find(w) => BatchDistinct(s.events);
    case Mark(w, fault) => if At(s, w) { MarkOnce(s, w, fault); }
    case Enqueue(w, works) => if At(s, w) { AdvanceKeeps(s.events, s.pollers[w]); }
    case Publish(id, event) => if id !in s.events { UnknownUnmarked(s, id); }
    case _ =>
  }

  lemma UnknownUnmarked(s: State, id: Uuid)
    requires Accounted(s, id) && id !in s.events
    ensures Count(s.marked, id) == 0
  {
  }

  lemma {:induction false} RunOnce(n: nat, actions: seq<Action>)
    requires OneAtATime(n, actions)
    ensures AllUntreated(Run(n, actions)) && MarkedOnce(Run(n, actions))
  {
    hide Step, AllUntreated, MarkedOnce, BatchesKnown, Accounted;
    if |actions| == 0 {
      StartOnce(n);
    } else {
      var before := Run(n, actions[..|actions| - 1]);
      RunOnce(n, actions[..|actions| - 1]);
      forall id
        ensures Accounted(before, id)
      {
        RunAccounted(n, actions[..|actions| - 1], id);
      }
      RunAccounted(n, actions[..|actions| - 1], 0);
      OneBusyNow(n, actions[..|actions| - 1]);
      StepOnce(before, actions[|actions| - 1]);
    }
  }

  lemma OneBusyNow(n: nat, actions: seq<Action>)
    requires OneAtATime(n, actions)
    ensures OneBusy(Run(n, actions).pollers)
  {
    hide Step;
  }

  lemma StartOnce(n: nat)
    ensures AllUntreated(Run(n, [])) && MarkedOnce(Run(n, []))
  {
  }

  /**
   With one poller at a time, a row was enqueued once if it is processed, and once more for
   each time that its enqueuing was not followed by its mark: a failed update or a crash in
   between, or an update that is still to come.
   */
  lemma ExactEnqueues(n: nat, actions: seq<Action>, id: Uuid)
    requires OneAtATime(n, actions) && IsMail(Run(n, actions).events, id)
    ensures var s := Run(n, actions);
            Sent(s.queue, id) == (if s.events[id].processed then 1 else 0) + Count(s.lost, id) + InHand(s.pollers, id)
  {
    hide Run, OneAtATime, Count, Sent, InHand, BatchesKnown;
    RunAccounted(n, actions, id);
    RunOnce(n, actions);
  }

  lemma {:induction false} InHandAtMostOne(events: Events, pollers: seq<Poller>, id: Uuid)
    requires OneBusy(pollers) && forall w :: 0 <= w < |pollers| ==> Untreated(events, pollers[w])
    ensures InHand(pollers, id) <= 1
    ensures InHand(pollers, id) == 1 ==> id in events && !events[id].processed
  {
    if |pollers| == 0 {
    } else {
      var n := |pollers| - 1;
      InHandAtMostOne(events, pollers[..n], id);
      if Holds(pollers[n], id) {
        assert forall w :: 0 <= w < n ==> pollers[..n][w].Idle?;
        NoneInHand(pollers[..n], id);
      }
    }
  }

  /**
   With one poller at a time, a row has been enqueued at most once exactly when no enqueuing of
   it went without its mark, or one did and has not been retried yet.
   */
  lemma {:induction false} OnePollerSendsOnce(n: nat, actions: seq<Action>, id: Uuid)
    requires OneAtATime(n, actions) && IsMail(Run(n, actions).events, id)
    ensures var s := Run(n, actions);
            var current := s.events[id].processed || InHand(s.pollers, id) > 0;
            && Sent(s.queue, id) == Count(s.lost, id) + (if current then 1 else 0)
            && (Sent(s.queue, id) <= 1 <==> Count(s.lost, id) == 0 || (Count(s.lost, id) == 1 && !current))
  {
    hide Run, OneAtATime, Count, Sent, InHand, Untreated;
    ExactEnqueues(n, actions, id);
    RunOnce(n, actions);
    OneBusyNow(n, actions);
    InHandAtMostOne(Run(n, actions).events, Run(n, actions).pollers, id);
  }

  // ----- a whole poll is a run of the machine -----

  function MailsOn(queue: seq<Job>): (mails: seq<Mail>) {
    seq(|queue|, i requires 0 <= i < |queue| => queue[i].mail)
  }

  /** The statements that treat one row under the given fault. */
  function Treating(events: Events, id: Uuid, w: nat, fault: Fault): (actions: seq<Action>) {
    if !IsMail(events, id) then [Mark(w, if fault.EnqueueFails? then Fine else fault)]
    else if fault.EnqueueFails? then [Enqueue(w, false)]
    else [Enqueue(w, true), Mark(w, fault)]
  }

  /** s' is s with one more row treated by poller w. */
  predicate TreatedRow(s: State, s': State, w: nat, fault: Uuid -> Fault)
    requires At(s, w) && Row(s, w) in s.events
  {
    var id := Row(s, w);
    && s'.pollers == s.pollers[w := Busy(s.pollers[w].batch, s.pollers[w].next + 1, false)]
    && s'.events == (if Marked(s.events, id, fault) then MarkProcessed(s.events, id) else s.events)
    && MailsOn(s'.queue) == MailsOn(s.queue) +
         if IsMail(s.events, id) && fault(id) != EnqueueFails then [s.events[id].payload] else []
  }

  /** s' is s with the first k rows of the batch treated by poller w. */
  predicate TreatedRows(s: State, s': State, w: nat, fault: Uuid -> Fault, k: nat)
    requires w < |s.pollers| && k <= |Batch(s.events)|
  {
    var treated := Batch(s.events)[..k];
    && s'.pollers == s.pollers[w := Busy(Batch(s.events), k, false)]
    && s'.events == AllMarked(s.events, treated, fault)
    && MailsOn(s'.queue) == MailsOn(s.queue) + Mails(s.events, treated, fault)
  }

  lemma RowTreated(n: nat, actions: seq<Action>, w: nat, fault: Uuid -> Fault)
    requires var s := Run(n, actions); At(s, w) && !s.pollers[w].enqueued && Row(s, w) in s.events
    ensures var s, id := Run(n, actions), Row(Run(n, actions), w);
            TreatedRow(s, Run(n, actions + Treating(s.events, id, w, fault(id))), w, fault)
  {
    hide Run;
    var s, id := Run(n, actions), Row(Run(n, actions), w);
    var more := Treating(s.events, id, w, fault(id));
    RunNext(n, actions, more[0]);
    assert more == [more[0]] + more[1..];
    if |more| == 2 {
      RunNext(n, actions + [more[0]], more[1]);
      assert actions + [more[0]] + [more[1]] == actions + more;
    }
  }

  lemma OneMoreTreated(s: State, s1: State, s2: State, w: nat, fault: Uuid -> Fault, k: nat)
    requires w < |s.pollers| && k < |Batch(s.events)| && TreatedRows(s, s1, w, fault, k)
    requires At(s1, w) && Row(s1, w) in s1.events && TreatedRow(s1, s2, w, fault)
    ensures TreatedRows(s, s2, w, fault, k + 1)
  {
    hide Batch, Marked, MailsOn, AllMarked, MarkProcessed;
    var batch := Batch(s.events);
    assert batch[..k + 1] == batch[..k] + [batch[k]] && batch[..k + 1][..k] == batch[..k];
    MarkedAlike(s.events, batch[..k], batch[k], fault);
    MarkedNext(s.events, batch[..k], batch[k], fault);
  }

  lemma {:induction false} PollPrefix(n: nat, actions: seq<Action>, w: nat, fault: Uuid -> Fault, k: nat)
    returns (more: seq<Action>)
    requires var s := Run(n, actions); w < |s.pollers| && s.pollers[w].Idle? && k <= |Batch(s.events)|
    ensures TreatedRows(Run(n, actions), Run(n, actions + more), w, fault, k)
  {
    hide Run, Batch, Treating, Marked, MailsOn, AllMarked, Mails, TreatedRow;
    var s := Run(n, actions);
    var batch := Batch(s.events);
    if k == 0 {
      more := [Find(w)];
      RunNext(n, actions, Find(w));
      assert batch[..0] == [];
      NothingTreated(s.events, fault);
    } else {
      var before := PollPrefix(n, actions, w, fault, k - 1);
      var s1 := Run(n, actions + before);
      BatchIsUnprocessed(s.events);
      var rest := Treating(s1.events, batch[k - 1], w, fault(batch[k - 1]));
      RowTreated(n, actions + before, w, fault);
      more := before + rest;
      assert actions + more == actions + before + rest;
      OneMoreTreated(s, s1, Run(n, actions + more), w, fault, k - 1);
    }
  }

  lemma NothingTreated(events: Events, fault: Uuid -> Fault)
    ensures AllMarked(events, [], fault) == events && Mails(events, [], fault) == []
  {
  }

  lemma MarkedAlike(events: Events, ids: seq<Uuid>, id: Uuid, fault: Uuid -> Fault)
    requires id in events
    ensures var after := AllMarked(events, ids, fault);
            && (Marked(after, id, fault) <==> Marked(events, id, fault))
            && after[id].eventType == events[id].eventType && after[id].payload == events[id].payload
  {
  }

  /** What PollOnce does from start to end is one of the machine's runs. */
  lemma PollIsARun(n: nat, actions: seq<Action>, w: nat, fault: Uuid -> Fault) returns (more: seq<Action>)
    requires var s := Run(n, actions); w < |s.pollers| && s.pollers[w].Idle?
    ensures var s, s' := Run(n, actions), Run(n, actions + more);
            && s'.pollers == s.pollers
            && s'.events == AllMarked(s.events, Batch(s.events), fault)
            && MailsOn(s'.queue) == MailsOn(s.queue) + Mails(s.events, Batch(s.events), fault)
  {
    hide Run, Batch, AllMarked, Mails, MailsOn;
    var batch := Batch(Run(n, actions).events);
    var treated := PollPrefix(n, actions, w, fault, |batch|);
    assert batch[..|batch|] == batch;
    more := treated + [Finish(w)];
    assert actions + more == actions + treated + [Finish(w)];
    RunNext(n, actions + treated, Finish(w));
  }

  // ----- two pollers at a time -----

  function Hello(): (event: Event) {
    Event(SEND_EMAIL, NewOrder("owner", "shop", 3, 1000), false, 0)
  }

  lemma HelloBatch(events: Events)
    requires events == map[1 := Hello()]
    ensures Batch(events) == [1]
  {
    hide OldestFirst;
    var at := Unprocessed(events);
    assert at == map[1 := 0];
    OldestFirstMembers(at, OldestFirst(at)[0]);
    assert OldestFirst(at)[0] in OldestFirst(at);
  }

  const HELLO := Job(1, Hello().payload)

  lemma TwoJobs()
    ensures Sent([HELLO, HELLO], 1) == 2
  {
    SentNext([], HELLO, 1);
    SentNext([HELLO], HELLO, 1);
    assert [] + [HELLO] == [HELLO] && [HELLO] + [HELLO] == [HELLO, HELLO];
  }

  /** Both pollers have found the row before either of them marks it. */
  lemma BothFind() returns (actions: seq<Action>)
    ensures Run(2, actions) == State(map[1 := Hello()], [Busy([1], 0, false), Busy([1], 0, false)], [], [], [])
  {
    hide Run, Batch;
    var a1, a2 := [Publish(1, Hello())], [Publish(1, Hello()), Find(0)];
    actions := a2 + [Find(1)];
    StartState();
    RunNext(2, [], a1[0]);
    assert [] + a1 == a1;
    HelloBatch(Run(2, a1).events);
    RunNext(2, a1, Find(0));
    assert a1 + [Find(0)] == a2;
    RunNext(2, a2, Find(1));
  }

  /** Two pollers at a time can enqueue a row twice although every statement works. */
  lemma TwoPollersSendTwice() returns (actions: seq<Action>)
    ensures Run(2, actions).events == map[1 := Hello().(processed := true)]
    ensures Sent(Run(2, actions).queue, 1) == 2
    ensures Run(2, actions).lost == []
  {
    hide Run, Sent;
    var found := BothFind();
    var one := found + [Enqueue(0, true)];
    var two := one + [Enqueue(1, true)];
    var marked := two + [Mark(0, Fine)];
    actions := marked + [Mark(1, Fine)];
    RunNext(2, found, Enqueue(0, true));
    RunNext(2, one, Enqueue(1, true));
    RunNext(2, two, Mark(0, Fine));
    RunNext(2, marked, Mark(1, Fine));
    assert Run(2, actions).queue == [HELLO, HELLO];
    TwoJobs();
  }

  lemma StartState()
    ensures Run(2, []) == State(map[], [Idle, Idle], [], [], [])
  {
  }
}
