/** Redelivered and late webhooks, mixed with any other account requests. */
module Webhooks {
  import opened Schema
  import opened Accounts

  // ----- redelivery -----

  /** The events recorded after the given requests. */
  function Recorded(seen: set<string>, ops: seq<Op>): (events: set<string>) {
    if |ops| == 0 then seen
    else
      var last := ops[|ops| - 1];
      Recorded(seen, ops[..|ops| - 1]) + if last.Deliver? && last.recorded then {last.event.eventId} else {}
  }

  /** The same requests without the deliveries of events that were already recorded. */
  function WithoutRedeliveries(seen: set<string>, ops: seq<Op>): (r: seq<Op>) {
    if |ops| == 0 then []
    else
      var before, last := ops[..|ops| - 1], ops[|ops| - 1];
      WithoutRedeliveries(seen, before) +
      if last.Deliver? && last.event.eventId in Recorded(seen, before) then [] else [last]
  }

  lemma {:induction false} RecordsKept(a: Tables, ops: seq<Op>)
    ensures Run(a, ops).webhookEvents == Recorded(a.webhookEvents, ops)
  {
    hide Step;
    if |ops| == 0 {
    } else {
      RecordsKept(a, ops[..|ops| - 1]);
      StepRecords(Run(a, ops[..|ops| - 1]), ops[|ops| - 1]);
    }
  }

  lemma StepRecords(a: Tables, op: Op)
    ensures Step(a, op).webhookEvents ==
            a.webhookEvents + if op.Deliver? && op.recorded then {op.event.eventId} else {}
  {
    hide EventApplied, LoginLimit, InviteLimit, StaffCount, Smallest;
  }

  /** Dropping every redelivery from a run, wherever it occurs, changes no table. */
  lemma {:induction false} RedeliveriesChangeNothing(a: Tables, ops: seq<Op>)
    ensures Run(a, WithoutRedeliveries(a.webhookEvents, ops)) == Run(a, ops)
  {
    hide Step;
    if |ops| == 0 {
    } else {
      var before, last := ops[..|ops| - 1], ops[|ops| - 1];
      RedeliveriesChangeNothing(a, before);
      var kept := WithoutRedeliveries(a.webhookEvents, before);
      if last.Deliver? && last.event.eventId in Recorded(a.webhookEvents, before) {
        RecordsKept(a, before);
        SeenIsSkipped(Run(a, before), last);
        assert WithoutRedeliveries(a.webhookEvents, ops) == kept;
      } else {
        RunNext(a, kept, last);
      }
    }
  }

  lemma SeenIsSkipped(a: Tables, op: Op)
    requires op.Deliver? && op.event.eventId in a.webhookEvents
    ensures Step(a, op) == a
  {
  }

  lemma RecordedNext(seen: set<string>, ops: seq<Op>, op: Op)
    ensures Recorded(seen, ops + [op]) ==
            Recorded(seen, ops) + if op.Deliver? && op.recorded then {op.event.eventId} else {}
  {
    assert (ops + [op])[..|ops|] == ops;
  }

  lemma {:induction false} SeenStaysRecorded(seen: set<string>, ops: seq<Op>)
    ensures seen <= Recorded(seen, ops)
  {
    if |ops| > 0 {
      SeenStaysRecorded(seen, ops[..|ops| - 1]);
    }
  }

  lemma KeptNext(seen: set<string>, before: seq<Op>, last: Op)
    ensures WithoutRedeliveries(seen, before + [last]) ==
            if last.Deliver? && last.event.eventId in Recorded(seen, before)
            then WithoutRedeliveries(seen, before) else WithoutRedeliveries(seen, before) + [last]
  {
    assert (before + [last])[..|before|] == before;
  }

  /** Each event of the list is new, and none follows its own record. */
  predicate EachOnce(seen: set<string>, recorded: set<string>, kept: seq<Op>) {
    && (forall i :: 0 <= i < |kept| && kept[i].Deliver? ==>
          kept[i].event.eventId !in seen && (kept[i].recorded ==> kept[i].event.eventId in recorded))
    && (forall i, j :: 0 <= i < j < |kept| && kept[i].Deliver? && kept[j].Deliver? && kept[i].recorded ==>
          kept[i].event.eventId != kept[j].event.eventId)
  }

  /** Only redeliveries are dropped: every event is still recorded, and none is delivered again after that. */
  lemma {:induction false} EachEventOnce(seen: set<string>, ops: seq<Op>)
    ensures Recorded(seen, WithoutRedeliveries(seen, ops)) == Recorded(seen, ops)
    ensures EachOnce(seen, Recorded(seen, ops), WithoutRedeliveries(seen, ops))
  {
    if |ops| == 0 {
    } else {
      hide Recorded, WithoutRedeliveries, EachOnce;
      var before, last := ops[..|ops| - 1], ops[|ops| - 1];
      EachEventOnce(seen, before);
      SeenStaysRecorded(seen, before);
      assert before + [last] == ops;
      RecordedNext(seen, before, last);
      RecordedNext(seen, WithoutRedeliveries(seen, before), last);
      KeptNext(seen, before, last);
      OneMoreOnce(seen, Recorded(seen, before), Recorded(seen, ops), WithoutRedeliveries(seen, before), last);
    }
  }

  lemma OneMoreOnce(seen: set<string>, recorded: set<string>, recorded': set<string>, kept: seq<Op>, last: Op)
    requires EachOnce(seen, recorded, kept) && seen <= recorded
    requires recorded' == recorded + if last.Deliver? && last.recorded then {last.event.eventId} else {}
    ensures EachOnce(seen, recorded', kept)
    ensures !(last.Deliver? && last.event.eventId in recorded) ==> EachOnce(seen, recorded', kept + [last])
  {
  }

  // ----- a delivery whose record fails -----

  /** Applying the event would change no subscription. */
  predicate Settled(subscriptions: map<Uuid, Subscription>, event: Event) {
    match event
    case CheckoutCompleted(_, storeId, plan, customerId, subscriptionId) =>
      storeId in subscriptions ==> subscriptions[storeId] == Subscription(plan, customerId, subscriptionId)
    case SubscriptionEnded(_, endedId) =>
      var found := FindOne(ByProviderId(subscriptions, endedId));
      found.Some? ==> subscriptions[found.value].plan == Free
  }

  /** A delivery of an event that is not on record changes no subscription exactly when the event is settled. */
  lemma DeliveryHarmlessExactly(a: Tables, event: Event, recorded: bool)
    ensures Step(a, Deliver(event, recorded)).subscriptions == a.subscriptions <==>
            event.eventId in a.webhookEvents || Settled(a.subscriptions, event)
  {
    hide Smallest;
  }

  /** Every event that these requests deliver, recorded or not. */
  function DeliveredIds(ops: seq<Op>): (events: set<string>) {
    if |ops| == 0 then {}
    else DeliveredIds(ops[..|ops| - 1]) + if ops[|ops| - 1].Deliver? then {ops[|ops| - 1].event.eventId} else {}
  }

  predicate Repeats(before: seq<Op>, op: Op) {
    op.Deliver? && op.event.eventId in DeliveredIds(before)
  }

  /** The same requests with the first delivery of each event only. */
  function FirstDeliveries(ops: seq<Op>): (r: seq<Op>) {
    if |ops| == 0 then []
    else
      var before, last := ops[..|ops| - 1], ops[|ops| - 1];
      FirstDeliveries(before) + if Repeats(before, last) then [] else [last]
  }

  /** Equal up to the records of events that were delivered. */
  predicate Alike(a: Tables, b: Tables, delivered: set<string>) {
    && a.users == b.users && a.suspended == b.suspended && a.subscriptions == b.subscriptions
    && a.webhookEvents - delivered == b.webhookEvents - delivered
  }

  /** At each point of the run the tables are those that the first deliveries alone would have left. */
  predicate FirstsDecide(a: Tables, ops: seq<Op>) {
    && Alike(Run(a, ops), Run(a, FirstDeliveries(ops)), DeliveredIds(ops))
    && (|ops| > 0 ==> FirstsDecide(a, ops[..|ops| - 1]))
  }

  /** Each repeated delivery of the run finds its event recorded or settled. */
  predicate RepeatsHarmless(a: Tables, ops: seq<Op>) {
    |ops| > 0 ==>
      var before, last := ops[..|ops| - 1], ops[|ops| - 1];
      && RepeatsHarmless(a, before)
      && (Repeats(before, last) ==>
            last.event.eventId in Run(a, before).webhookEvents || Settled(Run(a, before).subscriptions, last.event))
  }

  lemma AlikeKept(a: Tables, b: Tables, delivered: set<string>, op: Op)
    requires Alike(a, b, delivered) && !(op.Deliver? && op.event.eventId in delivered)
    ensures Alike(Step(a, op), Step(b, op), delivered + if op.Deliver? then {op.event.eventId} else {})
  {
    hide Smallest, EventApplied, StaffCount;
    if op.Deliver? {
      var id := op.event.eventId;
      assert id in a.webhookEvents <==> id in a.webhookEvents - delivered;
      assert id in b.webhookEvents <==> id in b.webhookEvents - delivered;
      assert Step(a, op).webhookEvents - (delivered + {id}) == a.webhookEvents - delivered - {id};
      assert Step(b, op).webhookEvents - (delivered + {id}) == b.webhookEvents - delivered - {id};
    } else {
      StepRecords(a, op);
      StepRecords(b, op);
      AnswersAlike(a, b, op);
      assert delivered + {} == delivered;
      assert Step(a, op).webhookEvents == a.webhookEvents && Step(b, op).webhookEvents == b.webhookEvents;
    }
  }

  lemma AnswersAlike(a: Tables, b: Tables, op: Op)
    requires a.users == b.users && a.suspended == b.suspended && a.subscriptions == b.subscriptions && !op.Deliver?
    ensures AnswerTo(a, op) == AnswerTo(b, op) && (FreshIds(a, op) <==> FreshIds(b, op))
    ensures var a', b' := Step(a, op), Step(b, op);
            a'.users == b'.users && a'.suspended == b'.suspended && a'.subscriptions == b'.subscriptions
  {
    hide Smallest, StaffCount, ByEmail, ByResetHash;
  }

  lemma RepeatAlike(a: Tables, b: Tables, delivered: set<string>, op: Op)
    requires Alike(a, b, delivered) && op.Deliver? && op.event.eventId in delivered
    ensures Alike(Step(a, op), b, delivered) <==> op.event.eventId in a.webhookEvents || Settled(a.subscriptions, op.event)
  {
    hide Settled, EventApplied;
    DeliveryHarmlessExactly(a, op.event, op.recorded);
  }

  lemma FirstsNext(before: seq<Op>, last: Op)
    ensures DeliveredIds(before + [last]) == DeliveredIds(before) + if last.Deliver? then {last.event.eventId} else {}
    ensures FirstDeliveries(before + [last]) == FirstDeliveries(before) + if Repeats(before, last) then [] else [last]
  {
    assert (before + [last])[..|before|] == before;
  }

  /**
   At every point of a run the repeated deliveries have made no difference exactly when each of
   them found its event recorded or settled: a failed record matters then and only then.
   */
  lemma {:induction false} RepeatsHarmlessExactly(a: Tables, ops: seq<Op>)
    ensures FirstsDecide(a, ops) <==> RepeatsHarmless(a, ops)
  {
    if |ops| == 0 {
    } else {
      var before, last := ops[..|ops| - 1], ops[|ops| - 1];
      RepeatsHarmlessExactly(a, before);
      assert before + [last] == ops;
      FirstsNext(before, last);
      RunNext(a, before, last);
      RunNext(a, FirstDeliveries(before), last);
      if FirstsDecide(a, before) {
        FirstsNow(a, before);
        hide Run, Step, FirstDeliveries, DeliveredIds, Alike, Settled;
        if Repeats(before, last) {
          RepeatAlike(Run(a, before), Run(a, FirstDeliveries(before)), DeliveredIds(before), last);
          assert FirstDeliveries(ops) == FirstDeliveries(before);
          assert DeliveredIds(ops) == DeliveredIds(before);
        } else {
          AlikeKept(Run(a, before), Run(a, FirstDeliveries(before)), DeliveredIds(before), last);
        }
      }
    }
  }

  lemma FirstsNow(a: Tables, ops: seq<Op>)
    requires FirstsDecide(a, ops)
    ensures Alike(Run(a, ops), Run(a, FirstDeliveries(ops)), DeliveredIds(ops))
  {
  }

  const PAID := CheckoutCompleted("e1", 1, Pro, None, Some("sub"))

  const ENDED := SubscriptionEnded("e2", "sub")

  /**
   When the record of an event fails after the event was applied, its redelivery is applied
   again and can undo a later event: the store ends on PRO although its subscription ended.
   */
  lemma LostRecordRevivesPlan() returns (a: Tables, ops: seq<Op>)
    ensures ops == [Deliver(PAID, false), Deliver(ENDED, true), Deliver(PAID, true)]
    ensures 1 in Run(a, ops).subscriptions && Run(a, ops).subscriptions[1].plan == Pro
    ensures 1 in Run(a, ops[..2]).subscriptions && Run(a, ops[..2]).subscriptions[1].plan == Free
  {
    hide Run;
    a := Tables(map[], map[1 := false], map[1 := Subscription(Free, None, None)], {});
    ops := [Deliver(PAID, false), Deliver(ENDED, true), Deliver(PAID, true)];
    RunOfNone(a);
    RunNext(a, [], ops[0]);
    assert [] + [ops[0]] == ops[..1];
    RunNext(a, ops[..1], ops[1]);
    assert ops[..1] + [ops[1]] == ops[..2];
    RunNext(a, ops[..2], ops[2]);
    assert ops[..2] + [ops[2]] == ops;
    assert ByProviderId(Run(a, ops[..1]).subscriptions, "sub") == {1};
  }

  lemma RunOfNone(a: Tables)
    ensures Run(a, []) == a
  {
  }

  // ----- a subscription that was replaced -----

  /** The request brings this provider subscription to a store. */
  predicate Carries(op: Op, id: string) {
    op.Deliver? && op.event.CheckoutCompleted? && op.event.subscriptionId == Some(id)
  }

  predicate Unheld(a: Tables, id: string) {
    forall s :: s in a.subscriptions ==> a.subscriptions[s].subscriptionId != Some(id)
  }

  lemma StepUnheld(a: Tables, op: Op, id: string)
    requires Unheld(a, id) && !Carries(op, id)
    ensures Unheld(Step(a, op), id)
  {
    hide FindOne, LoginLimit, InviteLimit, StaffCount;
  }

  lemma {:induction false} RunUnheld(a: Tables, ops: seq<Op>, id: string)
    requires Unheld(a, id) && forall i :: 0 <= i < |ops| ==> !Carries(ops[i], id)
    ensures Unheld(Run(a, ops), id)
  {
    hide Step;
    if |ops| == 0 {
    } else {
      RunUnheld(a, ops[..|ops| - 1], id);
      StepUnheld(Run(a, ops[..|ops| - 1]), ops[|ops| - 1], id);
    }
  }

  /**
   Once a later checkout has replaced a provider subscription that only this store held, the
   end of the old one changes no subscription, however much later it is delivered.
   */
  lemma ReplacedSubscriptionIsDead(a: Tables, checkout: Event, ops: seq<Op>, former: string, eventId: string, recorded: bool)
    requires checkout.CheckoutCompleted? && checkout.eventId !in a.webhookEvents && checkout.subscriptionId != Some(former)
    requires forall s :: s in a.subscriptions && s != checkout.storeId ==> a.subscriptions[s].subscriptionId != Some(former)
    requires forall i :: 0 <= i < |ops| ==> !Carries(ops[i], former)
    ensures var b := Run(Step(a, Deliver(checkout, true)), ops);
            Step(b, Deliver(SubscriptionEnded(eventId, former), recorded)).subscriptions == b.subscriptions
  {
    hide Run;
    var replaced := Step(a, Deliver(checkout, true));
    RunUnheld(replaced, ops, former);
    assert ByProviderId(Run(replaced, ops).subscriptions, former) == {};
  }

  /** The end of the subscription that a store holds alone puts that store, and no other, on the free plan. */
  lemma EndedSubscriptionFreesItsStore(a: Tables, storeId: Uuid, id: string, eventId: string, recorded: bool)
    requires storeId in a.subscriptions && a.subscriptions[storeId].subscriptionId == Some(id)
    requires forall s :: s in a.subscriptions && s != storeId ==> a.subscriptions[s].subscriptionId != Some(id)
    requires eventId !in a.webhookEvents
    ensures var b := Step(a, Deliver(SubscriptionEnded(eventId, id), recorded));
            && b.subscriptions.Keys == a.subscriptions.Keys
            && b.subscriptions[storeId] == a.subscriptions[storeId].(plan := Free)
            && forall s :: s in a.subscriptions && s != storeId ==> b.subscriptions[s] == a.subscriptions[s]
  {
    assert ByProviderId(a.subscriptions, id) == {storeId};
  }
}
