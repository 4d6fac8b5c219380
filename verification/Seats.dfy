/** Staff seats against plan changes, over every run of account requests. */
module Seats {
  import opened Schema
  import opened Accounts

  /** How many staff members the store has beyond its plan. */
  function OverLimit(a: Tables, storeId: Uuid): (excess: nat) {
    var count, max := StaffCount(a.users, storeId), InviteLimit(a, storeId);
    if count > max then count - max else 0
  }

  /** Users belong to existing stores, and every store has a subscription. */
  predicate Linked(a: Tables) {
    && (forall u :: u in a.users && a.users[u].storeId.Some? ==> a.users[u].storeId.value in a.suspended)
    && a.subscriptions.Keys == a.suspended.Keys
  }

  predicate UniqueEmails(users: map<Uuid, User>) {
    forall u, v :: u in users && v in users && users[u].email == users[v].email ==> u == v
  }

  // ----- one request -----

  lemma StaffAdded(users: map<Uuid, User>, id: Uuid, user: User, storeId: Uuid)
    requires id !in users
    ensures StaffCount(users[id := user], storeId) ==
            StaffCount(users, storeId) + if user.role == Staff && user.storeId == Some(storeId) then 1 else 0
  {
    var before, after := StaffOf(users, storeId), StaffOf(users[id := user], storeId);
    if user.role == Staff && user.storeId == Some(storeId) {
      assert after == before + {id};
    } else {
      assert after == before;
    }
  }

  lemma StaffRemoved(users: map<Uuid, User>, id: Uuid, storeId: Uuid)
    ensures StaffCount(users - {id}, storeId) <= StaffCount(users, storeId)
  {
    var before, after := StaffOf(users, storeId), StaffOf(users - {id}, storeId);
    assert after == before - {id};
    assert |after| <= |after + (before * {id})|;
    assert after + (before * {id}) == before;
  }

  lemma StaffKept(users: map<Uuid, User>, id: Uuid, user: User, storeId: Uuid)
    requires id in users && user.role == users[id].role && user.storeId == users[id].storeId
    ensures StaffCount(users[id := user], storeId) == StaffCount(users, storeId)
  {
    assert StaffOf(users[id := user], storeId) == StaffOf(users, storeId);
  }

  lemma NoStaffYet(a: Tables, storeId: Uuid)
    requires Linked(a) && storeId !in a.suspended
    ensures StaffCount(a.users, storeId) == 0
  {
    assert StaffOf(a.users, storeId) == {};
  }

  predicate TouchesOneAccount(op: Op) {
    op.Login? || op.Refresh? || op.Logout? || op.RequestReset? || op.Reset? || op.EditStaff?
  }

  lemma AccountKeepsSeats(a: Tables, op: Op, storeId: Uuid)
    requires Linked(a) && TouchesOneAccount(op)
    ensures var b := Step(a, op);
            && Linked(b)
            && b.subscriptions == a.subscriptions
            && StaffCount(b.users, storeId) == StaffCount(a.users, storeId)
  {
    hide StaffCount, Smallest, LoginLimit;
    var b := Step(a, op);
    if b != a {
      match op
      case Login(email, _, _) => var id := FindOne(ByEmail(a.users, email)).value; StaffKept(a.users, id, b.users[id], storeId);
      case RequestReset(email, _, _) => var id := FindOne(ByEmail(a.users, email)).value; StaffKept(a.users, id, b.users[id], storeId);
      case Reset(raw, _, _) => var id := FindOne(ByResetHash(a.users, Sha256(raw))).value; StaffKept(a.users, id, b.users[id], storeId);
      case Refresh(id, _, _) => StaffKept(a.users, id, b.users[id], storeId);
      case Logout(id) => StaffKept(a.users, id, b.users[id], storeId);
      case EditStaff(_, id, _, _) => StaffKept(a.users, id, b.users[id], storeId);
    }
  }

  /** What each kind of request may do to a store's seats. */
  lemma StepSeats(a: Tables, op: Op, storeId: Uuid)
    requires Linked(a)
    ensures Linked(Step(a, op))
    ensures StaffCount(Step(a, op).users, storeId) <= StaffCount(a.users, storeId) || StaffCount(Step(a, op).users, storeId) <= MOST_STAFF
    ensures op.Deliver? ==> StaffCount(Step(a, op).users, storeId) == StaffCount(a.users, storeId)
    ensures !op.Deliver? ==> OverLimit(Step(a, op), storeId) <= OverLimit(a, storeId)
  {
    hide StaffCount, Smallest, EventApplied;
    var b := Step(a, op);
    if b != a {
      match op
      case Deliver(event, _) => EventKeepsStores(a.subscriptions, event);
      case Register(id, store, email, hash, token) =>
        StaffAdded(a.users, id, NewOwner(email, hash, store, token), storeId);
        NoStaffYet(a, store);
      case Invite(store, email, hash, id) => StaffAdded(a.users, id, NewStaff(email, hash, store), storeId);
      case RemoveStaff(_, id) => StaffRemoved(a.users, id, storeId);
      case Suspend(_, _) =>
      case Checkout(_, _) =>
      case _ => AccountKeepsSeats(a, op, storeId);
    }
  }

  lemma EventKeepsStores(subscriptions: map<Uuid, Subscription>, event: Event)
    ensures EventApplied(subscriptions, event).Keys == subscriptions.Keys
  {
  }

  lemma StepEmails(a: Tables, op: Op)
    requires UniqueEmails(a.users)
    ensures UniqueEmails(Step(a, op).users)
  {
    hide StaffCount, LoginLimit, InviteLimit, EventApplied, Smallest;
    match op
    case Register(_, _, email, _, _) => NoneByEmail(a.users, email);
    case Invite(_, email, _, _) => NoneByEmail(a.users, email);
    case EditStaff(_, id, email, _) => if email.Some? { OnlyByEmail(a.users, id, email.value); }
    case _ =>
  }

  lemma NoneByEmail(users: map<Uuid, User>, email: string)
    ensures ByEmail(users, email) == {} ==> forall u :: u in users ==> users[u].email != email
  {
    if u :| u in users && users[u].email == email {
      assert u in ByEmail(users, email);
    }
  }

  lemma OnlyByEmail(users: map<Uuid, User>, id: Uuid, email: string)
    ensures ByEmail(users, email) - {id} == {} ==> forall u :: u in users && u != id ==> users[u].email != email
  {
    if u :| u in users && u != id && users[u].email == email {
      assert u in ByEmail(users, email) - {id};
    }
  }

  // ----- runs -----

  lemma {:induction false} RunLinked(a: Tables, ops: seq<Op>)
    requires Linked(a) && UniqueEmails(a.users)
    ensures Linked(Run(a, ops)) && UniqueEmails(Run(a, ops).users)
  {
    hide Step;
    if |ops| == 0 {
    } else {
      RunLinked(a, ops[..|ops| - 1]);
      StepSeats(Run(a, ops[..|ops| - 1]), ops[|ops| - 1], 0);
      StepEmails(Run(a, ops[..|ops| - 1]), ops[|ops| - 1]);
    }
  }

  predicate NoDeliveries(ops: seq<Op>) {
    forall i :: 0 <= i < |ops| ==> !ops[i].Deliver?
  }

  /** Between webhooks the excess over the plan's limit never grows; without any, none arises. */
  lemma {:induction false} ExcessNeverGrows(a: Tables, ops: seq<Op>, storeId: Uuid)
    requires Linked(a) && NoDeliveries(ops)
    ensures OverLimit(Run(a, ops), storeId) <= OverLimit(a, storeId)
    ensures Linked(Run(a, ops))
  {
    hide Step, OverLimit, Linked;
    if |ops| == 0 {
    } else {
      ExcessNeverGrows(a, ops[..|ops| - 1], storeId);
      StepSeats(Run(a, ops[..|ops| - 1]), ops[|ops| - 1], storeId);
    }
  }

  /** With any webhooks, no store ever has more staff than the largest plan allows. */
  lemma {:induction false} StaffWithinLargestPlan(a: Tables, ops: seq<Op>, storeId: Uuid)
    requires Linked(a) && StaffCount(a.users, storeId) <= MOST_STAFF
    ensures StaffCount(Run(a, ops).users, storeId) <= MOST_STAFF
    ensures Linked(Run(a, ops))
  {
    hide Step, StaffCount, Linked;
    if |ops| == 0 {
    } else {
      StaffWithinLargestPlan(a, ops[..|ops| - 1], storeId);
      StepSeats(Run(a, ops[..|ops| - 1]), ops[|ops| - 1], storeId);
    }
  }

  /**
   After any run, a user with the right password whose store is not suspended is refused
   exactly when it is staff of a store that is over its limit. The owner never is.
   */
  lemma LoginRefusedExactlyOverLimit(a: Tables, ops: seq<Op>, u: Uuid, token: string)
    requires Linked(a) && UniqueEmails(a.users)
    requires var b := Run(a, ops);
             u in b.users && b.users[u].storeId.Some? &&
             (b.users[u].storeId.value in b.suspended ==> !b.suspended[b.users[u].storeId.value])
    ensures var b := Run(a, ops);
            AnswerTo(b, Login(b.users[u].email, true, token)) ==
            if b.users[u].role == Staff && OverLimit(b, b.users[u].storeId.value) > 0 then OverPlanLimit else Done
  {
    hide Run, StaffCount;
    RunLinked(a, ops);
    var b := Run(a, ops);
    assert ByEmail(b.users, b.users[u].email) == {u};
  }

  /** With direct plan changes only, staff count stays within the plan and no login is refused for it. */
  lemma DirectChangesKeepSeats(a: Tables, ops: seq<Op>, storeId: Uuid, email: string, token: string)
    requires Linked(a) && NoDeliveries(ops)
    requires forall s :: s in a.subscriptions ==> StaffCount(a.users, s) <= InviteLimit(a, s)
    ensures StaffCount(Run(a, ops).users, storeId) <= InviteLimit(Run(a, ops), storeId)
    ensures AnswerTo(Run(a, ops), Login(email, true, token)) != OverPlanLimit
  {
    hide Run, StaffCount;
    var b := Run(a, ops);
    Fits(a, ops, storeId);
    var found := FindOne(ByEmail(b.users, email));
    if found.Some? && b.users[found.value].storeId.Some? {
      Fits(a, ops, b.users[found.value].storeId.value);
    }
  }

  lemma Fits(a: Tables, ops: seq<Op>, storeId: Uuid)
    requires Linked(a) && NoDeliveries(ops)
    requires forall s :: s in a.subscriptions ==> StaffCount(a.users, s) <= InviteLimit(a, s)
    ensures StaffCount(Run(a, ops).users, storeId) <= InviteLimit(Run(a, ops), storeId)
  {
    hide Run, StaffCount;
    if storeId !in a.subscriptions {
      NoStaffYet(a, storeId);
    }
    ExcessNeverGrows(a, ops, storeId);
  }

  // ----- a plan that ends -----

  /** Only this store holds the provider subscription. */
  predicate HeldAlone(a: Tables, storeId: Uuid, id: string) {
    forall s :: s in a.subscriptions ==> (a.subscriptions[s].subscriptionId == Some(id) <==> s == storeId)
  }

  lemma EndedStep(a: Tables, storeId: Uuid, id: string, eventId: string, recorded: bool)
    requires storeId in a.subscriptions && HeldAlone(a, storeId, id) && eventId !in a.webhookEvents
    ensures var b := Step(a, Deliver(SubscriptionEnded(eventId, id), recorded));
            && b.users == a.users && b.suspended == a.suspended
            && b.subscriptions == a.subscriptions[storeId := a.subscriptions[storeId].(plan := Free)]
  {
    assert ByProviderId(a.subscriptions, id) == {storeId};
  }

  /**
   When its subscription ends, a store keeps all its staff: everyone beyond the free plan's one
   seat is over the limit, and while there is anyone too many, no staff member can log in.
   */
  lemma EndedPlanLeavesExtraStaff(a: Tables, storeId: Uuid, id: string, eventId: string, recorded: bool, u: Uuid, token: string)
    requires Linked(a) && UniqueEmails(a.users)
    requires storeId in a.subscriptions && HeldAlone(a, storeId, id) && eventId !in a.webhookEvents
    ensures var b := Step(a, Deliver(SubscriptionEnded(eventId, id), recorded));
            var count := StaffCount(a.users, storeId);
            && OverLimit(b, storeId) == (if count > 1 then count - 1 else 0)
            && (u in StaffOf(a.users, storeId) && !a.suspended[storeId] ==>
                  AnswerTo(b, Login(a.users[u].email, true, token)) == if count > 1 then OverPlanLimit else Done)
  {
    hide StaffCount, Smallest, Step;
    EndedStep(a, storeId, id, eventId, recorded);
    if u in StaffOf(a.users, storeId) {
      assert ByEmail(a.users, a.users[u].email) == {u};
    }
  }
}
