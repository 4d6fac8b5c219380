/**
 Requests that share one idempotency key, interleaved statement by statement, with
 handler exceptions, failed statements, failed commits and crashes at any point.

 The tenant transaction is the outer interceptor: a handler's order is committed after
 the result has been recorded, while each statement on the record takes effect at once,
 on a connection of its own. A statement that reports a failure has either taken effect
 or not by then.
 */
module IdempotencyProtocol {
  import opened Schema
  import opened Idempotency

  type RequestId = nat

  datatype Phase =
    | Opened                        // the tenant transaction is open
    | Missed                        // the lookup found no record
    | Running                       // the key is reserved and the handler runs
    | Handled(response: Response)   // the handler returned; its order is not committed
    | Recorded(result: Response)    // the result is recorded; its order is not committed
    | Failing                       // the handler or the recording failed
    | Over

  // row: the record of the key. orders: the requests whose order was committed, with their responses.
  datatype State = State(
    row: Option<Record>, phases: map<RequestId, Phase>, answers: map<RequestId, Answer>, orders: map<RequestId, Response>)

  datatype Action =
    | Arrive(r: RequestId)
    | Lookup(r: RequestId, works: bool)
    | Reserve(r: RequestId, sent: Sent)
    | Return(r: RequestId, response: Response)
    | Throw(r: RequestId)
    | Write(r: RequestId, sent: Sent)
    | Delete(r: RequestId, sent: Sent)
    | Commit(r: RequestId, sent: Sent)
    | Crash(r: RequestId)

  predicate In(s: State, r: RequestId, phase: Phase) {
    r in s.phases && s.phases[r] == phase
  }

  function Move(s: State, r: RequestId, phase: Phase): (s': State) {
    s.(phases := s.phases[r := phase])
  }

  /** The request is over; its tenant transaction is rolled back unless committed. */
  function Answer(s: State, r: RequestId, answer: Answer): (s': State) {
    s.(phases := s.phases[r := Over], answers := s.answers[r := answer])
  }

  function Step(s: State, a: Action): (s': State) {
    match a
    case Arrive(r) => if r in s.phases then s else Move(s, r, Opened)
    case Lookup(r, works) =>
      if !In(s, r, Opened) then s
      else if !works then Answer(s, r, Error("lookup"))
      else if s.row.None? then Move(s, r, Missed)
      else if s.row.value.statusCode == 0 then Answer(s, r, Conflict)
      else Answer(s, r, Answered(Response(s.row.value.statusCode, s.row.value.body)))
    case Reserve(r, sent) =>
      if !In(s, r, Missed) then s
      else if sent.Fails? then
        Answer(s.(row := if sent.applied && s.row.None? then Some(RESERVED) else s.row), r, Error("insert"))
      else if s.row.Some? then Answer(s, r, Conflict)
      else Move(s.(row := Some(RESERVED)), r, Running)
    case Return(r, response) =>
      if !In(s, r, Running) || response.statusCode == 0 then s else Move(s, r, Handled(response))
    case Throw(r) => if !In(s, r, Running) then s else Move(s, r, Failing)
    case Write(r, sent) =>
      if r !in s.phases || !s.phases[r].Handled? then s
      else
        var response := s.phases[r].response;
        var row := if s.row.Some? then Some(Record(response.statusCode, response.body)) else None;
        if sent.Works? then Move(s.(row := row), r, Recorded(response))
        else Move(s.(row := if sent.applied then row else s.row), r, Failing)
    case Delete(r, sent) =>
      if !In(s, r, Failing) then s
      else Answer(s.(row := if TakesEffect(sent) then None else s.row), r, Error("handler"))
    case Commit(r, sent) =>
      if r !in s.phases || !s.phases[r].Recorded? then s
      else
        var committed := if TakesEffect(sent) then s.(orders := s.orders[r := s.phases[r].result]) else s;
        Answer(committed, r, if sent.Works? then Answered(s.phases[r].result) else Error("commit"))
    case Crash(r) => if r !in s.phases then s else Move(s, r, Over)
  }

  function Run(s: State, actions: seq<Action>): (s': State) {
    if |actions| == 0 then s else Step(Run(s, actions[..|actions| - 1]), actions[|actions| - 1])
  }

  const START := State(None, map[], map[], map[])

  // ----- the reserving request -----

  /** From reserving the key to the end of its transaction. */
  predicate Holds(s: State, r: RequestId) {
    r in s.phases && (s.phases[r].Running? || s.phases[r].Handled? || s.phases[r].Recorded? || s.phases[r].Failing?)
  }

  /** What the holder knows about the record. */
  predicate RowMatches(row: Option<Record>, phase: Phase) {
    match phase
    case Running => row == Some(RESERVED)
    case Handled(response) => row == Some(RESERVED) && response.statusCode != 0
    case Recorded(result) => row == Some(Record(result.statusCode, result.body)) && result.statusCode != 0
    case Failing => row.Some?
    case _ => true
  }

  ghost predicate Inv(s: State) {
    && (forall r, q :: Holds(s, r) && Holds(s, q) ==> r == q)
    && (forall r :: r in s.phases ==> RowMatches(s.row, s.phases[r]))
    && (forall r, q :: r in s.orders && q in s.orders ==> r == q)
    && (forall r :: r in s.orders ==>
          && !(exists q :: Holds(s, q))
          && s.orders[r].statusCode != 0
          && s.row == Some(Record(s.orders[r].statusCode, s.orders[r].body))
          && In(s, r, Over))
  }

  predicate HolderPhase(phase: Phase) {
    phase.Running? || phase.Handled? || phase.Recorded? || phase.Failing?
  }

  /** What one request may do: only the holder changes an existing record, and only a free key is taken. */
  lemma Moved(s: State, s': State, r: RequestId)
    requires Inv(s) && r in s'.phases && s'.phases == s.phases[r := s'.phases[r]]
    requires HolderPhase(s'.phases[r]) ==> Holds(s, r) || (s.row.None? && s.orders == map[])
    requires RowMatches(s'.row, s'.phases[r])
    requires s'.row == s.row || Holds(s, r) || (s.row.None? && s'.row == Some(RESERVED))
    requires s'.orders == s.orders ||
             (r in s.phases && s.phases[r].Recorded? && s'.phases[r] == Over && s'.row == s.row &&
              s'.orders == s.orders[r := s.phases[r].result])
    requires r in s.orders ==> s'.phases[r] == Over
    ensures Inv(s')
  {
    assert forall q :: q != r ==> (Holds(s', q) <==> Holds(s, q));
    assert s.row.None? ==> forall q :: q in s.phases ==> !HolderPhase(s.phases[q]);
    assert Holds(s, r) ==> forall q :: Holds(s, q) ==> q == r;
    assert Holds(s, r) ==> s.orders == map[];
    forall q | q in s'.phases
      ensures RowMatches(s'.row, s'.phases[q])
    {
      assert q != r ==> RowMatches(s.row, s.phases[q]);
      assert q != r && HolderPhase(s.phases[q]) ==> Holds(s, q);
    }
  }

  lemma StepInv(s: State, a: Action)
    requires Inv(s)
    ensures Inv(Step(s, a))
  {
    var s' := Step(s, a);
    if s' != s {
      if a.Reserve? && s.row.None? {
        assert s.orders == map[];
      }
      if a.r in s.phases {
        assert RowMatches(s.row, s.phases[a.r]);
        assert HolderPhase(s.phases[a.r]) ==> Holds(s, a.r);
        assert Holds(s, a.r) ==> a.r !in s.orders;
      }
      assert s'.phases == s.phases[a.r := s'.phases[a.r]];
      hide Inv;
      Moved(s, s', a.r);
    }
  }

  lemma {:induction false} RunInv(s: State, actions: seq<Action>)
    requires Inv(s)
    ensures Inv(Run(s, actions))
  {
    hide Step, Inv;
    if |actions| == 0 {
    } else {
      RunInv(s, actions[..|actions| - 1]);
      StepInv(Run(s, actions[..|actions| - 1]), actions[|actions| - 1]);
    }
  }

  lemma StartInv()
    ensures Inv(START)
  {
  }

  /** A crash ends a request where it is: what took effect stays, and it is never answered. */
  lemma CrashEndsRequest(s: State, r: RequestId)
    requires r in s.phases
    ensures Step(s, Crash(r)) == State(s.row, s.phases[r := Over], s.answers, s.orders)
  {
  }

  // ----- the promises -----

  /** Whatever fails or crashes, and however requests interleave, a key creates at most one order. */
  lemma AtMostOneOrder(actions: seq<Action>)
    ensures |Run(START, actions).orders| <= 1
  {
    hide Run;
    StartInv();
    RunInv(START, actions);
    var orders := Run(START, actions).orders;
    if r :| r in orders {
      assert orders.Keys == {r};
    }
  }

  /** Handlers of one key never run at the same time. */
  lemma HandlersNeverOverlap(actions: seq<Action>, r: RequestId, q: RequestId)
    requires In(Run(START, actions), r, Running) && In(Run(START, actions), q, Running)
    ensures r == q
  {
    hide Run;
    StartInv();
    RunInv(START, actions);
    assert Holds(Run(START, actions), r) && Holds(Run(START, actions), q);
  }

  /** A record is inserted only where there is none, and then changed or removed only by the request that holds the key. */
  lemma OnlyTheHolderWrites(s: State, a: Action)
    requires Inv(s) && Step(s, a).row != s.row
    ensures if s.row.None? then a.Reserve? && In(s, a.r, Missed) && Step(s, a).row == Some(RESERVED)
            else Holds(s, a.r)
  {
  }

  /** A recorded result is never overwritten: it stays as it is until it is removed. */
  lemma ResultIsNeverOverwritten(s: State, a: Action)
    requires Inv(s) && s.row.Some? && s.row.value.statusCode != 0 && Step(s, a).row.Some?
    ensures Step(s, a).row == s.row
  {
    assert a.r in s.phases ==> RowMatches(s.row, s.phases[a.r]);
  }

  /** While a result is pending, every other request with the key gets 409. */
  lemma RivalsGetConflict(s: State, r: RequestId, q: RequestId)
    requires Inv(s) && r in s.phases && (s.phases[r].Running? || s.phases[r].Handled?)
    ensures In(s, q, Opened) ==> Step(s, Lookup(q, true)) == Answer(s, q, Conflict)
    ensures In(s, q, Missed) ==> Step(s, Reserve(q, Works)) == Answer(s, q, Conflict)
  {
    assert RowMatches(s.row, s.phases[r]);
  }

  /** The response of the one committed order, as every later answer of the run must have it. */
  predicate AnswersAgree(before: State, after: State, response: Response) {
    forall q :: q in after.answers && q !in before.answers ==>
      after.answers[q] == Answered(response) || after.answers[q] == Conflict || after.answers[q].Error?
  }

  /** Once an order is committed, its recorded response stays for good, and every answer given later agrees with it. */
  lemma {:induction false} OrderIsFinal(s: State, actions: seq<Action>, r: RequestId)
    requires Inv(s) && r in s.orders
    ensures Run(s, actions).orders == s.orders && Run(s, actions).row == s.row
    ensures AnswersAgree(s, Run(s, actions), s.orders[r])
  {
    if |actions| == 0 {
    } else {
      var before := actions[..|actions| - 1];
      OrderIsFinal(s, before, r);
      RunInv(s, before);
      AfterTheOrder(Run(s, before), actions[|actions| - 1], r);
    }
  }

  lemma AfterTheOrder(s: State, a: Action, r: RequestId)
    requires Inv(s) && r in s.orders
    ensures Step(s, a).orders == s.orders && Step(s, a).row == s.row
    ensures AnswersAgree(s, Step(s, a), s.orders[r])
    ensures forall q :: q in s.answers && q != a.r ==> q in Step(s, a).answers && Step(s, a).answers[q] == s.answers[q]
    ensures a.r in Step(s, a).answers && (a.r !in s.answers || Step(s, a).answers[a.r] != s.answers[a.r]) ==>
              Step(s, a).answers[a.r] == Answered(s.orders[r]) || Step(s, a).answers[a.r] == Conflict || Step(s, a).answers[a.r].Error?
  {
    assert !Holds(s, a.r);
  }

  // ----- where a replay has no order behind it -----

  /** A record whose holder is gone without committing can never get an order: its key is used up. */
  ghost predicate UsedUp(s: State) {
    Inv(s) && s.row.Some? && s.orders == map[] && forall r :: !Holds(s, r)
  }

  /** The holder of the key ends without an order and without freeing the key, or a key is taken without a holder. */
  predicate Loses(s: State, a: Action) {
    match a
    case Reserve(r, sent) => In(s, r, Missed) && s.row.None? && sent == Fails(true)
    case Delete(r, sent) => In(s, r, Failing) && sent == Fails(false)
    case Commit(r, sent) => r in s.phases && s.phases[r].Recorded? && sent == Fails(false)
    case Crash(r) => Holds(s, r)
    case _ => false
  }

  lemma HolderKnows(s: State)
    requires Inv(s)
    ensures forall r :: Holds(s, r) ==> s.row.Some? && s.orders == map[]
    ensures forall r, q :: Holds(s, r) && Holds(s, q) ==> r == q
    ensures s.orders != map[] ==> s.row.Some?
  {
    forall r | Holds(s, r)
      ensures s.row.Some? && s.orders == map[]
    {
      assert RowMatches(s.row, s.phases[r]);
      assert forall q :: q in s.orders ==> !(exists p :: Holds(s, p));
    }
  }

  lemma OthersHoldAsBefore(s: State, a: Action)
    ensures forall q :: q != a.r ==> (Holds(Step(s, a), q) <==> Holds(s, q))
  {
  }

  lemma StepUsedUp(s: State, a: Action)
    requires Inv(s)
    ensures UsedUp(Step(s, a)) <==> UsedUp(s) || Loses(s, a)
    ensures UsedUp(s) ==> Step(s, a).row == s.row
  {
    StepInv(s, a);
    HolderKnows(s);
    OthersHoldAsBefore(s, a);
    hide Inv;
    if UsedUp(s) {
      assert !Holds(s, a.r);
    }
    if UsedUp(Step(s, a)) {
      assert !Holds(Step(s, a), a.r) && a.r !in Step(s, a).orders;
      assert !Holds(s, a.r) ==> forall q :: !Holds(s, q);
    }
    if Loses(s, a) {
      assert a.Reserve? || Holds(s, a.r);
    }
  }

  lemma {:induction false} UsedUpForGood(s: State, actions: seq<Action>)
    requires UsedUp(s)
    ensures UsedUp(Run(s, actions)) && Run(s, actions).row == s.row
  {
    hide Step, UsedUp;
    if |actions| == 0 {
    } else {
      var before, a := actions[..|actions| - 1], actions[|actions| - 1];
      UsedUpForGood(s, before);
      UsedUpInv(s);
      RunInv(s, before);
      StepUsedUp(Run(s, before), a);
    }
  }

  lemma UsedUpInv(s: State)
    requires UsedUp(s)
    ensures Inv(s)
  {
  }

  predicate LosesAt(s: State, actions: seq<Action>, k: nat)
    requires k < |actions|
  {
    Loses(Run(s, actions[..k]), actions[k])
  }

  lemma {:induction false} UsedUpFrom(s: State, actions: seq<Action>)
    requires Inv(s)
    ensures UsedUp(Run(s, actions)) <==> UsedUp(s) || exists k :: 0 <= k < |actions| && LosesAt(s, actions, k)
  {
    hide Step, UsedUp, Loses, Inv;
    if |actions| == 0 {
    } else {
      var n := |actions| - 1;
      var before := actions[..n];
      UsedUpFrom(s, before);
      RunInv(s, before);
      StepUsedUp(Run(s, before), actions[n]);
      assert LosesAt(s, actions, n) <==> Loses(Run(s, before), actions[n]);
      forall k | 0 <= k < n
        ensures LosesAt(s, actions, k) <==> LosesAt(s, before, k)
      {
        assert before[..k] == actions[..k];
      }
    }
  }

  /**
   A key has a record that no order will ever back exactly when somewhere in the run its commit
   failed without effect, its holder crashed, the delete of a failed request did not take effect,
   or an insert took effect although it reported a failure.
   */
  lemma {:induction false} UsedUpExactly(actions: seq<Action>)
    ensures UsedUp(Run(START, actions)) <==> exists k :: 0 <= k < |actions| && LosesAt(START, actions, k)
  {
    hide Run, UsedUp, LosesAt;
    StartInv();
    StartNotUsedUp();
    UsedUpFrom(START, actions);
  }

  lemma StartNotUsedUp()
    ensures !UsedUp(START)
  {
  }

  /** The order of this response may still be committed. */
  predicate Awaited(s: State, response: Response) {
    exists r :: r in s.phases && s.phases[r] == Recorded(response)
  }

  /** The response was recorded, but its request is failing and will roll its order back. */
  predicate BeingRolledBack(s: State) {
    exists r :: r in s.phases && s.phases[r].Failing?
  }

  predicate Committed(s: State, response: Response) {
    exists r :: r in s.orders && s.orders[r] == response
  }

  /**
   What stands behind a replay when it is given: exactly one of a committed order with this very
   response, an order about to be committed, an order being rolled back, or a key used up.
   */
  lemma ReplayStandsOn(actions: seq<Action>, q: RequestId, response: Response)
    requires Replays(Run(START, actions), q, response)
    ensures var s := Run(START, actions);
            && (Committed(s, response) || Awaited(s, response) || BeingRolledBack(s) || UsedUp(s))
            && !(Committed(s, response) && (Awaited(s, response) || BeingRolledBack(s) || UsedUp(s)))
            && !(UsedUp(s) && (Awaited(s, response) || BeingRolledBack(s)))
            && !(Awaited(s, response) && BeingRolledBack(s))
  {
    hide Run;
    StartInv();
    RunInv(START, actions);
    var s := Run(START, actions);
    if r :| r in s.orders {
      assert s.orders[r] == response;
    } else if r :| Holds(s, r) {
      assert RowMatches(s.row, s.phases[r]);
    }
    assert forall r :: r in s.phases && (s.phases[r].Recorded? || s.phases[r].Failing?) ==> Holds(s, r);
  }

  // ----- what becomes of the order behind a replay -----

  /** The order of r has this response and is committed or may still be. */
  predicate Backs(s: State, r: RequestId, response: Response) {
    (r in s.orders && s.orders[r] == response) || (r in s.phases && s.phases[r] == Recorded(response))
  }

  lemma StepBacks(s: State, a: Action, r: RequestId, response: Response)
    requires Inv(s) && Backs(s, r, response)
    ensures Backs(Step(s, a), r, response) <==> !UsedUp(Step(s, a))
  {
    StepInv(s, a);
    HolderKnows(s);
    OthersHoldAsBefore(s, a);
    if r in s.orders {
      AfterTheOrder(s, a, r);
    } else {
      assert Holds(s, r);
    }
  }

  lemma BackedNotUsedUp(s: State, r: RequestId, response: Response)
    requires Backs(s, r, response)
    ensures !UsedUp(s)
  {
    if r !in s.orders {
      assert Holds(s, r);
    }
  }

  /** A recorded result is committed, or may still be, until a step loses it: that and nothing else ends it. */
  lemma {:induction false} RecordedFate(s: State, actions: seq<Action>, r: RequestId, response: Response)
    requires Inv(s) && Backs(s, r, response)
    ensures Backs(Run(s, actions), r, response) <==> !UsedUp(Run(s, actions))
    ensures Backs(Run(s, actions), r, response) <==> forall k :: 0 <= k < |actions| ==> !LosesAt(s, actions, k)
  {
    hide Step, UsedUp, Inv, Backs, Loses, LosesAt;
    BackedNotUsedUp(s, r, response);
    UsedUpFrom(s, actions);
    if |actions| == 0 {
    } else {
      var before, a := actions[..|actions| - 1], actions[|actions| - 1];
      RecordedFate(s, before, r, response);
      RunInv(s, before);
      if Backs(Run(s, before), r, response) {
        StepBacks(Run(s, before), a, r, response);
      } else {
        StepUsedUp(Run(s, before), a);
        if Backs(Run(s, actions), r, response) {
          BackedNotUsedUp(Run(s, actions), r, response);
        }
      }
    }
  }

  predicate RolledBack(s: State, r: RequestId) {
    r in s.phases && (s.phases[r].Failing? || s.phases[r].Over?) && r !in s.orders
  }

  /** A request that is failing never gets an order. */
  lemma {:induction false} FailingNeverCommits(s: State, actions: seq<Action>, r: RequestId)
    requires RolledBack(s, r)
    ensures RolledBack(Run(s, actions), r)
  {
    hide Step, RolledBack;
    if |actions| == 0 {
    } else {
      FailingNeverCommits(s, actions[..|actions| - 1], r);
      StepRolledBack(Run(s, actions[..|actions| - 1]), actions[|actions| - 1], r);
    }
  }

  lemma StepRolledBack(s: State, a: Action, r: RequestId)
    requires RolledBack(s, r)
    ensures RolledBack(Step(s, a), r)
  {
  }

  /** Whose order a response on record is: committed, recorded, or recorded and now failing. */
  predicate Author(s: State, r: RequestId, response: Response) {
    Backs(s, r, response) || (r in s.phases && s.phases[r].Failing?)
  }

  predicate Replays(s: State, q: RequestId, response: Response) {
    && In(s, q, Opened) && q !in s.answers
    && q in Step(s, Lookup(q, true)).answers && Step(s, Lookup(q, true)).answers[q] == Answered(response)
  }

  /** The request behind the replay has its order, or may still get it, after the further actions. */
  ghost predicate StaysBacked(s: State, more: seq<Action>, response: Response) {
    exists r :: Author(s, r, response) && Backs(Run(s, more), r, response)
  }

  predicate NothingLost(s: State, more: seq<Action>) {
    forall k :: 0 <= k < |more| ==> !LosesAt(s, more, k)
  }

  /**
   However the run goes on, the order that a replay reported is committed or still pending exactly
   when at the replay it was committed, or recorded with no losing step after it. If its request
   was failing, or the key used up, there is never such an order.
   */
  lemma {:induction false} ReplayedOrderExactly(actions: seq<Action>, q: RequestId, response: Response, more: seq<Action>)
    requires Replays(Run(START, actions), q, response)
    ensures var s := Run(START, actions);
            && (StaysBacked(s, more, response) <==>
                  Committed(s, response) || (Awaited(s, response) && NothingLost(s, more)))
            && (UsedUp(s) ==> Run(s, more).orders == map[])
  {
    hide Run, Step, Inv, UsedUp, Loses, LosesAt;
    var s := Run(START, actions);
    StartInv();
    RunInv(START, actions);
    ReplayStandsOn(actions, q, response);
    if UsedUp(s) {
      UsedUpForGood(s, more);
      UsedUpOrders(Run(s, more));
    }
    forall r | Author(s, r, response)
      ensures Backs(Run(s, more), r, response) <==> Backs(s, r, response) && NothingLost(s, more)
    {
      if Backs(s, r, response) {
        RecordedFate(s, more, r, response);
      } else {
        FailingHasNoOrder(s, r);
        FailingNeverCommits(s, more, r);
      }
    }
    if Committed(s, response) {
      var r :| r in s.orders && s.orders[r] == response;
      OrderIsFinal(s, more, r);
      assert Author(s, r, response) && Backs(Run(s, more), r, response);
    }
    if Awaited(s, response) {
      var r :| r in s.phases && s.phases[r] == Recorded(response);
      assert Author(s, r, response);
    }
  }

  lemma UsedUpOrders(s: State)
    requires UsedUp(s)
    ensures s.orders == map[]
  {
  }

  lemma FailingHasNoOrder(s: State, r: RequestId)
    requires Inv(s) && r in s.phases && s.phases[r].Failing?
    ensures RolledBack(s, r)
  {
  }

  // ----- how often a handler completes -----

  /** The handlers that returned. */
  function Completed(actions: seq<Action>): (n: nat) {
    if |actions| == 0 then 0
    else
      var before, a := actions[..|actions| - 1], actions[|actions| - 1];
      Completed(before) + if a.Return? && In(Run(START, before), a.r, Running) && a.response.statusCode != 0 then 1 else 0
  }

  /** The writes of a result that reported a failure. */
  function FailedWrites(actions: seq<Action>): (n: nat) {
    if |actions| == 0 then 0
    else
      var before, a := actions[..|actions| - 1], actions[|actions| - 1];
      var s := Run(START, before);
      FailedWrites(before) + if a.Write? && a.sent.Fails? && a.r in s.phases && s.phases[a.r].Handled? then 1 else 0
  }

  /** A handler that returned is accounted for by the record: no other starts until a write fails. */
  predicate Occupied(s: State) {
    s.row.Some? && forall r :: r in s.phases ==> !s.phases[r].Running? && !s.phases[r].Failing?
  }

  lemma StepOccupied(s: State, a: Action)
    requires Inv(s)
    ensures a.Return? && In(s, a.r, Running) && a.response.statusCode != 0 ==> !Occupied(s) && Occupied(Step(s, a))
    ensures Occupied(s) && !Occupied(Step(s, a)) ==> a.Write? && a.sent.Fails? && a.r in s.phases && s.phases[a.r].Handled?
  {
    HolderKnows(s);
    OthersHoldAsBefore(s, a);
    assert forall r :: r in s.phases && HolderPhase(s.phases[r]) ==> Holds(s, r);
    assert a.r in s.phases ==> RowMatches(s.row, s.phases[a.r]);
  }

  /**
   A handler completes at most once more than a record of its result fails to be written, for
   handlers of any kind: their effects need not be in the tenant transaction.
   */
  lemma {:induction false} CompletedHandlersBounded(actions: seq<Action>)
    ensures Completed(actions) <= FailedWrites(actions) + (if Occupied(Run(START, actions)) then 1 else 0)
  {
    hide Step, Inv, Occupied;
    if |actions| == 0 {
    } else {
      var before := actions[..|actions| - 1];
      CompletedHandlersBounded(before);
      StartInv();
      RunInv(START, before);
      StepOccupied(Run(START, before), actions[|actions| - 1]);
    }
  }

  lemma RunNext(s: State, actions: seq<Action>, a: Action)
    ensures Run(s, actions + [a]) == Step(Run(s, actions), a)
  {
    assert (actions + [a])[..|actions|] == actions;
  }

  /** Seven actions that take one request from arrival to its end; those that do not apply change nothing. */
  function Serial(r: RequestId, handler: Result<Response, string>, faults: Faults, commit: Sent): (actions: seq<Action>) {
    [Arrive(r), Lookup(r, !faults.lookup), Reserve(r, faults.insert),
     if handler.Ok? then Return(r, handler.value) else Throw(r),
     Write(r, faults.record), Delete(r, faults.delete), Commit(r, commit)]
  }

  lemma SerialRun(s: State, r: RequestId, handler: Result<Response, string>, faults: Faults, commit: Sent)
    ensures var a := Serial(r, handler, faults, commit);
            var reserved := Step(Step(Step(s, a[0]), a[1]), a[2]);
            Run(s, a) == Step(Step(Step(Step(reserved, a[3]), a[4]), a[5]), a[6])
  {
    hide Step;
    var a := Serial(r, handler, faults, commit);
    assert a[..7] == a && a[..0] == [];
    forall k | 0 <= k < 7
      ensures Run(s, a[..k + 1]) == Step(Run(s, a[..k]), a[k])
    {
      assert a[..k + 1] == a[..k] + [a[k]];
      RunNext(s, a[..k], a[k]);
    }
    assert Run(s, a[..3]) == Step(Run(s, a[..2]), a[2]) == Step(Step(Run(s, a[..1]), a[1]), a[2]);
    assert Run(s, a[..7]) == Step(Step(Run(s, a[..5]), a[5]), a[6]);
    assert Run(s, a[..5]) == Step(Step(Run(s, a[..3]), a[3]), a[4]);
    assert Run(s, a[..1]) == Step(Run(s, a[..0]), a[0]);
  }

  /** The first three actions either end the request or leave it holding the key. */
  lemma SerialReserve(s: State, r: RequestId, handler: Result<Response, string>, faults: Faults, commit: Sent)
    requires r !in s.phases && r !in s.answers
    ensures var a := Serial(r, handler, faults, commit);
            var t := Step(Step(Step(s, a[0]), a[1]), a[2]);
            t == if faults.lookup then Answer(s, r, Error("lookup"))
                 else if s.row.Some? then
                   Answer(s, r, if s.row.value.statusCode == 0 then Conflict
                                else Answered(Response(s.row.value.statusCode, s.row.value.body)))
                 else if faults.insert.Fails? then
                   Answer(s.(row := if faults.insert.applied then Some(RESERVED) else None), r, Error("insert"))
                 else Move(s.(row := Some(RESERVED)), r, Running)
  {
    assert s.phases[r := Opened][r := Missed] == s.phases[r := Missed];
    assert s.phases[r := Missed][r := Running] == s.phases[r := Running];
    assert s.phases[r := Opened][r := Over] == s.phases[r := Over];
    assert s.phases[r := Missed][r := Over] == s.phases[r := Over];
  }

  /** The last four actions, from the running handler or from the end of the request. */
  lemma SerialFinish(t: State, r: RequestId, handler: Result<Response, string>, faults: Faults, commit: Sent)
    requires handler.Ok? ==> handler.value.statusCode != 0
    requires In(t, r, Over) || (In(t, r, Running) && t.row == Some(RESERVED) && r !in t.orders)
    ensures var a := Serial(r, handler, faults, commit);
            var u := Step(Step(Step(Step(t, a[3]), a[4]), a[5]), a[6]);
            if In(t, r, Over) then u == t
            else if handler.Ok? && faults.record.Works? then
              && u.row == Some(Record(handler.value.statusCode, handler.value.body))
              && r in u.answers
              && u.answers[r] == (if commit.Works? then Answered(handler.value) else Error("commit"))
              && u.orders == (if TakesEffect(commit) then t.orders[r := handler.value] else t.orders)
              && u.phases == t.phases[r := Over]
            else
              && u.row == (if TakesEffect(faults.delete) then None
                           else if handler.Ok? && faults.record.applied
                           then Some(Record(handler.value.statusCode, handler.value.body)) else Some(RESERVED))
              && r in u.answers && u.answers[r].Error? && u.orders == t.orders
  {
  }

  function RowOf(records: map<string, Record>, key: string): (row: Option<Record>) {
    if key in records then Some(records[key]) else None
  }

  /**
   The interceptor's single request is a run of the protocol, however its statements and its
   commit end: the same record, the same kind of answer unless the commit failed, and its
   order is committed exactly when the interceptor answered and the commit took effect.
   */
  lemma InterceptIsARun(s: State, r: RequestId, records: map<string, Record>, key: string,
                        handler: Result<Response, string>, faults: Faults, commit: Sent)
    requires r !in s.phases && r !in s.answers && r !in s.orders && s.row == RowOf(records, key)
    requires handler.Ok? ==> handler.value.statusCode != 0
    ensures var served := Intercepted(records, key, handler, faults);
            var s' := Run(s, Serial(r, handler, faults, commit));
            && s'.row == RowOf(served.records, key)
            && r in s'.answers
            && (if served.ran && served.answer.Answered? && commit.Fails? then s'.answers[r].Error?
                else s'.answers[r] == served.answer || (s'.answers[r].Error? && served.answer.Error?))
            && (r in s'.orders <==> served.ran && served.answer.Answered? && TakesEffect(commit))
  {
    hide Run, Step;
    var a := Serial(r, handler, faults, commit);
    var t := Step(Step(Step(s, a[0]), a[1]), a[2]);
    SerialRun(s, r, handler, faults, commit);
    SerialReserve(s, r, handler, faults, commit);
    SerialFinish(t, r, handler, faults, commit);
  }

  lemma LostCommit(response: Response)
    requires response.statusCode != 0
    ensures var s := Run(START, Serial(1, Ok(response), NO_FAULTS, Fails(false)));
            && s.row == Some(Record(response.statusCode, response.body)) && s.orders == map[]
            && s.phases == map[1 := Over]
  {
    hide Run, Step;
    var running := Move(START.(row := Some(RESERVED)), 1, Running);
    SerialRun(START, 1, Ok(response), NO_FAULTS, Fails(false));
    SerialReserve(START, 1, Ok(response), NO_FAULTS, Fails(false));
    SerialFinish(running, 1, Ok(response), NO_FAULTS, Fails(false));
  }

  lemma ReplayStep(s: State, response: Response)
    requires s.row == Some(Record(response.statusCode, response.body)) && response.statusCode != 0
    requires s.phases == map[1 := Over]
    ensures var t := Step(Step(s, Arrive(2)), Lookup(2, true));
            && t.row == s.row && t.orders == s.orders && t.phases == map[1 := Over, 2 := Over]
            && t.answers == s.answers[2 := Answered(response)]
  {
  }

  /**
   A replay can report an order that does not exist: the result is recorded, then the
   commit of the surrounding transaction fails, and the key is used up.
   */
  lemma ReplayWithoutOrder(response: Response) returns (actions: seq<Action>)
    requires response.statusCode != 0
    ensures var s := Run(START, actions);
            UsedUp(s) && 2 in s.answers && s.answers[2] == Answered(response)
  {
    hide Run, Step, Inv, Serial;
    var first := Serial(1, Ok(response), NO_FAULTS, Fails(false));
    var s1 := Run(START, first);
    LostCommit(response);
    assert s1.row == Some(Record(response.statusCode, response.body)) && s1.orders == map[];
    assert s1.phases == map[1 := Over];
    actions := first + [Arrive(2)] + [Lookup(2, true)];
    RunNext(START, first, Arrive(2));
    RunNext(START, first + [Arrive(2)], Lookup(2, true));
    ReplayStep(s1, response);
    StartInv();
    RunInv(START, actions);
  }

  lemma RecordedAndFailing(response: Response) returns (actions: seq<Action>)
    requires response.statusCode != 0
    ensures Run(START, actions) == State(Some(Record(response.statusCode, response.body)), map[1 := Failing], map[], map[])
  {
    hide Run;
    var a1 := [Arrive(1)];
    var a2 := a1 + [Lookup(1, true)];
    var a3 := a2 + [Reserve(1, Works)];
    var a4 := a3 + [Return(1, response)];
    actions := a4 + [Write(1, Fails(true))];
    RunOfNone();
    assert [] + a1 == a1;
    RunNext(START, [], Arrive(1));
    RunNext(START, a1, Lookup(1, true));
    RunNext(START, a2, Reserve(1, Works));
    assert Run(START, a3) == State(Some(RESERVED), map[1 := Running], map[], map[]);
    RunNext(START, a3, Return(1, response));
    RunNext(START, a4, Write(1, Fails(true)));
  }

  lemma RunOfNone()
    ensures Run(START, []) == START
  {
  }

  /**
   Nor is a lost commit the only way: a result is recorded by a write that reports a failure, it
   is replayed, and then the failing request frees the key without an order.
   */
  lemma ReplayOfFailing(response: Response) returns (actions: seq<Action>)
    requires response.statusCode != 0
    ensures var s := Run(START, actions);
            s.row.None? && s.orders == map[] && 2 in s.answers && s.answers[2] == Answered(response)
  {
    hide Run;
    var failing := RecordedAndFailing(response);
    var arrived := failing + [Arrive(2)];
    var replayed := arrived + [Lookup(2, true)];
    actions := replayed + [Delete(1, Works)];
    RunNext(START, failing, Arrive(2));
    RunNext(START, arrived, Lookup(2, true));
    RunNext(START, replayed, Delete(1, Works));
  }
}
