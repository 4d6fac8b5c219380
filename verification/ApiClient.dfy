/**
 The web client's calls with a coalesced token refresh. Calls interleave wherever one of
 them awaits a response or the shared refresh; each action is the code between two awaits.
 */
module ApiClient {
  import opened Schema

  const UNAUTHORIZED := 401

  // Where a call awaits, or how it ended. A call that fails threw on a network error.
  datatype Phase = Sent | Waiting(refresh: nat) | Resent | Finished(status: nat) | Failed

  // statuses: the responses to its own request. joined: the refreshes it awaited.
  datatype Call = Call(skipAuthRetry: bool, phase: Phase, sends: nat, statuses: seq<nat>, joined: seq<nat>)

  // Answered: the response is there but the promise has not been cleared and settled yet.
  datatype Stage = InFlight | Answered(ok: bool) | Settled(ok: bool)

  // refreshes: every refresh request made so far. refreshPromise: the one calls join.
  datatype State = State(calls: map<nat, Call>, refreshes: seq<Stage>, refreshPromise: Option<nat>)

  datatype Action =
    | Begin(c: nat, skipAuthRetry: bool)
    | Respond(c: nat, status: nat)
    | Fail(c: nat)
    | AnswerRefresh(k: nat, ok: bool)
    | Settle(k: nat)
    | Resume(c: nat)

  /** The refresh that a call joins, and the state with that refresh under way. */
  function Joined(s: State): (r: (State, nat)) {
    match s.refreshPromise
    case Some(k) => (s, k)
    case None => (s.(refreshes := s.refreshes + [InFlight], refreshPromise := Some(|s.refreshes|)), |s.refreshes|)
  }

  function Responded(s: State, c: nat, status: nat): (s': State)
    requires c in s.calls
  {
    var call := s.calls[c].(statuses := s.calls[c].statuses + [status]);
    if call.phase.Sent? && status == UNAUTHORIZED && !call.skipAuthRetry then
      var (joined, k) := Joined(s);
      joined.(calls := s.calls[c := call.(phase := Waiting(k), joined := call.joined + [k])])
    else if call.phase.Sent? || call.phase.Resent? then s.(calls := s.calls[c := call.(phase := Finished(status))])
    else s
  }

  function Resumed(s: State, c: nat): (s': State)
    requires c in s.calls
  {
    var call := s.calls[c];
    if !call.phase.Waiting? || call.phase.refresh >= |s.refreshes| then s
    else
      match s.refreshes[call.phase.refresh]
      case Settled(true) => s.(calls := s.calls[c := call.(phase := Resent, sends := call.sends + 1)])
      case Settled(false) => s.(calls := s.calls[c := call.(phase := Finished(UNAUTHORIZED))])
      case _ => s
  }

  function Step(s: State, a: Action): (s': State) {
    match a
    case Begin(c, skip) => if c in s.calls then s else s.(calls := s.calls[c := Call(skip, Sent, 1, [], [])])
    case Respond(c, status) => if c in s.calls then Responded(s, c, status) else s
    case Fail(c) =>
      if c in s.calls && (s.calls[c].phase.Sent? || s.calls[c].phase.Resent?)
      then s.(calls := s.calls[c := s.calls[c].(phase := Failed)]) else s
    case AnswerRefresh(k, ok) =>
      if k < |s.refreshes| && s.refreshes[k] == InFlight then s.(refreshes := s.refreshes[k := Answered(ok)]) else s
    case Settle(k) =>
      if k < |s.refreshes| && s.refreshes[k].Answered?
      then s.(refreshes := s.refreshes[k := Settled(s.refreshes[k].ok)], refreshPromise := None) else s
    case Resume(c) => if c in s.calls then Resumed(s, c) else s
  }

  function Run(s: State, actions: seq<Action>): (s': State) {
    if |actions| == 0 then s else Step(Run(s, actions[..|actions| - 1]), actions[|actions| - 1])
  }

  const START := State(map[], [], None)

  // ----- the client -----

  class ApiClient {
    var calls: map<nat, Call>
    var refreshes: seq<Stage>
    var refreshPromise: Option<nat>

    function Current(): (s: State)
      reads this
    {
      State(calls, refreshes, refreshPromise)
    }

    constructor ()
      ensures Current() == START
    {
      calls, refreshes, refreshPromise := map[], [], None;
    }

    /** Starts a refresh unless one is under way, and says which one to await. */
    method RefreshAccessToken() returns (k: nat)
      modifies this
      ensures (Current(), k) == Joined(old(Current()))
    {
      if refreshPromise.None? {
        refreshPromise := Some(|refreshes|);
        refreshes := refreshes + [InFlight];
      }
      k := refreshPromise.value;
    }

    /** apiFetch up to its first await. */
    method ApiFetch(c: nat, skipAuthRetry: bool)
      requires c !in calls
      modifies this
      ensures Current() == Step(old(Current()), Begin(c, skipAuthRetry))
    {
      calls := calls[c := Call(skipAuthRetry, Sent, 1, [], [])];
    }

    method OnResponse(c: nat, status: nat)
      requires c in calls && (calls[c].phase.Sent? || calls[c].phase.Resent?)
      modifies this
      ensures Current() == Step(old(Current()), Respond(c, status))
    {
      var call := calls[c].(statuses := calls[c].statuses + [status]);
      if call.phase.Sent? && status == UNAUTHORIZED && !call.skipAuthRetry {
        var k := RefreshAccessToken();
        calls := calls[c := call.(phase := Waiting(k), joined := call.joined + [k])];
      } else {
        calls := calls[c := call.(phase := Finished(status))];
      }
    }

    method OnRefreshResponse(k: nat, ok: bool)
      requires k < |refreshes| && refreshes[k] == InFlight
      modifies this
      ensures Current() == Step(old(Current()), AnswerRefresh(k, ok))
    {
      refreshes := refreshes[k := Answered(ok)];
    }

    /** The finally block runs before any of the calls that await the promise. */
    method Finally(k: nat)
      requires k < |refreshes| && refreshes[k].Answered?
      modifies this
      ensures Current() == Step(old(Current()), Settle(k))
      ensures refreshPromise.None? && refreshes[k] == Settled(old(refreshes)[k].ok)
      ensures calls == old(calls) && |refreshes| == |old(refreshes)|
      ensures forall j :: 0 <= j < |refreshes| && j != k ==> refreshes[j] == old(refreshes)[j]
      ensures old(OneUnsettled(Current())) ==> forall j :: 0 <= j < |refreshes| ==> refreshes[j].Settled?
    {
      refreshes := refreshes[k := Settled(refreshes[k].ok)];
      refreshPromise := None;
    }

    method OnRefreshed(c: nat, refreshed: bool)
      requires c in calls && calls[c].phase.Waiting?
      requires calls[c].phase.refresh < |refreshes| && refreshes[calls[c].phase.refresh] == Settled(refreshed)
      modifies this
      ensures Current() == Step(old(Current()), Resume(c))
    {
      if refreshed {
        calls := calls[c := calls[c].(phase := Resent, sends := calls[c].sends + 1)];
      } else {
        calls := calls[c := calls[c].(phase := Finished(UNAUTHORIZED))];
      }
    }
  }

  // ----- what every call and every refresh went through -----

  /** The refresh that calls join is the only one that is not settled. */
  predicate OneUnsettled(s: State) {
    && (s.refreshPromise.Some? ==> s.refreshPromise.value < |s.refreshes|)
    && forall k :: 0 <= k < |s.refreshes| ==> (!s.refreshes[k].Settled? <==> s.refreshPromise == Some(k))
  }

  predicate Retried(s: State, call: Call) {
    && !call.skipAuthRetry && call.sends == 2
    && |call.joined| == 1 && call.joined[0] < |s.refreshes| && s.refreshes[call.joined[0]] == Settled(true)
  }

  predicate FirstTry(call: Call) {
    call.sends == 1 && call.joined == []
  }

  predicate RefreshRefused(s: State, call: Call) {
    && !call.skipAuthRetry && call.sends == 1
    && |call.joined| == 1 && call.joined[0] < |s.refreshes| && s.refreshes[call.joined[0]] == Settled(false)
  }

  /** Which requests a call has sent, what they answered and which refresh it awaited, phase by phase. */
  predicate CallFits(s: State, call: Call) {
    match call.phase
    case Sent => FirstTry(call) && call.statuses == []
    case Waiting(k) =>
      && !call.skipAuthRetry && call.sends == 1 && call.statuses == [UNAUTHORIZED]
      && call.joined == [k] && k < |s.refreshes|
    case Resent => Retried(s, call) && call.statuses == [UNAUTHORIZED]
    case Finished(status) =>
      || (FirstTry(call) && call.statuses == [status] && (status == UNAUTHORIZED ==> call.skipAuthRetry))
      || (RefreshRefused(s, call) && call.statuses == [UNAUTHORIZED] && status == UNAUTHORIZED)
      || (Retried(s, call) && call.statuses == [UNAUTHORIZED, status])
    case Failed =>
      || (FirstTry(call) && call.statuses == [])
      || (Retried(s, call) && call.statuses == [UNAUTHORIZED])
  }

  predicate Inv(s: State) {
    OneUnsettled(s) && forall c :: c in s.calls ==> CallFits(s, s.calls[c])
  }

  /** Refreshes are only added, and a settled one keeps its outcome. */
  predicate Extends(s: State, s': State) {
    && |s.refreshes| <= |s'.refreshes|
    && forall k :: 0 <= k < |s.refreshes| && s.refreshes[k].Settled? ==> s'.refreshes[k] == s.refreshes[k]
  }

  lemma CallFitsLater(s: State, s': State, call: Call)
    requires CallFits(s, call) && Extends(s, s')
    ensures CallFits(s', call)
  {
  }

  lemma StepExtends(s: State, a: Action)
    ensures Extends(s, Step(s, a))
  {
  }

  lemma StepInv(s: State, a: Action)
    requires Inv(s)
    ensures Inv(Step(s, a))
  {
    var s' := Step(s, a);
    StepExtends(s, a);
    forall c | c in s'.calls
      ensures CallFits(s', s'.calls[c])
    {
      if c in s.calls && s'.calls[c] == s.calls[c] {
        CallFitsLater(s, s', s.calls[c]);
      }
    }
  }

  lemma {:induction false} RunInv(actions: seq<Action>)
    ensures Inv(Run(START, actions))
  {
    hide Step;
    if |actions| == 0 {
    } else {
      RunInv(actions[..|actions| - 1]);
      StepInv(Run(START, actions[..|actions| - 1]), actions[|actions| - 1]);
    }
  }

  // ----- results -----

  /** Whatever the interleaving, at most one refresh request is in flight. */
  lemma OneRefreshInFlight(actions: seq<Action>, j: nat, k: nat)
    requires var s := Run(START, actions);
             j < |s.refreshes| && k < |s.refreshes| && s.refreshes[j] == InFlight && s.refreshes[k] == InFlight
    ensures j == k
  {
    hide Run;
    RunInv(actions);
  }

  /**
   A call sends its request at most twice and awaits at most one refresh, and none when it
   opted out; it sends twice exactly if the refresh it awaited succeeded.
   */
  lemma CallIsBounded(actions: seq<Action>, c: nat)
    requires c in Run(START, actions).calls
    ensures var s := Run(START, actions);
            var call := s.calls[c];
            && 1 <= call.sends <= 2 && |call.joined| <= 1
            && (call.joined != [] ==> !call.skipAuthRetry && call.joined[0] < |s.refreshes|)
            && (call.joined != [] && !call.phase.Waiting? ==>
                  s.refreshes[call.joined[0]] == Settled(call.sends == 2))
            && (call.sends == 2 ==> call.joined != [])
  {
    hide Run;
    RunInv(actions);
  }

  /** The caller gets the last response, and a 401 only when no successful refresh could help. */
  lemma CallerGetsLastResponse(actions: seq<Action>, c: nat)
    requires c in Run(START, actions).calls && Run(START, actions).calls[c].phase.Finished?
    ensures var s := Run(START, actions);
            var call := s.calls[c];
            && call.statuses != [] && call.phase.status == call.statuses[|call.statuses| - 1]
            && (call.phase.status == UNAUTHORIZED && !call.skipAuthRetry ==>
                  call.sends == 2 || RefreshRefused(s, call))
  {
    hide Run;
    RunInv(actions);
  }

  /** Two calls that joined the same refresh act alike once they are past it. */
  lemma JoinersSeeOneOutcome(actions: seq<Action>, c: nat, d: nat)
    requires var s := Run(START, actions);
             && c in s.calls && d in s.calls
             && s.calls[c].joined != [] && s.calls[c].joined == s.calls[d].joined
             && !s.calls[c].phase.Waiting? && !s.calls[d].phase.Waiting?
    ensures var s := Run(START, actions); s.calls[c].sends == s.calls[d].sends
  {
    hide Run;
    RunInv(actions);
  }

  // ----- a call goes through -----

  /** A response that asks for no refresh ends the call, with one request sent and no refresh started. */
  lemma PlainCallEnds(s: State, c: nat, skip: bool, status: nat)
    requires c !in s.calls && (status != UNAUTHORIZED || skip)
    ensures Step(Step(s, Begin(c, skip)), Respond(c, status)) ==
            s.(calls := s.calls[c := Call(skip, Finished(status), 1, [status], [])])
  {
    assert [] + [status] == [status];
    var begun := s.calls[c := Call(skip, Sent, 1, [], [])];
    assert begun[c := Call(skip, Finished(status), 1, [status], [])] == s.calls[c := Call(skip, Finished(status), 1, [status], [])];
  }

  /** A 401 makes the call await the refresh under way, or the one that it starts itself. */
  lemma UnauthorizedCallWaits(s: State, c: nat)
    requires c !in s.calls
    ensures var k := if s.refreshPromise.Some? then s.refreshPromise.value else |s.refreshes|;
            Step(Step(s, Begin(c, false)), Respond(c, UNAUTHORIZED)) ==
            State(s.calls[c := Call(false, Waiting(k), 1, [UNAUTHORIZED], [k])],
                  if s.refreshPromise.Some? then s.refreshes else s.refreshes + [InFlight], Some(k))
  {
    var k := if s.refreshPromise.Some? then s.refreshPromise.value else |s.refreshes|;
    var begun := s.calls[c := Call(false, Sent, 1, [], [])];
    var waiting := Call(false, Waiting(k), 1, [UNAUTHORIZED], [k]);
    assert [] + [UNAUTHORIZED] == [UNAUTHORIZED] && [] + [k] == [k];
    assert begun[c := waiting] == s.calls[c := waiting];
  }

  /**
   Every call that awaits a settled refresh goes on: it sends its request again if the refresh
   succeeded, and then ends with whatever that request answers, else it ends with its 401.
   */
  lemma AwaitingCallGoesOn(s: State, c: nat, status: nat)
    requires c in s.calls && s.calls[c].phase.Waiting?
    requires s.calls[c].phase.refresh < |s.refreshes| && s.refreshes[s.calls[c].phase.refresh].Settled?
    ensures var call, ok := s.calls[c], s.refreshes[s.calls[c].phase.refresh].ok;
            var resumed := Step(s, Resume(c));
            && (!ok ==> resumed == s.(calls := s.calls[c := call.(phase := Finished(UNAUTHORIZED))]))
            && (ok ==> resumed == s.(calls := s.calls[c := call.(phase := Resent, sends := call.sends + 1)]))
            && (ok ==>
                  Step(resumed, Respond(c, status)) ==
                  s.(calls := s.calls[c := call.(phase := Finished(status), sends := call.sends + 1,
                                                 statuses := call.statuses + [status])]))
  {
  }

  /** A refresh that is answered and settled has that outcome, and frees the promise. */
  lemma RefreshSettles(s: State, k: nat, ok: bool)
    requires k < |s.refreshes| && s.refreshes[k] == InFlight
    ensures Step(Step(s, AnswerRefresh(k, ok)), Settle(k)) ==
            s.(refreshes := s.refreshes[k := Settled(ok)], refreshPromise := None)
  {
  }

  /** A network error ends a call that awaits a response, and nothing else. */
  lemma FailedCallEnds(s: State, c: nat)
    requires c in s.calls && (s.calls[c].phase.Sent? || s.calls[c].phase.Resent?)
    ensures Step(s, Fail(c)) == s.(calls := s.calls[c := s.calls[c].(phase := Failed)])
  {
  }

  lemma StepAddsOne(s: State, a: Action)
    requires OneUnsettled(s) && !a.Settle?
    ensures OneUnsettled(Step(s, a))
    ensures |Step(s, a).refreshes| + (if s.refreshPromise.Some? then 1 else 0) <=
            |s.refreshes| + if Step(s, a).refreshPromise.Some? then 1 else 0
  {
  }

  /** However many calls get a 401 before a refresh settles, together they start at most one. */
  lemma BurstStartsOneRefresh(s: State, actions: seq<Action>)
    requires OneUnsettled(s)
    requires forall i :: 0 <= i < |actions| ==> !actions[i].Settle?
    ensures |Run(s, actions).refreshes| <= |s.refreshes| + if s.refreshPromise.Some? then 0 else 1
  {
    RunAddsOne(s, actions);
  }

  lemma {:induction false} RunAddsOne(s: State, actions: seq<Action>)
    requires OneUnsettled(s)
    requires forall i :: 0 <= i < |actions| ==> !actions[i].Settle?
    ensures OneUnsettled(Run(s, actions))
    ensures |Run(s, actions).refreshes| + (if s.refreshPromise.Some? then 1 else 0) <=
            |s.refreshes| + if Run(s, actions).refreshPromise.Some? then 1 else 0
  {
    hide Step;
    if |actions| == 0 {
    } else {
      RunAddsOne(s, actions[..|actions| - 1]);
      StepAddsOne(Run(s, actions[..|actions| - 1]), actions[|actions| - 1]);
    }
  }
}
