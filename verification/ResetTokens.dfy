/**
 Password-reset tokens and revoked sessions over every run of account requests: stated on
 the history of requests, not on what the tables hold.
 */
module ResetTokens {
  import opened Schema
  import opened Accounts

  // ----- what a request does to user u -----

  /** A token is issued for u. */
  predicate Issues(a: Tables, op: Op, u: Uuid) {
    op.RequestReset? && FindOne(ByEmail(a.users, op.email)) == Some(u)
  }

  /** A reset succeeds for u. */
  predicate Uses(a: Tables, op: Op, u: Uuid) {
    op.Reset? && AnswerTo(a, op) == Done && FindOne(ByResetHash(a.users, Sha256(op.raw))) == Some(u)
  }

  predicate Removes(a: Tables, op: Op, u: Uuid) {
    op.RemoveStaff? && op.id == u && AnswerTo(a, op) == Done
  }

  /** u gets a refresh token other than by refreshing. */
  predicate LogsIn(a: Tables, op: Op, u: Uuid) {
    (op.Login? && AnswerTo(a, op) == Done && FindOne(ByEmail(a.users, op.email)) == Some(u)) || (op.Register? && op.id == u)
  }

  // ----- histories -----

  /** The request at i issued the latest token of u, which is unused so far. */
  predicate Live(a: Tables, ops: seq<Op>, i: nat, u: Uuid) {
    && i < |ops|
    && Issues(Run(a, ops[..i]), ops[i], u)
    && forall j :: i < j < |ops| ==> !Ends(Run(a, ops[..j]), ops[j], u)
  }

  /** After this request an earlier token of u is worth nothing. */
  predicate Ends(a: Tables, op: Op, u: Uuid) {
    Issues(a, op, u) || Uses(a, op, u) || Removes(a, op, u)
  }

  predicate DistinctTokens(ops: seq<Op>) {
    forall i, j :: 0 <= i < j < |ops| && ops[i].RequestReset? && ops[j].RequestReset? ==> ops[i].raw != ops[j].raw
  }

  predicate NothingPending(a: Tables) {
    forall u :: u in a.users ==> a.users[u].reset.None?
  }

  predicate Holds(a: Tables, u: Uuid, token: ResetToken) {
    u in a.users && a.users[u].reset == Some(token)
  }

  lemma StepToken(a: Tables, op: Op, u: Uuid, token: ResetToken)
    ensures Holds(Step(a, op), u, token) <==>
            if Issues(a, op, u) then token == ResetToken(Sha256(op.raw), op.now + RESET_TTL_MS)
            else !Ends(a, op, u) && Holds(a, u, token)
  {
    hide LoginLimit, InviteLimit, StaffCount, Smallest, EventApplied;
  }

  lemma LiveNext(a: Tables, ops: seq<Op>, op: Op, i: nat, u: Uuid)
    ensures Live(a, ops + [op], i, u) <==>
            || (i == |ops| && Issues(Run(a, ops), op, u))
            || (Live(a, ops, i, u) && !Ends(Run(a, ops), op, u))
  {
    hide Run, Issues, Ends;
    var all := ops + [op];
    assert all[..|ops|] == ops;
    if i < |ops| {
      assert all[..i] == ops[..i];
      forall j | i < j < |ops|
        ensures all[j] == ops[j] && all[..j] == ops[..j]
      {
      }
    }
  }

  function TokenOf(op: Op): (token: ResetToken)
    requires op.RequestReset?
  {
    ResetToken(Sha256(op.raw), op.now + RESET_TTL_MS)
  }

  /** The tables hold a token for u exactly when it is the latest issued for u and unused. */
  lemma {:induction false} PendingIsLatest(a: Tables, ops: seq<Op>, u: Uuid, token: ResetToken)
    requires NothingPending(a)
    ensures Holds(Run(a, ops), u, token) <==> exists i: nat :: Live(a, ops, i, u) && token == TokenOf(ops[i])
  {
    if |ops| == 0 {
    } else {
      hide Run, Step, Issues, Uses, Removes, Live, Holds;
      var before, op := ops[..|ops| - 1], ops[|ops| - 1];
      assert before + [op] == ops;
      PendingIsLatest(a, before, u, token);
      RunLast(a, ops);
      StepToken(Run(a, before), op, u, token);
      LiveIsRequest(a, before, u);
      LiveIsRequest(a, ops, u);
      if Holds(Run(a, ops), u, token) {
        if Issues(Run(a, before), op, u) {
          LiveNext(a, before, op, |before|, u);
        } else {
          var i: nat :| Live(a, before, i, u) && token == TokenOf(before[i]);
          LiveNext(a, before, op, i, u);
        }
      }
      if i: nat :| Live(a, ops, i, u) && token == TokenOf(ops[i]) {
        LiveNext(a, before, op, i, u);
      }
    }
  }

  lemma RunLast(a: Tables, ops: seq<Op>)
    requires |ops| > 0
    ensures Run(a, ops) == Step(Run(a, ops[..|ops| - 1]), ops[|ops| - 1])
  {
  }

  lemma LiveIsRequest(a: Tables, ops: seq<Op>, u: Uuid)
    ensures forall i: nat :: Live(a, ops, i, u) ==> i < |ops| && ops[i].RequestReset?
  {
  }

  // ----- when a reset succeeds -----

  lemma FoundOne(a: Tables, ops: seq<Op>, hash: Digest, u: Uuid)
    requires NothingPending(a) && DistinctTokens(ops)
    requires u in ByResetHash(Run(a, ops).users, hash)
    ensures ByResetHash(Run(a, ops).users, hash) == {u}
  {
    hide Run, Issues;
    var users := Run(a, ops).users;
    forall v | v in ByResetHash(users, hash)
      ensures v == u
    {
      var i := IssuedAt(a, ops, u, users[u].reset.value);
      var j := IssuedAt(a, ops, v, users[v].reset.value);
      assert i == j;
      IssuedToOne(Run(a, ops[..i]), ops[i], u, v);
    }
  }

  lemma IssuedToOne(a: Tables, op: Op, u: Uuid, v: Uuid)
    requires Issues(a, op, u) && Issues(a, op, v)
    ensures u == v
  {
  }

  lemma IssuedAt(a: Tables, ops: seq<Op>, u: Uuid, token: ResetToken) returns (i: nat)
    requires NothingPending(a) && Holds(Run(a, ops), u, token)
    ensures Live(a, ops, i, u) && ops[i].RequestReset? && token == TokenOf(ops[i])
    ensures Issues(Run(a, ops[..i]), ops[i], u)
  {
    hide Run, Issues, Holds;
    PendingIsLatest(a, ops, u, token);
    LiveIsRequest(a, ops, u);
    i :| Live(a, ops, i, u) && token == TokenOf(ops[i]);
  }

  /**
   A reset succeeds for u exactly when its token is the latest that was issued for u, was not
   used before, and is at most 3,600,000 ms old.
   */
  lemma {:induction false} ResetSucceedsExactly(a: Tables, ops: seq<Op>, raw: nat, hash: string, now: nat, u: Uuid)
    requires NothingPending(a) && DistinctTokens(ops)
    ensures Uses(Run(a, ops), Reset(raw, hash, now), u) <==>
            exists i: nat :: Live(a, ops, i, u) && ops[i].raw == raw && now <= ops[i].now + RESET_TTL_MS
  {
    hide Run, Issues, Live;
    LiveIsRequest(a, ops, u);
    var b := Run(a, ops);
    if Uses(b, Reset(raw, hash, now), u) {
      var i := IssuedAt(a, ops, u, b.users[u].reset.value);
    }
    if i: nat :| Live(a, ops, i, u) && ops[i].raw == raw && now <= ops[i].now + RESET_TTL_MS {
      PendingIsLatest(a, ops, u, TokenOf(ops[i]));
      FoundOne(a, ops, Sha256(raw), u);
    }
  }

  lemma LiveMeansUnused(a: Tables, ops: seq<Op>, i: nat, u: Uuid, j: nat)
    requires Live(a, ops, i, u) && i < j < |ops|
    ensures !Uses(Run(a, ops[..j]), ops[j], u)
  {
  }

  lemma LiveWasIssued(a: Tables, ops: seq<Op>, i: nat, u: Uuid)
    requires Live(a, ops, i, u)
    ensures i < |ops| && ops[i].RequestReset? && Issues(Run(a, ops[..i]), ops[i], u)
  {
  }

  /** No token resets a password twice. */
  lemma TokenWorksOnce(a: Tables, ops: seq<Op>, j: nat, k: nat, u: Uuid, v: Uuid)
    requires NothingPending(a) && DistinctTokens(ops)
    requires j < k < |ops| && ops[j].Reset? && ops[k].Reset? && ops[j].raw == ops[k].raw
    requires Uses(Run(a, ops[..j]), ops[j], u)
    ensures !Uses(Run(a, ops[..k]), ops[k], v)
  {
    hide Run, Issues, Uses, Live;
    assert ops[..k][..j] == ops[..j];
    if Uses(Run(a, ops[..k]), ops[k], v) {
      ResetSucceedsExactly(a, ops[..j], ops[j].raw, ops[j].hash, ops[j].now, u);
      ResetSucceedsExactly(a, ops[..k], ops[k].raw, ops[k].hash, ops[k].now, v);
      LiveIsRequest(a, ops[..j], u);
      LiveIsRequest(a, ops[..k], v);
      var i: nat :| Live(a, ops[..j], i, u) && ops[..j][i].raw == ops[j].raw;
      var m: nat :| Live(a, ops[..k], m, v) && ops[..k][m].raw == ops[k].raw;
      LiveWasIssued(a, ops[..j], i, u);
      LiveWasIssued(a, ops[..k], m, v);
      assert ops[..j][..i] == ops[..i] == ops[..k][..i];
      IssuedToOne(Run(a, ops[..i]), ops[i], u, v);
      LiveMeansUnused(a, ops[..k], m, v, j);
    }
  }

  // ----- sessions -----

  /** u logs out, or u's password is reset. */
  predicate Revokes(a: Tables, op: Op, u: Uuid) {
    op == Logout(u) || Uses(a, op, u)
  }

  lemma RevokedAtOnce(a: Tables, op: Op, u: Uuid)
    requires Revokes(a, op, u)
    ensures u in Step(a, op).users ==> Step(a, op).users[u].refresh.None?
  {
  }

  lemma StepStaysRevoked(a: Tables, op: Op, u: Uuid)
    requires u in a.users ==> a.users[u].refresh.None?
    requires !LogsIn(a, op, u)
    ensures u in Step(a, op).users ==> Step(a, op).users[u].refresh.None?
  {
    hide LoginLimit, InviteLimit, StaffCount, Smallest, EventApplied;
  }

  lemma {:induction false} StaysRevoked(a: Tables, ops: seq<Op>, u: Uuid)
    requires u in a.users ==> a.users[u].refresh.None?
    requires forall i :: 0 <= i < |ops| ==> !LogsIn(Run(a, ops[..i]), ops[i], u)
    ensures u in Run(a, ops).users ==> Run(a, ops).users[u].refresh.None?
  {
    hide Step, LogsIn;
    if |ops| == 0 {
    } else {
      var n := |ops| - 1;
      forall i | 0 <= i < n
        ensures !LogsIn(Run(a, ops[..n][..i]), ops[..n][i], u)
      {
        assert ops[..n][..i] == ops[..i];
      }
      StaysRevoked(a, ops[..n], u);
      StepStaysRevoked(Run(a, ops[..n]), ops[n], u);
    }
  }

  /** After a logout or a reset no refresh of u is accepted, whatever it presents, until u logs in again. */
  lemma {:induction false} NoRefreshUntilLogin(a: Tables, op: Op, ops: seq<Op>, u: Uuid, matches: bool, token: string)
    requires Revokes(a, op, u)
    requires forall i :: 0 <= i < |ops| ==> !LogsIn(Run(Step(a, op), ops[..i]), ops[i], u)
    ensures AnswerTo(Run(Step(a, op), ops), Refresh(u, matches, token)) == BadRefreshToken
  {
    hide Run, Step, LogsIn, Revokes;
    RevokedAtOnce(a, op, u);
    StaysRevoked(Step(a, op), ops, u);
  }
}
