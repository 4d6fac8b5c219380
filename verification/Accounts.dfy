/**
 Users, stores and subscriptions: AuthService, StoresService and BillingService on the
 tables they share, and runs of their requests, one at a time.
 */
module Accounts {
  import opened Schema

  datatype Plan = Free | Pro

  datatype Role = SuperAdmin | StoreOwner | Staff

  function MaxStaff(plan: Plan): (max: nat) {
    match plan
    case Free => 1
    case Pro => 10
  }

  const MOST_STAFF := 10

  // The SHA-256 of a reset token. Distinct tokens are taken to have distinct digests.
  datatype Digest = Sha256(raw: nat)

  const RESET_TTL_MS := 3_600_000

  datatype ResetToken = ResetToken(hash: Digest, expiresAt: nat)

  datatype User = User(
    email: string,
    passwordHash: string,
    role: Role,
    storeId: Option<Uuid>,
    refresh: Option<string>,
    reset: Option<ResetToken>)

  datatype Subscription = Subscription(plan: Plan, customerId: Option<string>, subscriptionId: Option<string>)

  datatype Event =
    | CheckoutCompleted(eventId: string, storeId: Uuid, plan: Plan, customerId: Option<string>, subscriptionId: Option<string>)
    | SubscriptionEnded(eventId: string, endedId: string)

  // suspended: one entry per store.
  datatype Tables = Tables(
    users: map<Uuid, User>,
    suspended: map<Uuid, bool>,
    subscriptions: map<Uuid, Subscription>,
    webhookEvents: set<string>)

  datatype Answer =
    | Done
    | EmailTaken
    | BadCredentials
    | StoreSuspended
    | OverPlanLimit
    | BadRefreshToken
    | BadResetToken
    | StaffLimitReached(max: nat)
    | StaffNotFound
    | TooManyStaff(count: nat, max: nat)
    | NotRecorded

  // ----- queries -----

  function Smallest(ids: set<Uuid>): (id: Uuid)
    requires ids != {}
    ensures id in ids && forall other :: other in ids ==> id <= other
  {
    SmallestExists(ids);
    var id :| id in ids && forall other :: other in ids ==> id <= other;
    id
  }

  lemma {:induction false} SmallestExists(ids: set<Uuid>)
    requires ids != {}
    ensures exists id :: id in ids && forall other :: other in ids ==> id <= other
  {
    var one :| one in ids;
    var least := one;
    if ids != {one} {
      SmallestExists(ids - {one});
      var id :| id in ids - {one} && forall other :: other in ids - {one} ==> id <= other;
      least := if one <= id then one else id;
    }
    forall other | other in ids
      ensures least <= other
    {
      assert other == one || other in ids - {one};
    }
  }

  /** findOne: of several matching rows, this model takes the one with the smallest id. */
  function FindOne(ids: set<Uuid>): (found: Option<Uuid>)
    ensures found.None? <==> ids == {}
    ensures found.Some? ==> found.value in ids
  {
    if ids == {} then None else Some(Smallest(ids))
  }

  function ByEmail(users: map<Uuid, User>, email: string): (ids: set<Uuid>) {
    set u | u in users && users[u].email == email
  }

  function ByResetHash(users: map<Uuid, User>, hash: Digest): (ids: set<Uuid>) {
    set u | u in users && users[u].reset.Some? && users[u].reset.value.hash == hash
  }

  function StaffOf(users: map<Uuid, User>, storeId: Uuid): (ids: set<Uuid>) {
    set u | u in users && users[u].role == Staff && users[u].storeId == Some(storeId)
  }

  function StaffCount(users: map<Uuid, User>, storeId: Uuid): (n: nat) {
    |StaffOf(users, storeId)|
  }

  function ByProviderId(subscriptions: map<Uuid, Subscription>, id: string): (stores: set<Uuid>) {
    set s | s in subscriptions && subscriptions[s].subscriptionId == Some(id)
  }

  /** The seats an invitation may use: none without a subscription. */
  function InviteLimit(a: Tables, storeId: Uuid): (max: nat) {
    if storeId in a.subscriptions then MaxStaff(a.subscriptions[storeId].plan) else 0
  }

  /** The seats a login allows: the free plan's without a subscription. */
  function LoginLimit(a: Tables, storeId: Uuid): (max: nat) {
    MaxStaff(if storeId in a.subscriptions then a.subscriptions[storeId].plan else Free)
  }

  // ----- requests -----

  // matches: the outcome of bcrypt.compare. token: the hash of a newly issued refresh token.
  datatype Op =
    | Register(id: Uuid, store: Uuid, email: string, hash: string, token: string)
    | Login(email: string, matches: bool, token: string)
    | Refresh(id: Uuid, matches: bool, token: string)
    | Logout(id: Uuid)
    | RequestReset(email: string, raw: nat, now: nat)
    | Reset(raw: nat, hash: string, now: nat)
    | Suspend(store: Uuid, flag: bool)
    | Invite(store: Uuid, email: string, hash: string, id: Uuid)
    | EditStaff(store: Uuid, id: Uuid, newEmail: Option<string>, newHash: Option<string>)
    | RemoveStaff(store: Uuid, id: Uuid)
    | Checkout(store: Uuid, immediate: Option<Plan>)
    | Deliver(event: Event, recorded: bool)

  function LoginAnswer(a: Tables, email: string, matches: bool): (answer: Answer) {
    var found := FindOne(ByEmail(a.users, email));
    if found.None? || !matches then BadCredentials
    else
      var user := a.users[found.value];
      if user.storeId.None? || user.storeId.value !in a.suspended then Done
      else if a.suspended[user.storeId.value] then StoreSuspended
      else if user.role == Staff && StaffCount(a.users, user.storeId.value) > LoginLimit(a, user.storeId.value) then OverPlanLimit
      else Done
  }

  function InviteAnswer(a: Tables, storeId: Uuid, email: string): (answer: Answer) {
    if ByEmail(a.users, email) != {} then EmailTaken
    else if StaffCount(a.users, storeId) >= InviteLimit(a, storeId) then StaffLimitReached(InviteLimit(a, storeId))
    else Done
  }

  function EditAnswer(a: Tables, storeId: Uuid, id: Uuid, email: Option<string>): (answer: Answer) {
    if id !in StaffOf(a.users, storeId) then StaffNotFound
    else if email.Some? && ByEmail(a.users, email.value) - {id} != {} then EmailTaken
    else Done
  }

  function ResetAnswer(a: Tables, raw: nat, now: nat): (answer: Answer) {
    var found := FindOne(ByResetHash(a.users, Sha256(raw)));
    if found.None? || a.users[found.value].reset.value.expiresAt < now then BadResetToken else Done
  }

  function CheckoutAnswer(a: Tables, storeId: Uuid, immediate: Option<Plan>): (answer: Answer) {
    if immediate.Some? && StaffCount(a.users, storeId) > MaxStaff(immediate.value)
    then TooManyStaff(StaffCount(a.users, storeId), MaxStaff(immediate.value))
    else Done
  }

  function AnswerTo(a: Tables, op: Op): (answer: Answer) {
    match op
    case Register(_, _, email, _, _) => if ByEmail(a.users, email) != {} then EmailTaken else Done
    case Login(email, matches, _) => LoginAnswer(a, email, matches)
    case Refresh(id, matches, _) => if id in a.users && a.users[id].refresh.Some? && matches then Done else BadRefreshToken
    case Reset(raw, _, now) => ResetAnswer(a, raw, now)
    case Invite(storeId, email, _, _) => InviteAnswer(a, storeId, email)
    case EditStaff(storeId, id, email, _) => EditAnswer(a, storeId, id, email)
    case RemoveStaff(storeId, id) => if id in StaffOf(a.users, storeId) then Done else StaffNotFound
    case Checkout(storeId, immediate) => CheckoutAnswer(a, storeId, immediate)
    case Deliver(event, recorded) => if event.eventId in a.webhookEvents || recorded then Done else NotRecorded
    case Logout(_) => Done
    case RequestReset(_, _, _) => Done
    case Suspend(_, _) => Done
  }

  /** Update of the plan, and of the provider's ids when the event brings them. */
  function PlanApplied(subscriptions: map<Uuid, Subscription>, storeId: Uuid, plan: Plan,
                       ids: Option<(Option<string>, Option<string>)>): (r: map<Uuid, Subscription>)
  {
    if storeId !in subscriptions then subscriptions
    else
      var planned := subscriptions[storeId].(plan := plan);
      subscriptions[storeId :=
        if ids.Some? then planned.(customerId := ids.value.0, subscriptionId := ids.value.1) else planned]
  }

  function EventApplied(subscriptions: map<Uuid, Subscription>, event: Event): (r: map<Uuid, Subscription>) {
    match event
    case CheckoutCompleted(_, storeId, plan, customerId, subscriptionId) =>
      PlanApplied(subscriptions, storeId, plan, Some((customerId, subscriptionId)))
    case SubscriptionEnded(_, endedId) =>
      var found := FindOne(ByProviderId(subscriptions, endedId));
      if found.None? then subscriptions else PlanApplied(subscriptions, found.value, Free, None)
  }

  /** The event is applied unless it was recorded before; the record is written last and can fail. */
  function Delivered(a: Tables, event: Event, recorded: bool): (r: Tables) {
    if event.eventId in a.webhookEvents then a
    else
      a.(subscriptions := EventApplied(a.subscriptions, event),
         webhookEvents := if recorded then a.webhookEvents + {event.eventId} else a.webhookEvents)
  }

  function NewOwner(email: string, hash: string, storeId: Uuid, token: string): (user: User) {
    User(email, hash, StoreOwner, Some(storeId), Some(token), None)
  }

  function NewStaff(email: string, hash: string, storeId: Uuid): (user: User) {
    User(email, hash, Staff, Some(storeId), None, None)
  }

  /** Generated ids are not in use. */
  predicate FreshIds(a: Tables, op: Op) {
    match op
    case Register(id, storeId, _, _, _) => id !in a.users && storeId !in a.suspended
    case Invite(_, _, _, id) => id !in a.users
    case _ => true
  }

  function Step(a: Tables, op: Op): (r: Tables) {
    if !FreshIds(a, op) then a
    else if op.Deliver? then Delivered(a, op.event, op.recorded)
    else if AnswerTo(a, op) != Done then a
    else
      match op
      case Register(id, storeId, email, hash, token) =>
        a.(users := a.users[id := NewOwner(email, hash, storeId, token)],
           suspended := a.suspended[storeId := false],
           subscriptions := a.subscriptions[storeId := Subscription(Free, None, None)])
      case Login(email, _, token) =>
        var id := FindOne(ByEmail(a.users, email)).value;
        a.(users := a.users[id := a.users[id].(refresh := Some(token))])
      case Refresh(id, _, token) => a.(users := a.users[id := a.users[id].(refresh := Some(token))])
      case Logout(id) =>
        if id in a.users then a.(users := a.users[id := a.users[id].(refresh := None)]) else a
      case RequestReset(email, raw, now) =>
        var found := FindOne(ByEmail(a.users, email));
        if found.None? then a
        else
          var token := ResetToken(Sha256(raw), now + RESET_TTL_MS);
          a.(users := a.users[found.value := a.users[found.value].(reset := Some(token))])
      case Reset(raw, hash, _) =>
        var id := FindOne(ByResetHash(a.users, Sha256(raw))).value;
        a.(users := a.users[id := a.users[id].(passwordHash := hash, reset := None, refresh := None)])
      case Suspend(storeId, flag) =>
        if storeId in a.suspended then a.(suspended := a.suspended[storeId := flag]) else a
      case Invite(storeId, email, hash, id) => a.(users := a.users[id := NewStaff(email, hash, storeId)])
      case EditStaff(_, id, email, hash) =>
        var user := a.users[id];
        a.(users := a.users[id := user.(email := GetOr(email, user.email), passwordHash := GetOr(hash, user.passwordHash))])
      case RemoveStaff(_, id) => a.(users := a.users - {id})
      case Checkout(storeId, immediate) =>
        if immediate.Some? then a.(subscriptions := PlanApplied(a.subscriptions, storeId, immediate.value, None)) else a
  }

  function Run(a: Tables, ops: seq<Op>): (r: Tables) {
    if |ops| == 0 then a else Step(Run(a, ops[..|ops| - 1]), ops[|ops| - 1])
  }

  lemma RunNext(a: Tables, ops: seq<Op>, op: Op)
    ensures Run(a, ops + [op]) == Step(Run(a, ops), op)
  {
    assert (ops + [op])[..|ops|] == ops;
  }

  // ----- the services -----

  /** The user that a lookup by email finds. Emails are unique, so it is the only one that has it. */
  predicate HasEmail(users: map<Uuid, User>, email: string, u: Uuid) {
    && u in users && users[u].email == email
    && forall v :: v in users && users[v].email == email ==> u <= v
  }

  /** The user that a lookup by reset token finds. */
  predicate HasToken(users: map<Uuid, User>, raw: nat, u: Uuid) {
    && u in users && users[u].reset.Some? && users[u].reset.value.hash == Sha256(raw)
    && forall v :: v in users && users[v].reset.Some? && users[v].reset.value.hash == Sha256(raw) ==> u <= v
  }

  /** A lookup finds the user that has the email, or none if nobody has it. */
  lemma FoundByEmail(users: map<Uuid, User>, email: string)
    ensures var found := FindOne(ByEmail(users, email));
            && (found.None? <==> forall u :: u in users ==> users[u].email != email)
            && (found.Some? ==> HasEmail(users, email, found.value))
            && (forall u: Uuid :: HasEmail(users, email, u) ==> found == Some(u))
  {
    forall u | u in users && users[u].email == email
      ensures u in ByEmail(users, email)
    {
    }
  }

  /** The store whose subscription a lookup by the provider's id finds. */
  predicate HoldsFirst(subscriptions: map<Uuid, Subscription>, id: string, store: Uuid) {
    && store in subscriptions && subscriptions[store].subscriptionId == Some(id)
    && forall s :: s in subscriptions && subscriptions[s].subscriptionId == Some(id) ==> store <= s
  }

  lemma FoundByProviderId(subscriptions: map<Uuid, Subscription>, id: string)
    ensures var found := FindOne(ByProviderId(subscriptions, id));
            && (found.None? <==> forall s :: s in subscriptions ==> subscriptions[s].subscriptionId != Some(id))
            && (found.Some? ==> HoldsFirst(subscriptions, id, found.value))
            && (forall s: Uuid :: HoldsFirst(subscriptions, id, s) ==> found == Some(s))
  {
    forall s | s in subscriptions && subscriptions[s].subscriptionId == Some(id)
      ensures s in ByProviderId(subscriptions, id)
    {
    }
  }

  lemma OthersByEmail(users: map<Uuid, User>, id: Uuid, email: Option<string>)
    ensures email.Some? ==>
              (ByEmail(users, email.value) - {id} != {} <==> exists u :: u in users && u != id && Some(users[u].email) == email)
  {
    if email.Some? {
      forall u | u in users && u != id && users[u].email == email.value
        ensures u in ByEmail(users, email.value) - {id}
      {
      }
    }
  }

  lemma FoundByToken(users: map<Uuid, User>, raw: nat)
    ensures var found := FindOne(ByResetHash(users, Sha256(raw)));
            && (found.None? <==> forall u :: u in users && users[u].reset.Some? ==> users[u].reset.value.hash != Sha256(raw))
            && (found.Some? ==> HasToken(users, raw, found.value))
            && (forall u: Uuid :: HasToken(users, raw, u) ==> found == Some(u))
  {
    forall u | u in users && users[u].reset.Some? && users[u].reset.value.hash == Sha256(raw)
      ensures u in ByResetHash(users, Sha256(raw))
    {
    }
  }

  class AccountTables {
    var users: map<Uuid, User>
    var suspended: map<Uuid, bool>
    var subscriptions: map<Uuid, Subscription>
    var webhookEvents: set<string>

    function State(): (a: Tables)
      reads this
    {
      Tables(users, suspended, subscriptions, webhookEvents)
    }

    constructor (a: Tables)
      ensures State() == a
    {
      users, suspended, subscriptions, webhookEvents := a.users, a.suspended, a.subscriptions, a.webhookEvents;
    }
  }

  class AuthService {
    const tables: AccountTables

    constructor (tables: AccountTables)
      ensures this.tables == tables
    {
      this.tables := tables;
    }

    method IssueTokens(id: Uuid, token: string)
      requires id in tables.users
      modifies tables`users
      ensures tables.users == old(tables.users)[id := old(tables.users)[id].(refresh := Some(token))]
    {
      tables.users := tables.users[id := tables.users[id].(refresh := Some(token))];
    }

    method Register(id: Uuid, storeId: Uuid, email: string, hash: string, token: string) returns (answer: Answer)
      requires id !in tables.users && storeId !in tables.suspended
      modifies tables
      ensures var op := Op.Register(id, storeId, email, hash, token);
              answer == AnswerTo(old(tables.State()), op) && tables.State() == Step(old(tables.State()), op)
      ensures answer == EmailTaken || answer == Done
      ensures answer == Done <==> forall u :: u in old(tables.users) ==> old(tables.users)[u].email != email
      ensures answer == Done ==>
        tables.State() == Tables(
          old(tables.users)[id := User(email, hash, StoreOwner, Some(storeId), Some(token), None)],
          old(tables.suspended)[storeId := false],
          old(tables.subscriptions)[storeId := Subscription(Free, None, None)],
          old(tables.webhookEvents))
      ensures answer != Done ==> tables.State() == old(tables.State())
    {
      FoundByEmail(tables.users, email);
      if FindOne(ByEmail(tables.users, email)).Some? {
        return EmailTaken;
      }
      tables.users := tables.users[id := User(email, hash, StoreOwner, None, None, None)];
      tables.suspended := tables.suspended[storeId := false];
      tables.subscriptions := tables.subscriptions[storeId := Subscription(Free, None, None)];
      tables.users := tables.users[id := tables.users[id].(storeId := Some(storeId))];
      IssueTokens(id, token);
      answer := Done;
    }

    method Login(email: string, matches: bool, token: string) returns (answer: Answer)
      modifies tables
      ensures var op := Op.Login(email, matches, token);
              answer == AnswerTo(old(tables.State()), op) && tables.State() == Step(old(tables.State()), op)
      ensures answer == BadCredentials <==>
                !matches || forall u :: u in old(tables.users) ==> old(tables.users)[u].email != email
      ensures forall u: Uuid :: HasEmail(old(tables.users), email, u) && matches ==>
                var user, stores, plans := old(tables.users)[u], old(tables.suspended), old(tables.subscriptions);
                var inStore := user.storeId.Some? && user.storeId.value in stores;
                var suspended := inStore && stores[user.storeId.value];
                var plan := if inStore && user.storeId.value in plans then plans[user.storeId.value].plan else Free;
                var over := inStore && user.role == Staff && StaffCount(old(tables.users), user.storeId.value) > MaxStaff(plan);
                answer == if suspended then StoreSuspended else if over then OverPlanLimit else Done
      ensures forall u: Uuid :: HasEmail(old(tables.users), email, u) && answer == Done ==>
                tables.users == old(tables.users)[u := old(tables.users)[u].(refresh := Some(token))]
      ensures answer != Done ==> tables.users == old(tables.users)
      ensures tables.State() == old(tables.State()).(users := tables.users)
    {
      FoundByEmail(tables.users, email);
      var found := FindOne(ByEmail(tables.users, email));
      if found.None? || !matches {
        return BadCredentials;
      }
      var user := tables.users[found.value];
      if user.storeId.Some? && user.storeId.value in tables.suspended {
        var storeId := user.storeId.value;
        if tables.suspended[storeId] {
          return StoreSuspended;
        }
        if user.role == Staff {
          var plan := if storeId in tables.subscriptions then tables.subscriptions[storeId].plan else Free;
          if StaffCount(tables.users, storeId) > MaxStaff(plan) {
            return OverPlanLimit;
          }
        }
      }
      IssueTokens(found.value, token);
      answer := Done;
    }

    method Refresh(id: Uuid, matches: bool, token: string) returns (answer: Answer)
      modifies tables
      ensures var op := Op.Refresh(id, matches, token);
              answer == AnswerTo(old(tables.State()), op) && tables.State() == Step(old(tables.State()), op)
      ensures answer == Done || answer == BadRefreshToken
      ensures answer == Done <==> id in old(tables.users) && old(tables.users)[id].refresh.Some? && matches
      ensures answer == Done ==> tables.users == old(tables.users)[id := old(tables.users)[id].(refresh := Some(token))]
      ensures answer != Done ==> tables.users == old(tables.users)
      ensures tables.State() == old(tables.State()).(users := tables.users)
    {
      if id !in tables.users || tables.users[id].refresh.None? {
        return BadRefreshToken;
      }
      if !matches {
        return BadRefreshToken;
      }
      IssueTokens(id, token);
      answer := Done;
    }

    method Logout(id: Uuid)
      modifies tables
      ensures tables.State() == Step(old(tables.State()), Op.Logout(id))
      ensures tables.users.Keys == old(tables.users).Keys
      ensures id in tables.users ==>
                tables.users[id].refresh.None? && forall token :: AnswerTo(tables.State(), Op.Refresh(id, true, token)) == BadRefreshToken
      ensures forall u :: u in tables.users && u != id ==> tables.users[u] == old(tables.users)[u]
      ensures tables.suspended == old(tables.suspended) && tables.subscriptions == old(tables.subscriptions)
      ensures tables.webhookEvents == old(tables.webhookEvents)
    {
      if id in tables.users {
        tables.users := tables.users[id := tables.users[id].(refresh := None)];
      }
    }

    method RequestPasswordReset(email: string, raw: nat, now: nat)
      modifies tables
      ensures tables.State() == Step(old(tables.State()), RequestReset(email, raw, now))
      ensures forall u: Uuid :: HasEmail(old(tables.users), email, u) ==>
                tables.users == old(tables.users)[u := old(tables.users)[u].(reset := Some(ResetToken(Sha256(raw), now + 3_600_000)))]
      ensures (forall u :: u in old(tables.users) ==> old(tables.users)[u].email != email) ==> tables.users == old(tables.users)
      ensures tables.State() == old(tables.State()).(users := tables.users)
    {
      FoundByEmail(tables.users, email);
      var found := FindOne(ByEmail(tables.users, email));
      if found.None? {
        return;
      }
      var token := ResetToken(Sha256(raw), now + RESET_TTL_MS);
      tables.users := tables.users[found.value := tables.users[found.value].(reset := Some(token))];
    }

    method ResetPassword(raw: nat, hash: string, now: nat) returns (answer: Answer)
      modifies tables
      ensures var op := Reset(raw, hash, now);
              answer == AnswerTo(old(tables.State()), op) && tables.State() == Step(old(tables.State()), op)
      ensures answer == Done || answer == BadResetToken
      ensures answer == Done <==> exists u: Uuid :: HasToken(old(tables.users), raw, u) && now <= old(tables.users)[u].reset.value.expiresAt
      ensures forall u: Uuid :: HasToken(old(tables.users), raw, u) && answer == Done ==>
                tables.users == old(tables.users)[u := old(tables.users)[u].(passwordHash := hash, reset := None, refresh := None)]
      ensures answer != Done ==> tables.users == old(tables.users)
      ensures tables.State() == old(tables.State()).(users := tables.users)
    {
      FoundByToken(tables.users, raw);
      var found := FindOne(ByResetHash(tables.users, Sha256(raw)));
      if found.None? {
        return BadResetToken;
      }
      var user := tables.users[found.value];
      if user.reset.value.expiresAt < now {
        return BadResetToken;
      }
      tables.users := tables.users[found.value := user.(passwordHash := hash, reset := None, refresh := None)];
      answer := Done;
    }
  }

  class StoresService {
    const tables: AccountTables

    constructor (tables: AccountTables)
      ensures this.tables == tables
    {
      this.tables := tables;
    }

    method InviteStaff(storeId: Uuid, email: string, hash: string, id: Uuid) returns (answer: Answer)
      requires id !in tables.users
      modifies tables
      ensures var op := Invite(storeId, email, hash, id);
              answer == AnswerTo(old(tables.State()), op) && tables.State() == Step(old(tables.State()), op)
      ensures answer == EmailTaken <==> exists u :: u in old(tables.users) && old(tables.users)[u].email == email
      ensures var max := if storeId in old(tables.subscriptions) then MaxStaff(old(tables.subscriptions)[storeId].plan) else 0;
              answer != EmailTaken ==> answer == if StaffCount(old(tables.users), storeId) < max then Done else StaffLimitReached(max)
      ensures answer == Done ==> tables.users == old(tables.users)[id := User(email, hash, Staff, Some(storeId), None, None)]
      ensures answer != Done ==> tables.users == old(tables.users)
      ensures tables.State() == old(tables.State()).(users := tables.users)
    {
      FoundByEmail(tables.users, email);
      if FindOne(ByEmail(tables.users, email)).Some? {
        return EmailTaken;
      }
      var count := StaffCount(tables.users, storeId);
      var limit := if storeId in tables.subscriptions then MaxStaff(tables.subscriptions[storeId].plan) else 0;
      if count >= limit {
        return StaffLimitReached(limit);
      }
      tables.users := tables.users[id := NewStaff(email, hash, storeId)];
      answer := Done;
    }

    /** An email that another account has is refused by its unique constraint. */
    method UpdateStaff(storeId: Uuid, id: Uuid, email: Option<string>, hash: Option<string>) returns (answer: Answer)
      modifies tables
      ensures var op := EditStaff(storeId, id, email, hash);
              answer == AnswerTo(old(tables.State()), op) && tables.State() == Step(old(tables.State()), op)
      ensures answer == StaffNotFound <==>
                !(id in old(tables.users) && old(tables.users)[id].role == Staff && old(tables.users)[id].storeId == Some(storeId))
      ensures answer != StaffNotFound ==>
                answer == if exists u :: u in old(tables.users) && u != id && Some(old(tables.users)[u].email) == email then EmailTaken else Done
      ensures answer == Done ==>
                var was := old(tables.users)[id];
                tables.users == old(tables.users)[id := was.(email := if email.Some? then email.value else was.email,
                                                             passwordHash := if hash.Some? then hash.value else was.passwordHash)]
      ensures answer != Done ==> tables.users == old(tables.users)
      ensures tables.State() == old(tables.State()).(users := tables.users)
    {
      OthersByEmail(tables.users, id, email);
      if id !in StaffOf(tables.users, storeId) {
        return StaffNotFound;
      }
      var staff := tables.users[id];
      if email.Some? {
        staff := staff.(email := email.value);
      }
      if hash.Some? {
        staff := staff.(passwordHash := hash.value);
      }
      if email.Some? && ByEmail(tables.users, email.value) - {id} != {} {
        return EmailTaken;
      }
      tables.users := tables.users[id := staff];
      answer := Done;
    }

    method RemoveStaff(storeId: Uuid, id: Uuid) returns (answer: Answer)
      modifies tables
      ensures var op := Op.RemoveStaff(storeId, id);
              answer == AnswerTo(old(tables.State()), op) && tables.State() == Step(old(tables.State()), op)
      ensures answer == Done || answer == StaffNotFound
      ensures answer == Done <==>
                id in old(tables.users) && old(tables.users)[id].role == Staff && old(tables.users)[id].storeId == Some(storeId)
      ensures tables.users == if answer == Done then old(tables.users) - {id} else old(tables.users)
      ensures tables.State() == old(tables.State()).(users := tables.users)
    {
      if id !in StaffOf(tables.users, storeId) {
        return StaffNotFound;
      }
      tables.users := tables.users - {id};
      answer := Done;
    }
  }

  class BillingService {
    const tables: AccountTables

    constructor (tables: AccountTables)
      ensures this.tables == tables
    {
      this.tables := tables;
    }

    method ApplyPlanChange(storeId: Uuid, plan: Plan, ids: Option<(Option<string>, Option<string>)>)
      modifies tables`subscriptions
      ensures tables.subscriptions == PlanApplied(old(tables.subscriptions), storeId, plan, ids)
      ensures tables.subscriptions.Keys == old(tables.subscriptions).Keys
      ensures forall s :: s in tables.subscriptions && s != storeId ==> tables.subscriptions[s] == old(tables.subscriptions)[s]
      ensures storeId in tables.subscriptions ==> InviteLimit(tables.State(), storeId) == MaxStaff(plan)
      ensures storeId in tables.subscriptions ==>
                (tables.subscriptions[storeId].customerId, tables.subscriptions[storeId].subscriptionId) ==
                if ids.Some? then ids.value
                else (old(tables.subscriptions)[storeId].customerId, old(tables.subscriptions)[storeId].subscriptionId)
    {
      if storeId in tables.subscriptions {
        var subscription := tables.subscriptions[storeId].(plan := plan);
        if ids.Some? {
          subscription := subscription.(customerId := ids.value.0, subscriptionId := ids.value.1);
        }
        tables.subscriptions := tables.subscriptions[storeId := subscription];
      }
    }

    method CreateCheckoutSession(storeId: Uuid, immediate: Option<Plan>) returns (answer: Answer)
      modifies tables
      ensures var op := Checkout(storeId, immediate);
              answer == AnswerTo(old(tables.State()), op) && tables.State() == Step(old(tables.State()), op)
      ensures answer == Done <==> immediate.None? || StaffCount(tables.users, storeId) <= MaxStaff(immediate.value)
      ensures answer != Done ==> answer == TooManyStaff(StaffCount(tables.users, storeId), MaxStaff(immediate.value))
      ensures tables.subscriptions ==
                if answer == Done && immediate.Some? && storeId in old(tables.subscriptions)
                then old(tables.subscriptions)[storeId := old(tables.subscriptions)[storeId].(plan := immediate.value)]
                else old(tables.subscriptions)
      ensures tables.State() == old(tables.State()).(subscriptions := tables.subscriptions)
    {
      if immediate.Some? {
        var limit := MaxStaff(immediate.value);
        var count := StaffCount(tables.users, storeId);
        if count > limit {
          return TooManyStaff(count, limit);
        }
        ApplyPlanChange(storeId, immediate.value, None);
      }
      answer := Done;
    }

    /** saves: the record of the event, written last, succeeds. */
    method HandleWebhook(event: Option<Event>, saves: bool) returns (answer: Answer)
      modifies tables
      ensures event.None? ==> tables.State() == old(tables.State()) && answer == Done
      ensures event.Some? ==>
                answer == AnswerTo(old(tables.State()), Deliver(event.value, saves)) &&
                tables.State() == Step(old(tables.State()), Deliver(event.value, saves))
      ensures event.Some? && event.value.eventId in old(tables.webhookEvents) ==> answer == Done && tables.State() == old(tables.State())
      ensures event.Some? && event.value.eventId !in old(tables.webhookEvents) ==>
        && answer == (if saves then Done else NotRecorded)
        && tables.webhookEvents == (if saves then old(tables.webhookEvents) + {event.value.eventId} else old(tables.webhookEvents))
        && tables.users == old(tables.users) && tables.suspended == old(tables.suspended)
      ensures event.Some? && event.value.eventId !in old(tables.webhookEvents) && event.value.CheckoutCompleted? ==>
        var paid := event.value;
        tables.subscriptions ==
          if paid.storeId in old(tables.subscriptions)
          then old(tables.subscriptions)[paid.storeId := Subscription(paid.plan, paid.customerId, paid.subscriptionId)]
          else old(tables.subscriptions)
      ensures event.Some? && event.value.eventId !in old(tables.webhookEvents) && event.value.SubscriptionEnded? ==>
        && ((forall s :: s in old(tables.subscriptions) ==> old(tables.subscriptions)[s].subscriptionId != Some(event.value.endedId)) ==>
              tables.subscriptions == old(tables.subscriptions))
        && forall s: Uuid :: HoldsFirst(old(tables.subscriptions), event.value.endedId, s) ==>
             tables.subscriptions == old(tables.subscriptions)[s := old(tables.subscriptions)[s].(plan := Free)]
    {
      if event.None? {
        return Done;
      }
      if event.value.eventId in tables.webhookEvents {
        return Done;
      }
      match event.value {
        case CheckoutCompleted(_, storeId, plan, customerId, subscriptionId) =>
          ApplyPlanChange(storeId, plan, Some((customerId, subscriptionId)));
        case SubscriptionEnded(_, endedId) =>
          FoundByProviderId(tables.subscriptions, endedId);
          var found := FindOne(ByProviderId(tables.subscriptions, endedId));
          if found.Some? {
            ApplyPlanChange(found.value, Free, None);
          }
      }
      if !saves {
        return NotRecorded;
      }
      tables.webhookEvents := tables.webhookEvents + {event.value.eventId};
      answer := Done;
    }
  }

  class AdminService {
    const tables: AccountTables

    constructor (tables: AccountTables)
      ensures this.tables == tables
    {
      this.tables := tables;
    }

    method SetSuspended(storeId: Uuid, flag: bool) returns (found: bool)
      modifies tables
      ensures found == (storeId in old(tables.suspended))
      ensures tables.State() == Step(old(tables.State()), Suspend(storeId, flag))
      ensures tables.State() == old(tables.State()).(
                suspended := if found then old(tables.suspended)[storeId := flag] else old(tables.suspended))
    {
      if storeId !in tables.suspended {
        return false;
      }
      tables.suspended := tables.suspended[storeId := flag];
      found := true;
    }
  }
}
