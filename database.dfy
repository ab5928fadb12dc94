/** The backend's database: one table per entity, the constraints the schema
    declares (auto-increment primary keys, unique e-mail, unique transaction
    id, foreign keys), and the lookups several routers share. Rows are never
    deleted by the modelled code, so a row's primary key is its position + 1. */
module Database {
  import opened Records
  import opened Query

  class Db {
    var users: seq<User>
    var plans: seq<Plan>
    var subs: seq<Subscription>
    var payments: seq<Payment>
    var messages: seq<ChatMessage>
    var usage: seq<UsageLog>

    ghost predicate Valid()
      reads this
    {
      TablesValid(users, plans, subs, payments, messages, usage)
    }

    constructor ()
      ensures Valid()
      ensures users == [] && plans == [] && subs == [] && payments == []
      ensures messages == [] && usage == []
    {
      users, plans, subs, payments, messages, usage := [], [], [], [], [], [];
    }
  }

  ghost predicate UniqueEmails(users: seq<User>) {
    forall i, j :: 0 <= i < j < |users| ==> users[i].email != users[j].email
  }

  ghost predicate UniqueTransactionIds(payments: seq<Payment>) {
    forall i, j :: 0 <= i < j < |payments| && payments[i].transactionId.Some? ==>
      payments[i].transactionId != payments[j].transactionId
  }

  ghost predicate UserIdsArePositions(users: seq<User>) {
    forall i :: 0 <= i < |users| ==> users[i].id == i + 1
  }

  ghost predicate PlanIdsArePositions(plans: seq<Plan>) {
    forall i :: 0 <= i < |plans| ==> plans[i].id == i + 1
  }

  ghost predicate TablesValid(users: seq<User>, plans: seq<Plan>, subs: seq<Subscription>,
                              payments: seq<Payment>, messages: seq<ChatMessage>, usage: seq<UsageLog>)
  {
    && UserIdsArePositions(users)
    && PlanIdsArePositions(plans)
    && (forall i :: 0 <= i < |subs| ==> subs[i].id == i + 1)
    && (forall i :: 0 <= i < |payments| ==> payments[i].id == i + 1)
    && (forall i :: 0 <= i < |messages| ==> messages[i].id == i + 1)
    && (forall i :: 0 <= i < |usage| ==> usage[i].id == i + 1)
    && UniqueEmails(users)
    && UniqueTransactionIds(payments)
    && (forall i :: 0 <= i < |subs| ==> 1 <= subs[i].userId <= |users| && 1 <= subs[i].planId <= |plans|)
    && (forall i :: 0 <= i < |payments| ==> 1 <= payments[i].userId <= |users| && 1 <= payments[i].planId <= |plans|)
    && (forall i :: 0 <= i < |messages| ==> 1 <= messages[i].userId <= |users|)
    && (forall i :: 0 <= i < |usage| ==> 1 <= usage[i].userId <= |users|)
  }

  /** Changing a payment's status or invoice keeps every table constraint. */
  lemma PaymentUpdateKeepsValid(users: seq<User>, plans: seq<Plan>, subs: seq<Subscription>,
                                payments: seq<Payment>, messages: seq<ChatMessage>, usage: seq<UsageLog>,
                                i: nat, p: Payment)
    requires TablesValid(users, plans, subs, payments, messages, usage)
    requires i < |payments|
    requires p.id == payments[i].id && p.userId == payments[i].userId && p.planId == payments[i].planId
    requires p.transactionId == payments[i].transactionId
    ensures TablesValid(users, plans, subs, payments[i := p], messages, usage)
  {
    var q := payments[i := p];
    forall a, b | 0 <= a < b < |q| && q[a].transactionId.Some?
      ensures q[a].transactionId != q[b].transactionId
    {
      assert q[a].transactionId == payments[a].transactionId;
      assert q[b].transactionId == payments[b].transactionId;
    }
  }

  /** Changing a subscription's status or usage keeps every table constraint. */
  lemma SubscriptionUpdateKeepsValid(users: seq<User>, plans: seq<Plan>, subs: seq<Subscription>,
                                     payments: seq<Payment>, messages: seq<ChatMessage>, usage: seq<UsageLog>,
                                     i: nat, s: Subscription)
    requires TablesValid(users, plans, subs, payments, messages, usage)
    requires i < |subs|
    requires s.id == subs[i].id && s.userId == subs[i].userId && s.planId == subs[i].planId
    ensures TablesValid(users, plans, subs[i := s], payments, messages, usage)
  {
  }

  /** Storing a chat message of an existing user keeps every table constraint. */
  lemma AppendMessageKeepsValid(users: seq<User>, plans: seq<Plan>, subs: seq<Subscription>,
                                payments: seq<Payment>, messages: seq<ChatMessage>, usage: seq<UsageLog>,
                                m: ChatMessage)
    requires TablesValid(users, plans, subs, payments, messages, usage)
    requires m.id == |messages| + 1 && 1 <= m.userId <= |users|
    ensures TablesValid(users, plans, subs, payments, messages + [m], usage)
  {
  }

  /** Adding a user with the next key and an unregistered e-mail keeps every
      table constraint. */
  lemma AppendUserKeepsValid(users: seq<User>, plans: seq<Plan>, subs: seq<Subscription>,
                             payments: seq<Payment>, messages: seq<ChatMessage>, usage: seq<UsageLog>,
                             u: User)
    requires TablesValid(users, plans, subs, payments, messages, usage)
    requires u.id == |users| + 1 && forall j :: 0 <= j < |users| ==> users[j].email != u.email
    ensures TablesValid(users + [u], plans, subs, payments, messages, usage)
  {
  }

  /** Storing a usage log of an existing user keeps every table constraint. */
  lemma AppendUsageKeepsValid(users: seq<User>, plans: seq<Plan>, subs: seq<Subscription>,
                              payments: seq<Payment>, messages: seq<ChatMessage>, usage: seq<UsageLog>,
                              u: UsageLog)
    requires TablesValid(users, plans, subs, payments, messages, usage)
    requires u.id == |usage| + 1 && 1 <= u.userId <= |users|
    ensures TablesValid(users, plans, subs, payments, messages, usage + [u])
  {
  }

  /** `filter(User.id == id).first()` */
  function UserById(users: seq<User>, id: int): Option<nat> {
    FirstIndex(users, (u: User) => u.id == id)
  }

  /** `filter(Plan.id == id).first()` */
  function PlanById(plans: seq<Plan>, id: int): Option<nat> {
    FirstIndex(plans, (p: Plan) => p.id == id)
  }

  /** `filter(User.email == email).first()` */
  function UserByEmail(users: seq<User>, email: Email): (r: Option<nat>)
    ensures r.Some? ==> r.value < |users| && users[r.value].email == email
    ensures r.None? <==> forall j :: 0 <= j < |users| ==> users[j].email != email
  {
    FirstIndex(users, (u: User) => u.email == email)
  }

  /** With auto-increment keys, looking a user up by key finds the row at key - 1. */
  lemma UserByIdAtPosition(users: seq<User>, id: int)
    requires UserIdsArePositions(users)
    ensures UserById(users, id) == if 1 <= id <= |users| then Some(id - 1) else None
  {
    if 1 <= id <= |users| {
      assert users[id - 1].id == id;
    }
  }

  /** With auto-increment keys, looking a plan up by key finds the row at key - 1. */
  lemma PlanByIdAtPosition(plans: seq<Plan>, id: int)
    requires PlanIdsArePositions(plans)
    ensures PlanById(plans, id) == if 1 <= id <= |plans| then Some(id - 1) else None
  {
    if 1 <= id <= |plans| {
      assert plans[id - 1].id == id;
    }
  }

  /** The lookup by key, seen from a found row: it is the row at key - 1. */
  lemma PlanByIdAtPositionIf(plans: seq<Plan>, id: int)
    ensures PlanIdsArePositions(plans) ==> PlanById(plans, id) == if 1 <= id <= |plans| then Some(id - 1) else None
  {
    if PlanIdsArePositions(plans) {
      PlanByIdAtPosition(plans, id);
    }
  }

  /** In a database that keeps the schema's constraints every foreign key
      resolves: each subscription, payment, chat message and usage log
      names a user (and, where it has one, a plan) that the lookup by key
      finds, at the row the key names. */
  lemma ForeignKeysResolve(db: Db)
    requires db.Valid()
    ensures forall i :: 0 <= i < |db.subs| ==>
      UserById(db.users, db.subs[i].userId) == Some(db.subs[i].userId - 1)
      && PlanById(db.plans, db.subs[i].planId) == Some(db.subs[i].planId - 1)
    ensures forall i :: 0 <= i < |db.payments| ==>
      UserById(db.users, db.payments[i].userId) == Some(db.payments[i].userId - 1)
      && PlanById(db.plans, db.payments[i].planId) == Some(db.payments[i].planId - 1)
    ensures forall i :: 0 <= i < |db.messages| ==>
      UserById(db.users, db.messages[i].userId) == Some(db.messages[i].userId - 1)
    ensures forall i :: 0 <= i < |db.usage| ==>
      UserById(db.users, db.usage[i].userId) == Some(db.usage[i].userId - 1)
  {
    var users, plans := db.users, db.plans;
    assert UserIdsArePositions(users) && PlanIdsArePositions(plans);
    forall id | 1 <= id <= |users| ensures UserById(users, id) == Some(id - 1) {
      UserByIdAtPosition(users, id);
    }
    forall id | 1 <= id <= |plans| ensures PlanById(plans, id) == Some(id - 1) {
      PlanByIdAtPosition(plans, id);
    }
  }

  /** The subscription query of the chat and subscription endpoints: the
      user's subscriptions with status "active", `order_by(start_date desc)`,
      `.first()`. Among rows with the same latest start date the earliest row
      is taken. */
  function LatestActive(subs: seq<Subscription>, userId: int): (r: Option<nat>)
    ensures r.Some? ==> r.value < |subs| && IsActiveOf(subs[r.value], userId)
    ensures r.Some? ==> forall j :: 0 <= j < |subs| && IsActiveOf(subs[j], userId) ==>
                          subs[j].startDate <= subs[r.value].startDate
    ensures r.Some? ==> forall j :: 0 <= j < r.value && IsActiveOf(subs[j], userId) ==>
                          subs[j].startDate < subs[r.value].startDate
    ensures r.None? <==> forall j :: 0 <= j < |subs| ==> !IsActiveOf(subs[j], userId)
  {
    if subs == [] then None
    else
      var n := |subs| - 1;
      var prev := LatestActive(subs[..n], userId);
      if IsActiveOf(subs[n], userId) && (prev.None? || subs[prev.value].startDate < subs[n].startDate)
      then Some(n)
      else prev
  }

  /** The cancel endpoint's query: the user's subscriptions with status
      "active", `.first()` with no ordering, i.e. the earliest such row. */
  function FirstActive(subs: seq<Subscription>, userId: int): (r: Option<nat>)
    ensures r.Some? ==> r.value < |subs| && IsActiveOf(subs[r.value], userId)
    ensures r.Some? ==> forall j :: 0 <= j < r.value ==> !IsActiveOf(subs[j], userId)
    ensures r.None? <==> forall j :: 0 <= j < |subs| ==> !IsActiveOf(subs[j], userId)
  {
    FirstIndex(subs, (s: Subscription) => IsActiveOf(s, userId))
  }
}
