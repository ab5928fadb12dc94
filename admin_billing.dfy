/** The admin billing router: the payment list joined with each payment's
    user and plan, and the usage summary (token totals per user, revenue from
    successful payments). Admin authentication is not modelled. */
module AdminBilling {
  import opened Records
  import opened Query
  import opened Database

  /** One entry of `list_payments`. */
  datatype PaymentRow = PaymentRow(
    id: int,
    gateway: Gateway,
    amount: int,
    currency: string,
    status: PaymentStatus,
    createdAt: int,
    transactionId: Option<string>,
    userEmail: Email,
    planName: string)

  function RowFor(p: Payment, u: User, plan: Plan): PaymentRow {
    PaymentRow(p.id, p.gateway, p.amount, p.currency, p.status, p.createdAt, p.transactionId, u.email, plan.name)
  }

  /** The inner join of payments with users on `user_id` and with plans on
      `plan_id`, in table order: a payment whose user or plan is missing
      yields no row. */
  function JoinPayments(payments: seq<Payment>, users: seq<User>, plans: seq<Plan>): (r: seq<PaymentRow>)
    ensures |r| <= |payments|
  {
    if payments == [] then []
    else
      var n := |payments| - 1;
      var rest := JoinPayments(payments[..n], users, plans);
      var p := payments[n];
      match (UserById(users, p.userId), PlanById(plans, p.planId))
      case (Some(u), Some(pl)) => rest + [RowFor(p, users[u], plans[pl])]
      case _ => rest
  }

  function Recency(row: PaymentRow): int {
    -row.createdAt
  }

  /** `list_payments`: the joined rows, newest first. */
  function ListPayments(payments: seq<Payment>, users: seq<User>, plans: seq<Plan>): (r: seq<PaymentRow>)
    ensures forall i, j :: 0 <= i < j < |r| ==> r[i].createdAt >= r[j].createdAt
    ensures multiset(r) == multiset(JoinPayments(payments, users, plans))
  {
    SortBy(JoinPayments(payments, users, plans), Recency)
  }

  /** The payment table's own keys and foreign keys, as the schema keeps them. */
  ghost predicate PaymentKeys(payments: seq<Payment>, users: seq<User>, plans: seq<Plan>) {
    forall i :: 0 <= i < |payments| ==>
      payments[i].id == i + 1 && 1 <= payments[i].userId <= |users| && 1 <= payments[i].planId <= |plans|
  }

  /** Under the schema's keys the join drops nothing: the k-th row is the
      k-th payment with its own user's e-mail and its own plan's name. */
  lemma {:induction false} JoinKeepsEveryPayment(payments: seq<Payment>, users: seq<User>, plans: seq<Plan>)
    requires UserIdsArePositions(users) && PlanIdsArePositions(plans)
    requires PaymentKeys(payments, users, plans)
    ensures var r := JoinPayments(payments, users, plans);
      && |r| == |payments|
      && forall k :: 0 <= k < |r| ==>
           r[k] == RowFor(payments[k], users[payments[k].userId - 1], plans[payments[k].planId - 1])
  {
    if payments != [] {
      var n := |payments| - 1;
      var prefix := payments[..n];
      assert PaymentKeys(prefix, users, plans) by {
        forall i | 0 <= i < |prefix|
          ensures prefix[i].id == i + 1 && 1 <= prefix[i].userId <= |users| && 1 <= prefix[i].planId <= |plans|
        {
          assert prefix[i] == payments[i];
        }
      }
      JoinKeepsEveryPayment(prefix, users, plans);
      var p := payments[n];
      UserByIdAtPosition(users, p.userId);
      PlanByIdAtPosition(plans, p.planId);
      var rest := JoinPayments(prefix, users, plans);
      var r := JoinPayments(payments, users, plans);
      assert r == rest + [RowFor(p, users[p.userId - 1], plans[p.planId - 1])];
      forall k | 0 <= k < |r|
        ensures r[k] == RowFor(payments[k], users[payments[k].userId - 1], plans[payments[k].planId - 1])
      {
        if k < n {
          assert r[k] == rest[k] && payments[k] == prefix[k];
        }
      }
    }
  }

  /** Every listed row carries the payment with the row's key, that
      payment's user's e-mail and that payment's plan's name; and every
      payment is listed. */
  lemma ListedRowsCarryOwners(payments: seq<Payment>, users: seq<User>, plans: seq<Plan>)
    requires UserIdsArePositions(users) && PlanIdsArePositions(plans)
    requires PaymentKeys(payments, users, plans)
    ensures |ListPayments(payments, users, plans)| == |payments|
    ensures forall row :: row in ListPayments(payments, users, plans) ==>
      && 1 <= row.id <= |payments|
      && var p := payments[row.id - 1];
         row == RowFor(p, users[p.userId - 1], plans[p.planId - 1])
  {
    var j := JoinPayments(payments, users, plans);
    var r := ListPayments(payments, users, plans);
    JoinKeepsEveryPayment(payments, users, plans);
    assert |r| == |multiset(r)| == |multiset(j)| == |j|;
    forall row | row in r
      ensures 1 <= row.id <= |payments|
      ensures row == RowFor(payments[row.id - 1], users[payments[row.id - 1].userId - 1],
                            plans[payments[row.id - 1].planId - 1])
    {
      assert row in multiset(j);
      var k :| 0 <= k < |j| && j[k] == row;
      assert payments[k].id == k + 1;
    }
  }

  /** One entry of `top_users`: an e-mail and a token total. */
  datatype UserTokens = UserTokens(email: Email, tokens: int)

  /** The join of usage logs with users, one (e-mail, tokens) pair per log
      whose user exists, in table order. */
  function UsagePairs(usage: seq<UsageLog>, users: seq<User>): (r: seq<UserTokens>)
    ensures |r| <= |usage|
  {
    if usage == [] then []
    else
      var n := |usage| - 1;
      var rest := UsagePairs(usage[..n], users);
      match UserById(users, usage[n].userId)
      case Some(u) => rest + [UserTokens(users[u].email, usage[n].tokensUsed)]
      case None => rest
  }

  /** `sum(tokens_used)` over the pairs of one e-mail group. */
  function TokensFor(pairs: seq<UserTokens>, email: Email): int {
    if pairs == [] then 0
    else
      var n := |pairs| - 1;
      TokensFor(pairs[..n], email) + (if pairs[n].email == email then pairs[n].tokens else 0)
  }

  /** The total `usage_summary` reports for a user: the sum of
      `tokens_used` over the usage logs of the user with key `userId`. */
  function LoggedTokens(usage: seq<UsageLog>, userId: int): int {
    if usage == [] then 0
    else
      var n := |usage| - 1;
      LoggedTokens(usage[..n], userId) + (if usage[n].userId == userId then usage[n].tokensUsed else 0)
  }

  /** With unique e-mails and auto-increment keys, a user's group total is
      the sum of that user's own usage logs. */
  lemma {:induction false} GroupTotalIsUserTotal(usage: seq<UsageLog>, users: seq<User>, i: nat)
    requires UserIdsArePositions(users) && UniqueEmails(users) && i < |users|
    ensures TokensFor(UsagePairs(usage, users), users[i].email) == LoggedTokens(usage, i + 1)
  {
    if usage != [] {
      var n := |usage| - 1;
      GroupTotalIsUserTotal(usage[..n], users, i);
      UserByIdAtPosition(users, usage[n].userId);
      var pairs := UsagePairs(usage, users);
      if 1 <= usage[n].userId <= |users| {
        assert pairs[..|pairs| - 1] == UsagePairs(usage[..n], users);
        assert users[usage[n].userId - 1].email == users[i].email <==> usage[n].userId == i + 1;
      }
    }
  }

  function EmailsOf(pairs: seq<UserTokens>): set<Email> {
    set t | t in pairs :: t.email
  }

  /** The `group_by(User.email)` groups: each e-mail of the pairs, once, in
      order of first appearance. */
  function DistinctEmails(pairs: seq<UserTokens>): (r: seq<Email>)
    ensures NoDuplicates(r)
    ensures forall e :: e in r <==> e in EmailsOf(pairs)
  {
    if pairs == [] then []
    else
      var n := |pairs| - 1;
      var rest := DistinctEmails(pairs[..n]);
      assert pairs == pairs[..n] + [pairs[n]];
      if pairs[n].email in rest then rest else rest + [pairs[n].email]
  }

  function Totals(pairs: seq<UserTokens>, emails: seq<Email>): (r: seq<UserTokens>)
    ensures |r| == |emails|
  {
    seq(|emails|, i requires 0 <= i < |emails| => UserTokens(emails[i], TokensFor(pairs, emails[i])))
  }

  function Heaviness(t: UserTokens): int {
    -t.tokens
  }

  /** `per_user`: one entry per e-mail group with its token total, largest
      total first. */
  function TopUsers(usage: seq<UsageLog>, users: seq<User>): (r: seq<UserTokens>)
    ensures forall i, j :: 0 <= i < j < |r| ==> r[i].tokens >= r[j].tokens
  {
    var pairs := UsagePairs(usage, users);
    SortBy(Totals(pairs, DistinctEmails(pairs)), Heaviness)
  }

  /** `top_users` lists every e-mail with logged usage exactly once, with
      that e-mail's token total, and nothing else. */
  lemma TopUsersTotals(usage: seq<UsageLog>, users: seq<User>)
    ensures var pairs := UsagePairs(usage, users);
      forall t :: t in TopUsers(usage, users) ==>
        t.email in EmailsOf(pairs) && t.tokens == TokensFor(pairs, t.email)
    ensures var pairs := UsagePairs(usage, users);
      forall e :: e in EmailsOf(pairs) ==>
        multiset(TopUsers(usage, users))[UserTokens(e, TokensFor(pairs, e))] == 1
  {
    var pairs := UsagePairs(usage, users);
    var emails := DistinctEmails(pairs);
    var totals := Totals(pairs, emails);
    var r := TopUsers(usage, users);
    assert multiset(r) == multiset(totals);
    forall t | t in r
      ensures t.email in EmailsOf(pairs) && t.tokens == TokensFor(pairs, t.email)
    {
      assert t in multiset(totals);
      var k :| 0 <= k < |totals| && totals[k] == t;
      assert t.email == emails[k];
    }
    assert NoDuplicates(totals) by {
      forall i, j | 0 <= i < j < |totals| ensures totals[i] != totals[j] {
        assert totals[i].email == emails[i];
        assert totals[j].email == emails[j];
      }
    }
    NoDuplicatesOccurOnce(totals);
    forall e | e in EmailsOf(pairs)
      ensures multiset(r)[UserTokens(e, TokensFor(pairs, e))] == 1
    {
      var k :| 0 <= k < |emails| && emails[k] == e;
      assert totals[k] == UserTokens(e, TokensFor(pairs, e));
    }
  }

  /** The amount a payment adds to the revenue: its amount when it
      succeeded, nothing otherwise. */
  function Contribution(p: Payment): int {
    if p.status == Success then p.amount else 0
  }

  /** `sum(amount) where status == "success"`, `or 0`: 0 when no payment
      succeeded. */
  function TotalRevenue(payments: seq<Payment>): (r: int)
    ensures (forall k :: 0 <= k < |payments| ==> payments[k].status != Success) ==> r == 0
    ensures (forall k :: 0 <= k < |payments| ==> payments[k].amount >= 0) ==> r >= 0
  {
    if payments == [] then 0
    else
      var n := |payments| - 1;
      TotalRevenue(payments[..n]) + Contribution(payments[n])
  }

  /** Changing one payment changes the revenue by the difference of its
      contributions: marking a payment successful adds its amount, and a
      payment that is not successful adds nothing. */
  lemma {:induction false} RevenueUpdate(payments: seq<Payment>, i: nat, p: Payment)
    requires i < |payments|
    ensures TotalRevenue(payments[i := p]) == TotalRevenue(payments) - Contribution(payments[i]) + Contribution(p)
  {
    var n := |payments| - 1;
    var q := payments[i := p];
    assert q[..n] == if i == n then payments[..n] else payments[..n][i := p];
    if i < n {
      RevenueUpdate(payments[..n], i, p);
    }
  }

  /** `usage_summary` */
  datatype UsageSummary = UsageSummary(totalRevenue: int, topUsers: seq<UserTokens>)

  /** The summary: revenue 0 when no payment succeeded and never negative
      when no amount is, and the per-user totals largest first. */
  function Summary(payments: seq<Payment>, usage: seq<UsageLog>, users: seq<User>): (r: UsageSummary)
    ensures (forall k :: 0 <= k < |payments| ==> payments[k].status != Success) ==> r.totalRevenue == 0
    ensures (forall k :: 0 <= k < |payments| ==> payments[k].amount >= 0) ==> r.totalRevenue >= 0
    ensures forall i, j :: 0 <= i < j < |r.topUsers| ==> r.topUsers[i].tokens >= r.topUsers[j].tokens
  {
    UsageSummary(TotalRevenue(payments), TopUsers(usage, users))
  }

  /** Every pair of a usage join carries the e-mail of a registered user. */
  lemma {:induction false} UsagePairsFromUsers(usage: seq<UsageLog>, users: seq<User>)
    ensures forall t :: t in UsagePairs(usage, users) ==> exists i :: 0 <= i < |users| && users[i].email == t.email
  {
    if usage != [] {
      UsagePairsFromUsers(usage[..|usage| - 1], users);
    }
  }

  /** In a database that keeps its constraints, each entry of the summary's
      `top_users` names a registered user and carries the sum of that user's
      own usage logs, and every user with a usage log is listed. */
  lemma {:induction false} SummaryReportsUserTotals(payments: seq<Payment>, usage: seq<UsageLog>, users: seq<User>)
    requires UserIdsArePositions(users) && UniqueEmails(users)
    requires forall k :: 0 <= k < |usage| ==> 1 <= usage[k].userId <= |users|
    ensures var top := Summary(payments, usage, users).topUsers;
      forall t :: t in top ==>
        exists i :: 0 <= i < |users| && users[i].email == t.email && t.tokens == LoggedTokens(usage, i + 1)
    ensures var top := Summary(payments, usage, users).topUsers;
      forall k :: 0 <= k < |usage| ==>
        UserTokens(users[usage[k].userId - 1].email, LoggedTokens(usage, usage[k].userId)) in top
  {
    var top := Summary(payments, usage, users).topUsers;
    var pairs := UsagePairs(usage, users);
    TopUsersTotals(usage, users);
    UsagePairsFromUsers(usage, users);
    forall t | t in top
      ensures exists i :: 0 <= i < |users| && users[i].email == t.email && t.tokens == LoggedTokens(usage, i + 1)
    {
      assert t.email in EmailsOf(pairs);
      var p :| p in pairs && p.email == t.email;
      var i :| 0 <= i < |users| && users[i].email == p.email;
      GroupTotalIsUserTotal(usage, users, i);
    }
    forall k | 0 <= k < |usage|
      ensures UserTokens(users[usage[k].userId - 1].email, LoggedTokens(usage, usage[k].userId)) in top
    {
      var i := usage[k].userId - 1;
      UsagePairsCoverUsage(usage, users, k);
      GroupTotalIsUserTotal(usage, users, i);
      assert users[i].email in EmailsOf(pairs);
      assert multiset(top)[UserTokens(users[i].email, TokensFor(pairs, users[i].email))] == 1;
    }
  }

  /** A usage log whose user exists contributes a pair with that user's e-mail. */
  lemma {:induction false} UsagePairsCoverUsage(usage: seq<UsageLog>, users: seq<User>, k: nat)
    requires UserIdsArePositions(users) && k < |usage| && 1 <= usage[k].userId <= |users|
    ensures users[usage[k].userId - 1].email in EmailsOf(UsagePairs(usage, users))
  {
    var n := |usage| - 1;
    UserByIdAtPosition(users, usage[n].userId);
    if k < n {
      UsagePairsCoverUsage(usage[..n], users, k);
    }
  }
}
