/** The chat router's `send_message`: the quota check against the user's
    latest active subscription, storing the user's message, building the
    context handed to the AI service, and charging one token per answered
    message. The AI service itself is not modelled: its reply, or its failure
    (`None`, which the endpoint turns into an HTTP 500), is a parameter. */
module Chat {
  import opened Records
  import opened Query
  import opened Database

  /** One entry of the message list sent to the AI service. */
  datatype AiMessage = AiMessage(role: string, content: string)

  const SystemPrompt := AiMessage("system", "You are a helpful AI assistant.")
  /** How many stored messages the AI context carries at most. */
  const HistoryLimit := 10
  const AssistantRole: string := "assistant"

  datatype ChatReply = ChatReply(reply: string, history: seq<ChatMessage>)

  /** The user's stored messages, oldest first (`order_by(created_at.asc())`;
      rows are stored in the order they are created). */
  function UserHistory(messages: seq<ChatMessage>, userId: int): seq<ChatMessage> {
    Filter(messages, (m: ChatMessage) => m.userId == userId)
  }

  /** The query `order_by(created_at.desc()).limit(limit)` on the user's
      messages: the newest `limit` of them, newest first. */
  function RecentFirst(messages: seq<ChatMessage>, userId: int, limit: nat): (r: seq<ChatMessage>)
    ensures |r| == if |UserHistory(messages, userId)| < limit then |UserHistory(messages, userId)| else limit
  {
    var h := Reverse(UserHistory(messages, userId));
    if |h| < limit then h else h[..limit]
  }

  /** The same messages, newest `limit` of them, oldest first. */
  function RecentWindow(messages: seq<ChatMessage>, userId: int, limit: nat): (w: seq<ChatMessage>)
    ensures |w| <= limit
  {
    var h := UserHistory(messages, userId);
    if |h| < limit then h else h[|h| - limit..]
  }

  /** Reading the newest messages newest first and reversing them gives the
      newest messages in chronological order. */
  lemma RecentFirstReversed(messages: seq<ChatMessage>, userId: int, limit: nat)
    ensures Reverse(RecentFirst(messages, userId, limit)) == RecentWindow(messages, userId, limit)
  {
    var h := UserHistory(messages, userId);
    var w := RecentWindow(messages, userId, limit);
    var f := RecentFirst(messages, userId, limit);
    var v := Reverse(f);
    assert |v| == |f| == |w|;
    forall i | 0 <= i < |w| ensures v[i] == w[i] {
      assert v[i] == f[|f| - 1 - i];
      assert f[|f| - 1 - i] == Reverse(h)[|f| - 1 - i];
      assert w[i] == h[|h| - |w| + i];
    }
  }

  function ToAi(m: ChatMessage): AiMessage {
    AiMessage(m.role, m.content)
  }

  function ToAiAll(s: seq<ChatMessage>): (r: seq<AiMessage>)
    ensures |r| == |s|
  {
    seq(|s|, i requires 0 <= i < |s| => ToAi(s[i]))
  }

  /** The context loop of `send_message`: the system prompt, then the stored
      messages from `lastMsgs` (given newest first) in chronological order,
      then the current message. */
  method BuildContext(lastMsgs: seq<ChatMessage>, message: string) returns (ctx: seq<AiMessage>)
    ensures ctx == [SystemPrompt] + ToAiAll(Reverse(lastMsgs)) + [AiMessage(UserRole, message)]
  {
    ctx := [SystemPrompt];
    var n := |lastMsgs|;
    while n > 0
      invariant 0 <= n <= |lastMsgs|
      invariant ctx == [SystemPrompt] + ToAiAll(Reverse(lastMsgs[n..]))
    {
      n := n - 1;
      assert lastMsgs[n..][1..] == lastMsgs[n + 1..];
      ctx := ctx + [ToAi(lastMsgs[n])];
    }
    ctx := ctx + [AiMessage(UserRole, message)];
  }

  /** The context `send_message` hands to the AI service: the system
      prompt first, the current message last, and between them the user's
      newest stored messages, at most ten. */
  function Context(messages: seq<ChatMessage>, userId: int, message: string): (r: seq<AiMessage>)
    ensures 2 <= |r| <= HistoryLimit + 2
    ensures |r| - 2 == if |UserHistory(messages, userId)| < HistoryLimit then |UserHistory(messages, userId)| else HistoryLimit
    ensures r[0] == SystemPrompt && r[|r| - 1] == AiMessage(UserRole, message)
  {
    [SystemPrompt] + ToAiAll(RecentWindow(messages, userId, HistoryLimit)) + [AiMessage(UserRole, message)]
  }

  /** The context carries no other user's messages: every entry between the
      system prompt and the current message is one of this user's stored
      messages, in the form the AI service takes. */
  lemma ContextHoldsOwnMessages(messages: seq<ChatMessage>, userId: int, message: string)
    ensures var ctx := Context(messages, userId, message);
      forall i :: 1 <= i < |ctx| - 1 ==> ctx[i] in ToAiAll(UserHistory(messages, userId))
  {
    var ctx := Context(messages, userId, message);
    var h := UserHistory(messages, userId);
    var w := RecentWindow(messages, userId, HistoryLimit);
    forall i | 1 <= i < |ctx| - 1
      ensures ctx[i] in ToAiAll(h)
    {
      var j := if |h| < HistoryLimit then i - 1 else |h| - HistoryLimit + i - 1;
      assert w[i - 1] == h[j];
      assert ctx[i] == ToAiAll(w)[i - 1] == ToAiAll(h)[j];
    }
  }

  /** Since the current message is stored before the history is read, it is
      also the newest stored message: the context holds at most twelve
      entries, starts with the system prompt and ends with the current
      message twice. */
  lemma CurrentMessageRepeated(messages: seq<ChatMessage>, userId: int, content: string, now: int)
    ensures var stored := messages + [ChatMessage(|messages| + 1, userId, UserRole, content, now)];
            var ctx := Context(stored, userId, content);
      && 3 <= |ctx| <= HistoryLimit + 2
      && ctx[0] == SystemPrompt
      && ctx[|ctx| - 2] == ctx[|ctx| - 1] == AiMessage(UserRole, content)
  {
    var m := ChatMessage(|messages| + 1, userId, UserRole, content, now);
    var stored := messages + [m];
    FilterAppend(messages, m, (x: ChatMessage) => x.userId == userId);
    var h := UserHistory(stored, userId);
    assert h == UserHistory(messages, userId) + [m];
    var w := RecentWindow(stored, userId, HistoryLimit);
    assert |w| >= 1 && w[|w| - 1] == h[|h| - 1] == m;
    var ctx := Context(stored, userId, content);
    assert ctx[|ctx| - 2] == ToAiAll(w)[|w| - 1];
  }

  /** The quota check of `send_message`: the user's latest active
      subscription, if it has tokens left this period. No active
      subscription, or `used_tokens >= tokens_per_month` on the latest one,
      is HTTP 402. */
  function QuotaCheck(subs: seq<Subscription>, plans: seq<Plan>, userId: int): (r: Result<nat>)
    ensures r.Ok? ==> LatestActive(subs, userId) == Some(r.value) && r.value < |subs|
    ensures r.Ok? ==> PlanById(plans, subs[r.value].planId).Some?
    ensures r.Ok? ==> subs[r.value].usedTokens < plans[PlanById(plans, subs[r.value].planId).value].tokensPerMonth
    ensures LatestActive(subs, userId).None? ==> r == Err(PaymentRequired)
    ensures PlanIdsArePositions(plans) && LatestActive(subs, userId).Some? ==>
      var k := LatestActive(subs, userId).value;
      1 <= subs[k].planId <= |plans| ==>
        r == if subs[k].usedTokens < plans[subs[k].planId - 1].tokensPerMonth then Ok(k) else Err(PaymentRequired)
  {
    match LatestActive(subs, userId)
    case None => Err(PaymentRequired)
    case Some(k) =>
      match PlanById(plans, subs[k].planId)
      case None => Err(ServerError)
      case Some(p) =>
        PlanByIdAtPositionIf(plans, subs[k].planId);
        if subs[k].usedTokens >= plans[p].tokensPerMonth then Err(PaymentRequired) else Ok(k)
  }

  /** `sub.used_tokens += 1` */
  function Spend(s: Subscription): Subscription {
    s.(usedTokens := s.usedTokens + 1)
  }

  /** The row `send_message` stores for the user's message. */
  function UserMessage(messages: seq<ChatMessage>, userId: int, message: string, now: int): ChatMessage {
    ChatMessage(|messages| + 1, userId, UserRole, message, now)
  }

  /** `send_message`. When the quota check fails nothing is stored.
      Otherwise the user's message is stored; if the AI call fails the answer
      is 500 and nothing else changes; if it succeeds the reply is stored, the
      subscription's `used_tokens` grows by exactly one and one usage log of
      one token is added. */
  method SendMessage(db: Db, userId: int, message: string, aiReply: Option<string>, now: int)
    returns (r: Result<ChatReply>, context: seq<AiMessage>)
    requires db.Valid() && 1 <= userId <= |db.users|
    modifies db
    ensures db.Valid()
    ensures db.users == old(db.users) && db.plans == old(db.plans) && db.payments == old(db.payments)
    ensures QuotaCheck(old(db.subs), old(db.plans), userId).Err? ==>
      && r == Err(QuotaCheck(old(db.subs), old(db.plans), userId).code) && context == []
      && db.subs == old(db.subs) && db.messages == old(db.messages) && db.usage == old(db.usage)
    ensures QuotaCheck(old(db.subs), old(db.plans), userId).Ok? ==>
      var stored := old(db.messages) + [UserMessage(old(db.messages), userId, message, now)];
      && context == Context(stored, userId, message)
      && (aiReply.None? ==>
            r == Err(ServerError) && db.messages == stored
            && db.subs == old(db.subs) && db.usage == old(db.usage))
      && (aiReply.Some? ==>
            var k := QuotaCheck(old(db.subs), old(db.plans), userId).value;
            && db.messages == stored + [ChatMessage(|stored| + 1, userId, AssistantRole, aiReply.value, now)]
            && db.subs == old(db.subs)[k := Spend(old(db.subs)[k])]
            && db.usage == old(db.usage) + [UsageLog(|old(db.usage)| + 1, userId, 1, now)]
            && r == Ok(ChatReply(aiReply.value, UserHistory(db.messages, userId))))
  {
    context := [];
    var check := QuotaCheck(db.subs, db.plans, userId);
    if check.Err? {
      return Err(check.code), context;
    }
    r, context := Answer(db, check.value, userId, message, aiReply, now);
  }

  /** The part of `send_message` after a passed quota check on the
      subscription at position `k`: store the user's message, build the
      context, and on a reply store it and charge one token. */
  method Answer(db: Db, k: nat, userId: int, message: string, aiReply: Option<string>, now: int)
    returns (r: Result<ChatReply>, context: seq<AiMessage>)
    requires db.Valid() && 1 <= userId <= |db.users| && k < |db.subs|
    modifies db
    ensures db.Valid()
    ensures db.users == old(db.users) && db.plans == old(db.plans) && db.payments == old(db.payments)
    ensures var stored := old(db.messages) + [UserMessage(old(db.messages), userId, message, now)];
      && context == Context(stored, userId, message)
      && (aiReply.None? ==>
            r == Err(ServerError) && db.messages == stored
            && db.subs == old(db.subs) && db.usage == old(db.usage))
      && (aiReply.Some? ==>
            && db.messages == stored + [ChatMessage(|stored| + 1, userId, AssistantRole, aiReply.value, now)]
            && db.subs == old(db.subs)[k := Spend(old(db.subs)[k])]
            && db.usage == old(db.usage) + [UsageLog(|old(db.usage)| + 1, userId, 1, now)]
            && r == Ok(ChatReply(aiReply.value, UserHistory(db.messages, userId))))
  {
    var users, plans, subs, payments, messages, usage := db.users, db.plans, db.subs, db.payments, db.messages, db.usage;

    var userMsg := UserMessage(messages, userId, message, now);
    AppendMessageKeepsValid(users, plans, subs, payments, messages, usage, userMsg);
    var stored := messages + [userMsg];
    db.messages := stored;

    var lastMsgs := RecentFirst(stored, userId, HistoryLimit);
    context := BuildContext(lastMsgs, message);
    RecentFirstReversed(stored, userId, HistoryLimit);

    if aiReply.None? {
      return Err(ServerError), context;
    }
    var aiMsg := ChatMessage(|stored| + 1, userId, AssistantRole, aiReply.value, now);
    AppendMessageKeepsValid(users, plans, subs, payments, stored, usage, aiMsg);
    var spent := Spend(subs[k]);
    SubscriptionUpdateKeepsValid(users, plans, subs, payments, stored + [aiMsg], usage, k, spent);
    var log := UsageLog(|usage| + 1, userId, 1, now);
    AppendUsageKeepsValid(users, plans, subs[k := spent], payments, stored + [aiMsg], usage, log);
    db.messages, db.subs, db.usage := stored + [aiMsg], subs[k := spent], usage + [log];
    r := Ok(ChatReply(aiReply.value, UserHistory(db.messages, userId)));
  }

  /** A send that passes the quota check spends one token and stays within
      the plan's limit: if `used_tokens <= tokens_per_month` held before, it
      holds after. */
  lemma SpendStaysWithinQuota(subs: seq<Subscription>, plans: seq<Plan>, userId: int)
    requires PlanIdsArePositions(plans)
    requires QuotaCheck(subs, plans, userId).Ok?
    ensures var k := QuotaCheck(subs, plans, userId).value;
      && 1 <= subs[k].planId <= |plans|
      && subs[k].usedTokens + 1 <= plans[subs[k].planId - 1].tokensPerMonth
  {
    var k := QuotaCheck(subs, plans, userId).value;
    PlanByIdAtPosition(plans, subs[k].planId);
  }
}
