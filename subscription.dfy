/** Premium subscriptions and the daily AI quota, as the client computes them from the
    user document: a subscription is active until its expiry, a free account has three AI
    requests a day counted under the day's key, and activating a paid plan stamps the
    expiry and the payment into the document. */
module Subscription {

  import opened Wrappers
  import opened Json
  import opened Firestore

  /** A daily AI allowance: a number, or unlimited (`Infinity`). */
  datatype Limit = Finite(n: real) | Unlimited

  /** A plan; `price` is in kobo, `duration` in days (the free plan has none). */
  datatype Plan = Plan(id: string, name: string, price: nat, duration: Option<nat>, aiRequestsPerDay: Limit)

  const FreeDailyLimit: real := 3.0
  const DayMs: int := 24 * 60 * 60 * 1000

  /** `PLANS`, in declaration order. */
  const Plans: seq<Plan> := [
    Plan("free", "Free", 0, None, Finite(FreeDailyLimit)),
    Plan("monthly", "Premium Monthly", 150000, Some(30), Unlimited),
    Plan("quarterly", "Premium Quarterly", 350000, Some(90), Unlimited),
    Plan("yearly", "Premium Yearly", 1000000, Some(365), Unlimited)
  ]

  /** `Object.values(PLANS).find(p => p.id === planId)` over a list of plans. */
  function Find(plans: seq<Plan>, planId: string): (r: Option<Plan>)
    ensures r.Some? ==> r.value in plans && r.value.id == planId
    ensures r.None? <==> forall i :: 0 <= i < |plans| ==> plans[i].id != planId
  {
    if plans == [] then None
    else if plans[0].id == planId then Some(plans[0])
    else Find(plans[1..], planId)
  }

  function FindPlan(planId: string): Option<Plan> {
    Find(Plans, planId)
  }

  /** A plan the activation accepts: known and not the free one. */
  predicate PaidPlan(planId: string) {
    FindPlan(planId).Some? && FindPlan(planId).value.id != "free"
  }

  /** The accepted plans are exactly the three paid ones; each lasts at least 30 days,
      gives unlimited AI requests, and costs what its table entry says. */
  lemma PaidPlans(planId: string)
    ensures PaidPlan(planId) <==> planId == "monthly" || planId == "quarterly" || planId == "yearly"
    ensures PaidPlan(planId) ==> var p := FindPlan(planId).value;
      p.duration.Some? && p.duration.value >= 30 && p.aiRequestsPerDay == Unlimited
    ensures planId == "monthly" ==> FindPlan(planId).value.price == 150000 && FindPlan(planId).value.duration == Some(30)
    ensures planId == "quarterly" ==> FindPlan(planId).value.price == 350000 && FindPlan(planId).value.duration == Some(90)
    ensures planId == "yearly" ==> FindPlan(planId).value.price == 1000000 && FindPlan(planId).value.duration == Some(365)
  {
    if PaidPlan(planId) {
      var p := FindPlan(planId).value;
      assert p in Plans;
    }
    if planId == "monthly" {
      assert Plans[1].id == planId;
    } else if planId == "quarterly" {
      assert Plans[2].id == planId;
    } else if planId == "yearly" {
      assert Plans[3].id == planId;
    }
  }

  // ---------------------------------------------------------------------------------
  // getSubscriptionStatus and checkAIUsage

  /** The status record; `canUseAI` is absent from the default record. */
  datatype Status = Status(
    tier: Value,
    isActive: bool,
    expiresAt: Option<int>,
    aiRequestsToday: real,
    aiLimit: Limit,
    canUseAI: Option<bool>)

  const DefaultStatus: Status := Status(Text("free"), false, None, 0.0, Finite(FreeDailyLimit), None)

  /** `subscriptionExpiry?.toDate?.()`: only a stored timestamp has a date. */
  function ExpiresAt(d: Doc): Option<int> {
    match Field(d, "subscriptionExpiry")
    case Some(Timestamp(ms)) => Some(ms)
    case _ => None
  }

  /** `(aiUsage || {})[today] || 0`. */
  function TodayCount(d: Doc, today: string): real {
    match Field(d, "aiUsage")
    case Some(Record(m)) => NumberOr0(Field(m, today))
    case _ => 0.0
  }

  predicate Below(count: real, limit: Limit) {
    limit.Unlimited? || count < limit.n
  }

  /** The status computed from a user document. */
  function StatusOf(d: Doc, now: int, today: string): Status {
    var expiresAt := ExpiresAt(d);
    var isActive := expiresAt.Some? && expiresAt.value > now;
    var count := TodayCount(d, today);
    var limit := if isActive then Unlimited else Finite(FreeDailyLimit);
    var tier := if !isActive then Text("free")
                else if Present(Field(d, "subscriptionTier")) then d["subscriptionTier"]
                else Text("premium");
    Status(tier, isActive, expiresAt, count, limit, Some(Below(count, limit)))
  }

  /** `getSubscriptionStatus`. `user` is the signed-in uid, `readFails` a read that throws,
      `today` the day key of `now`. */
  function GetSubscriptionStatus(users: map<string, Doc>, user: Option<string>, readFails: bool,
                                 now: int, today: string): Status {
    if user.None? || readFails || user.value !in users then DefaultStatus
    else StatusOf(users[user.value], now, today)
  }

  /** Without a readable document the status is the free default; with one, the
      subscription is active exactly when a stored expiry lies strictly after now, the tier
      is the stored tier (or `premium`) when active and `free` otherwise, the limit is
      unlimited when active and 3 otherwise, and AI may be used exactly when today's count is
      below the limit. */
  lemma StatusRules(users: map<string, Doc>, user: Option<string>, readFails: bool, now: int, today: string)
    ensures var s := GetSubscriptionStatus(users, user, readFails, now, today);
      (user.None? || readFails || user.value !in users ==>
        s.tier == Text("free") && !s.isActive && s.aiRequestsToday == 0.0 && s.aiLimit == Finite(3.0))
    ensures var s := GetSubscriptionStatus(users, user, readFails, now, today);
      user.Some? && !readFails && user.value in users ==>
        var d := users[user.value];
        && (s.isActive <==> "subscriptionExpiry" in d && d["subscriptionExpiry"].Timestamp? && d["subscriptionExpiry"].ms > now)
        && (s.isActive && Present(Field(d, "subscriptionTier")) ==> s.tier == d["subscriptionTier"])
        && (s.isActive && !Present(Field(d, "subscriptionTier")) ==> s.tier == Text("premium"))
        && (!s.isActive ==> s.tier == Text("free"))
        && s.aiRequestsToday == TodayCount(d, today)
        && (s.aiLimit == Unlimited <==> s.isActive)
        && (!s.isActive ==> s.aiLimit == Finite(3.0))
        && (s.canUseAI == Some(true) <==> s.isActive || s.aiRequestsToday < 3.0)
  {
  }

  /** The message `checkAIUsage` shows, by kind. */
  datatype UsageMessage = UnlimitedAccess | RemainingToday(remaining: Limit) | LimitReached

  datatype Usage = Usage(allowed: bool, remaining: Limit, message: UsageMessage)

  /** `checkAIUsage` on a status. */
  function UsageOf(s: Status): Usage {
    if s.isActive then Usage(true, Unlimited, UnlimitedAccess)
    else match s.aiLimit
      case Unlimited => Usage(true, Unlimited, RemainingToday(Unlimited))
      case Finite(n) =>
        var remaining := if n - s.aiRequestsToday > 0.0 then n - s.aiRequestsToday else 0.0;
        if remaining > 0.0 then Usage(true, Finite(remaining), RemainingToday(Finite(remaining)))
        else Usage(false, Finite(0.0), LimitReached)
  }

  /** `checkAIUsage`. */
  function CheckAIUsage(users: map<string, Doc>, user: Option<string>, readFails: bool, now: int, today: string): Usage {
    UsageOf(GetSubscriptionStatus(users, user, readFails, now, today))
  }

  /** An active subscription allows with unlimited remaining; otherwise the remaining count
      is `max(0, 3 - today's count)` and the request is allowed exactly when it is positive,
      which is exactly when the status says AI may be used. */
  lemma QuotaRules(users: map<string, Doc>, user: Option<string>, readFails: bool, now: int, today: string)
    ensures var s := GetSubscriptionStatus(users, user, readFails, now, today);
      var u := CheckAIUsage(users, user, readFails, now, today);
      && (s.isActive ==> u == Usage(true, Unlimited, UnlimitedAccess))
      && (!s.isActive ==> u.remaining == Finite(if 3.0 - s.aiRequestsToday > 0.0 then 3.0 - s.aiRequestsToday else 0.0))
      && (!s.isActive ==> (u.allowed <==> s.aiRequestsToday < 3.0))
      && (s.canUseAI.Some? ==> (u.allowed <==> s.canUseAI.value))
  {
  }

  // ---------------------------------------------------------------------------------
  // incrementAIUsage

  /** The user collection after `incrementAIUsage`: `aiUsage` is replaced by a record with
      today's key only. With no user, a failed read, or no document (which `updateDoc`
      refuses) nothing changes. */
  function IncrementSpec(users: map<string, Doc>, user: Option<string>, today: string, fails: bool): map<string, Doc> {
    if user.None? || fails || user.value !in users then users
    else
      var d := users[user.value];
      users[user.value := Merge(d, map["aiUsage" := Record(map[today := Number(TodayCount(d, today) + 1.0)])])]
  }

  method IncrementAIUsage(store: Store, user: Option<string>, today: string, fails: bool)
    modifies store
    ensures store.users == IncrementSpec(old(store.users), user, today, fails)
    ensures store.payments == old(store.payments)
  {
    if user.None? || fails {
      return;
    }
    var uid := user.value;
    if uid !in store.users {
      return;
    }
    var d := store.users[uid];
    var usage := map[today := Number(TodayCount(d, today) + 1.0)];
    store.users := store.users[uid := Merge(d, map["aiUsage" := Record(usage)])];
  }

  /** An increment raises today's count by one, drops every other day's count, and leaves
      the subscription (expiry, tier) and every other field and user as they were. */
  lemma IncrementCounts(users: map<string, Doc>, uid: string, today: string)
    requires uid in users
    ensures var after := IncrementSpec(users, Some(uid), today, false);
      && uid in after
      && TodayCount(after[uid], today) == TodayCount(users[uid], today) + 1.0
      && (forall day :: day != today ==> TodayCount(after[uid], day) == 0.0)
      && (forall f :: f in users[uid] && f != "aiUsage" ==> f in after[uid] && after[uid][f] == users[uid][f])
      && (forall u :: u in users && u != uid ==> u in after && after[u] == users[u])
  {
  }

  /** Three increments on one day from a day with no requests use up a free account's
      quota: before the third request is counted AI is still allowed, after it, not. */
  lemma ThreeRequestsExhaustFreeQuota(users: map<string, Doc>, uid: string, now: int, today: string)
    requires uid in users && TodayCount(users[uid], today) == 0.0
    requires !GetSubscriptionStatus(users, Some(uid), false, now, today).isActive
    ensures var u1 := IncrementSpec(users, Some(uid), today, false);
      var u2 := IncrementSpec(u1, Some(uid), today, false);
      var u3 := IncrementSpec(u2, Some(uid), today, false);
      && CheckAIUsage(u2, Some(uid), false, now, today).allowed
      && !CheckAIUsage(u3, Some(uid), false, now, today).allowed
      && CheckAIUsage(u3, Some(uid), false, now, today).message == LimitReached
  {
    var u1 := IncrementSpec(users, Some(uid), today, false);
    IncrementCounts(users, uid, today);
    var u2 := IncrementSpec(u1, Some(uid), today, false);
    IncrementCounts(u1, uid, today);
    var u3 := IncrementSpec(u2, Some(uid), today, false);
    IncrementCounts(u2, uid, today);
    assert ExpiresAt(u3[uid]) == ExpiresAt(u2[uid]) == ExpiresAt(u1[uid]) == ExpiresAt(users[uid]);
  }

  // ---------------------------------------------------------------------------------
  // activateSubscription

  datatype ActivationError = NotAuthenticated | InvalidPlan | WriteFailed

  datatype Activation = Activated(expiresAt: int) | Failed(error: ActivationError)

  /** The fields `activateSubscription` writes. */
  function ActivationFields(plan: Plan, transactionRef: string, now: int, expiry: int): Doc {
    map[
      "subscriptionTier" := Text(plan.id),
      "subscriptionExpiry" := Timestamp(expiry),
      "supporterStatus" := Boolean(true),
      "lastPaymentRef" := Text(transactionRef),
      "lastPaymentDate" := Timestamp(now),
      "lastPaymentAmount" := Number(plan.price as real)
    ]
  }

  /** The outcome and the user collection after `activateSubscription`. `writeFails` is an
      `updateDoc` that throws for another reason than a missing document. */
  function Activate(users: map<string, Doc>, user: Option<string>, planId: string, transactionRef: string,
                    now: int, writeFails: bool): (Activation, map<string, Doc>) {
    if user.None? then (Failed(NotAuthenticated), users)
    else if !PaidPlan(planId) then (Failed(InvalidPlan), users)
    else
      var plan := FindPlan(planId).value;
      var expiry := now + plan.duration.value * DayMs;
      if writeFails || user.value !in users then (Failed(WriteFailed), users)
      else (Activated(expiry), users[user.value := Merge(users[user.value], ActivationFields(plan, transactionRef, now, expiry))])
  }

  method ActivateSubscription(store: Store, user: Option<string>, planId: string, transactionRef: string,
                              now: int, writeFails: bool) returns (r: Activation)
    modifies store
    ensures (r, store.users) == Activate(old(store.users), user, planId, transactionRef, now, writeFails)
    ensures store.payments == old(store.payments)
  {
    if user.None? {
      return Failed(NotAuthenticated);
    }
    var plan := Find(Plans, planId);
    if plan.None? || plan.value.id == "free" {
      return Failed(InvalidPlan);
    }
    var expiry := now + plan.value.duration.value * DayMs;
    var uid := user.value;
    if writeFails || uid !in store.users {
      return Failed(WriteFailed);
    }
    store.users := store.users[uid := Merge(store.users[uid], ActivationFields(plan.value, transactionRef, now, expiry))];
    r := Activated(expiry);
  }

  /** Activation is refused without a user and for an unknown or free plan, writing
      nothing; otherwise it succeeds exactly when the document exists and the write goes
      through, with the expiry `duration` days after now. A success merges the plan as
      tier, the expiry, supporter status, the payment's reference, date and price into the
      user's document, keeping every other field and every other user. */
  lemma ActivationOutcome(users: map<string, Doc>, user: Option<string>, planId: string, transactionRef: string,
                          now: int, writeFails: bool)
    ensures var (r, after) := Activate(users, user, planId, transactionRef, now, writeFails);
      && (user.None? ==> r == Failed(NotAuthenticated))
      && (user.Some? && !PaidPlan(planId) ==> r == Failed(InvalidPlan))
      && (r.Failed? ==> after == users)
      && (r.Activated? <==> user.Some? && PaidPlan(planId) && !writeFails && user.value in users)
      && (r.Activated? ==> r.expiresAt == now + FindPlan(planId).value.duration.value * 86400000)
      && (r.Activated? ==> ActivationWrote(users, after, user.value, planId, transactionRef, now, r.expiresAt))
  {
    var (r, after) := Activate(users, user, planId, transactionRef, now, writeFails);
    if r.Activated? {
      ActivationWrites(users, user.value, planId, transactionRef, now);
    }
  }

  /** What a successful activation leaves in the user collection: the plan as tier, the
      expiry, supporter status and the payment's reference, date and price merged into the
      user's document; every other field and every other user kept. */
  ghost predicate ActivationWrote(users: map<string, Doc>, after: map<string, Doc>, uid: string, planId: string,
                                  transactionRef: string, now: int, expiresAt: int)
    requires PaidPlan(planId)
  {
    var fields := ActivationFields(FindPlan(planId).value, transactionRef, now, expiresAt);
    && uid in users && uid in after && after.Keys == users.Keys
    && after[uid].Keys == users[uid].Keys + fields.Keys
    && after[uid]["subscriptionTier"] == Text(planId)
    && after[uid]["subscriptionExpiry"] == Timestamp(expiresAt)
    && after[uid]["supporterStatus"] == Boolean(true)
    && after[uid]["lastPaymentRef"] == Text(transactionRef)
    && after[uid]["lastPaymentDate"] == Timestamp(now)
    && after[uid]["lastPaymentAmount"] == Number(FindPlan(planId).value.price as real)
    && (forall f :: f in users[uid] && f !in fields ==> after[uid][f] == users[uid][f])
    && (forall u :: u in users && u != uid ==> after[u] == users[u])
  }

  lemma ActivationWrites(users: map<string, Doc>, uid: string, planId: string, transactionRef: string, now: int)
    requires uid in users && PaidPlan(planId)
    ensures var (r, after) := Activate(users, Some(uid), planId, transactionRef, now, false);
      r.Activated? && ActivationWrote(users, after, uid, planId, transactionRef, now, r.expiresAt)
  {
    var plan := FindPlan(planId).value;
    var expiry := now + plan.duration.value * DayMs;
    var fields := ActivationFields(plan, transactionRef, now, expiry);
    assert plan.id == planId;
    var merged := Merge(users[uid], fields);
    assert Activate(users, Some(uid), planId, transactionRef, now, false) == (Activated(expiry), users[uid := merged]);
    assert merged.Keys == users[uid].Keys + fields.Keys;
    assert merged["subscriptionTier"] == Text(planId) && merged["subscriptionExpiry"] == Timestamp(expiry);
    assert merged["supporterStatus"] == Boolean(true) && merged["lastPaymentRef"] == Text(transactionRef);
    assert merged["lastPaymentDate"] == Timestamp(now) && merged["lastPaymentAmount"] == Number(plan.price as real);
  }

  /** From the moment of a successful activation until just before its expiry, the status
      is active with the plan as its tier, and AI use is allowed without limit. */
  lemma ActivationMakesActive(users: map<string, Doc>, uid: string, planId: string, transactionRef: string,
                              now: int, later: int, today: string)
    requires uid in users && PaidPlan(planId)
    requires now <= later < now + FindPlan(planId).value.duration.value * DayMs
    ensures var (r, after) := Activate(users, Some(uid), planId, transactionRef, now, false);
      && r.Activated?
      && GetSubscriptionStatus(after, Some(uid), false, later, today).isActive
      && GetSubscriptionStatus(after, Some(uid), false, later, today).tier == Text(planId)
      && CheckAIUsage(after, Some(uid), false, later, today) == Usage(true, Unlimited, UnlimitedAccess)
  {
    PaidPlans(planId);
  }
}
