/**
 * Subscription plans and their lifecycle: creation of a pending subscription,
 * activation by the payment callback, the owner-scoped update, cancel, pause
 * and resume operations, the prorated upgrade with its own payment round trip,
 * and the periodic renewal and expiry sweep.
 */
module Subscriptions {
  import opened Common
  import opened Store
  import opened Webpay

  /* ---------------------------------------------------------------------- */
  /* Plans                                                                  */
  /* ---------------------------------------------------------------------- */

  /** The price table, in Chilean pesos. */
  function Price(p: Plan): int
  {
    match p
    case MONTHLY => 9990
    case QUARTERLY => 25990
    case ANNUAL => 89990
  }

  /** The plan hierarchy used to tell an upgrade from a downgrade. */
  function Rank(p: Plan): int
  {
    match p
    case MONTHLY => 1
    case QUARTERLY => 2
    case ANNUAL => 3
  }

  /** The length of one billing period of the plan, in months. */
  function PeriodMonths(p: Plan): int
  {
    match p
    case MONTHLY => 1
    case QUARTERLY => 3
    case ANNUAL => 12
  }

  function PlanName(p: Plan): string
  {
    match p
    case MONTHLY => "MONTHLY"
    case QUARTERLY => "QUARTERLY"
    case ANNUAL => "ANNUAL"
  }

  /** `['MONTHLY', 'QUARTERLY', 'ANNUAL'].includes(s)`, giving the plan it names. */
  function ParsePlan(s: string): (r: Option<Plan>)
    ensures r.Some? ==> PlanName(r.value) == s
    ensures r.None? ==> forall p: Plan :: PlanName(p) != s
  {
    if s == "MONTHLY" then Some(MONTHLY)
    else if s == "QUARTERLY" then Some(QUARTERLY)
    else if s == "ANNUAL" then Some(ANNUAL)
    else None
  }

  /** The hierarchy, the prices and the period lengths order the plans the same way. */
  lemma PlanOrdersAgree(a: Plan, b: Plan)
    ensures Rank(a) < Rank(b) <==> Price(a) < Price(b)
    ensures Rank(a) < Rank(b) <==> PeriodMonths(a) < PeriodMonths(b)
    ensures Rank(a) == Rank(b) <==> a == b
  {
  }

  /* ---------------------------------------------------------------------- */
  /* Row transitions                                                        */
  /* ---------------------------------------------------------------------- */

  /** The row createSubscription inserts: not active until the payment callback approves it. */
  function PendingSubscription(userId: Id, plan: Plan): Subscription
  {
    Subscription(userId, plan, SubscriptionStatus.CANCELLED, PaymentStatus.PENDING, true, Price(plan),
                 None, None, None, None, None, None)
  }

  /** A row activated for one period of its plan, starting now. */
  function Activated(s: Subscription, now: Time, txId: Option<string>): (r: Subscription)
    ensures r.status == SubscriptionStatus.ACTIVE && r.paymentStatus == PaymentStatus.PAID
    ensures r.startedAt == Some(now) && r.lastPaymentDate == Some(now)
    ensures r.expiresAt == r.nextRenewal == Some(AddMonths(now, PeriodMonths(s.planId)))
    ensures r.expiresAt.value > now
    ensures r.planId == s.planId && r.userId == s.userId && r.amount == s.amount
    ensures r.autoRenew == s.autoRenew && r.webpayToken == s.webpayToken && r.webpayTransactionId == txId
  {
    var expiry := AddMonths(now, PeriodMonths(s.planId));
    s.(status := SubscriptionStatus.ACTIVE, paymentStatus := PaymentStatus.PAID,
       startedAt := Some(now), expiresAt := Some(expiry), nextRenewal := Some(expiry),
       lastPaymentDate := Some(now), webpayTransactionId := txId)
  }

  function Cancelled(s: Subscription): Subscription
  {
    s.(status := SubscriptionStatus.CANCELLED, autoRenew := false)
  }

  function Paused(s: Subscription): Subscription
  {
    s.(status := SubscriptionStatus.PAUSED, autoRenew := false)
  }

  function Resumed(s: Subscription): Subscription
  {
    s.(status := SubscriptionStatus.ACTIVE, autoRenew := true)
  }

  /** Nothing in pause and resume looks at the payment: a never-paid subscription can be made ACTIVE. */
  lemma PauseResumeActivatesUnpaid(userId: Id, plan: Plan)
    ensures Resumed(Paused(PendingSubscription(userId, plan))).status == SubscriptionStatus.ACTIVE
    ensures Resumed(Paused(PendingSubscription(userId, plan))).paymentStatus == PaymentStatus.PENDING
    ensures Resumed(Paused(PendingSubscription(userId, plan))).expiresAt.None?
  {
  }

  /** updateMany: every row of the user whose payment is pending gets status and paymentStatus CANCELLED. */
  function CancelPendingOf(subs: map<Id, Subscription>, userId: Id): (r: map<Id, Subscription>)
    ensures r.Keys == subs.Keys
    ensures forall id :: id in r && r[id].userId == userId ==> r[id].paymentStatus != PaymentStatus.PENDING
    ensures forall id :: id in r && !(subs[id].userId == userId && subs[id].paymentStatus == PaymentStatus.PENDING)
                         ==> r[id] == subs[id]
    ensures forall id :: id in r ==> r[id].(status := subs[id].status, paymentStatus := subs[id].paymentStatus) == subs[id]
  {
    map id | id in subs ::
      if subs[id].userId == userId && subs[id].paymentStatus == PaymentStatus.PENDING
      then subs[id].(status := SubscriptionStatus.CANCELLED, paymentStatus := PaymentStatus.CANCELLED)
      else subs[id]
  }

  predicate HasActive(subs: map<Id, Subscription>, userId: Id)
  {
    exists id :: id in subs && subs[id].userId == userId && subs[id].status == SubscriptionStatus.ACTIVE
  }

  predicate Owns(subs: map<Id, Subscription>, id: Id, userId: Id)
  {
    id in subs && subs[id].userId == userId
  }

  /* ---------------------------------------------------------------------- */
  /* Create and pay                                                         */
  /* ---------------------------------------------------------------------- */

  datatype Created = Created(id: Id, amount: int, requiresPayment: bool)

  method CreateSubscription(db: Db, userId: Id, planId: string, newId: Id) returns (r: Response<Created>)
    requires newId !in db.subscriptions
    modifies db`subscriptions
    ensures ParsePlan(planId).None? ==>
      r == Fail(400, "INVALID_PLAN") && db.subscriptions == old(db.subscriptions)
    ensures ParsePlan(planId).Some? && HasActive(old(db.subscriptions), userId) ==>
      r == Fail(400, "SUBSCRIPTION_EXISTS") && db.subscriptions == old(db.subscriptions)
    ensures ParsePlan(planId).Some? && !HasActive(old(db.subscriptions), userId) ==>
      var plan := ParsePlan(planId).value;
      && r == Ok(Created(newId, Price(plan), true))
      && db.subscriptions == CancelPendingOf(old(db.subscriptions), userId)[newId := PendingSubscription(userId, plan)]
    ensures r.Ok? ==> forall id :: (id in db.subscriptions && db.subscriptions[id].userId == userId
                                    && db.subscriptions[id].paymentStatus == PaymentStatus.PENDING) ==> id == newId
  {
    var plan := ParsePlan(planId);
    if plan.None? {
      return Fail(400, "INVALID_PLAN");
    }
    if exists id :: id in db.subscriptions && db.subscriptions[id].userId == userId
                    && db.subscriptions[id].status == SubscriptionStatus.ACTIVE {
      return Fail(400, "SUBSCRIPTION_EXISTS");
    }
    db.subscriptions := CancelPendingOf(db.subscriptions, userId);
    db.subscriptions := db.subscriptions[newId := PendingSubscription(userId, plan.value)];
    r := Ok(Created(newId, Price(plan.value), true));
  }

  /** `subscription.amount || SUBSCRIPTION_PRICES[subscription.planId]`. */
  function AmountDue(s: Subscription): (a: int)
    ensures s.amount != 0 ==> a == s.amount
    ensures s.amount == 0 ==> a == Price(s.planId) && a > 0
  {
    if s.amount != 0 then s.amount else Price(s.planId)
  }

  method InitSubscriptionPayment(db: Db, userId: Id, subscriptionId: string, gateway: Option<CreateResponse>)
    returns (r: Response<PaymentInit>)
    modifies db`subscriptions
    ensures subscriptionId == "" ==>
      r == Fail(400, "MISSING_SUBSCRIPTION_ID") && db.subscriptions == old(db.subscriptions)
    ensures subscriptionId != "" && !Owns(old(db.subscriptions), subscriptionId, userId) ==>
      r == Fail(404, "SUBSCRIPTION_NOT_FOUND") && db.subscriptions == old(db.subscriptions)
    ensures subscriptionId != "" && Owns(old(db.subscriptions), subscriptionId, userId)
            && old(db.subscriptions)[subscriptionId].paymentStatus != PaymentStatus.PENDING ==>
      r == Fail(400, "INVALID_PAYMENT_STATUS") && db.subscriptions == old(db.subscriptions)
    ensures subscriptionId != "" && Owns(old(db.subscriptions), subscriptionId, userId)
            && old(db.subscriptions)[subscriptionId].paymentStatus == PaymentStatus.PENDING ==>
      var s := old(db.subscriptions)[subscriptionId];
      if gateway.None? then
        r == Fail(500, "WEBPAY_INIT_ERROR") && db.subscriptions == old(db.subscriptions)
      else
        && r == Ok(PaymentInit("SUB-" + Prefix(subscriptionId, 20), userId, AmountDue(s),
                               gateway.value.token, gateway.value.url))
        && db.subscriptions == old(db.subscriptions)[subscriptionId := s.(webpayToken := Some(gateway.value.token))]
  {
    if subscriptionId == "" {
      return Fail(400, "MISSING_SUBSCRIPTION_ID");
    }
    if !(subscriptionId in db.subscriptions && db.subscriptions[subscriptionId].userId == userId) {
      return Fail(404, "SUBSCRIPTION_NOT_FOUND");
    }
    var s := db.subscriptions[subscriptionId];
    if s.paymentStatus != PaymentStatus.PENDING {
      return Fail(400, "INVALID_PAYMENT_STATUS");
    }
    if gateway.None? {
      return Fail(500, "WEBPAY_INIT_ERROR");
    }
    db.subscriptions := db.subscriptions[subscriptionId := s.(webpayToken := Some(gateway.value.token))];
    r := Ok(PaymentInit("SUB-" + Prefix(subscriptionId, 20), userId, AmountDue(s),
                        gateway.value.token, gateway.value.url));
  }

  predicate HoldsToken(subs: map<Id, Subscription>, id: Id, token: string)
  {
    id in subs && subs[id].webpayToken == Some(token)
  }

  /** The gateway's return after a subscription payment; every path ends in a redirect. */
  method HandleSubscriptionReturn(db: Db, bodyToken: string, queryToken: string,
                                  commit: Option<CommitResponse>, now: Time, frontendUrl: string)
    returns (url: string)
    modifies db`subscriptions
    ensures ReturnToken(bodyToken, queryToken) == "" ==>
      url == frontendUrl + "?status=error&message=missing_token" && db.subscriptions == old(db.subscriptions)
    ensures ReturnToken(bodyToken, queryToken) != "" && commit.None? ==>
      url == frontendUrl + "?status=error" && db.subscriptions == old(db.subscriptions)
    ensures ReturnToken(bodyToken, queryToken) != "" && commit.Some?
            && !(exists id :: HoldsToken(old(db.subscriptions), id, ReturnToken(bodyToken, queryToken))) ==>
      url == frontendUrl + "?status=error&message=subscription_not_found" && db.subscriptions == old(db.subscriptions)
    ensures ReturnToken(bodyToken, queryToken) != "" && commit.Some? && IsApproved(commit.value)
            && (exists id :: HoldsToken(old(db.subscriptions), id, ReturnToken(bodyToken, queryToken))) ==>
      exists id :: HoldsToken(old(db.subscriptions), id, ReturnToken(bodyToken, queryToken))
        && url == frontendUrl + "?subscriptionId=" + id + "&status=success"
        && db.subscriptions == old(db.subscriptions)[id := Activated(old(db.subscriptions)[id], now, TransactionId(commit.value))]
    ensures ReturnToken(bodyToken, queryToken) != "" && commit.Some? && !IsApproved(commit.value)
            && (exists id :: HoldsToken(old(db.subscriptions), id, ReturnToken(bodyToken, queryToken))) ==>
      exists id :: HoldsToken(old(db.subscriptions), id, ReturnToken(bodyToken, queryToken))
        && url == frontendUrl + "?subscriptionId=" + id + "&status=failed"
        && db.subscriptions == old(db.subscriptions)[id := old(db.subscriptions)[id].(
             paymentStatus := PaymentStatus.FAILED, webpayTransactionId := TransactionId(commit.value))]
  {
    var token := ReturnToken(bodyToken, queryToken);
    if token == "" {
      return frontendUrl + "?status=error&message=missing_token";
    }
    if commit.None? {
      return frontendUrl + "?status=error";
    }
    if !exists id :: id in db.subscriptions && db.subscriptions[id].webpayToken == Some(token) {
      return frontendUrl + "?status=error&message=subscription_not_found";
    }
    var id :| id in db.subscriptions && db.subscriptions[id].webpayToken == Some(token);
    assert HoldsToken(db.subscriptions, id, token);
    var s := db.subscriptions[id];
    if IsApproved(commit.value) {
      db.subscriptions := db.subscriptions[id := Activated(s, now, TransactionId(commit.value))];
      url := frontendUrl + "?subscriptionId=" + id + "&status=success";
    } else {
      db.subscriptions := db.subscriptions[id := s.(paymentStatus := PaymentStatus.FAILED,
                                                    webpayTransactionId := TransactionId(commit.value))];
      url := frontendUrl + "?subscriptionId=" + id + "&status=failed";
    }
  }

  /* ---------------------------------------------------------------------- */
  /* Owner-scoped operations                                                */
  /* ---------------------------------------------------------------------- */

  /** updateSubscription: a boolean autoRenew is applied; a valid plan switches the plan and the next renewal. */
  function Updated(s: Subscription, autoRenew: Option<bool>, newPlanId: string, now: Time): (r: Subscription)
    ensures r.autoRenew == if autoRenew.Some? then autoRenew.value else s.autoRenew
    ensures ParsePlan(newPlanId).Some? ==>
      r.planId == ParsePlan(newPlanId).value && r.nextRenewal == Some(AddMonths(now, PeriodMonths(r.planId)))
    ensures ParsePlan(newPlanId).None? ==> r.planId == s.planId && r.nextRenewal == s.nextRenewal
    ensures r.(autoRenew := s.autoRenew, planId := s.planId, nextRenewal := s.nextRenewal) == s
  {
    var a := if autoRenew.Some? then s.(autoRenew := autoRenew.value) else s;
    var plan := ParsePlan(newPlanId);
    if plan.Some? then a.(planId := plan.value, nextRenewal := Some(AddMonths(now, PeriodMonths(plan.value))))
    else a
  }

  /** The update switches to any plan, a more expensive one included, without a payment. */
  lemma UpdateSwitchesPlanWithoutPayment(s: Subscription, now: Time)
    requires s.planId == MONTHLY
    ensures Updated(s, None, "ANNUAL", now).planId == ANNUAL
    ensures Updated(s, None, "ANNUAL", now).paymentStatus == s.paymentStatus
    ensures Updated(s, None, "ANNUAL", now).amount == s.amount
  {
  }

  method UpdateSubscription(db: Db, userId: Id, subscriptionId: Id, autoRenew: Option<bool>,
                            newPlanId: string, now: Time)
    returns (r: Response<Subscription>)
    modifies db`subscriptions
    ensures subscriptionId !in old(db.subscriptions) ==>
      r == Fail(404, "SUBSCRIPTION_NOT_FOUND") && db.subscriptions == old(db.subscriptions)
    ensures subscriptionId in old(db.subscriptions) && old(db.subscriptions)[subscriptionId].userId != userId ==>
      r == Fail(403, "FORBIDDEN") && db.subscriptions == old(db.subscriptions)
    ensures Owns(old(db.subscriptions), subscriptionId, userId) ==>
      var s := Updated(old(db.subscriptions)[subscriptionId], autoRenew, newPlanId, now);
      r == Ok(s) && db.subscriptions == old(db.subscriptions)[subscriptionId := s]
  {
    if subscriptionId !in db.subscriptions {
      return Fail(404, "SUBSCRIPTION_NOT_FOUND");
    }
    if db.subscriptions[subscriptionId].userId != userId {
      return Fail(403, "FORBIDDEN");
    }
    var s := Updated(db.subscriptions[subscriptionId], autoRenew, newPlanId, now);
    db.subscriptions := db.subscriptions[subscriptionId := s];
    r := Ok(s);
  }

  /** Cancel works from any status. */
  method CancelSubscription(db: Db, userId: Id, subscriptionId: Id) returns (r: Response<Subscription>)
    modifies db`subscriptions
    ensures subscriptionId !in old(db.subscriptions) ==>
      r == Fail(404, "SUBSCRIPTION_NOT_FOUND") && db.subscriptions == old(db.subscriptions)
    ensures subscriptionId in old(db.subscriptions) && old(db.subscriptions)[subscriptionId].userId != userId ==>
      r == Fail(403, "FORBIDDEN") && db.subscriptions == old(db.subscriptions)
    ensures Owns(old(db.subscriptions), subscriptionId, userId) ==>
      var s := Cancelled(old(db.subscriptions)[subscriptionId]);
      && r == Ok(s) && s.status == SubscriptionStatus.CANCELLED && !s.autoRenew
      && db.subscriptions == old(db.subscriptions)[subscriptionId := s]
  {
    if subscriptionId !in db.subscriptions {
      return Fail(404, "SUBSCRIPTION_NOT_FOUND");
    }
    if db.subscriptions[subscriptionId].userId != userId {
      return Fail(403, "FORBIDDEN");
    }
    var s := Cancelled(db.subscriptions[subscriptionId]);
    db.subscriptions := db.subscriptions[subscriptionId := s];
    r := Ok(s);
  }

  /** Pause works from any status. */
  method PauseSubscription(db: Db, userId: Id, subscriptionId: Id) returns (r: Response<Subscription>)
    modifies db`subscriptions
    ensures subscriptionId !in old(db.subscriptions) ==>
      r == Fail(404, "SUBSCRIPTION_NOT_FOUND") && db.subscriptions == old(db.subscriptions)
    ensures subscriptionId in old(db.subscriptions) && old(db.subscriptions)[subscriptionId].userId != userId ==>
      r == Fail(403, "FORBIDDEN") && db.subscriptions == old(db.subscriptions)
    ensures Owns(old(db.subscriptions), subscriptionId, userId) ==>
      var s := Paused(old(db.subscriptions)[subscriptionId]);
      && r == Ok(s) && s.status == SubscriptionStatus.PAUSED && !s.autoRenew
      && db.subscriptions == old(db.subscriptions)[subscriptionId := s]
  {
    if subscriptionId !in db.subscriptions {
      return Fail(404, "SUBSCRIPTION_NOT_FOUND");
    }
    if db.subscriptions[subscriptionId].userId != userId {
      return Fail(403, "FORBIDDEN");
    }
    var s := Paused(db.subscriptions[subscriptionId]);
    db.subscriptions := db.subscriptions[subscriptionId := s];
    r := Ok(s);
  }

  /** Resume works only from PAUSED. */
  method ResumeSubscription(db: Db, userId: Id, subscriptionId: Id) returns (r: Response<Subscription>)
    modifies db`subscriptions
    ensures subscriptionId !in old(db.subscriptions) ==>
      r == Fail(404, "SUBSCRIPTION_NOT_FOUND") && db.subscriptions == old(db.subscriptions)
    ensures subscriptionId in old(db.subscriptions) && old(db.subscriptions)[subscriptionId].userId != userId ==>
      r == Fail(403, "FORBIDDEN") && db.subscriptions == old(db.subscriptions)
    ensures Owns(old(db.subscriptions), subscriptionId, userId)
            && old(db.subscriptions)[subscriptionId].status != SubscriptionStatus.PAUSED ==>
      r == Fail(400, "INVALID_STATUS") && db.subscriptions == old(db.subscriptions)
    ensures Owns(old(db.subscriptions), subscriptionId, userId)
            && old(db.subscriptions)[subscriptionId].status == SubscriptionStatus.PAUSED ==>
      var s := Resumed(old(db.subscriptions)[subscriptionId]);
      && r == Ok(s) && s.status == SubscriptionStatus.ACTIVE && s.autoRenew
      && db.subscriptions == old(db.subscriptions)[subscriptionId := s]
  {
    if subscriptionId !in db.subscriptions {
      return Fail(404, "SUBSCRIPTION_NOT_FOUND");
    }
    if db.subscriptions[subscriptionId].userId != userId {
      return Fail(403, "FORBIDDEN");
    }
    if db.subscriptions[subscriptionId].status != SubscriptionStatus.PAUSED {
      return Fail(400, "INVALID_STATUS");
    }
    var s := Resumed(db.subscriptions[subscriptionId]);
    db.subscriptions := db.subscriptions[subscriptionId := s];
    r := Ok(s);
  }

  /* ---------------------------------------------------------------------- */
  /* Prorated upgrade                                                       */
  /* ---------------------------------------------------------------------- */

  function Max(a: int, b: int): int { if a >= b then a else b }

  /** `Math.round(n / d)` over the rationals: the nearest integer, halves rounded up. */
  function RoundDiv(n: int, d: int): (q: int)
    requires d != 0
    ensures d > 0 ==> 2 * d * q <= 2 * n + d < 2 * d * (q + 1)
    ensures d < 0 ==> 2 * (-d) * q <= 2 * (-n) + (-d) < 2 * (-d) * (q + 1)
  {
    if d > 0 then (2 * n + d) / (2 * d) else (2 * (-n) + (-d)) / (2 * (-d))
  }

  /** `new Date(null)` is the epoch. */
  function DateOrEpoch(t: Option<Time>): Time
  {
    if t.Some? then t.value else 0
  }

  /**
   * The charge of an upgrade: the new price minus the unused part of the current
   * period, valued at the current price, and never negative. None stands for NaN,
   * the value when the period is empty and over (0 / 0); an empty period that is
   * not over gives an infinite credit and so a charge of 0.
   */
  function UpgradeCharge(current: Plan, next: Plan, startedAt: Time, expiresAt: Time, now: Time): Option<int>
  {
    var total := expiresAt - startedAt;
    var remaining := Max(0, expiresAt - now);
    if total == 0 then (if remaining == 0 then None else Some(0))
    else Some(Max(0, Price(next) - RoundDiv(Price(current) * remaining, total)))
  }

  /** Integer division by a positive divisor stays below k when the dividend is below k divisors. */
  lemma DivBelow(a: int, b: int, k: int)
    requires 0 <= a && b > 0 && a < b * k
    ensures 0 <= a / b < k
  {
    var q := a / b;
    assert b * q <= a;
    if q >= k {
      assert false;
    }
  }

  lemma RoundDivBounds(p: int, remaining: int, total: int)
    requires p >= 0 && 0 <= remaining <= total && total > 0
    ensures 0 <= RoundDiv(p * remaining, total) <= p
  {
    assert 0 <= p * remaining <= p * total by {
      assert p * (total - remaining) >= 0;
    }
    assert 2 * (p * remaining) + total < (2 * total) * (p + 1);
    DivBelow(2 * (p * remaining) + total, 2 * total, p + 1);
  }

  /** Within a started, non-empty period the charge lies between the price difference and the new price. */
  lemma UpgradeChargeBounds(current: Plan, next: Plan, startedAt: Time, expiresAt: Time, now: Time)
    requires startedAt <= now && startedAt < expiresAt
    ensures UpgradeCharge(current, next, startedAt, expiresAt, now).Some?
    ensures Price(next) - Price(current) <= UpgradeCharge(current, next, startedAt, expiresAt, now).value <= Price(next)
  {
    RoundDivBounds(Price(current), Max(0, expiresAt - now), expiresAt - startedAt);
  }

  /** An empty period that is over leaves the charge undefined (NaN), and no payment is asked. */
  lemma UpgradeChargeUndefinedOnEmptyPeriod(current: Plan, next: Plan, t: Time, now: Time)
    requires t <= now
    ensures UpgradeCharge(current, next, t, t, now).None?
  {
  }

  /** Monthly to annual halfway through the month: 89990 - round(9990 / 2) = 84995. */
  lemma UpgradeChargeHalfway(startedAt: Time)
    ensures UpgradeCharge(MONTHLY, ANNUAL, startedAt, startedAt + 2 * MonthMs, startedAt + MonthMs) == Some(84995)
  {
    var total := 2 * MonthMs;
    assert Price(MONTHLY) * MonthMs == 9990 * MonthMs;
    assert RoundDiv(9990 * MonthMs, total) == 4995;
  }

  datatype UpgradeQuote = UpgradeQuote(
    currentPlan: Plan, newPlan: Plan, isUpgrade: bool, upgradeAmount: Option<int>,
    requiresPayment: bool, effectiveImmediately: bool)

  /** The answer of upgradeSubscription for an active subscription and a different plan. */
  function Quote(s: Subscription, next: Plan, now: Time): (q: UpgradeQuote)
    ensures q.isUpgrade <==> Rank(next) > Rank(s.planId)
    ensures q.effectiveImmediately == q.isUpgrade
    ensures !q.isUpgrade ==> q.upgradeAmount == Some(0) && !q.requiresPayment
    ensures q.isUpgrade ==> q.upgradeAmount == UpgradeCharge(s.planId, next, DateOrEpoch(s.startedAt), DateOrEpoch(s.expiresAt), now)
    ensures q.requiresPayment <==> q.isUpgrade && q.upgradeAmount.Some? && q.upgradeAmount.value > 0
  {
    var up := Rank(next) > Rank(s.planId);
    var amount := if up then UpgradeCharge(s.planId, next, DateOrEpoch(s.startedAt), DateOrEpoch(s.expiresAt), now)
                  else Some(0);
    UpgradeQuote(s.planId, next, up, amount, up && amount.Some? && amount.value > 0, up)
  }

  /** The row after upgradeSubscription: an upgrade waits for payment, a downgrade switches at once. */
  function AfterQuote(s: Subscription, next: Plan, isUpgrade: bool): (r: Subscription)
    ensures isUpgrade ==> r.planId == s.planId && r.paymentStatus == PaymentStatus.PENDING
    ensures !isUpgrade ==> r.planId == next && r.paymentStatus == PaymentStatus.PAID
    ensures r.(planId := s.planId, paymentStatus := s.paymentStatus) == s
  {
    if isUpgrade then s.(paymentStatus := PaymentStatus.PENDING)
    else s.(planId := next, paymentStatus := PaymentStatus.PAID)
  }

  method UpgradeSubscription(db: Db, userId: Id, subscriptionId: Id, newPlanId: string, now: Time)
    returns (r: Response<UpgradeQuote>)
    modifies db`subscriptions
    ensures ParsePlan(newPlanId).None? ==>
      r == Fail(400, "INVALID_PLAN") && db.subscriptions == old(db.subscriptions)
    ensures ParsePlan(newPlanId).Some? && subscriptionId !in old(db.subscriptions) ==>
      r == Fail(404, "SUBSCRIPTION_NOT_FOUND") && db.subscriptions == old(db.subscriptions)
    ensures ParsePlan(newPlanId).Some? && subscriptionId in old(db.subscriptions)
            && old(db.subscriptions)[subscriptionId].userId != userId ==>
      r == Fail(403, "FORBIDDEN") && db.subscriptions == old(db.subscriptions)
    ensures ParsePlan(newPlanId).Some? && Owns(old(db.subscriptions), subscriptionId, userId)
            && old(db.subscriptions)[subscriptionId].status != SubscriptionStatus.ACTIVE ==>
      r == Fail(400, "INVALID_STATUS") && db.subscriptions == old(db.subscriptions)
    ensures ParsePlan(newPlanId).Some? && Owns(old(db.subscriptions), subscriptionId, userId)
            && old(db.subscriptions)[subscriptionId].status == SubscriptionStatus.ACTIVE
            && old(db.subscriptions)[subscriptionId].planId == ParsePlan(newPlanId).value ==>
      r == Fail(400, "SAME_PLAN") && db.subscriptions == old(db.subscriptions)
    ensures ParsePlan(newPlanId).Some? && Owns(old(db.subscriptions), subscriptionId, userId)
            && old(db.subscriptions)[subscriptionId].status == SubscriptionStatus.ACTIVE
            && old(db.subscriptions)[subscriptionId].planId != ParsePlan(newPlanId).value ==>
      var s := old(db.subscriptions)[subscriptionId];
      var q := Quote(s, ParsePlan(newPlanId).value, now);
      r == Ok(q) && db.subscriptions == old(db.subscriptions)[subscriptionId := AfterQuote(s, q.newPlan, q.isUpgrade)]
  {
    var next := ParsePlan(newPlanId);
    if next.None? {
      return Fail(400, "INVALID_PLAN");
    }
    if subscriptionId !in db.subscriptions {
      return Fail(404, "SUBSCRIPTION_NOT_FOUND");
    }
    var s := db.subscriptions[subscriptionId];
    if s.userId != userId {
      return Fail(403, "FORBIDDEN");
    }
    if s.status != SubscriptionStatus.ACTIVE {
      return Fail(400, "INVALID_STATUS");
    }
    if s.planId == next.value {
      return Fail(400, "SAME_PLAN");
    }
    var q := Quote(s, next.value, now);
    db.subscriptions := db.subscriptions[subscriptionId := AfterQuote(s, next.value, q.isUpgrade)];
    r := Ok(q);
  }

  /* ---------------------------------------------------------------------- */
  /* Upgrade payment and its session id                                     */
  /* ---------------------------------------------------------------------- */

  /** The gateway session id of an upgrade payment: `subscriptionId|newPlanId`. */
  function UpgradeSessionId(subscriptionId: string, newPlanId: string): string
  {
    subscriptionId + "|" + newPlanId
  }

  /** `response.session_id?.split('|') || []`, then `parts[1] || 'ANNUAL'`. */
  function SessionPlan(sessionId: Option<string>): string
  {
    var parts := if sessionId.Some? then Split(sessionId.value, '|') else [];
    if |parts| > 1 && parts[1] != "" then parts[1] else "ANNUAL"
  }

  /** The callback reads back the plan the payment was started with, when the ids contain no '|'. */
  lemma {:induction false} SessionPlanRoundTrip(subscriptionId: string, newPlanId: string)
    requires '|' !in subscriptionId && '|' !in newPlanId && newPlanId != ""
    ensures SessionPlan(Some(UpgradeSessionId(subscriptionId, newPlanId))) == newPlanId
  {
    SplitAtFirst(subscriptionId, '|', newPlanId);
    SplitWithoutSeparator(newPlanId, '|');
    assert subscriptionId + "|" + newPlanId == subscriptionId + ['|'] + newPlanId;
  }

  /** An id with a '|' shifts the fields: the callback then reads a piece of the id as the plan. */
  lemma SessionPlanMisreadsSeparatorInId(head: string, tail: string, newPlanId: string)
    requires '|' !in head && '|' !in tail && tail != ""
    ensures SessionPlan(Some(UpgradeSessionId(head + "|" + tail, newPlanId))) == tail
  {
    assert UpgradeSessionId(head + "|" + tail, newPlanId) == head + ['|'] + (tail + ['|'] + newPlanId);
    SplitAtFirst(head, '|', tail + ['|'] + newPlanId);
    SplitAtFirst(tail, '|', newPlanId);
  }

  /** Without a second field the callback falls back to ANNUAL. */
  lemma SessionPlanDefault(sessionId: string)
    requires '|' !in sessionId
    ensures SessionPlan(None) == "ANNUAL"
    ensures SessionPlan(Some(sessionId)) == "ANNUAL"
  {
    SplitWithoutSeparator(sessionId, '|');
  }

  method InitUpgradePayment(db: Db, userId: Id, subscriptionId: string, newPlanId: string, amount: int,
                            gateway: Option<CreateResponse>)
    returns (r: Response<PaymentInit>)
    modifies db`subscriptions
    ensures subscriptionId == "" || newPlanId == "" || amount == 0 ==>
      r == Fail(400, "MISSING_PARAMS") && db.subscriptions == old(db.subscriptions)
    ensures subscriptionId != "" && newPlanId != "" && amount != 0 && !Owns(old(db.subscriptions), subscriptionId, userId) ==>
      r == Fail(404, "SUBSCRIPTION_NOT_FOUND") && db.subscriptions == old(db.subscriptions)
    ensures subscriptionId != "" && newPlanId != "" && amount != 0 && Owns(old(db.subscriptions), subscriptionId, userId) ==>
      if gateway.None? then
        r == Fail(500, "WEBPAY_INIT_ERROR") && db.subscriptions == old(db.subscriptions)
      else
        && r == Ok(PaymentInit("UPG-" + Prefix(subscriptionId, 20), UpgradeSessionId(subscriptionId, newPlanId),
                               amount, gateway.value.token, gateway.value.url))
        && db.subscriptions == old(db.subscriptions)[subscriptionId :=
             old(db.subscriptions)[subscriptionId].(webpayToken := Some(gateway.value.token))]
  {
    if subscriptionId == "" || newPlanId == "" || amount == 0 {
      return Fail(400, "MISSING_PARAMS");
    }
    if !(subscriptionId in db.subscriptions && db.subscriptions[subscriptionId].userId == userId) {
      return Fail(404, "SUBSCRIPTION_NOT_FOUND");
    }
    if gateway.None? {
      return Fail(500, "WEBPAY_INIT_ERROR");
    }
    var s := db.subscriptions[subscriptionId];
    db.subscriptions := db.subscriptions[subscriptionId := s.(webpayToken := Some(gateway.value.token))];
    r := Ok(PaymentInit("UPG-" + Prefix(subscriptionId, 20), UpgradeSessionId(subscriptionId, newPlanId),
                        amount, gateway.value.token, gateway.value.url));
  }

  /** The row after an approved upgrade payment: the new plan, its price, and a fresh period. */
  function Upgraded(s: Subscription, plan: Plan, now: Time, txId: Option<string>): (r: Subscription)
    ensures r.planId == plan && r.amount == Price(plan)
    ensures r.status == SubscriptionStatus.ACTIVE && r.paymentStatus == PaymentStatus.PAID
    ensures r.startedAt == Some(now) && r.expiresAt == r.nextRenewal == Some(AddMonths(now, PeriodMonths(plan)))
    ensures r.expiresAt.value > now
  {
    Activated(s.(planId := plan, amount := Price(plan)), now, txId)
  }

  /** The gateway's return after an upgrade payment; every path ends in a redirect. */
  method HandleUpgradeReturn(db: Db, bodyToken: string, queryToken: string,
                             commit: Option<CommitResponse>, now: Time, frontendUrl: string)
    returns (url: string)
    modifies db`subscriptions
    ensures ReturnToken(bodyToken, queryToken) == "" ==>
      url == frontendUrl + "?status=error&message=missing_token" && db.subscriptions == old(db.subscriptions)
    ensures ReturnToken(bodyToken, queryToken) != "" && commit.None? ==>
      url == frontendUrl + "?status=error" && db.subscriptions == old(db.subscriptions)
    ensures ReturnToken(bodyToken, queryToken) != "" && commit.Some?
            && !(exists id :: HoldsToken(old(db.subscriptions), id, ReturnToken(bodyToken, queryToken))) ==>
      url == frontendUrl + "?status=error&message=subscription_not_found" && db.subscriptions == old(db.subscriptions)
    ensures ReturnToken(bodyToken, queryToken) != "" && commit.Some? && IsApproved(commit.value)
            && ParsePlan(SessionPlan(commit.value.sessionId)).None?
            && (exists id :: HoldsToken(old(db.subscriptions), id, ReturnToken(bodyToken, queryToken))) ==>
      url == frontendUrl + "?status=error" && db.subscriptions == old(db.subscriptions)
    ensures ReturnToken(bodyToken, queryToken) != "" && commit.Some? && IsApproved(commit.value)
            && ParsePlan(SessionPlan(commit.value.sessionId)).Some?
            && (exists id :: HoldsToken(old(db.subscriptions), id, ReturnToken(bodyToken, queryToken))) ==>
      var plan := ParsePlan(SessionPlan(commit.value.sessionId)).value;
      exists id :: HoldsToken(old(db.subscriptions), id, ReturnToken(bodyToken, queryToken))
        && url == frontendUrl + "?subscriptionId=" + id + "&status=upgraded&plan=" + PlanName(plan)
        && db.subscriptions == old(db.subscriptions)[id := Upgraded(old(db.subscriptions)[id], plan, now, TransactionId(commit.value))]
    ensures ReturnToken(bodyToken, queryToken) != "" && commit.Some? && !IsApproved(commit.value)
            && (exists id :: HoldsToken(old(db.subscriptions), id, ReturnToken(bodyToken, queryToken))) ==>
      exists id :: HoldsToken(old(db.subscriptions), id, ReturnToken(bodyToken, queryToken))
        && url == frontendUrl + "?subscriptionId=" + id + "&status=upgrade_failed"
        && db.subscriptions == old(db.subscriptions)[id := old(db.subscriptions)[id].(
             paymentStatus := PaymentStatus.PAID, webpayToken := None)]
  {
    var token := ReturnToken(bodyToken, queryToken);
    if token == "" {
      return frontendUrl + "?status=error&message=missing_token";
    }
    if commit.None? {
      return frontendUrl + "?status=error";
    }
    if !exists id :: id in db.subscriptions && db.subscriptions[id].webpayToken == Some(token) {
      return frontendUrl + "?status=error&message=subscription_not_found";
    }
    var id :| id in db.subscriptions && db.subscriptions[id].webpayToken == Some(token);
    assert HoldsToken(db.subscriptions, id, token);
    var s := db.subscriptions[id];
    if IsApproved(commit.value) {
      var plan := ParsePlan(SessionPlan(commit.value.sessionId));
      if plan.None? {
        // the plan column is an enumeration: writing another name throws, and the catch redirects
        return frontendUrl + "?status=error";
      }
      db.subscriptions := db.subscriptions[id := Upgraded(s, plan.value, now, TransactionId(commit.value))];
      url := frontendUrl + "?subscriptionId=" + id + "&status=upgraded&plan=" + PlanName(plan.value);
    } else {
      db.subscriptions := db.subscriptions[id := s.(paymentStatus := PaymentStatus.PAID, webpayToken := None)];
      url := frontendUrl + "?subscriptionId=" + id + "&status=upgrade_failed";
    }
  }

  /* ---------------------------------------------------------------------- */
  /* Renewal and expiry sweep                                               */
  /* ---------------------------------------------------------------------- */

  /** ACTIVE, renewing automatically, and due: nextRenewal <= now (a missing date never matches). */
  predicate DueForRenewal(s: Subscription, now: Time)
  {
    s.status == SubscriptionStatus.ACTIVE && s.autoRenew && s.nextRenewal.Some? && s.nextRenewal.value <= now
  }

  /** ACTIVE with expiresAt < now (a missing date never matches). */
  predicate Lapsed(s: Subscription, now: Time)
  {
    s.status == SubscriptionStatus.ACTIVE && s.expiresAt.Some? && s.expiresAt.value < now
  }

  /** A successful renewal extends the period by one plan period from the previous renewal date. */
  function Renewed(s: Subscription, now: Time): (r: Subscription)
    requires s.nextRenewal.Some?
    ensures r.nextRenewal == r.expiresAt && r.expiresAt.Some?
    ensures r.expiresAt.value > s.nextRenewal.value
    ensures r.lastPaymentDate == Some(now)
    ensures r.(nextRenewal := s.nextRenewal, expiresAt := s.expiresAt, lastPaymentDate := s.lastPaymentDate) == s
  {
    var next := AddMonths(s.nextRenewal.value, PeriodMonths(s.planId));
    s.(nextRenewal := Some(next), expiresAt := Some(next), lastPaymentDate := Some(now))
  }

  function Expired(s: Subscription): Subscription
  {
    s.(status := SubscriptionStatus.EXPIRED, autoRenew := false)
  }

  /** The result of the renewal loop: due rows renewed, or expired where the renewal failed. */
  function AfterRenewals(subs: map<Id, Subscription>, now: Time, failing: set<Id>): (r: map<Id, Subscription>)
    ensures r.Keys == subs.Keys
    ensures forall id :: id in subs && DueForRenewal(subs[id], now) && id !in failing ==>
      && r[id] == Renewed(subs[id], now)
      && r[id].expiresAt.value > subs[id].nextRenewal.value && r[id].lastPaymentDate == Some(now)
    ensures forall id :: id in subs && DueForRenewal(subs[id], now) && id in failing ==>
      && r[id].status == SubscriptionStatus.EXPIRED && !r[id].autoRenew
      && r[id].(status := subs[id].status, autoRenew := subs[id].autoRenew) == subs[id]
    ensures forall id :: id in subs && !DueForRenewal(subs[id], now) ==> r[id] == subs[id]
  {
    map id | id in subs ::
      if DueForRenewal(subs[id], now) then (if id in failing then Expired(subs[id]) else Renewed(subs[id], now))
      else subs[id]
  }

  /** The bulk expiry: every lapsed row becomes EXPIRED and stops renewing; no lapsed row is left. */
  function ExpireLapsed(subs: map<Id, Subscription>, now: Time): (r: map<Id, Subscription>)
    ensures r.Keys == subs.Keys
    ensures forall id :: id in r ==> !Lapsed(r[id], now)
    ensures forall id :: id in r && !Lapsed(subs[id], now) ==> r[id] == subs[id]
    ensures forall id :: id in r && Lapsed(subs[id], now) ==>
              r[id].status == SubscriptionStatus.EXPIRED && !r[id].autoRenew
  {
    map id | id in subs :: if Lapsed(subs[id], now) then Expired(subs[id]) else subs[id]
  }

  /**
   * processSubscriptionRenewals: every due row is renewed one at a time (a row
   * whose update fails, given by `failing`, is expired instead), then every
   * lapsed ACTIVE row is expired. Afterwards no ACTIVE row has expiresAt < now.
   */
  method ProcessSubscriptionRenewals(db: Db, now: Time, failing: set<Id>)
    modifies db`subscriptions
    ensures db.subscriptions == ExpireLapsed(AfterRenewals(old(db.subscriptions), now, failing), now)
    ensures db.subscriptions.Keys == old(db.subscriptions).Keys
    ensures forall id :: id in db.subscriptions ==> !Lapsed(db.subscriptions[id], now)
  {
    ghost var before := db.subscriptions;
    var toRenew := set id | id in db.subscriptions && DueForRenewal(db.subscriptions[id], now);
    var pending := toRenew;
    while pending != {}
      invariant pending <= toRenew
      invariant db.subscriptions.Keys == before.Keys
      invariant forall id :: id in before ==>
        db.subscriptions[id] ==
          if id in toRenew - pending then (if id in failing then Expired(before[id]) else Renewed(before[id], now))
          else before[id]
      decreases |pending|
    {
      var id :| id in pending;
      var s := db.subscriptions[id];
      if id in failing {
        db.subscriptions := db.subscriptions[id := Expired(s)];
      } else {
        db.subscriptions := db.subscriptions[id := Renewed(s, now)];
      }
      pending := pending - {id};
    }
    assert db.subscriptions == AfterRenewals(before, now, failing);
    db.subscriptions := ExpireLapsed(db.subscriptions, now);
  }

  /** A renewal that leaves the new period already over is expired by the same sweep. */
  lemma StaleRenewalExpiresInSameSweep(subs: map<Id, Subscription>, id: Id, now: Time, failing: set<Id>)
    requires id in subs && DueForRenewal(subs[id], now) && id !in failing
    requires AddMonths(subs[id].nextRenewal.value, PeriodMonths(subs[id].planId)) < now
    ensures ExpireLapsed(AfterRenewals(subs, now, failing), now)[id].status == SubscriptionStatus.EXPIRED
  {
    assert AfterRenewals(subs, now, failing)[id] == Renewed(subs[id], now);
  }
}
