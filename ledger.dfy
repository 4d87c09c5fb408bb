/** The per-user credit record of services/creditService.ts and the pure rules over it:
    reconciliation against the clock, spending a credit, activating a plan, and the
    prorated price of an upgrade. Timestamps are milliseconds since the epoch. */
module Ledger {
  import opened Options
  import opened Plans

  /** `FREE_CREDITS`: the balance of a user seen for the first time. */
  const FREE_CREDITS: int := 2

  /** `1000 * 60 * 60 * 24`. */
  const DAY_MS: int := 86400000

  datatype Subscription = Subscription(planId: PlanId, planName: string, startDate: int, expiresAt: int)

  /** `UserCreditData`: the balance and the optional subscription fields. */
  datatype CreditData = CreditData(
    credits: int,
    subscription: Option<Subscription>,
    dailyLimit: Option<int>,
    lastResetDate: Option<int>)

  /** `{ credits: FREE_CREDITS }`. */
  const NEW_USER: CreditData := CreditData(FREE_CREDITS, None, None, None)

  /** The UTC calendar day of a timestamp: the date part of `toISOString()`, as a day number. */
  function UtcDay(t: int): int
  {
    t / DAY_MS
  }

  function Max(a: real, b: real): real
  {
    if a < b then b else a
  }

  // ----- Reconciliation (refreshCreditData) -----

  predicate Expired(d: CreditData, now: int)
  {
    d.subscription.Some? && d.subscription.value.expiresAt < now
  }

  /** The expiry step: an expired subscription is dropped together with its limit and
      reset date, and the balance goes to 0. */
  function AfterExpiry(d: CreditData, now: int): CreditData
  {
    if Expired(d, now) then
      d.(subscription := None, dailyLimit := None, lastResetDate := None, credits := 0)
    else d
  }

  /** The reset step's guard: a subscriber with a reset date and a non-zero limit whose
      last reset fell on an earlier UTC day. */
  predicate ResetDue(d: CreditData, now: int)
  {
    && d.subscription.Some? && d.lastResetDate.Some? && d.dailyLimit.Some? && d.dailyLimit.value != 0
    && UtcDay(now) > UtcDay(d.lastResetDate.value)
  }

  function AfterReset(d: CreditData, now: int): CreditData
  {
    if ResetDue(d, now) then d.(credits := d.dailyLimit.value, lastResetDate := Some(now)) else d
  }

  /** The record refreshCreditData exposes: the expiry step, then the reset step. */
  function Reconcile(d: CreditData, now: int): CreditData
  {
    AfterReset(AfterExpiry(d, now), now)
  }

  /** `needsUpdate`: whether either step fired, which is when the record is written back. */
  predicate ReconcileWrites(d: CreditData, now: int)
  {
    Expired(d, now) || ResetDue(AfterExpiry(d, now), now)
  }

  // ----- Consumption and activation -----

  /** consumeCredit's new record: one credit fewer, never below 0, all else kept. */
  function Consumed(d: CreditData): CreditData
  {
    d.(credits := if d.credits - 1 < 0 then 0 else d.credits - 1)
  }

  /** activateSubscription's new record for a plan bought at `now`. */
  function Activated(plan: Plan, now: int): CreditData
  {
    CreditData(
      plan.dailyCredits,
      Some(Subscription(plan.id, plan.name, now, now + plan.durationDays * DAY_MS)),
      Some(plan.dailyCredits),
      Some(now))
  }

  /** The record shapes the design promises: without a subscription there is no limit and
      no reset date; with one, the balance lies between 0 and the daily limit. */
  predicate WellFormed(d: CreditData)
  {
    && d.credits >= 0
    && (d.subscription.None? ==> d.dailyLimit.None? && d.lastResetDate.None?)
    && (d.subscription.Some? ==> d.dailyLimit.Some? && d.lastResetDate.Some? && d.credits <= d.dailyLimit.value)
  }

  // ----- Proration (calculateProratedUpgradeCost) -----

  /** The price of moving from `sub` to `newPlan` at instant `now`: full price when the current
      plan is not in `allPlans` or has no time left, otherwise the new price less the unused
      value of the current plan, never below 0. */
  function ProratedUpgradeCost(sub: Subscription, newPlan: Plan, allPlans: map<string, Plan>, now: int): real
  {
    if Key(sub.planId) !in allPlans then newPlan.price
    else
      var diffTime := sub.expiresAt - now;
      if diffTime <= 0 then newPlan.price
      else
        var current := allPlans[Key(sub.planId)];
        var daysRemaining := diffTime as real / DAY_MS as real;
        var costPerDay := current.price / current.durationDays as real;
        Max(0.0, newPlan.price - costPerDay * daysRemaining)
  }

  // ----- Properties of reconciliation -----

  /** Expiry is strict: a subscription whose expiry lies in the past is cleared and the
      balance is 0; one expiring exactly now survives reconciliation. */
  lemma ExpiryIsStrict(d: CreditData, now: int)
    requires d.subscription.Some?
    ensures d.subscription.value.expiresAt < now ==>
      var r := Reconcile(d, now);
      r == CreditData(0, None, None, None) && ReconcileWrites(d, now)
    ensures d.subscription.value.expiresAt == now ==> Reconcile(d, now).subscription == d.subscription
  {
  }

  /** The refill fires exactly when the subscription is still live, the reset date and a
      non-zero limit are present, and now's UTC day is later than the last reset's; it then
      sets the balance to the limit and the reset date to now. */
  lemma ResetIff(d: CreditData, now: int)
    ensures ResetDue(AfterExpiry(d, now), now) <==>
      && d.subscription.Some? && d.subscription.value.expiresAt >= now
      && d.lastResetDate.Some? && d.dailyLimit.Some? && d.dailyLimit.value != 0
      && UtcDay(now) > UtcDay(d.lastResetDate.value)
    ensures ResetDue(AfterExpiry(d, now), now) ==>
      Reconcile(d, now) == d.(credits := d.dailyLimit.value, lastResetDate := Some(now))
    ensures !ReconcileWrites(d, now) ==> Reconcile(d, now) == d
  {
  }

  /** A reset on one UTC day is not repeated on the same day. */
  lemma ResetOncePerUtcDay(d: CreditData, now: int, later: int)
    requires ResetDue(AfterExpiry(d, now), now)
    requires now <= later && UtcDay(later) == UtcDay(now)
    ensures !ResetDue(AfterExpiry(Reconcile(d, now), later), later)
  {
  }

  /** After a reset, any instant of the next UTC day refills again, however little time has
      passed, as long as the subscription has not expired by then. */
  lemma ResetNextUtcDay(d: CreditData, now: int, later: int)
    requires ResetDue(AfterExpiry(d, now), now)
    requires UtcDay(later) == UtcDay(now) + 1
    requires !Expired(Reconcile(d, now), later)
    ensures ResetDue(AfterExpiry(Reconcile(d, now), later), later)
  {
  }

  /** Reconciling twice at the same instant changes nothing the second time and writes nothing. */
  lemma ReconcileIdempotent(d: CreditData, now: int)
    ensures Reconcile(Reconcile(d, now), now) == Reconcile(d, now)
    ensures !ReconcileWrites(Reconcile(d, now), now)
  {
    var e := AfterExpiry(d, now);
    if ResetDue(e, now) {
      assert Reconcile(d, now).lastResetDate == Some(now);
    }
  }

  /** Reconciliation keeps a well-formed record well-formed. */
  lemma ReconcileKeepsWellFormed(d: CreditData, now: int)
    requires WellFormed(d)
    ensures WellFormed(Reconcile(d, now))
  {
  }

  // ----- Properties of consumption and activation -----

  /** Spending never drives the balance below 0, takes exactly one credit when there is one,
      and touches nothing but the balance. */
  lemma ConsumedSpec(d: CreditData)
    ensures Consumed(d).credits >= 0
    ensures d.credits > 0 ==> Consumed(d).credits == d.credits - 1
    ensures d.credits <= 0 ==> Consumed(d).credits == 0
    ensures Consumed(d).subscription == d.subscription && Consumed(d).dailyLimit == d.dailyLimit
    ensures Consumed(d).lastResetDate == d.lastResetDate
    ensures WellFormed(d) ==> WellFormed(Consumed(d))
  {
  }

  /** A new user spending three times: 2, 1, 0, and then 0 again. */
  lemma FreeCreditsDrain()
    ensures Consumed(NEW_USER).credits == 1
    ensures Consumed(Consumed(NEW_USER)).credits == 0
    ensures Consumed(Consumed(Consumed(NEW_USER))).credits == 0
  {
  }

  /** An activation grants the plan's daily credits, is well-formed, and is left exactly as it is
      by a reconciliation at the same instant (no expiry, no second refill that day). */
  lemma ActivationIsStable(plan: Plan, now: int)
    ensures Activated(plan, now).credits == plan.dailyCredits
    ensures Activated(plan, now).dailyLimit == Some(plan.dailyCredits)
    ensures WellFormed(Activated(plan, now))
    ensures Reconcile(Activated(plan, now), now) == Activated(plan, now)
    ensures !ReconcileWrites(Activated(plan, now), now)
  {
  }

  /** The new-user record is well-formed and is not a subscriber's. */
  lemma NewUserIsFree()
    ensures WellFormed(NEW_USER) && NEW_USER.subscription.None? && NEW_USER.credits == 2
    ensures forall now :: Reconcile(NEW_USER, now) == NEW_USER && !ReconcileWrites(NEW_USER, now)
  {
  }

  // ----- Properties of proration -----

  /** The unprorated fallbacks: an unknown current plan or no time left costs the full price. */
  lemma ProrationFallbacks(sub: Subscription, newPlan: Plan, allPlans: map<string, Plan>, now: int)
    requires Key(sub.planId) !in allPlans || sub.expiresAt <= now
    ensures ProratedUpgradeCost(sub, newPlan, allPlans, now) == newPlan.price
  {
  }

  /** With non-negative prices an upgrade never costs less than 0 nor more than the new plan. */
  lemma ProrationBounds(sub: Subscription, newPlan: Plan, allPlans: map<string, Plan>, now: int)
    requires newPlan.price >= 0.0
    requires Key(sub.planId) in allPlans ==> allPlans[Key(sub.planId)].price >= 0.0
    ensures 0.0 <= ProratedUpgradeCost(sub, newPlan, allPlans, now) <= newPlan.price
  {
    if Key(sub.planId) in allPlans && sub.expiresAt - now > 0 {
      var current := allPlans[Key(sub.planId)];
      var daysRemaining := (sub.expiresAt - now) as real / DAY_MS as real;
      var costPerDay := current.price / current.durationDays as real;
      assert daysRemaining > 0.0;
      assert costPerDay >= 0.0;
      assert costPerDay * daysRemaining >= 0.0;
    }
  }

  /** The later the evaluation (the less time left on the current plan), the higher the price:
      the cost never decreases as `now` advances. */
  lemma ProrationMonotone(sub: Subscription, newPlan: Plan, allPlans: map<string, Plan>, now1: int, now2: int)
    requires newPlan.price >= 0.0
    requires Key(sub.planId) in allPlans ==> allPlans[Key(sub.planId)].price >= 0.0
    requires now1 <= now2
    ensures ProratedUpgradeCost(sub, newPlan, allPlans, now1) <= ProratedUpgradeCost(sub, newPlan, allPlans, now2)
  {
    ProrationBounds(sub, newPlan, allPlans, now1);
    if Key(sub.planId) in allPlans && sub.expiresAt - now2 > 0 {
      var current := allPlans[Key(sub.planId)];
      var costPerDay := current.price / current.durationDays as real;
      var days1 := (sub.expiresAt - now1) as real / DAY_MS as real;
      var days2 := (sub.expiresAt - now2) as real / DAY_MS as real;
      assert days1 >= days2;
      assert costPerDay >= 0.0;
      assert costPerDay * (days1 - days2) >= 0.0;
      assert costPerDay * days1 >= costPerDay * days2;
    }
  }

  /** A Weekly pass with exactly 3.5 days left, upgraded to Monthly Pro: 59.99 - 19.99 / 7 * 3.5. */
  lemma ProrationWeeklyToMonthly(sub: Subscription, now: int)
    requires sub.planId == Weekly && sub.expiresAt == now + DAY_MS * 7 / 2
    ensures ProratedUpgradeCost(sub, MONTHLY, PLANS, now) == 49.995
  {
    assert Key(Weekly) in PLANS && PLANS[Key(Weekly)] == WEEKLY;
    var daysRemaining := (sub.expiresAt - now) as real / DAY_MS as real;
    assert daysRemaining == 3.5;
    assert 19.99 / 7.0 * 3.5 == 9.995;
  }
}
