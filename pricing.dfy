/** components/PricingPage.tsx: how each catalog plan is classified against the user's current
    subscription, the upgrade price it carries, and its card's button. `now` is the instant at
    which the page is rendered. */
module PricingPage {
  import opened Options
  import opened Plans
  import opened Ledger

  /** The per-plan booleans and `upgradeCost` of the plan list (`null` is `None`). The user is
      subscribed when the hook's record holds a subscription. */
  datatype PlanStatus = PlanStatus(isCurrent: bool, isDowngrade: bool, isUpgrade: bool, upgradeCost: Option<real>)

  /** The button captions: 'Current Plan', 'Downgrade Not Available', 'Upgrade for $…' and
      'Choose Plan'. */
  datatype Label = CurrentPlan | DowngradeNotAvailable | UpgradeFor(cost: real) | ChoosePlan

  datatype Button = Button(caption: Label, disabled: bool)

  function Classify(sub: Option<Subscription>, plan: Plan, now: int): PlanStatus
  {
    if sub.None? then PlanStatus(false, false, false, None)
    else
      var current := PLANS[Key(sub.value.planId)];
      var isUpgrade := plan.durationDays > current.durationDays;
      PlanStatus(
        sub.value.planId == plan.id,
        plan.durationDays < current.durationDays,
        isUpgrade,
        if isUpgrade then Some(ProratedUpgradeCost(sub.value, plan, PLANS, now)) else None)
  }

  /** `PlanCard`'s button: the first matching caption, disabled for the current plan and for a
      downgrade. */
  function ButtonFor(s: PlanStatus): Button
  {
    if s.isCurrent then Button(CurrentPlan, true)
    else if s.isDowngrade then Button(DowngradeNotAvailable, true)
    else if s.upgradeCost.Some? then Button(UpgradeFor(s.upgradeCost.value), false)
    else Button(ChoosePlan, false)
  }

  /** `onSelect`: the plan's id and its upgrade cost (`upgradeCost ?? undefined`). */
  function Selection(plan: Plan, s: PlanStatus): (PlanId, Option<real>)
  {
    (plan.id, s.upgradeCost)
  }

  // ----- Properties -----

  /** A plan's place in the catalog order weekly, monthly, yearly. */
  function Tier(id: PlanId): nat
  {
    match id
    case Weekly => 0
    case Monthly => 1
    case Yearly => 2
  }

  /** The classification in catalog order: a catalog plan is a downgrade exactly when it comes
      before the subscribed plan, an upgrade exactly when it comes after, and current exactly
      when it is the subscribed plan; a user without a subscription sees none of the three. */
  lemma ClassifySpec(sub: Option<Subscription>, id: PlanId, now: int)
    ensures sub.None? ==> Classify(sub, PlanFor(id), now) == PlanStatus(false, false, false, None)
    ensures sub.Some? ==>
      var s := Classify(sub, PlanFor(id), now);
      && (s.isCurrent <==> id == sub.value.planId)
      && (s.isDowngrade <==> Tier(id) < Tier(sub.value.planId))
      && (s.isUpgrade <==> Tier(id) > Tier(sub.value.planId))
  {
    if sub.Some? {
      DurationsStrictlyIncrease();
      assert PLANS[Key(sub.value.planId)] == PlanFor(sub.value.planId);
    }
  }

  /** For a catalog plan a subscriber sees exactly one of current, downgrade and upgrade. */
  lemma ExactlyOneStatus(sub: Subscription, id: PlanId, now: int)
    ensures var s := Classify(Some(sub), PlanFor(id), now);
      (if s.isCurrent then 1 else 0) + (if s.isDowngrade then 1 else 0) + (if s.isUpgrade then 1 else 0) == 1
  {
    DurationsStrictlyIncrease();
    assert PLANS[Key(sub.planId)] == PlanFor(sub.planId);
  }

  /** An upgrade price exists exactly for upgrades; it is the prorated cost, and it lies between
      0 and the plan's price. */
  lemma UpgradeCostOnlyForUpgrades(sub: Option<Subscription>, id: PlanId, now: int)
    ensures var s := Classify(sub, PlanFor(id), now);
      && (s.upgradeCost.Some? <==> s.isUpgrade)
      && (s.upgradeCost.Some? ==>
            s.upgradeCost.value == ProratedUpgradeCost(sub.value, PlanFor(id), PLANS, now)
            && 0.0 <= s.upgradeCost.value <= PlanFor(id).price)
  {
    if sub.Some? {
      assert PLANS[Key(sub.value.planId)] == PlanFor(sub.value.planId);
      ProrationBounds(sub.value, PlanFor(id), PLANS, now);
    }
  }

  /** The button is disabled exactly for the current plan and for downgrades; its caption
      follows the priority current, downgrade, upgrade price, choose. */
  lemma ButtonSpec(s: PlanStatus)
    ensures ButtonFor(s).disabled <==> s.isCurrent || s.isDowngrade
    ensures ButtonFor(s).caption == CurrentPlan <==> s.isCurrent
    ensures ButtonFor(s).caption == DowngradeNotAvailable <==> !s.isCurrent && s.isDowngrade
    ensures ButtonFor(s).caption.UpgradeFor? <==> !s.isCurrent && !s.isDowngrade && s.upgradeCost.Some?
    ensures ButtonFor(s).caption.UpgradeFor? ==> ButtonFor(s).caption.cost == s.upgradeCost.value
  {
  }

  /** A plan an unsubscribed user can pick is offered as 'Choose Plan' at no upgrade price; a
      catalog plan a subscriber can pick (its button enabled) is an upgrade and is forwarded
      with its prorated cost. */
  lemma EnabledSelections(sub: Option<Subscription>, id: PlanId, now: int)
    ensures sub.None? ==>
      ButtonFor(Classify(sub, PlanFor(id), now)) == Button(ChoosePlan, false)
      && Selection(PlanFor(id), Classify(sub, PlanFor(id), now)) == (id, None)
    ensures sub.Some? && !ButtonFor(Classify(sub, PlanFor(id), now)).disabled ==>
      Classify(sub, PlanFor(id), now).isUpgrade
      && Selection(PlanFor(id), Classify(sub, PlanFor(id), now)) == (id, Some(ProratedUpgradeCost(sub.value, PlanFor(id), PLANS, now)))
  {
    if sub.Some? {
      ExactlyOneStatus(sub.value, id, now);
    }
  }
}
