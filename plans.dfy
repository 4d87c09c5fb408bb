/** The fixed subscription catalog `PLANS` of App.tsx. */
module Plans {

  /** The closed set of plan identifiers, `'weekly' | 'monthly' | 'yearly'`. */
  datatype PlanId = Weekly | Monthly | Yearly

  type Positive = n: int | n > 0 witness 1

  /** A catalog entry. Durations and daily allotments are positive whole numbers. */
  datatype Plan = Plan(id: PlanId, name: string, price: real, durationDays: Positive, dailyCredits: Positive)

  /** The string form of an identifier, which is also its key in the catalog. */
  function Key(id: PlanId): string
  {
    match id
    case Weekly => "weekly"
    case Monthly => "monthly"
    case Yearly => "yearly"
  }

  const WEEKLY: Plan := Plan(Weekly, "Weekly Pass", 19.99, 7, 10)
  const MONTHLY: Plan := Plan(Monthly, "Monthly Pro", 59.99, 30, 50)
  const YEARLY: Plan := Plan(Yearly, "Yearly Max", 159.99, 365, 70)

  /** `PLANS`, keyed by the identifiers' string forms. */
  const PLANS: map<string, Plan> := map["weekly" := WEEKLY, "monthly" := MONTHLY, "yearly" := YEARLY]

  /** `PLANS[id]`: the catalog entry of an identifier, which always exists. */
  function PlanFor(id: PlanId): (p: Plan)
    ensures Key(id) in PLANS && p == PLANS[Key(id)]
    ensures p.id == id
  {
    match id
    case Weekly => WEEKLY
    case Monthly => MONTHLY
    case Yearly => YEARLY
  }

  // ----- Properties -----

  /** The catalog holds exactly the three plans, and each key is its plan's own identifier. */
  lemma CatalogShape()
    ensures PLANS.Keys == {"weekly", "monthly", "yearly"}
    ensures forall k :: k in PLANS ==> Key(PLANS[k].id) == k
    ensures PLANS.Values == {WEEKLY, MONTHLY, YEARLY}
  {
    assert PLANS["weekly"] == WEEKLY && PLANS["monthly"] == MONTHLY && PLANS["yearly"] == YEARLY;
  }

  /** Durations grow strictly from weekly to monthly to yearly, so no two plans share one. */
  lemma DurationsStrictlyIncrease()
    ensures WEEKLY.durationDays < MONTHLY.durationDays < YEARLY.durationDays
    ensures forall a: PlanId, b: PlanId :: PlanFor(a).durationDays == PlanFor(b).durationDays ==> a == b
  {
  }

  /** Identifier keys are pairwise distinct. */
  lemma KeyInjective(a: PlanId, b: PlanId)
    ensures Key(a) == Key(b) ==> a == b
  {
    if a != b {
      assert Key(a)[0] != Key(b)[0];
    }
  }
}
