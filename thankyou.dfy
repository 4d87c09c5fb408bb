/** components/ThankYouPage.tsx: the hand-off of a completed purchase from the checkout
    wrapper to the thank-you page through the storage entry `purchase-details-temp`, the
    one-shot activation it triggers, and the receipt's guards. */
module ThankYouPage {
  import opened Options
  import opened Plans
  import opened Ledger
  import opened Accounts
  import opened LocalStorage
  import opened CreditService
  import CheckoutPage

  /** `{ plan, amountPaid }`. */
  datatype Purchase = Purchase(plan: Plan, amountPaid: real)

  /** What the receipt shows: the plan, the amount and whom it is billed to. */
  datatype Receipt = Receipt(planName: string, amountPaid: real, billedName: string, billedEmail: string)

  /** `handleSuccess`'s `amountPaid`: the upgrade cost when there is one, else the plan's price. */
  function AmountPaid(plan: Plan, upgradeCost: Option<real>): (r: real)
    ensures r == CheckoutPage.AmountDue(plan, upgradeCost)
  {
    if upgradeCost.Some? then upgradeCost.value else plan.price
  }

  /** The purchase waiting in storage: only a record with a plan and a numeric amount counts. */
  function PendingPurchase(entries: map<string, Stored>): Option<Purchase>
  {
    if PURCHASE_KEY in entries && entries[PURCHASE_KEY].PurchaseRecord?
       && entries[PURCHASE_KEY].plan.Some? && entries[PURCHASE_KEY].amountPaid.Some?
    then Some(Purchase(entries[PURCHASE_KEY].plan.value, entries[PURCHASE_KEY].amountPaid.value))
    else None
  }

  /** `CheckoutPageWithPlanStorage.handleSuccess`: the plan and the amount paid stored for the
      thank-you page (the caller then moves to it). */
  method HandleSuccess(st: Store, plan: Plan, upgradeCost: Option<real>)
    modifies st
    ensures st.entries == old(st.entries)[PURCHASE_KEY := PurchaseRecord(Some(plan), Some(AmountPaid(plan, upgradeCost)))]
    ensures PendingPurchase(st.entries) == Some(Purchase(plan, CheckoutPage.AmountDue(plan, upgradeCost)))
  {
    var amountPaid := if upgradeCost.Some? then upgradeCost.value else plan.price;
    st.SetItem(PURCHASE_KEY, PurchaseRecord(Some(plan), Some(amountPaid)));
  }

  /** `handleDownloadReceipt`'s content: nothing without purchase details or a signed-in user. */
  function ReceiptFor(details: Option<Purchase>, user: Option<User>): (r: Option<Receipt>)
    ensures r.Some? <==> details.Some? && user.Some?
    ensures r.Some? ==> r.value.amountPaid == details.value.amountPaid && r.value.billedEmail == user.value.email
  {
    if details.None? || user.None? then None
    else Some(Receipt(details.value.plan.name, details.value.amountPaid, user.value.name, user.value.email))
  }

  /** The thank-you page's state: the purchase shown, and the credit hook it activates through. */
  class ThankYouView {
    var purchaseDetails: Option<Purchase>
    const credits: CreditHook

    constructor (credits: CreditHook)
      ensures purchaseDetails.None? && this.credits == credits
    {
      purchaseDetails := None;
      this.credits := credits;
    }

    /** The receipt button is disabled until purchase details are shown. */
    predicate ReceiptDisabled()
      reads this
    {
      purchaseDetails.None?
    }

    /** The activation effect: a pending purchase activates its plan for the signed-in user, is
        shown, and is removed from storage; without one nothing happens. */
    method ActivationEffect(st: Store, user: Option<User>, now: int)
      modifies this, credits, st
      ensures PendingPurchase(old(st.entries)).None? ==>
        && purchaseDetails == old(purchaseDetails) && st.entries == old(st.entries)
        && credits.data == old(credits.data) && credits.isSubscribed == old(credits.isSubscribed)
      ensures PendingPurchase(old(st.entries)).Some? ==>
        var p := PendingPurchase(old(st.entries)).value;
        && purchaseDetails == Some(p)
        && st.entries == (if user.Some? then SaveCredits(old(st.entries), user.value.email, Activated(p.plan, now))
                          else old(st.entries)) - {PURCHASE_KEY}
        && (user.Some? ==> credits.data == Activated(p.plan, now) && credits.isSubscribed)
        && (user.None? ==> credits.data == old(credits.data) && credits.isSubscribed == old(credits.isSubscribed))
      ensures PendingPurchase(st.entries).None?
    {
      var purchaseData := PendingPurchase(st.entries);
      if purchaseData.Some? {
        credits.ActivateSubscription(st, user, purchaseData.value.plan, now);
        purchaseDetails := purchaseData;
        st.RemoveItem(PURCHASE_KEY);
      }
    }
  }

  /** The effect running again (as it does on a later render) activates nothing more: storage,
      the credit record and the details shown are those of the first run. */
  method EffectIsOneShot(view: ThankYouView, st: Store, user: Option<User>, now: int, later: int)
    modifies view, view.credits, st
    ensures PendingPurchase(old(st.entries)).None? ==>
      && view.purchaseDetails == old(view.purchaseDetails) && st.entries == old(st.entries)
      && view.credits.data == old(view.credits.data) && view.credits.isSubscribed == old(view.credits.isSubscribed)
    ensures PendingPurchase(old(st.entries)).Some? ==>
      var p := PendingPurchase(old(st.entries)).value;
      && view.purchaseDetails == Some(p) && PURCHASE_KEY !in st.entries
      && st.entries == (if user.Some? then SaveCredits(old(st.entries), user.value.email, Activated(p.plan, now))
                        else old(st.entries)) - {PURCHASE_KEY}
    ensures PendingPurchase(old(st.entries)).Some? && user.Some? ==>
      view.credits.data == Activated(PendingPurchase(old(st.entries)).value.plan, now) && view.credits.isSubscribed
  {
    view.ActivationEffect(st, user, now);
    view.ActivationEffect(st, user, later);
  }

  /** A checkout completed with `upgradeCost` and then the thank-you page's effect: the plan is
      active for the user, the amount shown is the amount that was due, and nothing is left
      pending. */
  method CheckoutThenThankYou(view: ThankYouView, st: Store, user: User, plan: Plan, upgradeCost: Option<real>, now: int)
    modifies view, view.credits, st
    ensures view.credits.data == Activated(plan, now) && view.credits.isSubscribed
    ensures view.purchaseDetails == Some(Purchase(plan, CheckoutPage.AmountDue(plan, upgradeCost)))
    ensures !view.ReceiptDisabled() && PendingPurchase(st.entries).None?
    ensures LoadCredits(st.entries, user.email) == Activated(plan, now)
  {
    HandleSuccess(st, plan, upgradeCost);
    view.ActivationEffect(st, Some(user), now);
    KeysSeparate(user.email, user.email);
  }
}
