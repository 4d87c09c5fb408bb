/** services/creditService.ts: loading and saving the credit record, and the `useCredits` hook,
    whose state (the in-memory record and `isSubscribed`) is a `CreditHook` object. The signed-in
    user, read by the hook from the auth context, is passed to each operation, and so is the
    instant `now` that the source takes from the clock. */
module CreditService {
  import opened Options
  import opened Plans
  import opened Ledger
  import opened Accounts
  import opened LocalStorage

  /** `getUserCreditData`: the stored record when the entry holds one, otherwise the
      new-user default. */
  function LoadCredits(entries: map<string, Stored>, email: string): CreditData
  {
    var key := CreditKey(email);
    if key in entries && entries[key].CreditRecord? then entries[key].data else NEW_USER
  }

  /** `saveUserCreditData`: the entries after the record is written under the user's key. */
  function SaveCredits(entries: map<string, Stored>, email: string, d: CreditData): map<string, Stored>
  {
    entries[CreditKey(email) := CreditRecord(d)]
  }

  // ----- Persistence properties -----

  /** A missing entry, an unparseable one, or one without a record of credits loads as exactly
      `{ credits: 2 }` with no subscription fields. */
  lemma LoadDefault(entries: map<string, Stored>, email: string)
    requires CreditKey(email) !in entries || !entries[CreditKey(email)].CreditRecord?
    ensures LoadCredits(entries, email) == CreditData(2, None, None, None)
  {
  }

  /** Loading after saving returns the saved record; other users' records are unaffected. */
  lemma SaveThenLoad(entries: map<string, Stored>, email: string, other: string, d: CreditData)
    ensures LoadCredits(SaveCredits(entries, email, d), email) == d
    ensures other != email ==> LoadCredits(SaveCredits(entries, email, d), other) == LoadCredits(entries, other)
  {
    KeysSeparate(email, other);
  }

  /** `useCredits`' state. */
  class CreditHook {
    var data: CreditData
    var isSubscribed: bool

    /** `isSubscribed` mirrors the presence of a subscription in the exposed record. */
    ghost predicate Valid()
      reads this
    {
      isSubscribed == data.subscription.Some?
    }

    /** The hook's initial state, `{ credits: 0 }` and not subscribed. */
    constructor ()
      ensures data == CreditData(0, None, None, None) && !isSubscribed
      ensures Valid()
    {
      data := CreditData(0, None, None, None);
      isSubscribed := false;
    }

    /** `hasCredits`. */
    predicate HasCredits()
      reads this
    {
      data.credits > 0
    }

    /** `refreshCreditData`: load the record, apply the expiry step and then the reset step in
        place, write the record back only if one of them fired, and expose the result. Without a
        signed-in user nothing happens. */
    method Refresh(st: Store, user: Option<User>, now: int)
      modifies this, st
      ensures user.None? ==> data == old(data) && isSubscribed == old(isSubscribed) && st.entries == old(st.entries)
      ensures user.Some? ==>
        var loaded := LoadCredits(old(st.entries), user.value.email);
        && data == Reconcile(loaded, now)
        && isSubscribed == data.subscription.Some?
        && st.entries == (if ReconcileWrites(loaded, now) then SaveCredits(old(st.entries), user.value.email, data)
                          else old(st.entries))
      ensures old(Valid()) || user.Some? ==> Valid()
    {
      if user.None? {
        return;
      }
      var email := user.value.email;
      var d := LoadCredits(st.entries, email);
      ghost var loaded := d;
      var needsUpdate := false;

      if d.subscription.Some? && d.subscription.value.expiresAt < now {
        d := d.(subscription := None);
        d := d.(dailyLimit := None);
        d := d.(lastResetDate := None);
        d := d.(credits := 0);
        needsUpdate := true;
      }
      assert d == AfterExpiry(loaded, now);

      if d.subscription.Some? && d.lastResetDate.Some? && d.dailyLimit.Some? && d.dailyLimit.value != 0 {
        var today := UtcDay(now);
        var lastReset := UtcDay(d.lastResetDate.value);
        if today > lastReset {
          d := d.(credits := d.dailyLimit.value);
          d := d.(lastResetDate := Some(now));
          needsUpdate := true;
        }
      }
      assert needsUpdate == ReconcileWrites(loaded, now);

      if needsUpdate {
        st.SetItem(CreditKey(email), CreditRecord(d));
      }
      data := d;
      isSubscribed := d.subscription.Some?;
    }

    /** `consumeCredit`: one credit fewer in the in-memory record, floored at 0, and that record
        saved; without a signed-in user nothing happens. */
    method ConsumeCredit(st: Store, user: Option<User>)
      modifies this, st
      ensures user.None? ==> data == old(data) && st.entries == old(st.entries)
      ensures user.Some? ==>
        data == Consumed(old(data)) && st.entries == SaveCredits(old(st.entries), user.value.email, data)
      ensures isSubscribed == old(isSubscribed)
    {
      if user.None? {
        return;
      }
      var newCredits := if data.credits - 1 < 0 then 0 else data.credits - 1;
      var newData := data.(credits := newCredits);
      st.SetItem(CreditKey(user.value.email), CreditRecord(newData));
      data := newData;
    }

    /** `activateSubscription`: the record replaced wholesale by the plan's, saved, and then
        refreshed, which leaves it as it is. Without a signed-in user nothing happens. */
    method ActivateSubscription(st: Store, user: Option<User>, plan: Plan, now: int)
      modifies this, st
      ensures user.None? ==> data == old(data) && isSubscribed == old(isSubscribed) && st.entries == old(st.entries)
      ensures user.Some? ==>
        && data == Activated(plan, now) && isSubscribed
        && st.entries == SaveCredits(old(st.entries), user.value.email, Activated(plan, now))
      ensures old(Valid()) || user.Some? ==> Valid()
    {
      if user.None? {
        return;
      }
      var start := now;
      var expiresAt := now + plan.durationDays * DAY_MS;
      var subscription := Subscription(plan.id, plan.name, start, expiresAt);
      var newData := CreditData(plan.dailyCredits, Some(subscription), Some(plan.dailyCredits), Some(now));
      st.SetItem(CreditKey(user.value.email), CreditRecord(newData));
      SaveThenLoad(old(st.entries), user.value.email, user.value.email, newData);
      ActivationIsStable(plan, now);
      Refresh(st, user, now);
    }
  }

  /** A signed-in user with no readable record (a new user): the refresh exposes the default
      two free credits, not subscribed, so the user can analyse, and nothing is written. */
  method NewUserRefresh(hook: CreditHook, st: Store, user: User, now: int)
    requires CreditKey(user.email) !in st.entries || !st.entries[CreditKey(user.email)].CreditRecord?
    modifies hook, st
    ensures hook.data == CreditData(2, None, None, None) && !hook.isSubscribed && hook.HasCredits()
    ensures st.entries == old(st.entries)
  {
    LoadDefault(st.entries, user.email);
    NewUserIsFree();
    hook.Refresh(st, Some(user), now);
  }

  /** Two refreshes at the same instant: the second changes neither the exposed state nor
      storage, so the pair leaves exactly what a single refresh leaves. */
  method RefreshTwice(hook: CreditHook, st: Store, user: Option<User>, now: int)
    modifies hook, st
    ensures user.None? ==>
      hook.data == old(hook.data) && hook.isSubscribed == old(hook.isSubscribed) && st.entries == old(st.entries)
    ensures user.Some? ==>
      var loaded := LoadCredits(old(st.entries), user.value.email);
      && hook.data == Reconcile(loaded, now)
      && hook.isSubscribed == hook.data.subscription.Some?
      && st.entries == (if ReconcileWrites(loaded, now) then SaveCredits(old(st.entries), user.value.email, Reconcile(loaded, now))
                        else old(st.entries))
  {
    hook.Refresh(st, user, now);
    ghost var data1, entries1 := hook.data, st.entries;
    if user.Some? {
      var loaded := LoadCredits(old(st.entries), user.value.email);
      if ReconcileWrites(loaded, now) {
        SaveThenLoad(old(st.entries), user.value.email, user.value.email, hook.data);
      }
      ReconcileIdempotent(loaded, now);
    }
    hook.Refresh(st, user, now);
    assert hook.data == data1 && st.entries == entries1;
  }
}
