/** services/historyService.ts: each signed-in user's analysis history, newest first, kept in
    storage under that user's history key. The user is the one of the stored session, read
    afresh by every operation. The simulated fetch delay is not modelled; `now` is the instant
    the source reads from the clock. */
module HistoryService {
  import opened Options
  import opened Text
  import opened Accounts
  import opened Analysis
  import opened LocalStorage

  /** `getHistoryKey`: the history key of the session's user, if there is a session. */
  function HistoryKeyFor(entries: map<string, Stored>): Option<string>
  {
    var user := SessionUser(entries);
    if user.Some? then Some(HistoryKey(user.value.email)) else None
  }

  /** The list stored under `key`, or the empty list when the entry is missing or unreadable. */
  function StoredList(entries: map<string, Stored>, key: string): seq<HistoryItem>
  {
    if key in entries && entries[key].HistoryList? then entries[key].items else []
  }

  /** `getHistory`: the session user's list; without a session, the empty list. */
  function GetHistory(entries: map<string, Stored>): seq<HistoryItem>
  {
    var key := HistoryKeyFor(entries);
    if key.Some? then StoredList(entries, key.value) else []
  }

  /** The item `saveAnalysis` builds: the id is the instant's decimal digits. */
  function NewItem(payload: HistoryPayload, now: int): (item: HistoryItem)
    ensures item.inputType == payload.inputType && item.input == payload.input && item.result == payload.result
    ensures item.id == DecimalString(now) && item.timestamp == now
  {
    HistoryItem(DecimalString(now), now, payload.inputType, payload.input, payload.result)
  }

  /** `history.filter(item => item.id !== itemId)`. */
  function WithoutId(items: seq<HistoryItem>, id: string): seq<HistoryItem>
  {
    if items == [] then []
    else if items[0].id != id then [items[0]] + WithoutId(items[1..], id)
    else WithoutId(items[1..], id)
  }

  // ----- Properties of the filter -----

  /** An item survives the filter exactly when it was there and does not carry the id. */
  lemma {:induction false} WithoutIdMembers(items: seq<HistoryItem>, id: string, x: HistoryItem)
    ensures x in WithoutId(items, id) <==> x in items && x.id != id
  {
    if items != [] {
      WithoutIdMembers(items[1..], id, x);
      assert items == [items[0]] + items[1..];
    }
  }

  /** The filter never lengthens the list, and removes nothing when no item carries the id. */
  lemma {:induction false} WithoutIdLength(items: seq<HistoryItem>, id: string)
    ensures |WithoutId(items, id)| <= |items|
    ensures (forall i :: 0 <= i < |items| ==> items[i].id != id) ==> WithoutId(items, id) == items
  {
    if items != [] {
      WithoutIdLength(items[1..], id);
      assert items == [items[0]] + items[1..];
    }
  }

  /** The filter works item by item: it distributes over concatenation. */
  lemma {:induction false} WithoutIdConcat(a: seq<HistoryItem>, b: seq<HistoryItem>, id: string)
    ensures WithoutId(a + b, id) == WithoutId(a, id) + WithoutId(b, id)
  {
    if a != [] {
      assert (a + b)[1..] == a[1..] + b;
      WithoutIdConcat(a[1..], b, id);
    } else {
      assert a + b == b;
    }
  }

  /** Deleting the same id twice is the same as deleting it once. */
  lemma WithoutIdIdempotent(items: seq<HistoryItem>, id: string)
    ensures WithoutId(WithoutId(items, id), id) == WithoutId(items, id)
  {
    var r := WithoutId(items, id);
    forall i | 0 <= i < |r|
      ensures r[i].id != id
    {
      WithoutIdMembers(items, id, r[i]);
    }
    WithoutIdLength(r, id);
  }

  // ----- Operations -----

  /** The entries a save leaves behind. */
  function Saved(entries: map<string, Stored>, payload: HistoryPayload, now: int): map<string, Stored>
  {
    var key := HistoryKeyFor(entries);
    if key.None? then entries else entries[key.value := HistoryList([NewItem(payload, now)] + GetHistory(entries))]
  }

  /** The entries a deletion leaves behind. */
  function Deleted(entries: map<string, Stored>, id: string): map<string, Stored>
  {
    var key := HistoryKeyFor(entries);
    if key.None? then entries else entries[key.value := HistoryList(WithoutId(GetHistory(entries), id))]
  }

  /** The entries clearing leaves behind. */
  function Cleared(entries: map<string, Stored>): map<string, Stored>
  {
    var key := HistoryKeyFor(entries);
    if key.None? then entries else entries - {key.value}
  }

  /** `saveAnalysis`: the new item in front of the current list, written back; without a
      session nothing changes. */
  method SaveAnalysis(st: Store, payload: HistoryPayload, now: int)
    modifies st
    ensures st.entries == Saved(old(st.entries), payload, now)
  {
    var key := HistoryKeyFor(st.entries);
    if key.None? {
      return;
    }
    var history := GetHistory(st.entries);
    var fullItem := HistoryItem(DecimalString(now), now, payload.inputType, payload.input, payload.result);
    var updatedHistory := [fullItem] + history;
    st.SetItem(key.value, HistoryList(updatedHistory));
  }

  /** `deleteHistoryItem`: the current list without the items carrying `id`, always written
      back (even when nothing was removed); without a session nothing changes. */
  method DeleteHistoryItem(st: Store, id: string)
    modifies st
    ensures st.entries == Deleted(old(st.entries), id)
  {
    var key := HistoryKeyFor(st.entries);
    if key.None? {
      return;
    }
    var history := GetHistory(st.entries);
    var updatedHistory := WithoutId(history, id);
    st.SetItem(key.value, HistoryList(updatedHistory));
  }

  /** `clearHistory`: the session user's entry removed; without a session nothing changes. */
  method ClearHistory(st: Store)
    modifies st
    ensures st.entries == Cleared(old(st.entries))
  {
    var key := HistoryKeyFor(st.entries);
    if key.Some? {
      st.RemoveItem(key.value);
    }
  }

  // ----- Properties of the operations -----

  /** A history key is never the session key, so the history operations keep the session. */
  lemma HistoryKeepsSession(entries: map<string, Stored>, payload: HistoryPayload, now: int, id: string)
    ensures SessionUser(Saved(entries, payload, now)) == SessionUser(entries)
    ensures SessionUser(Deleted(entries, id)) == SessionUser(entries)
    ensures SessionUser(Cleared(entries)) == SessionUser(entries)
  {
    if SessionUser(entries).Some? {
      KeysSeparate(SessionUser(entries).value.email, SessionUser(entries).value.email);
    }
  }

  /** After a save the history is the new item followed by the previous history, newest first;
      without a session it stays empty. */
  lemma SaveThenGet(entries: map<string, Stored>, payload: HistoryPayload, now: int)
    ensures HistoryKeyFor(entries).Some? ==> GetHistory(Saved(entries, payload, now)) == [NewItem(payload, now)] + GetHistory(entries)
    ensures HistoryKeyFor(entries).None? ==> GetHistory(Saved(entries, payload, now)) == []
  {
    HistoryKeepsSession(entries, payload, now, "");
  }

  /** After a deletion exactly the other items remain, and deleting again changes nothing. */
  lemma DeleteThenGet(entries: map<string, Stored>, payload: HistoryPayload, id: string, x: HistoryItem)
    ensures x in GetHistory(Deleted(entries, id)) <==> x in GetHistory(entries) && x.id != id
    ensures Deleted(Deleted(entries, id), id) == Deleted(entries, id)
  {
    HistoryKeepsSession(entries, payload, 0, id);
    if HistoryKeyFor(entries).Some? {
      WithoutIdMembers(GetHistory(entries), id, x);
      WithoutIdIdempotent(GetHistory(entries), id);
      HistoryKeepsSession(Deleted(entries, id), payload, 0, id);
    }
  }

  /** After clearing, the history is empty. */
  lemma ClearThenGet(entries: map<string, Stored>, payload: HistoryPayload)
    ensures GetHistory(Cleared(entries)) == []
  {
    HistoryKeepsSession(entries, payload, 0, "");
  }

  /** Every operation touches only the session user's history: any other key, another user's
      history and all credit records included, keeps its entry. */
  lemma OnlyOwnHistoryChanges(entries: map<string, Stored>, payload: HistoryPayload, now: int, id: string, key: string)
    requires HistoryKeyFor(entries) != Some(key)
    ensures key in Saved(entries, payload, now) <==> key in entries
    ensures key in entries ==> Saved(entries, payload, now)[key] == entries[key]
    ensures key in Deleted(entries, id) <==> key in entries
    ensures key in entries ==> Deleted(entries, id)[key] == entries[key]
    ensures key in Cleared(entries) <==> key in entries
    ensures key in entries ==> Cleared(entries)[key] == entries[key]
  {
  }
}
