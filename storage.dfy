/** Browser `localStorage` as the services and components use it: a map from keys to decoded
    records. `Unparseable` stands for text that `JSON.parse` rejects; a record of another shape
    than the one a reader expects stands for JSON that parses but fails the reader's shape test.
    An empty stored string reads like an absent key everywhere in the source, so it is not a
    separate case. */
module LocalStorage {
  import opened Options
  import opened Plans
  import opened Ledger
  import opened Accounts
  import opened Analysis

  datatype Stored =
    | Unparseable
    | CreditRecord(data: CreditData)
    | HistoryList(items: seq<HistoryItem>)
    | UserTable(users: map<string, Account>)
    | SessionRecord(user: User)
    | PurchaseRecord(plan: Option<Plan>, amountPaid: Option<real>)

  const USERS_KEY: string := "synthetica-users"
  const SESSION_KEY: string := "synthetica-session"
  const PURCHASE_KEY: string := "purchase-details-temp"
  const CREDIT_PREFIX: string := "synthetica-credits-"
  const HISTORY_PREFIX: string := "synthetica-history-"

  /** `getCreditKey`. */
  function CreditKey(email: string): string
  {
    CREDIT_PREFIX + email
  }

  /** The history key of `getHistoryKey`. */
  function HistoryKey(email: string): string
  {
    HISTORY_PREFIX + email
  }

  /** The browser's storage: `setItem` and `removeItem` over the decoded entries. */
  class Store {
    var entries: map<string, Stored>

    constructor (initial: map<string, Stored>)
      ensures entries == initial
    {
      entries := initial;
    }

    method SetItem(key: string, value: Stored)
      modifies this
      ensures entries == old(entries)[key := value]
    {
      entries := entries[key := value];
    }

    method RemoveItem(key: string)
      modifies this
      ensures entries == old(entries) - {key}
    {
      entries := entries - {key};
    }
  }

  /** The user of the stored session (`JSON.parse(session).user`), when there is one. */
  function SessionUser(entries: map<string, Stored>): Option<User>
  {
    if SESSION_KEY in entries && entries[SESSION_KEY].SessionRecord? then Some(entries[SESSION_KEY].user) else None
  }

  // ----- Key separation -----

  /** Two prefixed keys are equal only for equal suffixes. */
  lemma {:induction false} PrefixCancels(p: string, a: string, b: string)
    requires p + a == p + b
    ensures a == b
  {
    assert a == (p + a)[|p|..];
    assert b == (p + b)[|p|..];
  }

  /** Credit keys of different users differ, and so do their history keys; no credit key is a
      history key; and none of them is one of the fixed keys. */
  lemma KeysSeparate(e: string, f: string)
    ensures CreditKey(e) == CreditKey(f) ==> e == f
    ensures HistoryKey(e) == HistoryKey(f) ==> e == f
    ensures CreditKey(e) != HistoryKey(f)
    ensures CreditKey(e) !in {USERS_KEY, SESSION_KEY, PURCHASE_KEY}
    ensures HistoryKey(e) !in {USERS_KEY, SESSION_KEY, PURCHASE_KEY}
  {
    if CreditKey(e) == CreditKey(f) { PrefixCancels(CREDIT_PREFIX, e, f); }
    if HistoryKey(e) == HistoryKey(f) { PrefixCancels(HISTORY_PREFIX, e, f); }
    assert CreditKey(e)[11] == 'c' && HistoryKey(f)[11] == 'h';
    assert CreditKey(e)[0] == 's' && PURCHASE_KEY[0] == 'p';
    assert HistoryKey(e)[0] == 's';
    assert USERS_KEY[11] == 'u' && SESSION_KEY[11] == 's';
  }
}
