/** The browser's local storage as the core uses it: flat string keys holding
    JSON text written by `JSON.stringify`. JSON is modelled as the identity: an
    entry is either text that parses back to the value it was written from, or
    text that `JSON.parse` rejects. */
module Storage {
  import opened Types

  /** The JSON values the core writes. `Null` is the text "null". */
  datatype Value =
    | UserList(users: seq<User>)
    | TransactionList(transactions: seq<Transaction>)
    | UserRecord(user: User)
    | Null

  /** What a key holds: `Json(v)` is the text `JSON.stringify(v)`, which is never
      empty; `Text(raw)` is text that does not parse. */
  datatype Entry = Json(value: Value) | Text(raw: string)

  type Store = map<string, Entry>

  /** The keys the core uses. */
  const UsersKey := "agentic-users-csv"
  const SessionKey := "agentic-current-user"
  const TransactionsKey := "agentic-transactions"
  const UserTransactionsPrefix := "agentic-transactions-"

  /** `agentic-transactions-${userId}`. */
  function UserTransactionsKey(userId: string): (k: string)
    ensures |k| == |UserTransactionsPrefix| + |userId|
    ensures k[..|UserTransactionsPrefix|] == UserTransactionsPrefix
    ensures k[|UserTransactionsPrefix|..] == userId
  {
    UserTransactionsPrefix + userId
  }

  /** Each user has a key of their own, and none of them is one of the fixed keys. */
  lemma UserTransactionsKeyIsolated(a: string, b: string)
    ensures UserTransactionsKey(a) == UserTransactionsKey(b) <==> a == b
    ensures UserTransactionsKey(a) != UsersKey
    ensures UserTransactionsKey(a) != SessionKey
    ensures UserTransactionsKey(a) != TransactionsKey
  {
    var ka := UserTransactionsKey(a);
    assert ka[8] == 't';
    assert UsersKey[8] == 'u';
    assert SessionKey[8] == 'c';
    assert |TransactionsKey| < |ka|;
  }

  /** `localStorage.getItem(key)` tested with `if (stored)`: a missing key and
      the empty string both read as nothing stored. */
  predicate Holds(store: Store, key: string) {
    key in store && store[key] != Text("")
  }

  /** What `JSON.parse(localStorage.getItem(key))` gives back, typed for the key. */
  datatype Read<T> = Absent | Parsed(value: T) | Unparsable

  function ReadUsers(store: Store): Read<seq<User>> {
    if !Holds(store, UsersKey) then Absent
    else match store[UsersKey]
      case Json(UserList(us)) => Parsed(us)
      case _ => Unparsable
  }

  function ReadTransactions(store: Store, key: string): Read<seq<Transaction>> {
    if !Holds(store, key) then Absent
    else match store[key]
      case Json(TransactionList(ts)) => Parsed(ts)
      case _ => Unparsable
  }

  /** The session record: a user, or `null`. */
  function ReadSession(store: Store): (r: Read<Option<User>>)
    ensures r.Absent? <==> !Holds(store, SessionKey)
  {
    if !Holds(store, SessionKey) then Absent
    else match store[SessionKey]
      case Json(UserRecord(u)) => Parsed(Some(u))
      case Json(Null) => Parsed(None)
      case _ => Unparsable
  }

  /** The record login and signup write reads back as that user. */
  lemma SessionRecordReadsBack(store: Store, u: User)
    ensures ReadSession(store[SessionKey := Json(UserRecord(u))]) == Parsed(Some(u))
  {
  }

  /** The page's storage area, shared by every component. */
  class LocalStorage {
    var items: Store

    constructor (initial: Store)
      ensures items == initial
    {
      items := initial;
    }

    /** `localStorage.setItem(key, JSON.stringify(v))`. */
    method SetItem(key: string, v: Value)
      modifies this
      ensures items == old(items)[key := Json(v)]
    {
      items := items[key := Json(v)];
    }

    /** `localStorage.removeItem(key)`. */
    method RemoveItem(key: string)
      modifies this
      ensures items == old(items) - {key}
    {
      items := items - {key};
    }
  }
}
