/** The storage helpers of src/utils/csvUtils.ts: the users list with its
    defaults, the post-parse part of the user CSV import, and the per-user
    transaction lists. */
module CsvUtils {
  import opened Types
  import opened Storage

  /** The two accounts the program starts with. `loadedAt` is the
      `new Date().toISOString()` taken when the module is loaded. */
  function DefaultUsers(loadedAt: string): seq<User> {
    [ User("1", "Saad", "elegnoiaceo", "admin", loadedAt),
      User("2", "Areeba", "elegnoiaai", "user", loadedAt) ]
  }

  predicate UniqueUsernames(us: seq<User>) {
    forall i, j :: 0 <= i < j < |us| ==> us[i].username != us[j].username
  }

  lemma DefaultUsersUnique(loadedAt: string)
    ensures UniqueUsernames(DefaultUsers(loadedAt))
  {
    var d := DefaultUsers(loadedAt);
    assert d[0].username[0] != d[1].username[0];
  }

  /** The list `loadUsers` returns for a store. */
  function LoadedUsers(store: Store, loadedAt: string): seq<User> {
    match ReadUsers(store)
    case Parsed(us) => us
    case _ => DefaultUsers(loadedAt)
  }

  /** The store after `loadUsers`: the defaults are written only when nothing is stored. */
  function AfterLoadUsers(store: Store, loadedAt: string): Store {
    if ReadUsers(store).Absent? then store[UsersKey := Json(UserList(DefaultUsers(loadedAt)))]
    else store
  }

  /** The store after `saveUsers(us)`. */
  function SavedUsers(store: Store, us: seq<User>): Store {
    store[UsersKey := Json(UserList(us))]
  }

  /** `loadUsers()`. */
  method LoadUsers(st: LocalStorage, loadedAt: string) returns (users: seq<User>)
    modifies st
    ensures ReadUsers(old(st.items)).Absent? ==>
              users == DefaultUsers(loadedAt) && st.items == SavedUsers(old(st.items), users)
    ensures ReadUsers(old(st.items)).Unparsable? ==>
              users == DefaultUsers(loadedAt) && st.items == old(st.items)
    ensures ReadUsers(old(st.items)).Parsed? ==>
              users == ReadUsers(old(st.items)).value && st.items == old(st.items)
    ensures users == LoadedUsers(old(st.items), loadedAt)
    ensures st.items == AfterLoadUsers(old(st.items), loadedAt)
  {
    var r := ReadUsers(st.items);
    match r
    case Absent =>
      users := DefaultUsers(loadedAt);
      SaveUsers(st, users);
    case Parsed(us) =>
      users := us;
    case Unparsable =>
      users := DefaultUsers(loadedAt);
  }

  /** `saveUsers(users)`. */
  method SaveUsers(st: LocalStorage, users: seq<User>)
    modifies st
    ensures st.items == SavedUsers(old(st.items), users)
  {
    st.SetItem(UsersKey, UserList(users));
  }

  /** Saving a list and loading it back gives the same list, and the load writes nothing. */
  lemma LoadAfterSave(store: Store, us: seq<User>, loadedAt: string)
    ensures LoadedUsers(SavedUsers(store, us), loadedAt) == us
    ensures AfterLoadUsers(SavedUsers(store, us), loadedAt) == SavedUsers(store, us)
  {
  }

  /** A second `loadUsers` neither writes nor returns anything different. */
  lemma LoadUsersIdempotent(store: Store, loadedAt: string)
    ensures AfterLoadUsers(AfterLoadUsers(store, loadedAt), loadedAt) == AfterLoadUsers(store, loadedAt)
    ensures LoadedUsers(AfterLoadUsers(store, loadedAt), loadedAt) == LoadedUsers(store, loadedAt)
  {
  }

  /** `loadUsers` touches no key but the users key. */
  lemma LoadUsersFrame(store: Store, loadedAt: string, key: string)
    requires key != UsersKey
    ensures key in AfterLoadUsers(store, loadedAt) <==> key in store
    ensures key in store ==> AfterLoadUsers(store, loadedAt)[key] == store[key]
  {
  }

  /** A row of a parsed user CSV. A missing cell is the empty string. */
  datatype UserRow = UserRow(id: string, username: string, password: string, role: string, createdAt: string)

  predicate KeepUserRow(row: UserRow) {
    row.username != "" && row.password != ""
  }

  /** `.filter(row => row.username && row.password)`. */
  function KeptUserRows(rows: seq<UserRow>): (kept: seq<UserRow>)
    ensures |kept| <= |rows|
    ensures forall i :: 0 <= i < |kept| ==> KeepUserRow(kept[i])
  {
    if rows == [] then []
    else
      var last := rows[|rows| - 1];
      KeptUserRows(rows[..|rows| - 1]) + (if KeepUserRow(last) then [last] else [])
  }

  /** The filter drops nothing it should keep: a kept row appears as often as
      in the input, duplicates included, and a dropped row not at all. */
  lemma {:induction false} KeptUserRowsCounts(rows: seq<UserRow>)
    ensures forall r :: multiset(KeptUserRows(rows))[r] == if KeepUserRow(r) then multiset(rows)[r] else 0
    decreases |rows|
  {
    if rows != [] {
      var last := rows[|rows| - 1];
      assert rows == rows[..|rows| - 1] + [last];
      KeptUserRowsCounts(rows[..|rows| - 1]);
    }
  }

  /** A row is kept iff it is in the input and passes the test; the filter
      adds nothing. */
  lemma KeptUserRowsMembers(rows: seq<UserRow>)
    ensures forall r :: r in KeptUserRows(rows) <==> r in rows && KeepUserRow(r)
  {
    KeptUserRowsCounts(rows);
    forall r
      ensures r in KeptUserRows(rows) <==> r in rows && KeepUserRow(r)
    {
      assert r in KeptUserRows(rows) <==> r in multiset(KeptUserRows(rows));
      assert r in rows <==> r in multiset(rows);
    }
  }

  /** The filter works row by row and keeps the order: filtering a
      concatenation is filtering each part. */
  lemma {:induction false} KeptUserRowsAppend(a: seq<UserRow>, b: seq<UserRow>)
    ensures KeptUserRows(a + b) == KeptUserRows(a) + KeptUserRows(b)
    decreases |b|
  {
    if b == [] {
      assert a + b == a;
    } else {
      var b', last := b[..|b| - 1], b[|b| - 1];
      var tail := if KeepUserRow(last) then [last] else [];
      var ab := a + b;
      assert ab[..|ab| - 1] == a + b' && ab[|ab| - 1] == last;
      assert KeptUserRows(ab) == KeptUserRows(a + b') + tail;
      assert KeptUserRows(b) == KeptUserRows(b') + tail;
      KeptUserRowsAppend(a, b');
      var ka, kb := KeptUserRows(a), KeptUserRows(b');
      assert (ka + kb) + tail == ka + (kb + tail);
    }
  }

  /** The `.map(...)` step: a missing id, role or timestamp gets its default.
      `freshId` is the `Date.now() + Math.random()` string for this row. */
  function RowToUser(row: UserRow, freshId: string, now: string): User {
    User(if row.id != "" then row.id else freshId,
         row.username,
         row.password,
         if row.role != "" then row.role else "user",
         if row.createdAt != "" then row.createdAt else now)
  }

  /** The users an import adds, in row order; `freshIds(i)` is the id that
      would be generated for the i-th kept row. */
  function ImportedUsers(rows: seq<UserRow>, freshIds: nat -> string, now: string): (us: seq<User>)
    ensures |us| == |KeptUserRows(rows)|
    ensures forall i :: 0 <= i < |us| ==> us[i].username != "" && us[i].password != ""
    ensures forall i :: 0 <= i < |us| ==>
              var row := KeptUserRows(rows)[i];
              us[i].username == row.username && us[i].password == row.password
              && us[i].role == (if row.role == "" then "user" else row.role)
    ensures forall i :: 0 <= i < |us| ==>
              var row := KeptUserRows(rows)[i];
              us[i].id == (if row.id != "" then row.id else freshIds(i))
              && us[i].createdAt == (if row.createdAt != "" then row.createdAt else now)
  {
    var kept := KeptUserRows(rows);
    assert forall i :: 0 <= i < |kept| ==> kept[i].username != "" && kept[i].password != "";
    var us := seq(|kept|, i requires 0 <= i < |kept| => RowToUser(kept[i], freshIds(i), now));
    assert forall i :: 0 <= i < |us| ==> us[i] == RowToUser(kept[i], freshIds(i), now);
    us
  }

  /** The merge, save and result of `importUsersFromCSV` after parsing. */
  method ImportUsers(st: LocalStorage, rows: seq<UserRow>, freshIds: nat -> string, now: string, loadedAt: string)
    returns (all: seq<User>)
    modifies st
    ensures all == LoadedUsers(old(st.items), loadedAt) + ImportedUsers(rows, freshIds, now)
    ensures |all| == |LoadedUsers(old(st.items), loadedAt)| + |KeptUserRows(rows)|
    ensures st.items == SavedUsers(old(st.items), all)
  {
    var imported := ImportedUsers(rows, freshIds, now);
    var existing := LoadUsers(st, loadedAt);
    all := existing + imported;
    SaveUsers(st, all);
  }

  /** The import does not de-duplicate: importing "Saad" over the defaults gives
      two accounts with that name. */
  lemma ImportCanDuplicateUsernames(loadedAt: string, now: string, freshIds: nat -> string)
    ensures !UniqueUsernames(LoadedUsers(map[], loadedAt)
                             + ImportedUsers([UserRow("", "Saad", "x", "", "")], freshIds, now))
  {
    var defaults := LoadedUsers(map[], loadedAt);
    var imported := ImportedUsers([UserRow("", "Saad", "x", "", "")], freshIds, now);
    DefaultsWhenEmpty(loadedAt);
    ImportedSaad(freshIds, now);
    var all := defaults + imported;
    assert all[0].username == defaults[0].username;
    assert all[2].username == imported[0].username;
  }

  lemma DefaultsWhenEmpty(loadedAt: string)
    ensures var d := LoadedUsers(map[], loadedAt);
            |d| == 2 && d[0].username == "Saad"
  {
    assert ReadUsers(map[]).Absent?;
  }

  lemma ImportedSaad(freshIds: nat -> string, now: string)
    ensures var us := ImportedUsers([UserRow("", "Saad", "x", "", "")], freshIds, now);
            |us| == 1 && us[0].username == "Saad"
  {
    var rows := [UserRow("", "Saad", "x", "", "")];
    assert rows[..0] == [];
    assert KeptUserRows(rows[..0]) == [];
    assert KeptUserRows(rows) == rows;
  }

  /** `loadUserTransactions(userId)`. */
  function LoadUserTransactions(st: LocalStorage, userId: string): (ts: seq<Transaction>)
    reads st
    ensures ReadTransactions(st.items, UserTransactionsKey(userId)).Parsed? ==>
              ts == ReadTransactions(st.items, UserTransactionsKey(userId)).value
    ensures !ReadTransactions(st.items, UserTransactionsKey(userId)).Parsed? ==> ts == []
  {
    TransactionsUnder(st.items, userId)
  }

  /** The list stored for a user, or `[]`. */
  function TransactionsUnder(store: Store, userId: string): seq<Transaction> {
    match ReadTransactions(store, UserTransactionsKey(userId))
    case Parsed(ts) => ts
    case _ => []
  }

  /** The store after `saveUserTransactions(userId, ts)`. */
  function SavedUserTransactions(store: Store, userId: string, ts: seq<Transaction>): Store {
    store[UserTransactionsKey(userId) := Json(TransactionList(ts))]
  }

  /** `saveUserTransactions(userId, transactions)`. */
  method SaveUserTransactions(st: LocalStorage, userId: string, transactions: seq<Transaction>)
    modifies st
    ensures st.items == SavedUserTransactions(old(st.items), userId, transactions)
  {
    st.SetItem(UserTransactionsKey(userId), TransactionList(transactions));
  }

  /** What was saved for a user is what is loaded for them. */
  lemma UserTransactionsRoundTrip(store: Store, userId: string, ts: seq<Transaction>)
    ensures TransactionsUnder(SavedUserTransactions(store, userId, ts), userId) == ts
  {
  }

  /** Saving for one user changes nothing another user loads, nor the users
      list, the session or the shared transaction list. */
  lemma UserTransactionsIsolated(store: Store, a: string, b: string, ts: seq<Transaction>, loadedAt: string)
    requires a != b
    ensures TransactionsUnder(SavedUserTransactions(store, a, ts), b) == TransactionsUnder(store, b)
    ensures LoadedUsers(SavedUserTransactions(store, a, ts), loadedAt) == LoadedUsers(store, loadedAt)
    ensures ReadSession(SavedUserTransactions(store, a, ts)) == ReadSession(store)
    ensures ReadTransactions(SavedUserTransactions(store, a, ts), TransactionsKey)
            == ReadTransactions(store, TransactionsKey)
  {
    UserTransactionsKeyIsolated(a, b);
  }
}
