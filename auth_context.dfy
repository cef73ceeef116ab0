/** The authentication provider of src/contexts/AuthContext.tsx: the auth
    record, session restore on mount, and `login`, `signup` and `logout`. */
module AuthContext {
  import opened Types
  import opened Storage
  import JsText
  import CsvUtils

  /** The record before the mount effect has run. */
  const InitialState := AuthState(None, false, true)

  const InvalidCredentials := "Invalid username or password"
  const PasswordMismatch := "Passwords do not match"
  const PasswordTooShort := "Password must be at least 6 characters long"
  const UsernameTaken := "Username already exists"

  /** The shape a login, a signup and a logout leave the record in. */
  predicate Settled(s: AuthState) {
    !s.isLoading && (s.isAuthenticated <==> s.user.Some?)
  }

  predicate Matches(u: User, username: string, password: string) {
    u.username == username && u.password == password
  }

  /** The position `users.find(...)` stops at, or -1. */
  function FindIndex(users: seq<User>, username: string, password: string): (k: int)
    ensures -1 <= k < |users|
    ensures k >= 0 <==> exists i :: 0 <= i < |users| && Matches(users[i], username, password)
    ensures k >= 0 ==> Matches(users[k], username, password)
    ensures k >= 0 ==> forall j :: 0 <= j < k ==> !Matches(users[j], username, password)
  {
    if users == [] then -1
    else if Matches(users[0], username, password) then 0
    else
      var k := FindIndex(users[1..], username, password);
      assert forall j :: 1 <= j < |users| ==> users[j] == users[1..][j - 1];
      if k < 0 then -1 else k + 1
  }

  /** Some account already has this name. */
  predicate Taken(users: seq<User>, username: string) {
    exists i :: 0 <= i < |users| && users[i].username == username
  }

  /** The first check `signup` fails, in the order it makes them; `None`
      when all pass. The username is only compared, never measured. */
  function SignupRejection(data: SignupData, users: seq<User>): (e: Option<string>)
    ensures data.password != data.confirmPassword ==> e == Some(PasswordMismatch)
    ensures e == None <==>
              data.password == data.confirmPassword && JsText.Length(data.password) >= 6
              && !Taken(users, data.username)
  {
    if data.password != data.confirmPassword then Some(PasswordMismatch)
    else if JsText.Length(data.password) < 6 then Some(PasswordTooShort)
    else if Taken(users, data.username) then Some(UsernameTaken)
    else None
  }

  /** A name of any length is accepted when it is free, even the empty one. */
  lemma SignupAcceptsAnyFreeUsername(data: SignupData, users: seq<User>)
    requires data.password == data.confirmPassword && |data.password| >= 6
    requires !Taken(users, data.username)
    ensures SignupRejection(data, users) == None
  {
  }

  /** The account `signup` creates; `id` and `createdAt` stand for
      `Date.now()` and `new Date().toISOString()`. */
  function NewUser(data: SignupData, id: string, createdAt: string): User {
    User(id, data.username, data.password, "user", createdAt)
  }

  /** Appending a free name keeps the names unique. */
  lemma {:induction false} SignupKeepsUsernamesUnique(users: seq<User>, u: User)
    requires CsvUtils.UniqueUsernames(users)
    requires !Taken(users, u.username)
    ensures CsvUtils.UniqueUsernames(users + [u])
  {
    var all := users + [u];
    forall i, j | 0 <= i < j < |all| ensures all[i].username != all[j].username {
      if j == |users| {
        assert all[i] == users[i];
      }
    }
  }

  class AuthProvider {
    var state: AuthState
    const storage: LocalStorage
    /** When csvUtils was loaded: the timestamp of the default accounts. */
    const loadedAt: string

    constructor (storage: LocalStorage, loadedAt: string)
      ensures state == InitialState
      ensures this.storage == storage && this.loadedAt == loadedAt
    {
      state := InitialState;
      this.storage := storage;
      this.loadedAt := loadedAt;
    }

    /** The mount effect: pick up a stored session. */
    method RestoreSession()
      modifies this, storage
      ensures !state.isLoading
      ensures ReadSession(old(storage.items)).Parsed? ==>
                state == AuthState(ReadSession(old(storage.items)).value, true, false)
                && storage.items == old(storage.items)
      ensures ReadSession(old(storage.items)).Unparsable? ==>
                state == old(state).(isLoading := false)
                && storage.items == old(storage.items) - {SessionKey}
      ensures ReadSession(old(storage.items)).Absent? ==>
                state == old(state).(isLoading := false) && storage.items == old(storage.items)
    {
      var stored := ReadSession(storage.items);
      match stored
      case Parsed(user) =>
        state := AuthState(user, true, false);
      case Unparsable =>
        storage.RemoveItem(SessionKey);
        state := state.(isLoading := false);
      case Absent =>
        state := state.(isLoading := false);
    }

    /** `login(credentials)`: the first account with exactly this name and
        password. A failure leaves the record alone; the store changes only
        by the defaults `loadUsers` writes when it finds no users list. */
    method Login(username: string, password: string) returns (r: Outcome)
      modifies this, storage
      ensures var users := CsvUtils.LoadedUsers(old(storage.items), loadedAt);
              var loaded := CsvUtils.AfterLoadUsers(old(storage.items), loadedAt);
              var k := FindIndex(users, username, password);
              (k >= 0 ==> r == Success && state == AuthState(Some(users[k]), true, false)
                          && storage.items == loaded[SessionKey := Json(UserRecord(users[k]))])
              && (k < 0 ==> r == Failure(InvalidCredentials) && state == old(state)
                            && storage.items == loaded)
      ensures r.Success? ==> Settled(state)
    {
      var users := CsvUtils.LoadUsers(storage, loadedAt);
      var k := FindIndex(users, username, password);
      if k >= 0 {
        var user := users[k];
        state := AuthState(Some(user), true, false);
        storage.SetItem(SessionKey, UserRecord(user));
        return Success;
      } else {
        return Failure(InvalidCredentials);
      }
    }

    /** `signup(data)`: the two password checks run before the users list is
        read; on success the new account is appended and becomes the session. */
    method Signup(data: SignupData, id: string, createdAt: string) returns (r: Outcome)
      modifies this, storage
      ensures var users := CsvUtils.LoadedUsers(old(storage.items), loadedAt);
              var e := SignupRejection(data, users);
              (e.Some? ==> r == Failure(e.value) && state == old(state))
      ensures (data.password != data.confirmPassword || JsText.Length(data.password) < 6) ==>
                storage.items == old(storage.items)
      ensures var users := CsvUtils.LoadedUsers(old(storage.items), loadedAt);
              var loaded := CsvUtils.AfterLoadUsers(old(storage.items), loadedAt);
              (data.password == data.confirmPassword && JsText.Length(data.password) >= 6
               && Taken(users, data.username)) ==> storage.items == loaded
      ensures var users := CsvUtils.LoadedUsers(old(storage.items), loadedAt);
              var loaded := CsvUtils.AfterLoadUsers(old(storage.items), loadedAt);
              var u := NewUser(data, id, createdAt);
              SignupRejection(data, users) == None ==>
                r == Success && state == AuthState(Some(u), true, false)
                && storage.items == CsvUtils.SavedUsers(loaded, users + [u])[SessionKey := Json(UserRecord(u))]
      ensures r.Success? ==> Settled(state)
    {
      if data.password != data.confirmPassword {
        return Failure(PasswordMismatch);
      }
      if JsText.Length(data.password) < 6 {
        return Failure(PasswordTooShort);
      }
      var users := CsvUtils.LoadUsers(storage, loadedAt);
      if Taken(users, data.username) {
        return Failure(UsernameTaken);
      }
      var u := NewUser(data, id, createdAt);
      CsvUtils.SaveUsers(storage, users + [u]);
      state := AuthState(Some(u), true, false);
      storage.SetItem(SessionKey, UserRecord(u));
      return Success;
    }

    /** `logout()`. */
    method Logout()
      modifies this, storage
      ensures state == AuthState(None, false, false) && Settled(state)
      ensures storage.items == old(storage.items) - {SessionKey}
    {
      state := AuthState(None, false, false);
      storage.RemoveItem(SessionKey);
    }
  }

  /** A signup over a list with unique names leaves it with unique names:
      the users list stored afterwards is the old one plus one free name. */
  lemma SignupStoreKeepsUsernamesUnique(store: Store, loadedAt: string, data: SignupData, id: string, createdAt: string)
    requires CsvUtils.UniqueUsernames(CsvUtils.LoadedUsers(store, loadedAt))
    requires SignupRejection(data, CsvUtils.LoadedUsers(store, loadedAt)) == None
    ensures var users := CsvUtils.LoadedUsers(store, loadedAt);
            var after := CsvUtils.SavedUsers(CsvUtils.AfterLoadUsers(store, loadedAt), users + [NewUser(data, id, createdAt)]);
            CsvUtils.UniqueUsernames(CsvUtils.LoadedUsers(after, loadedAt))
            && |CsvUtils.LoadedUsers(after, loadedAt)| == |users| + 1
            && CsvUtils.LoadedUsers(after, loadedAt)[..|users|] == users
  {
    var users := CsvUtils.LoadedUsers(store, loadedAt);
    var u := NewUser(data, id, createdAt);
    SignupKeepsUsernamesUnique(users, u);
    CsvUtils.LoadAfterSave(CsvUtils.AfterLoadUsers(store, loadedAt), users + [u], loadedAt);
    assert (users + [u])[..|users|] == users;
  }
}
