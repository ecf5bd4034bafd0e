/**
 * The account store of the page script (JS/script.js:1-25, 116-201, 457-481, 1294-1336): the
 * globals `users`, `currentUser` and `isLoggedIn` and the `localStorage` keys the script writes.
 * Storage holds tagged values in place of JSON text: `JSON.stringify` followed by
 * `JSON.parse` gives back the same value, which the tags express directly.
 */
module Accounts {
  import opened Wrappers
  import opened Text

  /** Everything the script keeps about a user except the password: what `currentUser` holds. */
  datatype Profile = Profile(
    id: int,
    firstName: string,
    lastName: Option<string>,
    username: string,
    email: string,
    birthDate: string,
    newsletter: bool,
    createdAt: string,
    level: int,
    gamesPlayed: int,
    totalTime: string,
    achievements: seq<string>,
    favorites: seq<string>,
    recentGames: seq<string>)

  /** An entry of `users`. */
  datatype User = User(profile: Profile, password: string)

  /** The `userData` the registration form hands to `performRegister`. */
  datatype RegisterData = RegisterData(
    firstName: string,
    lastName: Option<string>,
    username: string,
    email: string,
    password: string,
    birthDate: string,
    newsletter: Option<bool>)

  /** A stored value: the JSON the script writes under its keys, or some other page's text. */
  datatype Stored = Flag(b: bool) | UsersJson(users: seq<User>) | UserJson(profile: Profile) | Other(text: string)

  const USERS_KEY: string := "pixelhive_users"
  const LOGGED_IN_KEY: string := "pixelhive_logged_in"
  const CURRENT_USER_KEY: string := "pixelhive_current_user"
  const REMEMBER_ME_KEY: string := "pixelhive_remember_me"

  /** Each of the script's keys, when present, holds the kind of value the script writes there. */
  predicate WellFormedStorage(st: map<string, Stored>) {
    && (USERS_KEY in st ==> st[USERS_KEY].UsersJson?)
    && (LOGGED_IN_KEY in st ==> st[LOGGED_IN_KEY].Flag?)
    && (CURRENT_USER_KEY in st ==> st[CURRENT_USER_KEY].UserJson?)
    && (REMEMBER_ME_KEY in st ==> st[REMEMBER_ME_KEY].Flag?)
  }

  /** `JSON.parse(localStorage.getItem('pixelhive_users') || '[]')`. */
  function StoredUsers(st: map<string, Stored>): seq<User> {
    if USERS_KEY in st && st[USERS_KEY].UsersJson? then st[USERS_KEY].users else []
  }

  /** `JSON.parse(localStorage.getItem('pixelhive_logged_in') || 'false')`. */
  function StoredLoggedIn(st: map<string, Stored>): bool {
    LOGGED_IN_KEY in st && st[LOGGED_IN_KEY].Flag? && st[LOGGED_IN_KEY].b
  }

  /** The profile saved under `pixelhive_current_user`, if any. */
  function StoredCurrentUser(st: map<string, Stored>): Option<Profile> {
    if CURRENT_USER_KEY in st && st[CURRENT_USER_KEY].UserJson? then Some(st[CURRENT_USER_KEY].profile) else None
  }

  datatype AuthError = UserNotFound | WrongPassword | UserAlreadyExists

  /** The `Error` message thrown for each failure. */
  function AuthMessage(e: AuthError): string {
    match e
    case UserNotFound => "Usuário não encontrado"
    case WrongPassword => "Senha incorreta"
    case UserAlreadyExists => "Usuário já existe"
  }

  /** The `find` test of `performLogin`: email or username equal to the identifier, ignoring case. */
  predicate Identifies(u: User, identifier: string) {
    Lower(u.profile.email) == Lower(identifier) || Lower(u.profile.username) == Lower(identifier)
  }

  /** `users.find(...)` from position `from` on: the index of the first user identified, or -1. */
  function FindUserFrom(users: seq<User>, identifier: string, from: nat): (k: int)
    requires from <= |users|
    ensures k == -1 || from <= k < |users|
    ensures k >= 0 ==> Identifies(users[k], identifier)
    ensures forall j :: from <= j < (if k < 0 then |users| else k) ==> !Identifies(users[j], identifier)
    decreases |users| - from
  {
    if from == |users| then -1
    else if Identifies(users[from], identifier) then from
    else FindUserFrom(users, identifier, from + 1)
  }

  function FindUser(users: seq<User>, identifier: string): (k: int)
    ensures -1 <= k < |users|
    ensures k >= 0 ==> Identifies(users[k], identifier) && forall j :: 0 <= j < k ==> !Identifies(users[j], identifier)
    ensures k == -1 <==> forall j :: 0 <= j < |users| ==> !Identifies(users[j], identifier)
  {
    FindUserFrom(users, identifier, 0)
  }

  /** The decision of `performLogin` (JS/script.js:116-128): the first user identified must hold the password. */
  function LoginResult(users: seq<User>, identifier: string, password: string): Result<Profile, AuthError>
  {
    var k := FindUser(users, identifier);
    if k < 0 then Failure(UserNotFound)
    else if users[k].password != password then Failure(WrongPassword)
    else Success(users[k].profile)
  }

  /**
   * Login succeeds exactly when the first user the identifier names holds the given password,
   * and then yields that user's profile; "wrong password" exactly when the first user named holds
   * another password, whatever later users hold; "not found" exactly when nobody is named.
   */
  lemma LoginResultMeaning(users: seq<User>, identifier: string, password: string)
    ensures var r := LoginResult(users, identifier, password);
      && (r == Failure(UserNotFound) <==> forall j :: 0 <= j < |users| ==> !Identifies(users[j], identifier))
      && (r.Success? <==>
            exists k :: 0 <= k < |users| && Identifies(users[k], identifier) && users[k].password == password
              && (forall j :: 0 <= j < k ==> !Identifies(users[j], identifier)) && r.value == users[k].profile)
      && (r == Failure(WrongPassword) <==>
            exists k :: 0 <= k < |users| && Identifies(users[k], identifier) && users[k].password != password
              && forall j :: 0 <= j < k ==> !Identifies(users[j], identifier))
  {
    var r := LoginResult(users, identifier, password);
    var k := FindUser(users, identifier);
    if r.Success? {
      assert 0 <= k < |users| && users[k].password == password;
    }
    if exists k' :: 0 <= k' < |users| && Identifies(users[k'], identifier) && users[k'].password == password
              && (forall j :: 0 <= j < k' ==> !Identifies(users[j], identifier)) {
      var k' :| 0 <= k' < |users| && Identifies(users[k'], identifier) && users[k'].password == password
              && (forall j :: 0 <= j < k' ==> !Identifies(users[j], identifier));
      assert k == k';
    }
    if exists k' :: 0 <= k' < |users| && Identifies(users[k'], identifier) && users[k'].password != password
              && (forall j :: 0 <= j < k' ==> !Identifies(users[j], identifier)) {
      var k' :| 0 <= k' < |users| && Identifies(users[k'], identifier) && users[k'].password != password
              && (forall j :: 0 <= j < k' ==> !Identifies(users[j], identifier));
      assert k == k';
    }
  }

  /** The `some` test of `performRegister`: the same email or the same username, ignoring case. */
  predicate Clashes(u: User, data: RegisterData) {
    Lower(u.profile.email) == Lower(data.email) || Lower(u.profile.username) == Lower(data.username)
  }

  /** `users.some(...)` in `performRegister`. */
  function AnyClash(users: seq<User>, data: RegisterData): (b: bool)
    ensures b <==> exists i :: 0 <= i < |users| && Clashes(users[i], data)
  {
    if users == [] then false
    else Clashes(users[0], data) || AnyClash(users[1..], data)
  }

  const FIRST_ACHIEVEMENT: string := "first_registration"

  /** The user `performRegister` appends, with `Date.now()` and the ISO date as parameters. */
  function NewUser(data: RegisterData, now: int, createdAt: string): (u: User)
    ensures u.profile.level == 1 && u.profile.gamesPlayed == 0 && u.profile.totalTime == "0h"
    ensures u.profile.achievements == [FIRST_ACHIEVEMENT] && u.profile.favorites == [] && u.profile.recentGames == []
    ensures u.profile.newsletter == (data.newsletter == Some(true))
    ensures u.profile.username == data.username && u.profile.email == data.email && u.password == data.password
  {
    User(
      Profile(now, data.firstName, data.lastName, data.username, data.email, data.birthDate,
              data.newsletter.GetOr(false), createdAt, 1, 0, "0h", [FIRST_ACHIEVEMENT], [], []),
      data.password)
  }

  /** No two users share an email or a username, ignoring case. */
  ghost predicate NoDuplicateAccounts(users: seq<User>) {
    forall i, j :: 0 <= i < j < |users| ==>
      Lower(users[i].profile.email) != Lower(users[j].profile.email)
      && Lower(users[i].profile.username) != Lower(users[j].profile.username)
  }

  /** Registration keeps accounts distinct: a clash is refused, anything else is new in both fields. */
  lemma RegisterKeepsAccountsDistinct(users: seq<User>, data: RegisterData, now: int, createdAt: string)
    requires NoDuplicateAccounts(users) && !AnyClash(users, data)
    ensures NoDuplicateAccounts(users + [NewUser(data, now, createdAt)])
  {
    var us := users + [NewUser(data, now, createdAt)];
    forall i, j | 0 <= i < j < |us|
      ensures Lower(us[i].profile.email) != Lower(us[j].profile.email)
      ensures Lower(us[i].profile.username) != Lower(us[j].profile.username)
    {
      if j == |users| {
        assert !Clashes(users[i], data);
      }
    }
  }

  /**
   * Register then log in: the new account is found by its email, and by its username, with its
   * password, as long as no older account has that text in its other field.
   */
  lemma LoginAfterRegister(users: seq<User>, data: RegisterData, now: int, createdAt: string)
    requires !AnyClash(users, data)
    ensures (forall u :: u in users ==> Lower(u.profile.username) != Lower(data.email)) ==>
      LoginResult(users + [NewUser(data, now, createdAt)], data.email, data.password) == Success(NewUser(data, now, createdAt).profile)
    ensures (forall u :: u in users ==> Lower(u.profile.email) != Lower(data.username)) ==>
      LoginResult(users + [NewUser(data, now, createdAt)], data.username, data.password) == Success(NewUser(data, now, createdAt).profile)
  {
    var us := users + [NewUser(data, now, createdAt)];
    assert Identifies(us[|users|], data.email) && Identifies(us[|users|], data.username);
    forall j | 0 <= j < |users|
      ensures !Clashes(us[j], data)
    {
      assert us[j] == users[j];
    }
    if forall u :: u in users ==> Lower(u.profile.username) != Lower(data.email) {
      forall j | 0 <= j < |users| ensures !Identifies(us[j], data.email) {
        assert us[j] == users[j] && users[j] in users;
      }
    }
    if forall u :: u in users ==> Lower(u.profile.email) != Lower(data.username) {
      forall j | 0 <= j < |users| ensures !Identifies(us[j], data.username) {
        assert us[j] == users[j] && users[j] in users;
      }
    }
  }

  /**
   * Only the first user named counts: when it has another password, login fails with "wrong
   * password" even though a later user would accept the same identifier and password.
   */
  lemma WrongPasswordShadowsLaterMatch(a: Profile, b: Profile)
    requires a.username == "bob" && b.email == "BOB"
    ensures LoginResult([User(a, "1"), User(b, "2")], "Bob", "2") == Failure(WrongPassword)
    ensures LoginResult([User(b, "2")], "Bob", "2") == Success(b)
  {
    assert Lower("bob") == Lower("Bob") == Lower("BOB") == "bob";
  }

  /** `users.findIndex(u => u.id === id)`: the first position with that id, or -1. */
  function IndexOfId(users: seq<User>, id: int): (k: int)
    ensures -1 <= k < |users|
    ensures k >= 0 ==> users[k].profile.id == id && forall j :: 0 <= j < k ==> users[j].profile.id != id
    ensures k == -1 ==> forall j :: 0 <= j < |users| ==> users[j].profile.id != id
  {
    if users == [] then -1
    else if users[0].profile.id == id then 0
    else
      var k := IndexOfId(users[1..], id);
      if k < 0 then -1 else k + 1
  }

  /** `saveProfile`'s write into `users`: the first entry with the id gets the new username and email. */
  function RenameFirstWithId(users: seq<User>, id: int, username: string, email: string): (r: seq<User>)
    ensures |r| == |users|
    ensures forall j :: 0 <= j < |users| && j != IndexOfId(users, id) ==> r[j] == users[j]
    ensures IndexOfId(users, id) >= 0 ==>
      var k := IndexOfId(users, id);
      r[k] == users[k].(profile := users[k].profile.(username := username, email := email))
  {
    var k := IndexOfId(users, id);
    if k < 0 then users
    else users[k := users[k].(profile := users[k].profile.(username := username, email := email))]
  }

  /** The two accounts `initializeDemoUsers` seeds (JS/script.js:1296-1331). */
  const DEMO_USERS: seq<User> := [
    User(Profile(1, "João", Some("Silva"), "joao_gamer", "joao@exemplo.com", "1995-05-15", true,
                 "2024-01-01T00:00:00.000Z", 25, 89, "156h", ["first_game", "marathon_gamer"], [], []),
         "123456"),
    User(Profile(2, "Maria", Some("Santos"), "maria_player", "maria@exemplo.com", "1992-08-22", false,
                 "2024-01-15T00:00:00.000Z", 18, 67, "89h", ["first_game"], [], []),
         "senha123")
  ]

  /** The demo accounts are distinct. */
  lemma DemoUsersDistinct()
    ensures NoDuplicateAccounts(DEMO_USERS)
  {
    assert Lower(DEMO_USERS[0].profile.email)[0] == 'j' && Lower(DEMO_USERS[1].profile.email)[0] == 'm';
    assert Lower(DEMO_USERS[0].profile.username)[0] == 'j' && Lower(DEMO_USERS[1].profile.username)[0] == 'm';
  }

  /** `saveProfile` checks no clash: renaming Maria to "JOAO_GAMER" leaves two accounts with one username. */
  lemma SaveProfileCanDuplicate()
    ensures !NoDuplicateAccounts(RenameFirstWithId(DEMO_USERS, 2, "JOAO_GAMER", "maria@exemplo.com"))
  {
    var r := RenameFirstWithId(DEMO_USERS, 2, "JOAO_GAMER", "maria@exemplo.com");
    assert IndexOfId(DEMO_USERS, 2) == 1;
    assert r[1].profile.username == "JOAO_GAMER" && r[0] == DEMO_USERS[0];
    assert Lower("JOAO_GAMER") == "joao_gamer" == Lower("joao_gamer");
  }

  class AccountStore {
    var users: seq<User>
    var currentUser: Option<Profile>
    var isLoggedIn: bool
    var storage: map<string, Stored>

    /** The saved session, when there is one in memory, is the one held in storage. */
    ghost predicate SessionSaved()
      reads this
    {
      currentUser.Some? ==> StoredCurrentUser(storage) == currentUser
    }

    /** Memory agrees with storage: the users list, the logged-in flag and the session. */
    ghost predicate Synced()
      reads this
    {
      && WellFormedStorage(storage)
      && users == StoredUsers(storage)
      && isLoggedIn == StoredLoggedIn(storage)
      && SessionSaved()
    }

    /** The globals at page load (JS/script.js:2-4), over the browser's storage. */
    constructor (initial: map<string, Stored>)
      ensures users == [] && currentUser == None && !isLoggedIn && storage == initial
      ensures SessionSaved()
    {
      users := [];
      currentUser := None;
      isLoggedIn := false;
      storage := initial;
    }

    /** `initializeApp` without its UI calls (JS/script.js:14-25). */
    method InitializeApp()
      requires WellFormedStorage(storage)
      modifies this
      ensures storage == old(storage)
      ensures users == StoredUsers(storage) && isLoggedIn == StoredLoggedIn(storage)
      ensures currentUser == if isLoggedIn && StoredCurrentUser(storage).Some? then StoredCurrentUser(storage) else old(currentUser)
      ensures old(SessionSaved()) ==> Synced()
    {
      users := StoredUsers(storage);
      isLoggedIn := StoredLoggedIn(storage);
      var saved := StoredCurrentUser(storage);
      if isLoggedIn && saved.Some? {
        currentUser := saved;
      }
    }

    /** `initializeDemoUsers`: seed the two demo accounts when there is no user at all. */
    method InitializeDemoUsers()
      modifies this
      ensures old(users) == [] ==> users == DEMO_USERS && storage == old(storage)[USERS_KEY := UsersJson(DEMO_USERS)]
      ensures old(users) != [] ==> users == old(users) && storage == old(storage)
      ensures currentUser == old(currentUser) && isLoggedIn == old(isLoggedIn)
      ensures old(Synced()) ==> Synced()
    {
      if |users| == 0 {
        users := DEMO_USERS;
        storage := storage[USERS_KEY := UsersJson(users)];
      }
    }

    /** `performLogin`: a failure throws before any state changes. */
    method PerformLogin(identifier: string, password: string, rememberMe: bool) returns (r: Result<Profile, AuthError>)
      modifies this
      ensures r == LoginResult(old(users), identifier, password)
      ensures users == old(users)
      ensures r.Failure? ==> currentUser == old(currentUser) && isLoggedIn == old(isLoggedIn) && storage == old(storage)
      ensures r.Success? ==>
        && currentUser == Some(r.value) && isLoggedIn
        && storage == old(storage)[LOGGED_IN_KEY := Flag(true)][CURRENT_USER_KEY := UserJson(r.value)]
                       + (if rememberMe then map[REMEMBER_ME_KEY := Flag(true)] else map[])
      ensures old(Synced()) ==> Synced()
    {
      var k := FindUser(users, identifier);
      if k < 0 {
        return Failure(UserNotFound);
      }
      if users[k].password != password {
        return Failure(WrongPassword);
      }
      var profile := users[k].profile;
      currentUser := Some(profile);
      isLoggedIn := true;
      storage := storage[LOGGED_IN_KEY := Flag(true)][CURRENT_USER_KEY := UserJson(profile)];
      if rememberMe {
        storage := storage[REMEMBER_ME_KEY := Flag(true)];
      }
      return Success(profile);
    }

    /** `performRegister`: a clash throws with nothing changed; otherwise append and log in. */
    method PerformRegister(data: RegisterData, now: int, createdAt: string) returns (r: Result<Profile, AuthError>)
      modifies this
      ensures AnyClash(old(users), data) ==>
        r == Failure(UserAlreadyExists) && users == old(users) && currentUser == old(currentUser)
        && isLoggedIn == old(isLoggedIn) && storage == old(storage)
      ensures !AnyClash(old(users), data) ==>
        var u := NewUser(data, now, createdAt);
        && users == old(users) + [u]
        && r == Success(u.profile) && currentUser == Some(u.profile) && isLoggedIn
        && storage == old(storage)[USERS_KEY := UsersJson(users)][LOGGED_IN_KEY := Flag(true)][CURRENT_USER_KEY := UserJson(u.profile)]
      ensures old(NoDuplicateAccounts(users)) ==> NoDuplicateAccounts(users)
      ensures old(Synced()) ==> Synced()
    {
      if AnyClash(users, data) {
        return Failure(UserAlreadyExists);
      }
      var u := NewUser(data, now, createdAt);
      if NoDuplicateAccounts(users) {
        RegisterKeepsAccountsDistinct(users, data, now, createdAt);
      }
      users := users + [u];
      storage := storage[USERS_KEY := UsersJson(users)];
      currentUser := Some(u.profile);
      isLoggedIn := true;
      storage := storage[LOGGED_IN_KEY := Flag(true)][CURRENT_USER_KEY := UserJson(u.profile)];
      return Success(u.profile);
    }

    /** `logout` without its UI calls (JS/script.js:191-201). */
    method Logout()
      modifies this
      ensures currentUser == None && !isLoggedIn && users == old(users)
      ensures storage == (old(storage) - {CURRENT_USER_KEY, REMEMBER_ME_KEY})[LOGGED_IN_KEY := Flag(false)]
      ensures old(Synced()) ==> Synced()
    {
      currentUser := None;
      isLoggedIn := false;
      storage := storage[LOGGED_IN_KEY := Flag(false)];
      storage := storage - {CURRENT_USER_KEY};
      storage := storage - {REMEMBER_ME_KEY};
    }

    /**
     * `saveProfile` with the two inputs' values (None for a missing input): with a session
     * and both values non-empty, rename the session and the first user with its id.
     */
    method SaveProfile(username: Option<string>, email: Option<string>)
      modifies this
      ensures isLoggedIn == old(isLoggedIn)
      ensures old(currentUser).None? || username.None? || email.None? || username == Some("") || email == Some("") ==>
        users == old(users) && currentUser == old(currentUser) && storage == old(storage)
      ensures old(currentUser).Some? && username.Some? && email.Some? && username.value != "" && email.value != "" ==>
        var p := old(currentUser).value.(username := username.value, email := email.value);
        var k := IndexOfId(old(users), p.id);
        && currentUser == Some(p)
        && users == RenameFirstWithId(old(users), p.id, username.value, email.value)
        && storage == (if k >= 0 then old(storage)[CURRENT_USER_KEY := UserJson(p)][USERS_KEY := UsersJson(users)]
                       else old(storage)[CURRENT_USER_KEY := UserJson(p)])
      ensures old(Synced()) ==> Synced()
    {
      if currentUser.None? {
        return;
      }
      if username.Some? && email.Some? && username.value != "" && email.value != "" {
        var p := currentUser.value.(username := username.value, email := email.value);
        currentUser := Some(p);
        storage := storage[CURRENT_USER_KEY := UserJson(p)];
        var k := IndexOfId(users, p.id);
        if k != -1 {
          users := RenameFirstWithId(users, p.id, username.value, email.value);
          storage := storage[USERS_KEY := UsersJson(users)];
        }
      }
    }
  }

  /** The `DOMContentLoaded` handler's state work: `initializeApp`, then `initializeDemoUsers`. */
  method PageLoad(initial: map<string, Stored>) returns (store: AccountStore)
    requires WellFormedStorage(initial)
    ensures fresh(store)
    ensures store.users == if StoredUsers(initial) == [] then DEMO_USERS else StoredUsers(initial)
    ensures store.isLoggedIn == StoredLoggedIn(initial)
    ensures store.isLoggedIn && StoredCurrentUser(initial).Some? ==> store.currentUser == StoredCurrentUser(initial)
    ensures !(store.isLoggedIn && StoredCurrentUser(initial).Some?) ==> store.currentUser == None
    ensures store.Synced()
  {
    store := new AccountStore(initial);
    store.InitializeApp();
    ghost var afterInit := store.storage;
    store.InitializeDemoUsers();
    assert StoredLoggedIn(store.storage) == StoredLoggedIn(afterInit);
  }
}
