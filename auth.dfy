/**
 * The session store of `src/contexts/AuthContext.tsx`: the provider holds at
 * most one signed-in user and mirrors it into `localStorage` under the key
 * "user". Each operation is specified twice over: by a function on a
 * `Session` value (the user together with the store's entries), about which
 * the lemmas below are proved, and by a method of `AuthProvider` whose
 * postcondition ties the provider's new state to that function.
 */
module Auth {
  import opened Wrappers
  import Json
  import Browser

  /** `UserRole` (declared identically in AuthContext.tsx and types.ts). */
  datatype Role = USER | MANAGER

  /** The enum's string value, as it appears in JSON. */
  function RoleName(role: Role): string
  {
    match role
    case USER => "USER"
    case MANAGER => "MANAGER"
  }

  /** The role whose string value is `name`, if any. */
  function RoleFromName(name: string): (r: Option<Role>)
    ensures r.Some? ==> RoleName(r.value) == name
  {
    if name == "USER" then Some(USER)
    else if name == "MANAGER" then Some(MANAGER)
    else None
  }

  lemma RoleFromNameOfRoleName(role: Role)
    ensures RoleFromName(RoleName(role)) == Some(role)
  {
  }

  datatype User = User(
    id: string,
    name: string,
    email: string,
    role: Role,
    createdAt: string,
    updatedAt: string,
    token: string)

  /** The object `JSON.stringify` sees: the seven fields in declaration order. */
  function ToObject(u: User): Json.Object
  {
    [("id", u.id), ("name", u.name), ("email", u.email), ("role", RoleName(u.role)),
     ("createdAt", u.createdAt), ("updatedAt", u.updatedAt), ("token", u.token)]
  }

  /** The user an object describes, when it has all seven fields and a known role. */
  function FromObject(o: Json.Object): (r: Option<User>)
    ensures r.Some? ==> Json.Lookup(o, "token") == Some(r.value.token)
    ensures r.Some? ==> Json.Lookup(o, "role") == Some(RoleName(r.value.role))
  {
    var id, name, email := Json.Lookup(o, "id"), Json.Lookup(o, "name"), Json.Lookup(o, "email");
    var role, createdAt := Json.Lookup(o, "role"), Json.Lookup(o, "createdAt");
    var updatedAt, token := Json.Lookup(o, "updatedAt"), Json.Lookup(o, "token");
    if && id.Some? && name.Some? && email.Some? && role.Some? && createdAt.Some?
       && updatedAt.Some? && token.Some? && RoleFromName(role.value).Some?
    then Some(User(id.value, name.value, email.value, RoleFromName(role.value).value,
                   createdAt.value, updatedAt.value, token.value))
    else None
  }

  /** Each field's key occurs once in `ToObject(u)`, so it is looked up to its value. */
  lemma LookupOfToObject(u: User, i: nat)
    requires i < 7
    ensures Json.Lookup(ToObject(u), ToObject(u)[i].0) == Some(ToObject(u)[i].1)
  {
    var o := ToObject(u);
    assert forall j :: 0 <= j < |o| && j != i ==> o[j].0 != o[i].0;
    Json.LookupUnique(o, i);
  }

  lemma FromObjectOfToObject(u: User)
    ensures FromObject(ToObject(u)) == Some(u)
  {
    var o := ToObject(u);
    LookupOfToObject(u, 0);
    LookupOfToObject(u, 1);
    LookupOfToObject(u, 2);
    LookupOfToObject(u, 3);
    LookupOfToObject(u, 4);
    LookupOfToObject(u, 5);
    LookupOfToObject(u, 6);
    RoleFromNameOfRoleName(u.role);
  }

  /** `JSON.stringify(userData)`. */
  function Stringify(u: User): string
  {
    Json.Stringify(ToObject(u))
  }

  /**
   * Why reading the stored record fails: `JSON.parse` throws a SyntaxError,
   * or the text is an object that does not describe a user.
   */
  datatype RestoreError = SyntaxError | NotAUser

  /** `JSON.parse(stored)` read as a user. */
  function ParseUser(stored: string): (r: Result<User, RestoreError>)
    ensures r == Failure(SyntaxError) <==> Json.Parse(stored).None?
    ensures r.Success? ==> Json.Lookup(Json.Parse(stored).value, "token") == Some(r.value.token)
  {
    match Json.Parse(stored)
    case None => Failure(SyntaxError)
    case Some(o) =>
      match FromObject(o)
      case None => Failure(NotAUser)
      case Some(u) => Success(u)
  }

  /** Round trip: the stored record of a user parses back to that user. */
  lemma ParseUserOfStringify(u: User)
    ensures ParseUser(Stringify(u)) == Success(u)
  {
    Json.ParseOfStringify(ToObject(u));
    FromObjectOfToObject(u);
  }

  /** The key under which the session is mirrored. */
  const UserKey: string := "user"

  /** The provider's `user` together with the entries of `localStorage`. */
  datatype Session = Session(user: Option<User>, store: map<string, string>)

  /**
   * The store mirrors the session: it holds a record exactly when there is a
   * user, and that record parses back to the user.
   */
  predicate Synced(s: Session)
  {
    && (UserKey in s.store <==> s.user.Some?)
    && (s.user.Some? ==> ParseUser(s.store[UserKey]) == Success(s.user.value))
  }

  /** No key other than "user" differs between the two stores. */
  predicate OthersUnchanged(before: map<string, string>, after: map<string, string>)
  {
    after - {UserKey} == before - {UserKey}
  }

  /** The effect of `login`, `register` and `updateUser` with `u`. */
  function AfterLogin(s: Session, u: User): (r: Session)
    ensures r.user == Some(u) && UserKey in r.store && r.store[UserKey] == Stringify(u)
    ensures Synced(r)
    ensures OthersUnchanged(s.store, r.store)
  {
    ParseUserOfStringify(u);
    Session(Some(u), s.store[UserKey := Stringify(u)])
  }

  /** The effect of `logout`. */
  function AfterLogout(s: Session): (r: Session)
    ensures r.user == None && UserKey !in r.store
    ensures Synced(r)
    ensures OthersUnchanged(s.store, r.store)
  {
    Session(None, s.store - {UserKey})
  }

  /**
   * The effect of the start-up restore: a non-empty record is parsed and
   * becomes the user; a missing or empty one leaves the session as it is;
   * a record that does not parse makes the effect throw.
   */
  function AfterRestore(s: Session): (r: Result<Session, RestoreError>)
    ensures r.Success? ==> r.value.store == s.store
    ensures r.Success? && r.value.user != s.user ==>
              r.value.user.Some? && UserKey in s.store && ParseUser(s.store[UserKey]) == Success(r.value.user.value)
    ensures r.Failure? ==> UserKey in s.store && s.store[UserKey] != ""
  {
    if UserKey !in s.store || s.store[UserKey] == "" then Success(s)
    else
      match ParseUser(s.store[UserKey])
      case Failure(e) => Failure(e)
      case Success(u) => Success(s.(user := Some(u)))
  }

  /** Signing out twice leaves the same session as signing out once. */
  lemma LogoutIdempotent(s: Session)
    ensures AfterLogout(AfterLogout(s)) == AfterLogout(s)
  {
  }

  /** Restoring a session the store mirrors gives back exactly that session. */
  lemma RestoreOfSynced(s: Session)
    requires Synced(s)
    ensures AfterRestore(Session(None, s.store)) == Success(s)
  {
    if s.user.Some? {
      assert s.store[UserKey] != "" by {
        assert ParseUser(s.store[UserKey]).Success?;
      }
    }
  }

  /**
   * Round trip: after `login(u)`, a fresh provider (no user yet) restoring
   * from the same store holds `u`.
   */
  lemma RestoreAfterLogin(s: Session, u: User)
    ensures AfterRestore(Session(None, AfterLogin(s, u).store)) == Success(AfterLogin(s, u))
    ensures AfterRestore(Session(None, AfterLogin(s, u).store)).value.user == Some(u)
  {
    RestoreOfSynced(AfterLogin(s, u));
  }

  /** With nothing stored, a fresh provider stays signed out. */
  lemma RestoreOfEmptyStore(store: map<string, string>)
    requires UserKey !in store || store[UserKey] == ""
    ensures AfterRestore(Session(None, store)) == Success(Session(None, store))
  {
  }

  /** A record the codec cannot read is not silently dropped: restoring fails with a SyntaxError. */
  lemma RestoreOfMalformedRecord(store: map<string, string>)
    requires UserKey in store && store[UserKey] != "" && Json.Parse(store[UserKey]).None?
    ensures AfterRestore(Session(None, store)) == Failure(SyntaxError)
  {
  }

  /** The calls a component can make on the provider. */
  datatype Op = LoginOp(User) | RegisterOp(User) | UpdateUserOp(User) | LogoutOp

  function Apply(s: Session, op: Op): Session
  {
    match op
    case LoginOp(u) => AfterLogin(s, u)
    case RegisterOp(u) => AfterLogin(s, u)
    case UpdateUserOp(u) => AfterLogin(s, u)
    case LogoutOp => AfterLogout(s)
  }

  /** The session after the calls `ops`, in order. */
  function Run(s: Session, ops: seq<Op>): Session
    decreases |ops|
  {
    if ops == [] then s else Run(Apply(s, ops[0]), ops[1..])
  }

  /**
   * After any non-empty sequence of calls the store mirrors the session, and
   * no key other than "user" has been written or removed.
   */
  lemma {:induction false} RunKeepsSynced(s: Session, ops: seq<Op>)
    requires ops != []
    ensures Synced(Run(s, ops))
    ensures OthersUnchanged(s.store, Run(s, ops).store)
    decreases |ops|
  {
    var s' := Apply(s, ops[0]);
    if |ops| > 1 {
      RunKeepsSynced(s', ops[1..]);
    }
  }

  /** The current session, some start-up restore aside. */
  class AuthProvider {
    var user: Option<User>
    const storage: Browser.LocalStorage

    function State(): Session
      reads this, storage
    {
      Session(user, storage.entries)
    }

    /** A freshly mounted provider holds no user, whatever the store holds. */
    constructor (storage: Browser.LocalStorage)
      ensures this.storage == storage
      ensures State() == Session(None, storage.entries)
    {
      this.storage := storage;
      user := None;
    }

    /** The mount-time effect that reads back a saved session. */
    method Restore() returns (r: Outcome<RestoreError>)
      modifies this
      ensures match AfterRestore(old(State()))
              case Success(s) => r == Pass && State() == s
              case Failure(e) => r == Fail(e) && State() == old(State())
    {
      var stored := storage.GetItem(UserKey);
      if stored.Some? && stored.value != "" {
        var parsed := ParseUser(stored.value);
        match parsed
        case Success(u) =>
          user := Some(u);
          r := Pass;
        case Failure(e) =>
          r := Fail(e);
      } else {
        r := Pass;
      }
    }

    method Login(userData: User)
      modifies this, storage
      ensures State() == AfterLogin(old(State()), userData)
    {
      user := Some(userData);
      storage.SetItem(UserKey, Stringify(userData));
    }

    method Register(userData: User)
      modifies this, storage
      ensures State() == AfterLogin(old(State()), userData)
    {
      user := Some(userData);
      storage.SetItem(UserKey, Stringify(userData));
    }

    method Logout()
      modifies this, storage
      ensures State() == AfterLogout(old(State()))
    {
      user := None;
      storage.RemoveItem(UserKey);
    }

    method UpdateUser(userData: User)
      modifies this, storage
      ensures State() == AfterLogin(old(State()), userData)
    {
      user := Some(userData);
      storage.SetItem(UserKey, Stringify(userData));
    }
  }

  /**
   * A page reload after signing in: a second provider over the same store
   * restores the user the first one signed in.
   */
  method LoginThenReload(storage: Browser.LocalStorage, u: User) returns (reloaded: AuthProvider, r: Outcome<RestoreError>)
    modifies storage
    ensures r == Pass && reloaded.user == Some(u) && reloaded.storage == storage
    ensures Synced(reloaded.State())
  {
    var provider := new AuthProvider(storage);
    provider.Login(u);
    reloaded := new AuthProvider(storage);
    RestoreAfterLogin(Session(None, old(storage.entries)), u);
    r := reloaded.Restore();
  }
}
