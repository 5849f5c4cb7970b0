/** The client's session store (src/context/AuthContext.tsx): two pieces of
    state, `isAuthenticated` and `user`, read from the browser's
    `localStorage` when the provider mounts and written back by `login` and
    `logout`, its only mutators. */
module AuthContext {
  import opened Wrappers

  const AuthKey := "isAuthenticated"
  const UserKey := "user"

  /** The browser's `localStorage`: a string-to-string map the page mutates. */
  class LocalStorage {
    var items: map<string, string>

    constructor (items: map<string, string>)
      ensures this.items == items
    {
      this.items := items;
    }

    /** `getItem`: `null` for a missing key. */
    function GetItem(key: string): (v: Option<string>)
      reads this
      ensures v.Some? <==> key in items
      ensures v.Some? ==> v.value == items[key]
    {
      if key in items then Some(items[key]) else None
    }

    method SetItem(key: string, value: string)
      modifies this
      ensures items == old(items)[key := value]
    {
      items := items[key := value];
    }

    method RemoveItem(key: string)
      modifies this
      ensures items == old(items) - {key}
    {
      items := items - {key};
    }
  }

  /** The provider's state as a value. */
  datatype Session = Session(isAuthenticated: bool, user: Option<string>)

  /** The state the provider starts in: the two keys are read independently. */
  function SessionFrom(items: map<string, string>): (s: Session)
    ensures s.isAuthenticated <==> AuthKey in items && items[AuthKey] == "true"
    ensures s.user.Some? <==> UserKey in items
    ensures s.user.Some? ==> s.user.value == items[UserKey]
  {
    Session(AuthKey in items && items[AuthKey] == "true", if UserKey in items then Some(items[UserKey]) else None)
  }

  /** The storage after `login(username)`. */
  function AfterLogin(items: map<string, string>, username: string): map<string, string> {
    items[AuthKey := "true"][UserKey := username]
  }

  /** The storage after `logout()`. */
  function AfterLogout(items: map<string, string>): map<string, string> {
    items - {AuthKey, UserKey}
  }

  /** Signed in exactly when a user is known. */
  predicate Consistent(s: Session) {
    s.isAuthenticated <==> s.user.Some?
  }

  class AuthProvider {
    var isAuthenticated: bool
    var user: Option<string>
    const storage: LocalStorage

    function State(): Session
      reads this
    {
      Session(isAuthenticated, user)
    }

    /** Mounting the provider: both fields come from storage. */
    constructor (storage: LocalStorage)
      ensures this.storage == storage
      ensures State() == SessionFrom(storage.items)
    {
      this.storage := storage;
      isAuthenticated := storage.GetItem(AuthKey) == Some("true");
      user := storage.GetItem(UserKey);
    }

    method Login(username: string)
      modifies this, storage
      ensures State() == Session(true, Some(username))
      ensures storage.items == AfterLogin(old(storage.items), username)
    {
      isAuthenticated := true;
      user := Some(username);
      storage.SetItem(AuthKey, "true");
      storage.SetItem(UserKey, username);
    }

    method Logout()
      modifies this, storage
      ensures State() == Session(false, None)
      ensures storage.items == AfterLogout(old(storage.items))
    {
      isAuthenticated := false;
      user := None;
      storage.RemoveItem(AuthKey);
      storage.RemoveItem(UserKey);
    }
  }

  /** Reloading the page after `login(u)` restores the same signed-in state. */
  lemma ReloadAfterLogin(items: map<string, string>, username: string)
    ensures SessionFrom(AfterLogin(items, username)) == Session(true, Some(username))
    ensures AfterLogin(items, username)[AuthKey] == "true" && AfterLogin(items, username)[UserKey] == username
  {
  }

  /** Reloading the page after `logout()` restores the signed-out state,
      whatever was stored before. */
  lemma ReloadAfterLogout(items: map<string, string>)
    ensures SessionFrom(AfterLogout(items)) == Session(false, None)
    ensures AuthKey !in AfterLogout(items) && UserKey !in AfterLogout(items)
  {
  }

  /** Logging out twice leaves what logging out once does. */
  lemma LogoutIdempotent(items: map<string, string>)
    ensures AfterLogout(AfterLogout(items)) == AfterLogout(items)
  {
  }

  /** `login` and `logout` leave every other key as it was. */
  lemma OtherKeysUntouched(items: map<string, string>, username: string, key: string)
    requires key != AuthKey && key != UserKey
    ensures key in AfterLogin(items, username) <==> key in items
    ensures key in AfterLogout(items) <==> key in items
    ensures key in items ==> AfterLogin(items, username)[key] == items[key] && AfterLogout(items)[key] == items[key]
  {
  }

  /** The two keys are read independently, so a storage edited elsewhere (or
      left half-written) mounts the provider signed out with a user name. */
  lemma InitialStateMayBeInconsistent()
    ensures !Consistent(SessionFrom(map[UserKey := "marugo"]))
    ensures !Consistent(SessionFrom(map[AuthKey := "true"]))
  {
    assert AuthKey !in map[UserKey := "marugo"];
    assert UserKey !in map[AuthKey := "true"];
  }

  /** Whatever storage held, both mutators leave a consistent state that a
      reload reproduces. */
  lemma MutatorsLeaveConsistentStorage(items: map<string, string>, username: string)
    ensures Consistent(SessionFrom(AfterLogin(items, username)))
    ensures Consistent(SessionFrom(AfterLogout(items)))
  {
    ReloadAfterLogin(items, username);
    ReloadAfterLogout(items);
  }

  const OutsideProvider := "useAuth must be used within an AuthProvider"

  /** `useAuth`: the context value, or the error thrown outside a provider. */
  function UseAuth<T>(context: Option<T>): (r: Result<T, string>)
    ensures r.Success? <==> context.Some?
    ensures r.Success? ==> r.value == context.value
    ensures r.Failure? ==> r.error == OutsideProvider
  {
    match context
    case None => Failure(OutsideProvider)
    case Some(value) => Success(value)
  }
}
