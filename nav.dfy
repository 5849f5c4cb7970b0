/** The navigation bar (src/components/nav.tsx): a drop-down whose entries
    depend on the session, a greeting, and the logout button. */
module Nav {
  import opened Wrappers
  import opened AuthContext
  import Entrypoint

  const LoggingOutKey := "isLoggingOut"
  const HomePath := "/"

  /** JavaScript truthiness of `user`: `null` and "" are both false. */
  predicate Truthy(user: Option<string>) {
    user.Some? && user.value != ""
  }

  /** The drop-down's entries, in order. */
  function Menu(s: Session): (entries: seq<string>)
    ensures 2 <= |entries| <= 4 && entries[..2] == ["Home", "About Me"]
    ensures "Show" in entries <==> s.isAuthenticated
    ensures "Log Out" in entries <==> s.isAuthenticated && Truthy(s.user)
  {
    ["Home", "About Me"]
      + (if s.isAuthenticated then ["Show"] else [])
      + (if s.isAuthenticated && Truthy(s.user) then ["Log Out"] else [])
  }

  /** The greeting at the right, shown under the same condition as Log Out. */
  function Greeting(s: Session): (g: Option<string>)
    ensures g.Some? <==> "Log Out" in Menu(s)
    ensures g.Some? ==> g.value == "Hai " + s.user.value
  {
    if s.isAuthenticated && Truthy(s.user) then Some("Hai " + s.user.value) else None
  }

  class NavBar {
    var isOpen: bool
    const auth: AuthProvider

    constructor (auth: AuthProvider)
      ensures this.auth == auth && !isOpen
    {
      this.auth := auth;
      isOpen := false;
    }

    /** `toggleDropdown`: two toggles bring the menu back to where it was. */
    method ToggleDropdown()
      modifies this
      ensures isOpen == !old(isOpen)
    {
      isOpen := !isOpen;
    }

    /** `handleLogout`: mark the logout in storage, sign out, go home. */
    method HandleLogout() returns (navigatedTo: string)
      modifies auth, auth.storage
      ensures auth.State() == Session(false, None)
      ensures auth.storage.items == AfterLogout(old(auth.storage.items)[LoggingOutKey := "true"])
      ensures navigatedTo == HomePath
    {
      auth.storage.SetItem(LoggingOutKey, "true");
      auth.Logout();
      navigatedTo := HomePath;
    }
  }

  /** The logout marker outlives the logout, and a reload comes back signed
      out with only the public entries. */
  lemma LoggingOutFlagSurvives(items: map<string, string>)
    ensures var after := AfterLogout(items[LoggingOutKey := "true"]);
      && LoggingOutKey in after && after[LoggingOutKey] == "true"
      && Menu(SessionFrom(after)) == ["Home", "About Me"]
      && Greeting(SessionFrom(after)) == None
  {
    assert LoggingOutKey != AuthKey && LoggingOutKey != UserKey;
    OtherKeysUntouched(items[LoggingOutKey := "true"], "", LoggingOutKey);
    ReloadAfterLogout(items[LoggingOutKey := "true"]);
  }

  /** A login the server accepted always offers Log Out afterwards: the
      server rejects an empty username, so the stored user is truthy. */
  lemma AcceptedLoginOffersLogOut(items: map<string, string>, username: string, password: string, valid: bool)
    requires Entrypoint.LoginUserHandler(Some(Entrypoint.LoginRequest(username, password)), valid).response.status
             == Entrypoint.StatusOK
    ensures var s := SessionFrom(AfterLogin(items, username));
      "Show" in Menu(s) && "Log Out" in Menu(s) && Greeting(s) == Some("Hai " + username)
  {
    ReloadAfterLogin(items, username);
  }

  /** A storage holding only the flag shows the collection entry without a
      way to log out from the menu. */
  lemma ShowWithoutLogOut()
    ensures var s := SessionFrom(map[AuthKey := "true"]);
      "Show" in Menu(s) && "Log Out" !in Menu(s)
  {
    assert UserKey !in map[AuthKey := "true"];
  }
}
