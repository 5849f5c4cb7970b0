/** The login form (src/components/login_form.tsx): two input fields, two
    message slots, and a submit that asks the server and, only when it
    agrees, signs the session in and moves to the collection page. */
module LoginForm {
  import opened Wrappers
  import opened Api
  import opened AuthContext

  const CollectionPath := "/collection"

  /** The request body `loginUser` is sent. */
  datatype Credentials = Credentials(username: string, password: string)

  class LoginForm {
    var username: string
    var password: string
    var error: Option<string>
    var successMessage: Option<string>
    const auth: AuthProvider

    constructor (auth: AuthProvider)
      ensures this.auth == auth
      ensures username == "" && password == "" && error == None && successMessage == None
    {
      this.auth := auth;
      username := "";
      password := "";
      error := None;
      successMessage := None;
    }

    /** `handleSubmit`, run to completion on the server's `outcome`. Returns
        the body it sent, the messages shown while the request was pending,
        and where it navigated, if anywhere. */
    method HandleSubmit(outcome: Outcome<LoginReply>)
      returns (sent: Credentials, ghost pending: (Option<string>, Option<string>), navigatedTo: Option<string>)
      modifies this, auth, auth.storage
      ensures sent == Credentials(old(username), old(password))
      ensures pending == (None, None)
      ensures username == old(username) && password == old(password)
      ensures error.Some? != successMessage.Some?
      ensures outcome.Ok? ==>
        && successMessage == Some(outcome.data.message) && error == None
        && auth.State() == Session(true, Some(old(username)))
        && auth.storage.items == AfterLogin(old(auth.storage.items), old(username))
        && navigatedTo == Some(CollectionPath)
      ensures outcome.Fail? ==>
        && error == Some(Message(LoginUser(outcome).error)) && successMessage == None
        && auth.State() == old(auth.State())
        && auth.storage.items == old(auth.storage.items)
        && navigatedTo == None
    {
      error := None;
      successMessage := None;
      pending := (error, successMessage);
      sent := Credentials(username, password);
      var result := LoginUser(outcome);
      match result {
        case Success(response) =>
          successMessage := Some(response.message);
          auth.Login(username);
          navigatedTo := Some(CollectionPath);
        case Failure(thrown) =>
          error := Some(Message(thrown));
          navigatedTo := None;
      }
    }
  }
}
