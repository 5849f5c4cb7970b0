/** The registration form (src/components/register_form.tsx): like the login
    form, but it only creates the account. It holds no reference to the
    session store, so its `modifies` clause names the form alone. */
module RegisterForm {
  import opened Wrappers
  import opened Api

  /** The request body `createUser` is sent. */
  datatype Registration = Registration(username: string, email: string, password: string)

  class RegisterForm {
    var username: string
    var email: string
    var password: string
    var error: Option<string>
    var successMessage: Option<string>

    constructor ()
      ensures username == "" && email == "" && password == "" && error == None && successMessage == None
    {
      username := "";
      email := "";
      password := "";
      error := None;
      successMessage := None;
    }

    /** `handleSubmit`, run to completion on the server's `outcome`. */
    method HandleSubmit(outcome: Outcome<MessageReply>)
      returns (sent: Registration, ghost pending: (Option<string>, Option<string>))
      modifies this
      ensures sent == Registration(old(username), old(email), old(password))
      ensures pending == (None, None)
      ensures username == old(username) && email == old(email) && password == old(password)
      ensures outcome.Ok? ==> successMessage == Some(outcome.data.message) && error == None
      ensures outcome.Fail? ==> error == Some(Message(CreateUser(outcome).error)) && successMessage == None
    {
      error := None;
      successMessage := None;
      pending := (error, successMessage);
      sent := Registration(username, email, password);
      var result := CreateUser(outcome);
      match result {
        case Success(response) =>
          successMessage := Some(response.message);
        case Failure(thrown) =>
          error := Some(Message(thrown));
      }
    }
  }
}
