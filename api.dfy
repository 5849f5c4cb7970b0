/** The client's request wrappers (src/Api.tsx). Each one awaits one axios
    call and either returns what the server sent or throws; the call itself
    is replaced by its outcome, so each wrapper is a function from that
    outcome to the value it returns or the error it throws. */
module Api {
  import opened Wrappers
  import opened GoStd

  /** An image as the client receives it from the listing. */
  datatype ImageData = ImageData(id: int, name: string, description: string, url: string)

  datatype Category = Category(id: int, name: string)

  /** `loginUser`'s declared reply. */
  datatype LoginReply = LoginReply(message: string, username: string)

  /** A reply carrying only a message. */
  datatype MessageReply = MessageReply(message: string)

  /** The body of an error response as JavaScript sees it: a JSON object
      whose `error` and `message` fields may be absent, or `null`. */
  datatype Payload = Fields(error: Option<string>, message: Option<string>) | NullPayload

  /** An axios rejection: the server answered with an error status, or no
      response arrived at all. */
  datatype AxiosError = HttpError(status: nat, payload: Payload) | NetworkError(message: string)

  /** The outcome of one awaited axios call. */
  datatype Outcome<+T> = Ok(data: T) | Fail(err: AxiosError)

  /** What a wrapper throws: a fresh `Error` with a message, the `TypeError`
      of reading `.error` off a `null` body, or the axios error itself. */
  datatype Thrown = Error(message: string) | NullDataTypeError | Rethrown(cause: AxiosError)

  /** `err.message` of a thrown value. The `TypeError` text is the one
      V8-based browsers produce; axios words its own rejections as below. */
  function Message(t: Thrown): string {
    match t
    case Error(m) => m
    case NullDataTypeError => "Cannot read properties of null (reading 'error')"
    case Rethrown(HttpError(status, _)) => "Request failed with status code " + Itoa(status)
    case Rethrown(NetworkError(m)) => m
  }

  /** JavaScript's `v || fallback` on an optional string: an absent or empty
      value gives the fallback. */
  function Or(v: Option<string>, fallback: string): (s: string)
    ensures v.Some? && v.value != "" ==> s == v.value
    ensures v.None? || v.value == "" ==> s == fallback
  {
    if v.Some? && v.value != "" then v.value else fallback
  }

  /** The shared catch block of `loginUser` and `createUser`: with a response,
      `new Error(error.response.data.error || fallback)`; without one,
      `new Error("Network error")`. */
  function ErrorFieldOr(err: AxiosError, fallback: string): (t: Thrown)
    requires fallback != ""
    ensures t.Error? ==> t.message != ""
    ensures !t.Rethrown?
    ensures t == NullDataTypeError <==> err.HttpError? && err.payload.NullPayload?
    ensures err.NetworkError? ==> t == Error("Network error")
    ensures err.HttpError? && err.payload.Fields? ==> t == Error(Or(err.payload.error, fallback))
  {
    match err
    case NetworkError(_) => Error("Network error")
    case HttpError(_, NullPayload) => NullDataTypeError
    case HttpError(_, Fields(error, _)) => Error(Or(error, fallback))
  }

  /** `error.response?.data?.message || fallback`: optional chaining makes a
      missing response and a `null` body both fall back. */
  function MessageFieldOr(err: AxiosError, fallback: string): (t: Thrown)
    requires fallback != ""
    ensures t.Error? && t.message != ""
    ensures err.HttpError? && err.payload.Fields? && err.payload.message.Some? && err.payload.message.value != "" ==>
      t.message == err.payload.message.value
    ensures !(err.HttpError? && err.payload.Fields? && err.payload.message.Some? && err.payload.message.value != "") ==>
      t.message == fallback
  {
    match err
    case HttpError(_, Fields(_, message)) => Error(Or(message, fallback))
    case _ => Error(fallback)
  }

  function LoginUser<T>(o: Outcome<T>): (r: Result<T, Thrown>)
    ensures r.Success? <==> o.Ok?
    ensures o.Ok? ==> r.value == o.data
    ensures o.Fail? && o.err.NetworkError? ==> r == Failure(Error("Network error"))
    ensures o.Fail? && o.err.HttpError? && o.err.payload.Fields? ==>
      r == Failure(Error(Or(o.err.payload.error, "Login failed")))
    ensures r.Failure? && r.error.Error? ==> r.error.message != ""
  {
    match o
    case Ok(data) => Success(data)
    case Fail(err) => Failure(ErrorFieldOr(err, "Login failed"))
  }

  function CreateUser<T>(o: Outcome<T>): (r: Result<T, Thrown>)
    ensures r.Success? <==> o.Ok?
    ensures o.Ok? ==> r.value == o.data
    ensures o.Fail? && o.err.NetworkError? ==> r == Failure(Error("Network error"))
    ensures o.Fail? && o.err.HttpError? && o.err.payload.Fields? ==>
      r == Failure(Error(Or(o.err.payload.error, "User creation failed")))
    ensures r.Failure? && r.error.Error? ==> r.error.message != ""
  {
    match o
    case Ok(data) => Success(data)
    case Fail(err) => Failure(ErrorFieldOr(err, "User creation failed"))
  }

  /** `uploadImage` logs and rethrows the axios error unchanged. */
  function UploadImage<T>(o: Outcome<T>): (r: Result<T, Thrown>)
    ensures o.Ok? ==> r == Success(o.data)
    ensures o.Fail? ==> r == Failure(Rethrown(o.err))
  {
    match o
    case Ok(data) => Success(data)
    case Fail(err) => Failure(Rethrown(err))
  }

  function FetchAllImages<T>(o: Outcome<T>): (r: Result<T, Thrown>)
    ensures r.Success? <==> o.Ok?
    ensures o.Ok? ==> r.value == o.data
    ensures r.Failure? ==> r.error.Error? && r.error.message != ""
    ensures o.Fail? ==> r == Failure(MessageFieldOr(o.err, "Failed to fetch images"))
  {
    match o
    case Ok(data) => Success(data)
    case Fail(err) => Failure(MessageFieldOr(err, "Failed to fetch images"))
  }

  /** `deleteImageById` resolves to nothing on success. */
  function DeleteImageById<T>(o: Outcome<T>): (r: Result<(), Thrown>)
    ensures r.Success? <==> o.Ok?
    ensures r.Failure? ==> r.error.Error? && r.error.message != ""
    ensures o.Fail? ==> r == Failure(MessageFieldOr(o.err, "Failed to delete image"))
  {
    match o
    case Ok(_) => Success(())
    case Fail(err) => Failure(MessageFieldOr(err, "Failed to delete image"))
  }

  /** `fetchCategories` logs and rethrows the axios error unchanged. */
  function FetchCategories<T>(o: Outcome<T>): (r: Result<T, Thrown>)
    ensures o.Ok? ==> r == Success(o.data)
    ensures o.Fail? ==> r == Failure(Rethrown(o.err))
  {
    match o
    case Ok(data) => Success(data)
    case Fail(err) => Failure(Rethrown(err))
  }

  /** The backend's error bodies carry an `error` field and no `message`, so
      the listing and delete wrappers never show the server's text: a failure
      with such a body always reads as the fallback. */
  lemma ServerErrorTextIgnoredByListing<T>(status: nat, error: Option<string>)
    ensures var o: Outcome<T> := Fail(HttpError(status, Fields(error, None)));
      && Message(FetchAllImages(o).error) == "Failed to fetch images"
      && Message(DeleteImageById(o).error) == "Failed to delete image"
  {
  }

  /** Login and registration map the same failure alike, except where each
      falls back to its own text. */
  lemma LoginAndCreateAgree<T>(err: AxiosError)
    ensures var l := LoginUser<T>(Fail(err)).error;
      var c := CreateUser<T>(Fail(err)).error;
      l == c || (l == Error("Login failed") && c == Error("User creation failed"))
  {
  }
}
