/** The request handlers of the backend (api/entrypoint.go) that hold logic
    of their own: the image type whitelist, the token lifetimes and the
    cookies that carry them, registration, upload, the image listing and the
    image update. PostgreSQL, S3, bcrypt and JWT signing are outside the
    model: each handler receives what those calls returned as arguments, and
    reports what it asked of them in its result. */
module Entrypoint {
  import opened Wrappers
  import opened GoStd
  import opened SqlText
  import opened UpdateQuery

  // ----- Responses -----

  const StatusOK := 200
  const StatusCreated := 201
  const StatusBadRequest := 400
  const StatusUnauthorized := 401
  const StatusNotFound := 404
  const StatusConflict := 409
  const StatusInternalServerError := 500

  /** A row of the listing, as the handler puts it in its JSON array. */
  datatype ListEntry = ListEntry(id: int, name: string, s3Key: string, category: string, description: string, url: string)

  /** An `images` row as the update handler reads it back. */
  datatype ImageRow = ImageRow(id: int, name: string, categoryID: int, description: string, s3Key: string)

  /** The JSON bodies the handlers send. */
  datatype Body =
    | ErrorBody(error: string)
    | ErrorDetailBody(error: string, detail: string)
    | MessageBody(message: string)
    | UploadedBody(id: int, s3Key: string, message: string)
    | ImageList(entries: seq<ListEntry>)
    | EmptyImagesObject
    | UpdatedBody(row: ImageRow)

  datatype Response = Response(status: int, body: Body)

  // ----- Image type whitelist -----

  const AllowedTypes: map<string, bool> := map["image/jpeg" := true, "image/png" := true, "image/webp" := true]

  /** `isValidImageType`: a lookup in the whitelist, where a missing key reads
      as Go's zero value `false`. */
  function IsValidImageType(mimeType: string): (ok: bool)
    ensures ok <==> mimeType == "image/jpeg" || mimeType == "image/png" || mimeType == "image/webp"
  {
    mimeType in AllowedTypes && AllowedTypes[mimeType]
  }

  // ----- Tokens and cookies -----

  /** Go's `time.Duration` units, in nanoseconds. */
  const Second: int := 1_000_000_000
  const Minute: int := 60 * Second
  const Hour: int := 60 * Minute

  const AccessTokenLifetime: int := 30 * Minute
  const RefreshTokenLifetime: int := 7 * 24 * Hour

  datatype TokenKind = Access | Refresh

  /** The claims of a signed token: who it is for and how long after issue it
      expires. The signature and the absolute expiry time are not modelled. */
  datatype Token = Token(kind: TokenKind, username: string, lifetime: int)

  /** A cookie the backend sets; `maxAge` is in seconds. */
  datatype Cookie = Cookie(name: string, token: Token, maxAge: int, path: string)

  /** `GenerateAccessToken`: a token that expires 30 minutes after issue. */
  function GenerateAccessToken(username: string): (t: Token)
    ensures t.kind == Access && t.username == username && t.lifetime == 1800 * Second
  {
    Token(Access, username, AccessTokenLifetime)
  }

  /** `GenerateRefreshToken`: a token that expires 7 days after issue. */
  function GenerateRefreshToken(username: string): (t: Token)
    ensures t.kind == Refresh && t.username == username && t.lifetime == 7 * 24 * 3600 * Second
  {
    Token(Refresh, username, RefreshTokenLifetime)
  }

  /** A cookie expires exactly when the token it carries does. */
  predicate CookieMatchesToken(c: Cookie) {
    c.maxAge * Second == c.token.lifetime
  }

  datatype LoginRequest = LoginRequest(username: string, password: string)

  /** What a handler answered and which cookies it set. */
  datatype WithCookies = WithCookies(response: Response, cookies: seq<Cookie>)

  /** `binding:"required"` rejects a missing or empty field. */
  predicate LoginBound(req: Option<LoginRequest>) {
    req.Some? && req.value.username != "" && req.value.password != ""
  }

  /** `LoginUserHandler`; `credentialsValid` is what `isValidUser` answered
      (the password lookup and bcrypt comparison). */
  function LoginUserHandler(req: Option<LoginRequest>, credentialsValid: bool): (r: WithCookies)
    ensures !LoginBound(req) ==> r == WithCookies(Response(StatusBadRequest, ErrorBody("Invalid input")), [])
    ensures r.response.status == StatusOK <==> LoginBound(req) && credentialsValid
    ensures r.cookies != [] <==> r.response.status == StatusOK
    ensures r.response.status == StatusOK ==>
      |r.cookies| == 2
      && r.cookies[0].name == "access_token" && r.cookies[0].token.kind == Access && r.cookies[0].path == "/"
      && r.cookies[1].name == "refresh_token" && r.cookies[1].token.kind == Refresh && r.cookies[1].path == "/refresh-token"
      && forall i :: 0 <= i < |r.cookies| ==> r.cookies[i].token.username == req.value.username
    ensures r.response.status == StatusOK ==>
      r.cookies == [Cookie("access_token", GenerateAccessToken(req.value.username), 1800, "/"),
                    Cookie("refresh_token", GenerateRefreshToken(req.value.username), 7 * 24 * 3600, "/refresh-token")]
    ensures LoginBound(req) && !credentialsValid ==>
      r == WithCookies(Response(StatusUnauthorized, ErrorBody("Invalid credentials")), [])
  {
    if !LoginBound(req) then WithCookies(Response(StatusBadRequest, ErrorBody("Invalid input")), [])
    else if credentialsValid then
      var username := req.value.username;
      WithCookies(Response(StatusOK, MessageBody("Login successful")),
        [Cookie("access_token", GenerateAccessToken(username), 1800, "/"),
         Cookie("refresh_token", GenerateRefreshToken(username), 7 * 24 * 3600, "/refresh-token")])
    else WithCookies(Response(StatusUnauthorized, ErrorBody("Invalid credentials")), [])
  }

  /** The refresh cookie as the handler finds it: absent, or present and
      parsed, with whether the signature and expiry checked out and the
      username in its claims. */
  datatype RefreshCookie = NoCookie | Presented(valid: bool, username: string)

  /** `RefreshTokenHandlerGin`. */
  function RefreshTokenHandler(cookie: RefreshCookie): (r: WithCookies)
    ensures r.response.status == StatusOK <==> cookie.Presented? && cookie.valid
    ensures r.response.status != StatusOK ==> r.response.status == StatusUnauthorized && r.cookies == []
    ensures r.response.status == StatusOK ==>
      && |r.cookies| == 1
      && r.cookies[0].name == "access_token" && r.cookies[0].path == "/"
      && r.cookies[0].token == Token(Access, cookie.username, AccessTokenLifetime)
  {
    match cookie
    case NoCookie => WithCookies(Response(StatusUnauthorized, ErrorBody("No refresh token")), [])
    case Presented(valid, username) =>
      if !valid then WithCookies(Response(StatusUnauthorized, ErrorBody("Invalid refresh token")), [])
      else WithCookies(Response(StatusOK, MessageBody("Access token refreshed")),
        [Cookie("access_token", GenerateAccessToken(username), 1800, "/")])
  }

  /** Every cookie login or refresh sets lives exactly as long as its token. */
  lemma CookiesMatchTokens(req: Option<LoginRequest>, credentialsValid: bool, cookie: RefreshCookie)
    ensures forall c :: c in LoginUserHandler(req, credentialsValid).cookies ==> CookieMatchesToken(c)
    ensures forall c :: c in RefreshTokenHandler(cookie).cookies ==> CookieMatchesToken(c)
  {
  }

  // ----- Registration -----

  datatype CreateRequest = CreateRequest(username: string, email: string, password: string)

  datatype UserRow = UserRow(username: string, email: string, passwordHash: string)

  /** No two accounts share a username or an email. */
  ghost predicate UniqueAccounts(users: set<UserRow>) {
    forall a, b :: a in users && b in users && (a.username == b.username || a.email == b.email) ==> a == b
  }

  /** What the existence query `username = $1 or email = $2` finds. */
  predicate Taken(users: set<UserRow>, req: CreateRequest) {
    exists u :: u in users && (u.username == req.username || u.email == req.email)
  }

  /** `binding:"required"` on all three fields, and `binding:"email"`, whose
      verdict on the address is `emailValid`. */
  predicate CreateBound(req: Option<CreateRequest>, emailValid: bool) {
    req.Some? && req.value.username != "" && req.value.email != "" && req.value.password != "" && emailValid
  }

  /** Go's `len` counts bytes: the minimum lengths are in UTF-8 bytes. */
  predicate TooShort(req: CreateRequest) {
    Utf8Len(req.username) < 3 || Utf8Len(req.password) < 6
  }

  /** The handler's answer, whether it ran the existence query, and the users
      table afterwards. */
  datatype CreateOutcome = CreateOutcome(response: Response, queried: bool, users: set<UserRow>)

  /** `createUserHandler`. The oracles: whether the existence query ran
      (`lookupOk`), the bcrypt hash (`None` when hashing fails), and whether
      the insert succeeded. */
  function CreateUserHandler(req: Option<CreateRequest>, emailValid: bool, users: set<UserRow>,
                             lookupOk: bool, hash: Option<string>, insertOk: bool): (r: CreateOutcome)
    ensures !CreateBound(req, emailValid) ==>
      r == CreateOutcome(Response(StatusBadRequest, ErrorBody("Invalid input")), false, users)
    ensures CreateBound(req, emailValid) && TooShort(req.value) ==>
      r == CreateOutcome(Response(StatusBadRequest, ErrorBody("Username/password terlalu pendek")), false, users)
    ensures r.queried <==> CreateBound(req, emailValid) && !TooShort(req.value)
    ensures r.response.status == StatusConflict <==> r.queried && lookupOk && Taken(users, req.value)
    ensures r.response.status == StatusConflict ==> r.users == users
    ensures r.users != users ==>
      && r.response == Response(StatusCreated, MessageBody("User berhasil dibuat"))
      && !Taken(users, req.value) && hash.Some?
      && r.users == users + {UserRow(req.value.username, req.value.email, hash.value)}
    ensures r.response.status == StatusCreated ==> r.users != users
    ensures CreateBound(req, emailValid) && !TooShort(req.value) && !lookupOk ==>
      r == CreateOutcome(Response(StatusInternalServerError, ErrorBody("Database error")), true, users)
    ensures CreateBound(req, emailValid) && !TooShort(req.value) && lookupOk && !Taken(users, req.value) && hash.None? ==>
      r == CreateOutcome(Response(StatusInternalServerError, ErrorBody("Gagal hash password")), true, users)
    ensures CreateBound(req, emailValid) && !TooShort(req.value) && lookupOk && !Taken(users, req.value)
            && hash.Some? && !insertOk ==>
      r == CreateOutcome(Response(StatusInternalServerError, ErrorBody("Gagal membuat akun")), true, users)
    ensures CreateBound(req, emailValid) && !TooShort(req.value) && lookupOk && !Taken(users, req.value)
            && hash.Some? && insertOk ==>
      r == CreateOutcome(Response(StatusCreated, MessageBody("User berhasil dibuat")), true,
                         users + {UserRow(req.value.username, req.value.email, hash.value)})
  {
    if !CreateBound(req, emailValid) then
      CreateOutcome(Response(StatusBadRequest, ErrorBody("Invalid input")), false, users)
    else if TooShort(req.value) then
      CreateOutcome(Response(StatusBadRequest, ErrorBody("Username/password terlalu pendek")), false, users)
    else if !lookupOk then
      CreateOutcome(Response(StatusInternalServerError, ErrorBody("Database error")), true, users)
    else if Taken(users, req.value) then
      CreateOutcome(Response(StatusConflict, ErrorBody("Username atau Email sudah terdaftar")), true, users)
    else if hash.None? then
      CreateOutcome(Response(StatusInternalServerError, ErrorBody("Gagal hash password")), true, users)
    else if !insertOk then
      CreateOutcome(Response(StatusInternalServerError, ErrorBody("Gagal membuat akun")), true, users)
    else
      var row := UserRow(req.value.username, req.value.email, hash.value);
      assert row !in users;
      CreateOutcome(Response(StatusCreated, MessageBody("User berhasil dibuat")), true, users + {row})
  }

  /** Registration never lets two accounts share a username or an email. */
  lemma CreateUserKeepsAccountsUnique(req: Option<CreateRequest>, emailValid: bool, users: set<UserRow>,
                                      lookupOk: bool, hash: Option<string>, insertOk: bool)
    requires UniqueAccounts(users)
    ensures UniqueAccounts(CreateUserHandler(req, emailValid, users, lookupOk, hash, insertOk).users)
  {
    var r := CreateUserHandler(req, emailValid, users, lookupOk, hash, insertOk);
    if r.users != users {
      var row := UserRow(req.value.username, req.value.email, hash.value);
      assert !Taken(users, req.value);
      assert r.users == users + {row};
    }
  }

  /** The length checks count bytes: a two-letter name in a script outside
      ASCII passes where a two-letter ASCII name does not. */
  lemma ByteLengthExample()
    ensures !TooShort(CreateRequest("éé", "x@y.z", "secret"))
    ensures TooShort(CreateRequest("ab", "x@y.z", "secret"))
  {
    assert Utf8Len("secret") == 6 by {
      AsciiUtf8Len("secret");
    }
    assert Utf8Len("éé") == 4;
    assert Utf8Len("ab") == 2;
  }

  // ----- Upload -----

  /** The `image` part of a multipart form: its file name and the
      Content-Type its header declares. */
  datatype FilePart = FilePart(filename: string, contentType: string)

  datatype UploadForm = UploadForm(name: string, categoryID: string, description: string, image: Option<FilePart>)

  /** A row the upload inserts. `category_id` is passed as the text it was
      sent as; PostgreSQL converts it, and a failed conversion is one way the
      insert oracle fails. */
  datatype StoredImage = StoredImage(id: int, name: string, categoryID: string, description: string, s3Key: string)

  /** The S3 key of an upload: `images/<uuid><ext>`. */
  function ObjectKey(uuid: string, filename: string): (key: string)
    ensures key == "images/" + uuid + Ext(filename)
    ensures Like(key, "images/%")
  {
    var key := "images/" + uuid + Ext(filename);
    assert key == "images/" + (uuid + Ext(filename));
    ImagesPrefixLike(uuid + Ext(filename));
    key
  }

  lemma ImagesPrefixLike(rest: string)
    ensures Like("images/" + rest, "images/%")
  {
    var key := "images/" + rest;
    assert key[..7] == "images/";
    assert Literal("images/") && "images/" + "%" == "images/%";
    LikePrefix(key, "images/");
  }

  /** The oracles of an upload: whether the transaction began, the UUID, the
      id the insert returned (`None` when it failed), whether the S3 put and
      the commit succeeded. */
  datatype UploadEnv = UploadEnv(txBegins: bool, uuid: string, insertedID: Option<int>, putOk: bool, commitOk: bool)

  /** What an upload did: the answer, the object it put in S3 (if it got that
      far) and the row it committed (if any). */
  datatype UploadEffect = UploadEffect(response: Response, put: Option<string>, committed: Option<StoredImage>)

  /** `uploadImage` once the file part is known to be present. */
  function UploadWithFile(form: UploadForm, file: FilePart, env: UploadEnv): (r: UploadEffect)
    ensures r.committed.Some? ==> r.put == Some(r.committed.value.s3Key) && r.response.status == StatusOK
    ensures r.put.Some? ==> IsValidImageType(file.contentType) && r.put.value == ObjectKey(env.uuid, file.filename)
    ensures !IsValidImageType(file.contentType) ==>
      r == UploadEffect(Response(StatusBadRequest, ErrorBody("Invalid image format. Only PNG/JPEG allowed")), None, None)
    ensures IsValidImageType(file.contentType) && env.insertedID.None? ==>
      r == UploadEffect(Response(StatusInternalServerError, ErrorBody("Database error")), None, None)
    ensures IsValidImageType(file.contentType) && env.insertedID.Some? && !env.putOk ==>
      r == UploadEffect(Response(StatusInternalServerError, ErrorBody("S3 upload failed")), None, None)
    ensures IsValidImageType(file.contentType) && env.insertedID.Some? && env.putOk && !env.commitOk ==>
      r == UploadEffect(Response(StatusInternalServerError, ErrorBody("Transaction commit failed")),
                        Some(ObjectKey(env.uuid, file.filename)), None)
    ensures IsValidImageType(file.contentType) && env.insertedID.Some? && env.putOk && env.commitOk ==>
      var key := ObjectKey(env.uuid, file.filename);
      && r.committed == Some(StoredImage(env.insertedID.value, form.name, form.categoryID, form.description, key))
      && r.response == Response(StatusOK, UploadedBody(env.insertedID.value, key, "Image uploaded"))
    ensures r.response.status == StatusOK <==> r.committed.Some?
  {
    if !IsValidImageType(file.contentType) then
      UploadEffect(Response(StatusBadRequest, ErrorBody("Invalid image format. Only PNG/JPEG allowed")), None, None)
    else
      var key := ObjectKey(env.uuid, file.filename);
      match env.insertedID
      case None => UploadEffect(Response(StatusInternalServerError, ErrorBody("Database error")), None, None)
      case Some(id) =>
        if !env.putOk then UploadEffect(Response(StatusInternalServerError, ErrorBody("S3 upload failed")), None, None)
        else if !env.commitOk then
          UploadEffect(Response(StatusInternalServerError, ErrorBody("Transaction commit failed")), Some(key), None)
        else
          UploadEffect(Response(StatusOK, UploadedBody(id, key, "Image uploaded")),
            Some(key), Some(StoredImage(id, form.name, form.categoryID, form.description, key)))
  }

  /** `uploadImage` as written: the error of `FormFile("image")` is dropped,
      so a request without an image part dereferences a nil file header and
      the handler panics without answering. */
  datatype AsWrittenUpload = Answered(effect: UploadEffect) | Panicked

  function UploadImageAsWritten(form: UploadForm, env: UploadEnv): (r: AsWrittenUpload)
    ensures r.Panicked? <==> env.txBegins && form.image.None?
  {
    if !env.txBegins then
      Answered(UploadEffect(Response(StatusInternalServerError, ErrorBody("Failed to start transaction")), None, None))
    else if form.image.None? then Panicked
    else Answered(UploadWithFile(form, form.image.value, env))
  }

  /** A form without an image makes the handler as written panic. */
  lemma MissingImagePanics(name: string, categoryID: string, description: string, uuid: string)
    ensures UploadImageAsWritten(UploadForm(name, categoryID, description, None),
                                 UploadEnv(true, uuid, Some(1), true, true)) == Panicked
  {
  }

  /** `uploadImage` with the missing image part rejected like an image of the
      wrong type (its Content-Type is empty). */
  function UploadImage(form: UploadForm, env: UploadEnv): (r: UploadEffect)
    ensures form.image.None? ==> r.put.None? && r.committed.None? && r.response.status != StatusOK
    ensures env.txBegins && form.image.None? ==>
      r == UploadEffect(Response(StatusBadRequest, ErrorBody("Invalid image format. Only PNG/JPEG allowed")), None, None)
    ensures UploadImageAsWritten(form, env).Answered? ==> UploadImageAsWritten(form, env) == Answered(r)
    ensures !env.txBegins ==>
      r == UploadEffect(Response(StatusInternalServerError, ErrorBody("Failed to start transaction")), None, None)
    ensures r.committed.Some? ==>
      && form.image.Some?
      && IsValidImageType(form.image.value.contentType)
      && r.put == Some(r.committed.value.s3Key)
      && r.committed.value.s3Key == ObjectKey(env.uuid, form.image.value.filename)
      && r.committed.value == StoredImage(r.committed.value.id, form.name, form.categoryID, form.description, r.committed.value.s3Key)
  {
    if !env.txBegins then
      UploadEffect(Response(StatusInternalServerError, ErrorBody("Failed to start transaction")), None, None)
    else if form.image.None? then
      UploadEffect(Response(StatusBadRequest, ErrorBody("Invalid image format. Only PNG/JPEG allowed")), None, None)
    else UploadWithFile(form, form.image.value, env)
  }

  /** Every image an upload commits is one the listing's filter selects. */
  lemma UploadedKeysAreListed(form: UploadForm, env: UploadEnv)
    requires UploadImage(form, env).committed.Some?
    ensures Like(UploadImage(form, env).committed.value.s3Key, "images/%")
  {
  }

  /** A failed commit leaves the object in S3 with no row pointing at it. */
  lemma CommitFailureOrphansObject(form: UploadForm, file: FilePart, uuid: string)
    requires form.image == Some(file) && IsValidImageType(file.contentType)
    ensures var r := UploadImage(form, UploadEnv(true, uuid, Some(1), true, false));
      r.put.Some? && r.committed.None?
  {
  }

  // ----- Listing -----

  /** A row of `images JOIN categories`, with the category's name. */
  datatype JoinedRow = JoinedRow(id: int, s3Key: string, name: string, categoryName: string, description: string)

  /** The rows `WHERE i.s3_key LIKE 'images/%'` selects, in table order. */
  function Listed(table: seq<JoinedRow>): (rows: seq<JoinedRow>)
    ensures forall r :: r in rows <==> r in table && Like(r.s3Key, "images/%")
    ensures |rows| <= |table|
  {
    if table == [] then []
    else if Like(table[0].s3Key, "images/%") then [table[0]] + Listed(table[1..])
    else Listed(table[1..])
  }

  function Entry(row: JoinedRow, url: string): ListEntry {
    ListEntry(row.id, row.name, row.s3Key, row.categoryName, row.description, url)
  }

  /** Presigning `rows` in order: their entries, or the key of the first row
      whose URL could not be generated. `presign` is the S3 presigner. */
  function Signed(rows: seq<JoinedRow>, presign: string -> Option<string>): Result<seq<ListEntry>, string>
    decreases |rows|
  {
    if rows == [] then Success([])
    else
      var last := rows[|rows| - 1];
      match Signed(rows[..|rows| - 1], presign)
      case Failure(key) => Failure(key)
      case Success(entries) =>
        match presign(last.s3Key)
        case None => Failure(last.s3Key)
        case Some(url) => Success(entries + [Entry(last, url)])
  }

  /** A successful presigning yields one entry per row, in row order, each
      carrying its row's fields and its key's URL; a failed one names a row
      whose key has no URL. */
  lemma {:induction false} SignedEntries(rows: seq<JoinedRow>, presign: string -> Option<string>)
    ensures Signed(rows, presign).Success? ==>
      var entries := Signed(rows, presign).value;
      && |entries| == |rows|
      && forall i :: 0 <= i < |rows| ==> presign(rows[i].s3Key).Some? && entries[i] == Entry(rows[i], presign(rows[i].s3Key).value)
    ensures Signed(rows, presign).Failure? ==>
      exists i :: 0 <= i < |rows| && rows[i].s3Key == Signed(rows, presign).error && presign(rows[i].s3Key).None?
    decreases |rows|
  {
    if rows != [] {
      var front := rows[..|rows| - 1];
      SignedEntries(front, presign);
      if Signed(front, presign).Failure? {
        var i :| 0 <= i < |front| && front[i].s3Key == Signed(front, presign).error && presign(front[i].s3Key).None?;
        assert rows[i] == front[i];
      } else {
        forall i | 0 <= i < |front| ensures rows[i] == front[i] { }
      }
    }
  }

  /** Once a prefix of the rows fails to sign, so do all the rows, with the
      same key. */
  lemma {:induction false} SignedFailureSticks(rows: seq<JoinedRow>, j: nat, presign: string -> Option<string>)
    requires j <= |rows|
    requires Signed(rows[..j], presign).Failure?
    ensures Signed(rows, presign) == Signed(rows[..j], presign)
    decreases |rows| - j
  {
    if j < |rows| {
      var next := rows[..j + 1];
      assert next[..j] == rows[..j];
      SignedFailureSticks(rows, j + 1, presign);
    } else {
      assert rows[..j] == rows;
    }
  }

  /** The body of a successful listing: always a JSON array. */
  function ListBody(entries: seq<ListEntry>): (b: Body)
    ensures b.ImageList? && b.entries == entries
  {
    ImageList(entries)
  }

  /** The body as written: an empty listing is sent as the object
      `{"images": []}` rather than as an array. */
  function ListBodyAsWritten(entries: seq<ListEntry>): (b: Body)
    ensures entries != [] ==> b == ListBody(entries)
  {
    if |entries| == 0 then EmptyImagesObject else ImageList(entries)
  }

  /** With no images the handler as written answers with an object, which
      the client, expecting an array of images, cannot iterate. */
  lemma EmptyListingIsNotAnArray()
    ensures !ListBodyAsWritten([]).ImageList?
    ensures ListBody([]) == ImageList([])
  {
  }

  /** The answer of a successful query once `rows` are presigned, as the
      handler writes it: an empty listing is answered with an object. */
  function ListingResponseAsWritten(rows: seq<JoinedRow>, presign: string -> Option<string>): Response {
    match Signed(rows, presign)
    case Failure(key) => Response(StatusInternalServerError, ErrorBody("URL generation failed for " + key))
    case Success(entries) => Response(StatusOK, ListBodyAsWritten(entries))
  }

  /** The answer with the corrected body: every 200 carries an array. */
  function ListingResponse(rows: seq<JoinedRow>, presign: string -> Option<string>): (resp: Response)
    ensures resp.status == StatusOK <==> Signed(rows, presign).Success?
    ensures resp.status == StatusOK ==> resp.body.ImageList? && |resp.body.entries| == |rows|
  {
    SignedEntries(rows, presign);
    match Signed(rows, presign)
    case Failure(key) => Response(StatusInternalServerError, ErrorBody("URL generation failed for " + key))
    case Success(entries) => Response(StatusOK, ListBody(entries))
  }

  /** The handler as written and the corrected answer differ only on an
      empty listing, where the first sends `{"images": []}` and the second
      an empty array; every other answer is the same, and every corrected
      200 carries an array. */
  lemma ListingDiffersOnlyWhenEmpty(rows: seq<JoinedRow>, presign: string -> Option<string>)
    ensures rows == [] ==>
      && ListingResponseAsWritten(rows, presign) == Response(StatusOK, EmptyImagesObject)
      && ListingResponse(rows, presign) == Response(StatusOK, ImageList([]))
    ensures rows != [] ==> ListingResponseAsWritten(rows, presign) == ListingResponse(rows, presign)
    ensures ListingResponse(rows, presign).status == StatusOK ==> ListingResponse(rows, presign).body.ImageList?
  {
    SignedEntries(rows, presign);
  }

  /** `getAllImages`: presign each selected row in turn, stopping at the
      first failure; an empty listing is answered with an object. */
  method GetAllImages(queryOk: bool, table: seq<JoinedRow>, presign: string -> Option<string>) returns (resp: Response)
    ensures !queryOk ==> resp == Response(StatusInternalServerError, ErrorBody("Failed to query database"))
    ensures queryOk ==> resp == ListingResponseAsWritten(Listed(table), presign)
    ensures queryOk && Listed(table) == [] ==> resp == Response(StatusOK, EmptyImagesObject)
    ensures resp.status == StatusOK && Listed(table) != [] ==>
      resp.body.ImageList? && |resp.body.entries| == |Listed(table)|
  {
    if !queryOk {
      return Response(StatusInternalServerError, ErrorBody("Failed to query database"));
    }
    var rows := Listed(table);
    var entries: seq<ListEntry> := [];
    var i := 0;
    while i < |rows|
      invariant 0 <= i <= |rows|
      invariant Signed(rows[..i], presign) == Success(entries)
      invariant |entries| == i
    {
      var key := rows[i].s3Key;
      var url := presign(key);
      assert rows[..i + 1][..i] == rows[..i];
      if url.None? {
        SignedFailureSticks(rows, i + 1, presign);
        return Response(StatusInternalServerError, ErrorBody("URL generation failed for " + key));
      }
      entries := entries + [Entry(rows[i], url.value)];
      i := i + 1;
    }
    assert rows[..i] == rows;
    if |entries| == 0 {
      return Response(StatusOK, EmptyImagesObject);
    }
    resp := Response(StatusOK, ImageList(entries));
  }

  /** Every image the listing returns has a key under `images/`. */
  lemma ListedKeysHavePrefix(table: seq<JoinedRow>, presign: string -> Option<string>)
    requires Signed(Listed(table), presign).Success?
    ensures forall e :: e in Signed(Listed(table), presign).value ==>
      |e.s3Key| >= 7 && e.s3Key[..7] == "images/"
  {
    var rows := Listed(table);
    SignedEntries(rows, presign);
    var entries := Signed(rows, presign).value;
    forall e | e in entries ensures |e.s3Key| >= 7 && e.s3Key[..7] == "images/" {
      var i :| 0 <= i < |entries| && entries[i] == e;
      assert rows[i] in rows && e.s3Key == rows[i].s3Key;
      assert Literal("images/") && |"images/"| == 7 && "images/" + "%" == "images/%";
      LikePrefix(rows[i].s3Key, "images/");
    }
  }

  // ----- Update -----

  /** What `SELECT s3_key ... FOR UPDATE` found. */
  datatype Lookup = Found(s3Key: string) | NoRows | LookupError

  /** What executing the UPDATE returned. */
  datatype ExecResult = ExecFailed(detail: string) | Executed(rowsAffected: int)

  /** The oracles of an update: whether the transaction began, the lookup,
      the execution, the commit and the re-read of the row. */
  datatype UpdateEnv = UpdateEnv(txBegins: bool, lookup: Lookup, exec: ExecResult, commitOk: bool, reread: Option<ImageRow>)

  /** The requests the handler executes: a transaction, an integer id, at
      least one field, an existing row and a category id that is an integer. */
  predicate UpdateAccepted(idParam: string, form: UpdateForm, env: UpdateEnv) {
    env.txBegins && Atoi(idParam).Some? && !NothingToUpdate(form) && env.lookup.Found? && Planned(form).Some?
  }

  /** `updateImage`. `executed` is the statement it sends to the database;
      `committed` says whether the transaction was committed (on every other
      return the deferred rollback undoes the row lock and any update). */
  method UpdateImage(idParam: string, form: UpdateForm, env: UpdateEnv)
    returns (resp: Response, executed: Option<Statement>, committed: bool)
    ensures executed.Some? <==> UpdateAccepted(idParam, form, env)
    ensures executed.Some? ==> executed.value == Render(Planned(form).value, Atoi(idParam).value)
    ensures !env.txBegins ==> resp == Response(StatusInternalServerError, ErrorBody("Failed to start transaction"))
    ensures env.txBegins && Atoi(idParam).None? ==> resp == Response(StatusBadRequest, ErrorBody("Invalid image ID"))
    ensures env.txBegins && Atoi(idParam).Some? && NothingToUpdate(form) ==>
      resp == Response(StatusBadRequest, ErrorBody("At least one field must be provided for update"))
    ensures env.txBegins && Atoi(idParam).Some? && !NothingToUpdate(form) && env.lookup.NoRows? ==>
      resp == Response(StatusNotFound, ErrorBody("Image not found"))
    ensures env.txBegins && Atoi(idParam).Some? && !NothingToUpdate(form) && env.lookup.LookupError? ==>
      resp == Response(StatusInternalServerError, ErrorBody("Database error"))
    ensures env.txBegins && Atoi(idParam).Some? && !NothingToUpdate(form) && env.lookup.Found? && Planned(form).None? ==>
      resp == Response(StatusBadRequest, ErrorBody(InvalidCategory))
    ensures UpdateAccepted(idParam, form, env) && env.exec.ExecFailed? ==>
      resp == Response(StatusInternalServerError, ErrorDetailBody("Update failed", env.exec.detail))
    ensures UpdateAccepted(idParam, form, env) && env.exec.Executed? && env.exec.rowsAffected == 0 ==>
      resp == Response(StatusNotFound, ErrorBody("No changes made or image not found"))
    ensures committed <==>
      UpdateAccepted(idParam, form, env) && env.exec.Executed? && env.exec.rowsAffected != 0 && env.commitOk
    ensures UpdateAccepted(idParam, form, env) && env.exec.Executed? && env.exec.rowsAffected != 0 && !env.commitOk ==>
      resp == Response(StatusInternalServerError, ErrorBody("Transaction commit failed"))
    ensures committed && env.reread.None? ==>
      resp == Response(StatusInternalServerError, ErrorBody("Failed to fetch updated data"))
    ensures committed && env.reread.Some? ==> resp == Response(StatusOK, UpdatedBody(env.reread.value))
    ensures resp.status == StatusOK <==> committed && env.reread.Some?
  {
    committed := false;
    executed := None;
    if !env.txBegins {
      return Response(StatusInternalServerError, ErrorBody("Failed to start transaction")), None, false;
    }
    var imageID := Atoi(idParam);
    if imageID.None? {
      return Response(StatusBadRequest, ErrorBody("Invalid image ID")), None, false;
    }
    if form.name == "" && form.categoryID == "" && form.description == "" {
      return Response(StatusBadRequest, ErrorBody("At least one field must be provided for update")), None, false;
    }
    match env.lookup {
      case NoRows =>
        return Response(StatusNotFound, ErrorBody("Image not found")), None, false;
      case LookupError =>
        return Response(StatusInternalServerError, ErrorBody("Database error")), None, false;
      case Found(_) =>
    }
    var built := BuildUpdate(form, imageID.value);
    if built.Failure? {
      return Response(StatusBadRequest, ErrorBody(built.error)), None, false;
    }
    executed := Some(built.value);
    match env.exec {
      case ExecFailed(detail) =>
        return Response(StatusInternalServerError, ErrorDetailBody("Update failed", detail)), executed, false;
      case Executed(rowsAffected) =>
        if rowsAffected == 0 {
          return Response(StatusNotFound, ErrorBody("No changes made or image not found")), executed, false;
        }
    }
    if !env.commitOk {
      return Response(StatusInternalServerError, ErrorBody("Transaction commit failed")), executed, false;
    }
    committed := true;
    match env.reread {
      case None =>
        resp := Response(StatusInternalServerError, ErrorBody("Failed to fetch updated data"));
      case Some(row) =>
        resp := Response(StatusOK, UpdatedBody(row));
    }
  }

  /** Every statement the handler executes binds each placeholder $1..$(k+1)
      to one parameter, ends with the image id, and carries one SET clause per
      non-empty field. */
  lemma ExecutedStatementWellFormed(idParam: string, form: UpdateForm, env: UpdateEnv)
    requires UpdateAccepted(idParam, form, env)
    ensures var st := Render(Planned(form).value, Atoi(idParam).value);
      && Placeholders(st.query) == Consecutive(1, |st.params|)
      && st.params[|st.params| - 1] == Int(Atoi(idParam).value)
      && |st.params| == |Planned(form).value| + 1
  {
    RenderWellFormed(Planned(form).value, Atoi(idParam).value);
  }
}
