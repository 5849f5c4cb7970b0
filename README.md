# Image portfolio: verified model of the session, collection and image-store logic

The system is a personal portfolio site. A Go backend (gin, PostgreSQL, S3)
serves an image store: registration and login with JWT cookies, upload of
images to S3 with a database row per image, a listing that presigns every
stored image's URL, and an edit that builds an `UPDATE` statement from the
fields the client sent. A React front end holds a session store mirrored into
`localStorage`, a collection page that lists, opens and deletes images, the
forms that drive the backend, a navigation bar, and a footer with
hover colours and a hidden login/registration pop-up.

This project models the logic of both halves in Dafny and proves what it
promises:

- `go_std.dfy` and `sql_text.dfy` are reference definitions. They cover the
  Go library behaviour the backend relies on (`strconv.Atoi`/`Itoa`,
  `filepath.Ext`, `strings.TrimSuffix`, byte-counting `len`). They also
  cover how PostgreSQL reads the backend's SQL text (`LIKE` patterns and
  `$n` placeholders).
- `update_query.dfy` models the dynamic `UPDATE images SET …` builder of
  `updateImage`. A method appends clauses step by step as the handler does.
  It is proved equal to a declarative plan, and the lemmas show that the
  placeholders are `$1 … $(k+1)` in order. They also show one clause per
  non-empty field in the fixed order, no trailing comma, and the image id
  bound last.
- `entrypoint.dfy` models the backend handlers:
  - the MIME whitelist;
  - the token lifetimes against the cookie max-ages;
  - the login, refresh and registration handlers;
  - the upload with its object key;
  - the listing, with its loop over the presigner;
  - the update handler's validation order.

  Database, S3, bcrypt and JWT results are oracle parameters.
- `api.dfy` models the client's request wrappers. Each one maps the outcome
  of its request to the value it returns or the error it throws.
- `auth_context.dfy` models the session store. `AuthProvider` and
  `LocalStorage` are classes whose methods update their fields.
- `collection.dfy`, `image_form.dfy`, `login_form.dfy`, `register_form.dfy`,
  `nav.dfy` and `footer.dfy` model the page and component handlers. Each
  is a class whose methods run one handler to completion on the outcome of
  its request.

Two facts of the code shape the session model:

- The session is read from `localStorage` when the provider mounts and is
  never fetched from the server (src/context/AuthContext.tsx:17-25).
- Logging out clears only local state and makes no request
  (src/context/AuthContext.tsx:35-41, src/components/nav.tsx:15-20).

## Model

| member | source | states |
|---|---|---|
| GoStd.Itoa | api/entrypoint.go:603 | `strconv.Itoa` gives a non-empty digit string with no leading zero whose decimal value is the number |
| GoStd.Atoi | api/entrypoint.go:542 | `strconv.Atoi` succeeds exactly on an optional sign followed by at least one ASCII digit whose signed decimal value fits a 64-bit `int`, and then returns that value |
| GoStd.AtoiItoa | api/entrypoint.go:586 | reading back a numeral written by `Itoa` gives the number again |
| GoStd.FormatInt | api/entrypoint.go:603 | `strconv.Itoa` on any `int` starts with a minus sign exactly for a negative number |
| GoStd.AtoiFormatInt | api/entrypoint.go:542 | every 64-bit `int`, negative ones included, reads back from its formatted numeral, and a leading '+' is accepted |
| GoStd.Ext | api/entrypoint.go:336 | `filepath.Ext` is a suffix of the path that starts with its last '.', contains no '/' and no further '.'; it is empty exactly when no '.' follows the last '/' |
| GoStd.TrimSuffix | api/entrypoint.go:603 | `strings.TrimSuffix` removes the suffix when the string ends with it and otherwise changes nothing |
| GoStd.Utf8Len | api/entrypoint.go:211 | Go's `len` counts UTF-8 bytes: between one and four per character |
| GoStd.AsciiUtf8Len | api/entrypoint.go:211 | on ASCII text the byte length equals the character count |
| SqlText.LikePrefix | api/entrypoint.go:426 | `LIKE 'images/%'` selects exactly the keys that start with `images/` |
| SqlText.PercentMatchesAll | api/entrypoint.go:426 | a `%` pattern matches every string |
| SqlText.DigitRun | api/entrypoint.go:579-604 | the digits read after a `$` are the longest run of digits there |
| SqlText.PlaceholdersAppend | api/entrypoint.go:579-604 | placeholders of concatenated SQL text are read piece by piece when the second piece cannot extend a number |
| SqlText.PlaceholdersNoDollar | api/entrypoint.go:575 | text without `$` holds no placeholder |
| SqlText.PlaceholderNumeral | api/entrypoint.go:603 | `$` followed by `Itoa(n)` is read as placeholder `n` |
| UpdateQuery.Planned | api/entrypoint.go:585-590 | the update is rejected exactly when category_id is given and is not an integer |
| UpdateQuery.Values | api/entrypoint.go:579-600 | one bound value per planned clause, in clause order |
| UpdateQuery.BuildUpdate | api/entrypoint.go:574-604 | the step-by-step builder (append clause with comma, bind value, count, trim comma, add WHERE) yields exactly the planned statement or the "Invalid category ID" rejection |
| UpdateQuery.AppendClause | api/entrypoint.go:579-583 | one builder step extends the query by the clause numbered after the values bound so far and binds its value |
| UpdateQuery.FinishQuery | api/entrypoint.go:603 | trimming the last comma and appending ` WHERE id = $(k+1)` gives the rendered statement |
| UpdateQuery.PlannedSteps | api/entrypoint.go:579-600 | the assignments taken field by field in the order name, category_id, description are the plan |
| UpdateQuery.PlannedColumns | api/entrypoint.go:579-600 | a column is set exactly when its field is non-empty, at most once, in the fixed order, with that field's value |
| UpdateQuery.ClausePlaceholders | api/entrypoint.go:580 | a SET clause carries exactly the one placeholder it was numbered with |
| UpdateQuery.SetListEnds | api/entrypoint.go:603 | a non-empty SET list starts with a space and ends with a digit, not a comma |
| UpdateQuery.SetListPlaceholders | api/entrypoint.go:579-600 | the SET list numbered from n holds placeholders n, n+1, … consecutively |
| UpdateQuery.RenderWellFormed | api/entrypoint.go:575-604 | the statement's placeholders are $1 … $(k+1) in order, k+1 values are bound with the image id last, and the text before ` WHERE` does not end in a comma |
| UpdateQuery.RenderPlaceholders | api/entrypoint.go:575-604 | the whole statement reads as placeholders 1 to k+1 |
| UpdateQuery.HeadEnd | api/entrypoint.go:603 | no comma is left before ` WHERE` |
| UpdateQuery.WherePlaceholders | api/entrypoint.go:603 | the WHERE clause carries exactly the placeholder after the SET list's |
| UpdateQuery.AssemblePlaceholders | api/entrypoint.go:603 | SET list numbered 1…k followed by the WHERE clause reads as 1…k+1 |
| UpdateQuery.PlannedUpdateWellFormed | api/entrypoint.go:574-604 | every accepted form yields a well-formed statement binding the planned values and then the image id |
| UpdateQuery.AllFieldsExample | api/entrypoint.go:579-604 | all three fields give `UPDATE images SET name = $1, category_id = $2, description = $3 WHERE id = $4` with the category parsed to an int |
| UpdateQuery.DescriptionOnlyExample | api/entrypoint.go:596-604 | a description alone gives `UPDATE images SET description = $1 WHERE id = $2` |
| UpdateQuery.BadCategoryExample | api/entrypoint.go:586-590 | a non-numeric category rejects the whole update |
| UpdateQuery.TerminatedSnoc | api/entrypoint.go:579-600 | proof step of the builder and numbering lemmas: the comma-terminated clause text grows by one numbered clause per appended assignment |
| UpdateQuery.TerminatedIsSetList | api/entrypoint.go:603 | proof step of the builder and numbering lemmas: the comma-terminated clauses are the comma-separated SET list plus one final comma |
| UpdateQuery.SetListStep | api/entrypoint.go:579-600 | proof step of the builder and numbering lemmas: adding a clause in front of a consecutively numbered list keeps the numbering consecutive |
| UpdateQuery.CommaJoinPlaceholders | api/entrypoint.go:579-600 | proof step of the builder and numbering lemmas: joining clause `$n` to clauses `$(n+1)…` with a comma keeps the numbers consecutive |
| UpdateQuery.ConsecutiveCons | api/entrypoint.go:582 | proof step of the builder and numbering lemmas: counting up from n is n followed by counting up from n+1 |
| UpdateQuery.ConsecutiveSnoc | api/entrypoint.go:604 | proof step of the builder and numbering lemmas: counting up from 1 then adding the next number extends the run |
| UpdateQuery.HeadThen | api/entrypoint.go:575 | proof step of the builder and numbering lemmas: `UPDATE images SET` contributes no placeholder |
| Entrypoint.IsValidImageType | api/entrypoint.go:44-51 | true exactly for image/jpeg, image/png and image/webp |
| Entrypoint.GenerateAccessToken | api/entrypoint.go:64-74 | the access token lives 30 minutes |
| Entrypoint.GenerateRefreshToken | api/entrypoint.go:76-86 | the refresh token lives 7 days |
| Entrypoint.LoginUserHandler | api/entrypoint.go:172-195 | missing or empty fields give 400; 200 exactly when bound and the credentials check passes; then an access cookie on "/" and a refresh cookie on "/refresh-token", both for the requesting user, carrying GenerateAccessToken with max-age 1800 and GenerateRefreshToken with max-age 7·24·3600; bad credentials give 401 "Invalid credentials" and no cookies; otherwise no cookies |
| Entrypoint.RefreshTokenHandler | api/entrypoint.go:278-306 | 200 exactly for a present, valid refresh cookie, which gets a fresh 30-minute access cookie for the token's user; otherwise 401 and no cookie |
| Entrypoint.CookiesMatchTokens | api/entrypoint.go:188-189 | every cookie set by login or refresh has a max-age in seconds equal to its token's lifetime |
| Entrypoint.CreateUserHandler | api/entrypoint.go:198-252 | invalid input, then too-short username/password (in bytes), are rejected before the existence query; a taken username or email gives 409 and no insert; a failed lookup gives 500 "Database error", a failed hash 500 "Gagal hash password" and a failed insert 500 "Gagal membuat akun", each with the table unchanged; a valid new user with every step succeeding gets 201 "User berhasil dibuat" and exactly that row is added; the users table changes only on 201 |
| Entrypoint.CreateUserKeepsAccountsUnique | api/entrypoint.go:218-249 | registration preserves "no two accounts share a username or email" |
| Entrypoint.ByteLengthExample | api/entrypoint.go:211 | the minimum lengths count bytes: "éé" passes, "ab" does not |
| Entrypoint.ObjectKey | api/entrypoint.go:336-337 | the key is `images/` + uuid + the file's extension, and it matches the listing's `LIKE 'images/%'` |
| Entrypoint.UploadWithFile | api/entrypoint.go:330-375 | each return: a type off the whitelist is 400 "Invalid image format. Only PNG/JPEG allowed" with nothing put; a failed insert is 500 "Database error" and a failed put 500 "S3 upload failed", with nothing put or committed; a failed commit is 500 "Transaction commit failed" with the object put under the key and no row; otherwise the row with the form's fields and the key is committed and the answer is 200 with id, key and "Image uploaded"; the answer is 200 exactly when a row is committed |
| Entrypoint.UploadImageAsWritten | api/entrypoint.go:316-330 | the handler as written panics exactly when the transaction begins and the form has no image part |
| Entrypoint.MissingImagePanics | api/entrypoint.go:326-330 | a form without an image makes the handler as written panic |
| Entrypoint.UploadImage | api/entrypoint.go:316-376 | agrees with the handler as written on every request that handler answers (including "Failed to start transaction" 500); a missing image, where the handler panics, is exactly 400 "Invalid image format. Only PNG/JPEG allowed" with nothing put or committed; a committed row has the form's fields and the object key of a whitelisted file |
| Entrypoint.UploadedKeysAreListed | api/entrypoint.go:336-337 | every committed upload is selected by the listing's filter |
| Entrypoint.CommitFailureOrphansObject | api/entrypoint.go:356-373 | a failed commit leaves the S3 object in place with no row |
| Entrypoint.Listed | api/entrypoint.go:417-426 | the query selects exactly the rows whose key matches `images/%` |
| Entrypoint.SignedEntries | api/entrypoint.go:436-468 | successful presigning gives one entry per row, in order, with that row's fields and URL; a failure names a row whose key has no URL |
| Entrypoint.SignedFailureSticks | api/entrypoint.go:455-458 | once presigning a row fails, the whole listing fails with that key |
| Entrypoint.ListBody | api/entrypoint.go:470-475 | the corrected listing body is always an array of the entries |
| Entrypoint.ListBodyAsWritten | api/entrypoint.go:470-475 | as written, a non-empty listing is the array |
| Entrypoint.EmptyListingIsNotAnArray | api/entrypoint.go:470-472 | as written, the empty listing is an object, not an array |
| Entrypoint.ListingResponse | api/entrypoint.go:416-476 | the corrected answer: 200 exactly when every selected row presigns, and then an array with one entry per row |
| Entrypoint.ListingDiffersOnlyWhenEmpty | api/entrypoint.go:470-475 | the handler's answer and the corrected one differ only on an empty listing (`{"images": []}` against `[]`); every corrected 200 carries an array |
| Entrypoint.GetAllImages | api/entrypoint.go:416-476 | the loop presigns the selected rows in order, stopping at the first failure with 500 naming its key; a query failure gives 500; a query that selects no row gives 200 with `{"images": []}`; otherwise a 200 carries one array entry per row |
| Entrypoint.ListedKeysHavePrefix | api/entrypoint.go:426 | every listed image has a key starting with `images/` |
| Entrypoint.UpdateImage | api/entrypoint.go:532-647 | a statement is executed exactly when the transaction begins, the id is an integer, some field is given, the row exists and the category parses; it is the planned statement; every early return (no transaction 500, bad id 400, no field 400, missing row 404, lookup error 500, bad category 400, failed update 500 with its detail, no row affected 404, failed commit 500, failed re-read 500) answers as the handler does; the transaction is committed exactly when the update touched a row and the commit succeeded; 200 exactly when it was committed and re-read, with the re-read row |
| Entrypoint.ExecutedStatementWellFormed | api/entrypoint.go:574-607 | every executed statement has placeholders $1…$(k+1) and binds the id last |
| Api.Or | src/Api.tsx:33 | `v \|\| fallback`: an absent or empty string gives the fallback |
| Api.ErrorFieldOr | src/Api.tsx:31-37 | with a response, the thrown message is `data.error` or the fallback (a null body throws a TypeError); without one, "Network error" |
| Api.MessageFieldOr | src/Api.tsx:73-75 | the thrown message is `data.message` when non-empty, otherwise the fallback, also with no response or a null body |
| Api.LoginUser | src/Api.tsx:24-38 | success returns the data unchanged; failure throws `data.error` or "Login failed", or "Network error" |
| Api.CreateUser | src/Api.tsx:40-51 | the same mapping with "User creation failed" |
| Api.UploadImage | src/Api.tsx:53-63 | success returns the data; failure rethrows the axios error unchanged |
| Api.FetchAllImages | src/Api.tsx:65-77 | success returns the data; failure throws an Error whose message is `data.message` or "Failed to fetch images", never empty |
| Api.DeleteImageById | src/Api.tsx:79-85 | success resolves to nothing; failure throws an Error whose message is `data.message` or "Failed to delete image", never empty |
| Api.FetchCategories | src/Api.tsx:87-95 | success returns the data; failure rethrows the axios error unchanged |
| Api.ServerErrorTextIgnoredByListing | src/Api.tsx:72-84 | the backend's `{error: …}` bodies never reach the listing or delete message: those always read as the fallback |
| Api.LoginAndCreateAgree | src/Api.tsx:31-50 | login and registration map a failure alike except for their own fallback text |
| AuthContext.LocalStorage.GetItem | src/context/AuthContext.tsx:19 | `getItem` is null exactly for a missing key, else the stored value |
| AuthContext.LocalStorage.SetItem | src/context/AuthContext.tsx:31-32 | `setItem` updates exactly that key |
| AuthContext.LocalStorage.RemoveItem | src/context/AuthContext.tsx:39-40 | `removeItem` removes exactly that key |
| AuthContext.SessionFrom | src/context/AuthContext.tsx:17-25 | signed in exactly when the stored flag is "true"; the user is exactly the stored user, read independently |
| AuthContext.AuthProvider.constructor | src/context/AuthContext.tsx:17-25 | mounting reads both fields from storage |
| AuthContext.AuthProvider.Login | src/context/AuthContext.tsx:27-33 | after `login(u)` the state is (true, u) and storage has the flag "true" and user u |
| AuthContext.AuthProvider.Logout | src/context/AuthContext.tsx:35-41 | after `logout()` the state is (false, null) and both keys are gone |
| AuthContext.ReloadAfterLogin | src/context/AuthContext.tsx:27-33 | a reload after login mounts the same signed-in state |
| AuthContext.ReloadAfterLogout | src/context/AuthContext.tsx:35-41 | a reload after logout mounts signed out, whatever was stored |
| AuthContext.LogoutIdempotent | src/context/AuthContext.tsx:35-41 | logging out twice leaves what logging out once does |
| AuthContext.OtherKeysUntouched | src/context/AuthContext.tsx:31-40 | login and logout leave every other storage key as it was |
| AuthContext.InitialStateMayBeInconsistent | src/context/AuthContext.tsx:17-25 | a storage with only one of the two keys mounts signed out with a user, or signed in with none |
| AuthContext.MutatorsLeaveConsistentStorage | src/context/AuthContext.tsx:27-41 | after either mutator a reload is consistent (signed in exactly when a user is known) |
| AuthContext.UseAuth | src/context/AuthContext.tsx:54-59 | outside a provider `useAuth` throws its error; inside it returns the context |
| Collection.RemoveById | src/pages/Collection.tsx:48 | the filter keeps exactly the images with another id |
| Collection.RemoveByIdAppend | src/pages/Collection.tsx:48 | the filter works piecewise, so the remaining images keep their order |
| Collection.RemoveByIdIdempotent | src/pages/Collection.tsx:48 | filtering the same id twice changes nothing further |
| Collection.RemoveByIdAbsent | src/pages/Collection.tsx:48 | filtering an id no image has leaves the list as it was |
| Collection.RemoveByIdExample | src/pages/Collection.tsx:48 | every record with the id goes; the rest stay in order |
| Collection.AfterShowImages | src/pages/Collection.tsx:28-39 | success replaces the images and keeps the error; failure keeps the images and sets a non-empty error; either way loading ends and the list is shown |
| Collection.FetchFallbackUnreachable | src/pages/Collection.tsx:34 | the page shows the wrapper's message, so its own fallback text is never used |
| Collection.AfterDelete | src/pages/Collection.tsx:45-55 | a confirmed delete filters the id out and clears the selection exactly when the selected image has that id; a failed delete changes nothing |
| Collection.CollectionPage.constructor | src/pages/Collection.tsx:15-20 | the page starts empty, idle, hidden and with no selection |
| Collection.CollectionPage.HandleShowImages | src/pages/Collection.tsx:28-39 | the handler's new state is `AfterShowImages` of the old one |
| Collection.CollectionPage.HandleHideImages | src/pages/Collection.tsx:41-43 | only `showImages` changes, to false |
| Collection.CollectionPage.HandleDelete | src/pages/Collection.tsx:45-55 | the new state is `AfterDelete` of the old one, and the alert matches the outcome |
| Collection.CollectionPage.HandleImageClick | src/pages/Collection.tsx:57-59 | only the selection changes, to the clicked image |
| Collection.CollectionPage.ModalDelete | src/pages/Collection.tsx:153-156 | the modal's delete performs the delete and always closes the modal |
| Collection.CollectionPage.Dispatch | src/pages/Collection.tsx:23-26 | a signed-out visitor is redirected to "/im-not-supposed-here" with no state change and no request; signed in, each interaction runs its handler |
| Collection.DeleteTwice | src/pages/Collection.tsx:47-48 | a second confirmed delete of the same id leaves the list as the first did |
| Collection.FailedRefreshKeepsSnapshot | src/pages/Collection.tsx:31-34 | a failed refresh after a success keeps the fetched list and shows the error |
| ImageForm.FormData.Append | src/components/image_form.tsx:43-47 | each append adds one entry at the end |
| ImageForm.Submitted | src/components/image_form.tsx:43-47 | the form has exactly the keys name, category_id, description, image in that order |
| ImageForm.ImageUploadForm.constructor | src/components/image_form.tsx:5-9 | the form starts with empty fields, no file and no categories |
| ImageForm.ImageUploadForm.LoadCategories | src/components/image_form.tsx:12-23 | success replaces the categories; failure changes nothing |
| ImageForm.ImageUploadForm.HandleFileChange | src/components/image_form.tsx:25-33 | a picked file of another type than PNG or JPEG is dropped with an alert; anything else is kept; a kept file is always PNG or JPEG |
| ImageForm.ImageUploadForm.HandleSubmit | src/components/image_form.tsx:35-59 | without a file nothing is sent; otherwise the form sent holds the current field values; success resets the fields and alerts the server's message; failure alerts and changes nothing |
| ImageForm.ClientTypesStrictSubset | src/components/image_form.tsx:27 | every type the client keeps the server accepts, and WebP is accepted by the server only |
| ImageForm.PostForm | api/entrypoint.go:344-346 | the value read for a key is the text of the first text entry under that key, and "" when there is none |
| ImageForm.FormFile | api/entrypoint.go:326 | a file part is found exactly when the form has a file entry under that key, and it carries the first such entry's name and type |
| ImageForm.FirstExists | api/entrypoint.go:326 | whenever some entry is filed under a key a first one is, so the form readers are defined by it alone |
| ImageForm.SubmittedFormDecodes | src/components/image_form.tsx:43-50 | the server reads back exactly the sent fields and file, so this client never reaches the missing-image panic |
| ImageForm.KeptFilePassesServerCheck | src/components/image_form.tsx:26-32 | a file the client kept passes the server's type check, and an upload whose oracles succeed commits it |
| LoginForm.LoginForm.HandleSubmit | src/components/login_form.tsx:14-27 | the messages are cleared before the request; success shows the server's message, signs in the typed username and navigates to "/collection"; failure shows the error message and leaves session and storage untouched; exactly one message is set afterwards |
| RegisterForm.RegisterForm.HandleSubmit | src/components/register_form.tsx:11-22 | the messages are cleared before the request; success sets only the success message, failure only the error; only the form itself changes (no session store) |
| Nav.Menu | src/components/nav.tsx:37-52 | "Show" is listed exactly when signed in; "Log Out" exactly when signed in with a non-empty user |
| Nav.Greeting | src/components/nav.tsx:62-71 | the greeting "Hai <user>" shows exactly when Log Out does |
| Nav.NavBar.ToggleDropdown | src/components/nav.tsx:22-24 | the drop-down's open flag is negated, so two toggles restore it |
| Nav.NavBar.HandleLogout | src/components/nav.tsx:15-20 | the logout marker is stored, then the session is signed out, then the page goes to "/" |
| Nav.LoggingOutFlagSurvives | src/components/nav.tsx:16-17 | the marker outlives the logout, and a reload shows only the public entries |
| Nav.AcceptedLoginOffersLogOut | src/components/nav.tsx:49-52 | after a login the server accepted, Show, Log Out and the greeting are all offered |
| Nav.ShowWithoutLogOut | src/components/nav.tsx:44-52 | a storage with only the flag offers Show without a way to log out |
| Footer.GetRandomColor | src/components/footer.tsx:22-29 | the loop stops at the first draw whose palette colour differs from the current one and returns that palette colour |
| Footer.PaletteAvoidsTransparent | src/components/footer.tsx:12-13 | no palette colour is the resting colour |
| Footer.Popup | src/components/footer.tsx:114-115 | the pop-up shows registration exactly while `showRegister` |
| Footer.Footer.constructor | src/components/footer.tsx:13-15 | both slots start transparent, the pop-up hidden, registration chosen |
| Footer.Footer.HandleToggle | src/components/footer.tsx:18-20 | `showRegister` is negated and nothing else changes |
| Footer.Footer.HandleMouseEvent | src/components/footer.tsx:31-35 | a fresh copy of the slots replaces the state; entering gives slot i a palette colour other than its old one, leaving makes it transparent; the other slot is unchanged |

## Left out

- Routing, middleware, CORS and cookie flags (`HttpOnly`, domain, secure) are left out: they are framework plumbing. Only cookie names, paths and max-ages are modelled.
- The `deleteImage`, `getOneImage`, `getCategories`, `addCategory`, `MeHandler`, `ping` and `LogoutHandlerGin` handlers are not part of this model. The same holds for the older backends `api/main.go` and `api/index.go`.
- PostgreSQL, S3, bcrypt, JWT signing and parsing, and the UUID generator are oracle parameters. So are axios requests and `Math.random`. Rows that fail to scan are not modelled.
- The absolute expiry time `time.Now().Add(…)` is left out. Only durations are modelled.
- `LIKE` escapes (`\`) are not modelled. The pattern used here has none.
- Transactions are not modelled as such. The update handler's deferred rollback on an early return shows as `committed` being false in `Entrypoint.UpdateImage`, and the upload's as no committed row.
- Entrypoint.GenerateAccessToken: the signed JWT string is not modelled, only its subject and lifetime.
- Api.Message: the `TypeError` text is that of V8-based browsers. Other engines word it differently.
- Asynchronous interleaving of handlers is not modelled. Each handler runs to completion on one outcome. React's batching of state updates and stale closures are not modelled either.
- Footer drag-end hit testing uses DOM rectangles and floating-point coordinates, so it is left out. Styling, animation and the static pages are left out too.
- Footer.GetRandomColor: the draws are a finite oracle sequence in which some draw differs from the current colour. The loop cannot be shown to stop for an arbitrary random source.
- Collection.CollectionPage.Dispatch states the resulting state only for show, delete and closing the upload form. The other interactions are single assignments covered by the handlers' own contracts.
- The `console` logging in every handler is left out.
- The client models (`Api.FetchAllImages`, `Collection`) take the listing's data to be an array of images. The object the backend sends for an empty listing is not carried over to the client; it is the second row under Findings.

## Findings

| source | as written | input that shows it | evidently intended | confidence | as-written member | corrected member |
|---|---|---|---|---|---|---|
| api/entrypoint.go:326-330 | the error of `FormFile("image")` is discarded, so with no image part `defer file.Close()` calls a method on a nil `multipart.File` and panics (no recovery middleware is installed) | a multipart form with no `image` part | reject the request with 400 | high (not executed) | Entrypoint.UploadImageAsWritten | Entrypoint.UploadImage |
| api/entrypoint.go:470-475 | an empty listing is sent as the object `{"images": []}`, a non-empty one as an array | a table with no row under `images/` | an empty array, the shape the client's `ImageData[]` expects | high (not executed) | Entrypoint.GetAllImages | Entrypoint.ListingResponse |
