# Login screen and user slice of GIGSTER, in Dafny

This project models two pieces of client-side logic of the GIGSTER mobile app:

- **The `user` slice of the Redux store** (`frontend/reducers/user.js`). It is one profile record (`state.value`) that fourteen reducers change in place. `User.UserState` is that record as a class, with one field per key of `initialState.value` and one method per reducer. `User.Profile` is a snapshot of the record, `User.Reduce` is the reducer as a function of (state, action), and `User.Run` dispatches a sequence of actions in order. `removeMedia`'s `filter(e => e !== x)` is `User.Without`.
- **The decision logic of the login screen** (`frontend/components/Login.js`):
  - the two Yup schemas, as the set of failing tests (`Login.SignInViolations`, `Login.SignUpViolations`);
  - Formik's rule that a handler runs only when the schema reports nothing;
  - `handleSubmitSignUp` (`Login.HandleSubmitSignUp`);
  - what `handleSubmitSignIn` does with the parsed response: the form errors it sets, the store actions it dispatches in order, whether it navigates, and whether it throws. `Login.InterpretSignIn` gives this as a value and `Login.ApplySignInResponse` runs it against a `UserState`.

JavaScript values are `Js.Value`: JSON plus `undefined`. The model writes out the semantics the screen depends on:
- truthiness;
- property reads, which throw on `null`/`undefined`;
- `delete`.

Store payloads are whatever the server sent, so every scalar field and sub-record of the profile is a `Js.Value`. Media references are an abstract type compared with `==`. This stands for `!==`, which is reference identity on objects.

Two behaviours of the library code are parameters:
- the email-address syntax check (`isEmail: string -> bool`);
- `moment(x).format("DD/MM/YYYY")` (`formatDate: Value -> string`).

As written, the screen imports three action creators under names the slice does not export, and a successful sign-in throws at the fourth dispatch (see Findings). `Login.InterpretSignInAsWritten` models that code. `Login.InterpretSignIn` and `Login.ApplySignInResponse` use the slice's real names.

## Model

| member | source | states |
|---|---|---|
| `User.UserState.constructor` | frontend/reducers/user.js:3-31 | the new record is `initialState.value`: every scalar field and the token null, address leaves null, `artist.member` 0, empty `genres` and `favoritesGenres`, both flags false, no media |
| `User.UserState.UpdateUsername` | frontend/reducers/user.js:37-39 | only `username` is assigned (frame `this`username`), and it now holds the payload |
| `User.UserState.UpdateEmail` | frontend/reducers/user.js:40-42 | only `email` changes, to the payload |
| `User.UserState.UpdateFirstName` | frontend/reducers/user.js:43-45 | only `firstName` changes, to the payload |
| `User.UserState.UpdateLastName` | frontend/reducers/user.js:46-48 | only `lastName` changes, to the payload |
| `User.UserState.UpdateAddress` | frontend/reducers/user.js:49-51 | the whole `address` sub-record is replaced by the payload; nothing else changes |
| `User.UserState.UpdatePhoneNumber` | frontend/reducers/user.js:52-54 | only `phoneNumber` changes, to the payload |
| `User.UserState.GetArtistInfos` | frontend/reducers/user.js:55-58 | the whole `artist` sub-record is replaced by the payload; nothing else changes |
| `User.UserState.GetHostInfos` | frontend/reducers/user.js:59-62 | the whole `host` sub-record is replaced by the payload; nothing else changes |
| `User.UserState.UpdateBirthDate` | frontend/reducers/user.js:63-65 | only `birthDate` changes, to the payload |
| `User.UserState.UpdateToken` | frontend/reducers/user.js:66-68 | only `token` changes, to the payload |
| `User.UserState.UpdateArtist` | frontend/reducers/user.js:69-71 | only `isArtist` changes, to the payload; `isHost` and the sub-records are untouched |
| `User.UserState.UpdateHost` | frontend/reducers/user.js:72-74 | only `isHost` changes, to the payload; `isArtist` and the sub-records are untouched |
| `User.UserState.AddMedia` | frontend/reducers/user.js:75-77 | `medias` becomes the old list plus the payload at the end: one longer, payload last, earlier elements unchanged |
| `User.UserState.RemoveMedia` | frontend/reducers/user.js:78-80 | `medias` becomes the filtered old list; the payload no longer occurs and the list is no longer |
| `User.UserState.Dispatch` | frontend/reducers/user.js:33-82 | running the slice reducer on the record leaves it equal to `Reduce` of its old snapshot and the action |
| `User.ReduceWrites` | frontend/reducers/user.js:37-80 | a setter stores its payload in its one target field; `addMedia` appends; `removeMedia` filters |
| `User.ReduceFrame` | frontend/reducers/user.js:37-80 | every field other than the action's target keeps its value |
| `User.SetterIdempotent` | frontend/reducers/user.js:37-74 | applying the same setter twice is applying it once |
| `User.SetterOverwrites` | frontend/reducers/user.js:37-74 | a later setter of the same field erases all trace of an earlier one |
| `User.ArtistInfosReplaceWhole` | frontend/reducers/user.js:55-58 | the result of `getArtistInfos` does not depend on the old `artist` sub-record (no merge), and `artist` equals the payload |
| `User.HostInfosReplaceWhole` | frontend/reducers/user.js:59-62 | the result of `getHostInfos` does not depend on the old `host` sub-record, and `host` equals the payload |
| `User.FlagsIndependent` | frontend/reducers/user.js:69-74 | `updateArtist` changes neither `isHost` nor a sub-record; `updateHost` changes neither `isArtist` nor a sub-record |
| `User.FlagWithoutSubRecord` | frontend/reducers/user.js:69-71 | no reducer keeps flags and sub-records consistent: from the initial state, `updateArtist(true)` leaves the empty artist sub-record |
| `User.Without` | frontend/reducers/user.js:79 | the filtered list no longer contains the payload and is shorter by exactly its number of occurrences |
| `User.WithoutMembers` | frontend/reducers/user.js:79 | an element survives the filter iff it was in the list and differs from the payload |
| `User.WithoutCount` | frontend/reducers/user.js:79 | every other element keeps its number of occurrences; the payload's drops to 0 |
| `User.WithoutConcat` | frontend/reducers/user.js:79 | the filter distributes over concatenation, so kept elements keep their relative order |
| `User.WithoutIdempotent` | frontend/reducers/user.js:78-80 | filtering twice equals filtering once |
| `User.WithoutUnchangedIffAbsent` | frontend/reducers/user.js:78-80 | the filter leaves the list unchanged iff the payload is absent |
| `User.RemoveMediaIdempotent` | frontend/reducers/user.js:78-80 | `removeMedia(x)` twice equals once on the whole state, and never lengthens `medias` |
| `User.RemoveMediaNoOpIffAbsent` | frontend/reducers/user.js:78-80 | `removeMedia(x)` leaves the whole state unchanged iff `x` is not in `medias` |
| `User.AddThenRemoveMedia` | frontend/reducers/user.js:75-80 | `addMedia(x)` then `removeMedia(x)` leaves `medias` with every copy of `x` removed, so it restores the state iff `x` was absent |
| `User.RunConcat` | frontend/components/Login.js:82-93 | dispatching two action sequences one after the other equals dispatching their concatenation |
| `User.RunUntargeted` | frontend/components/Login.js:82-93 | a field that no dispatched action targets keeps its value |
| `User.RunLastWriteWins` | frontend/components/Login.js:82-93 | after a sequence of dispatches, a setter's field holds its payload if no later action targets that field |
| `Js.Get` | frontend/components/Login.js:75 | reading a property throws exactly when the value is null or undefined; otherwise it yields the own property or undefined |
| `Js.Delete` | frontend/components/Login.js:80 | `delete v.key` throws exactly on null/undefined; an object keeps exactly its other properties (its map minus `key`, so `key` reads as undefined and every other key is unchanged); any other value is left as it is |
| `Login.EmailViolations` | frontend/components/Login.js:39-41 | the email field passes iff non-empty and syntactically valid; "Email is required" iff empty; "Invalid email address" iff non-empty and invalid; no other message |
| `Login.SignInViolations` | frontend/components/Login.js:38-43 | the sign-in schema passes iff the email is non-empty and valid and the password non-empty; no length limit; "Email is required", "Invalid email address" and "Password is required" each appear exactly when their test fails, and no other message appears |
| `Login.NewPasswordViolations` | frontend/components/Login.js:51-53 | the sign-up password passes iff it has at least 6 characters; "Password is required" iff it is empty; the length message iff it has 1 to 5 characters (the empty field reaches the length test as `undefined`, which passes it); no other message |
| `Login.ConfirmViolations` | frontend/components/Login.js:54-56 | the confirmation passes iff non-empty and equal to the password; "Confirm Password is required" iff it is empty; "Passwords must match" iff it is non-empty and differs (an empty confirmation reaches `oneOf` as `undefined`, which passes it); no other message |
| `Login.SignUpViolations` | frontend/components/Login.js:46-57 | the sign-up schema passes iff username non-empty, email non-empty and valid, password of length ≥ 6, and confirmation equal to the password; each of the seven messages appears exactly when its test fails: a required message iff its field is empty, "Invalid email address" iff the email is non-empty and invalid, the length message iff the password has 1 to 5 characters, the match message iff the confirmation is non-empty and differs; no other message appears, so an empty field reports only its required message |
| `Login.OnlySignUpHasMinimumLength` | frontend/components/Login.js:38-57 | a one-character password passes the sign-in schema and fails only the length test of the sign-up schema |
| `Login.SubmitSignIn` | frontend/components/Login.js:64-72 | a request is posted iff the sign-in schema passes, and its body carries exactly the email and password |
| `Login.SubmitSignUp` | frontend/components/Login.js:190-198 | the sign-up handler runs iff the sign-up schema passes, that is iff the username is non-empty, the email non-empty and valid, the password at least 6 characters and the confirmation equal to it; when it runs, its reaction is `handleSubmitSignUp`'s |
| `Login.HandleSubmitSignUp` | frontend/components/Login.js:103-115 | mismatch: errors exactly `{confirmPassword: "Passwords must match"}`, submitting reset, no wizard call. Match: `updateUser` with exactly username, email and password, then `getNextPage(2)`, in that order |
| `Login.SchemaPrecludesMismatchBranch` | frontend/components/Login.js:103-115 | behind the sign-up schema, the handler's mismatch branch never runs: a submitted form sets no error and advances to page 2 |
| `Login.InterpretSignIn` | frontend/components/Login.js:74-98 | submitting is reset iff the response is not nullish. Errors are set iff `result` is falsy, and then they are exactly `{general: data.error}`. It navigates iff the response is a success, and dispatches actions iff it navigates. Otherwise it throws. Every action is a setter |
| `Login.InterpretSignInAsWritten` | frontend/components/Login.js:80-95 | as written it never navigates. On a success it has already reset submitting and set no error, dispatches the first three actions of the corrected continuation (token, username, email), then throws a TypeError from calling an `undefined` import. Otherwise it behaves as `InterpretSignIn` |
| `Login.RunProfileActionsHead` | frontend/components/Login.js:82-87 | the first six dispatches store token, username, email, first name, last name and address |
| `Login.RunProfileActionsTail` | frontend/components/Login.js:88-93 | the last six dispatches store phone number, artist, host, birth date and both flags |
| `Login.RunProfileActions` | frontend/components/Login.js:82-93 | the twelve dispatches store each payload in its own field and leave `medias` alone |
| `Login.SuccessActions` | frontend/components/Login.js:79-93 | on a success exactly the twelve profile actions read from the response are dispatched |
| `Login.SignInSuccessPopulatesStore` | frontend/components/Login.js:79-95 | on success: `updateToken` first, then `updateUsername`. The email comes from top-level `data.email`. The artist is stored without `_id` and the birth date is the formatted one. Every other field holds the response's value, `medias` is unchanged, and the screen navigates |
| `Login.SignInFailureLeavesStore` | frontend/components/Login.js:76-78 | a falsy `result` sets errors to exactly `{general: data.error}`, resets submitting, dispatches nothing, leaves the store unchanged and does not navigate |
| `Login.SignInKeepsMedias` | frontend/components/Login.js:74-98 | neither the corrected nor the as-written continuation changes `medias`, whatever the response |
| `Login.SignInAsWrittenStopsAfterEmail` | frontend/components/Login.js:82-85 | as written, a success stores only token, username and email, then throws without navigating; every other field keeps its old value |
| `Login.AsWrittenLosesFirstName` | frontend/components/Login.js:85 | on `{result: true, data: {artist: {}, firstname: "Ada"}}` the first name stays null as written, but is "Ada" when the imports are corrected |
| `Login.ApplySignInResponse` | frontend/components/Login.js:74-98 | running the continuation against the store returns `InterpretSignIn` of the response, and leaves the store equal to dispatching its actions in order |

## Left out

- Network I/O: `fetch`, the `FRONT_IP` URL and `response.json()`. The parsed response is an input. The promise chain has no `.catch`, so a rejected request or a body that is not JSON never resets the submitting flag. This is not modelled. A throw inside the continuation is reported as `thrown`. Only the throw on a null or undefined response at line 75 leaves the flag set, because it comes before `setSubmitting(false)` at line 76. The throws at line 80 (`delete` on a missing artist) and line 85 (as written) come after it, so there `submittingReset` is true.
- The Yup and Formik libraries:
  - `isEmail` stands in for the email regex.
  - Formik hands the schema `undefined` for an empty text field. Every test other than `required` passes on `undefined`, so an empty field reports only its required message. The model writes this as explicit guards on the email, length and match tests.
  - When several tests fail on one field, the model returns all of them as a set. Which one message Formik displays is not modelled.
  - `min(6)` is modelled as a count of Dafny characters. JavaScript counts UTF-16 code units, so the two differ on characters outside the Basic Multilingual Plane.
  - Field values are strings, as Formik's initial values and the text inputs give them. `null`/`undefined` form values are not modelled.
- `moment(...).format("DD/MM/YYYY")`: the parameter `formatDate`. Invalid dates and the exact format are not modelled. `moment(undefined)` is the current date, so for a response without `birthdate` the stored date depends on the clock; a fixed `formatDate` does not capture that.
- React rendering, the `isSignIn` toggle, the `StyleSheet`, and React Navigation. Navigation is only the `navigated` flag.
- `console.log`: only the property read it performs at line 75 is modelled, because it throws on a null response.
- Redux Toolkit and Immer: the reducers are modelled directly, as methods on the record and as `User.Reduce`. Immer's copy-on-write and the fact that stored payload objects stay shared with the response object are not modelled: payloads are values.
- Numbers are modelled as integers, so NaN, fractions and -0 do not arise in truthiness. A property read on a primitive yields `undefined`. Built-in properties such as `length` are never read by the screen and are not modelled.
- Media references: `!==` is modelled as inequality of an abstract type with equality. Distinct objects are distinct values.
- User.Without and the `removeMedia` lemmas hold for primitive media such as URL strings. Inside an Immer reducer, an element of `medias` that is a plain object is read as a draft proxy, so `e !== action.payload` holds even for the very same object, and `removeMedia` of an object removes nothing. The model does not capture this.
- The texts of thrown TypeErrors depend on the JavaScript engine. Those in the model are illustrative; the contracts promise only whether an evaluation throws.
- `backend/app.js`: Express middleware wiring with no logic of its own. The `auth` middleware, the routers and the sign-in endpoint are not part of this model, so the server-side auth gate is not modelled.
- Three behaviours of the code worth stating explicitly:
  - `addMedia(x)` followed by `removeMedia(x)` restores the previous list only when `x` was absent, because the filter removes every copy.
  - A successful sign-in does not populate the store fully as written (see Findings).
  - The email stored on sign-in is read from the top level of the response, `data.email`, not from `data.data`.

## Findings

| source | as written | input that shows it | evidently intended | confidence | as-written member | corrected member |
|---|---|---|---|---|---|---|
| frontend/components/Login.js:19-21 | imports `updateBirthdate`, `updateFirstname` and `updateLastname`, but frontend/reducers/user.js:84-98 exports `updateBirthDate`, `updateFirstName` and `updateLastName`. Under the CommonJS interop that Metro and Babel use, the imported names are `undefined`, so the call at line 85 throws a TypeError. Under native ES-module linking the module would instead fail to load. Only token, username and email reach the store, and the screen never navigates | `{result: true, data: {artist: {}, firstname: "Ada"}}`: the first name stays null | import the slice's own names, so that all twelve actions are dispatched and the screen navigates | not executed | `Login.InterpretSignInAsWritten` (exhibited by `Login.SignInAsWrittenStopsAfterEmail` and `Login.AsWrittenLosesFirstName`) | `Login.InterpretSignIn` (proved by `Login.SignInSuccessPopulatesStore`) |
