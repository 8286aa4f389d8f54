/**
 * The decision logic of the login screen: the two form schemas, the sign-up
 * submit handler, and what the sign-in handler does with the parsed response
 * of `POST /users/signin`. The network call, JSON parsing and the rendering
 * are not modelled; the parsed response is an input.
 */
module Login {
  import opened Wrappers
  import opened Js
  import opened User

  // ---------------------------------------------------------------------------
  // Validation schemas

  /** The sign-in form's values (Formik starts them as empty strings). */
  datatype SignInValues = SignInValues(email: string, password: string)

  /** The sign-up form's values. */
  datatype SignUpValues = SignUpValues(username: string, email: string, password: string, confirmPassword: string)

  /** One failing schema test: the field it is reported on and its message. */
  datatype Violation = Violation(field: string, message: string)

  /** `string().required(msg)`: the empty string fails. Formik hands the schema
      `undefined` for an empty text field, and every test other than `required`
      passes on `undefined`, so only this test ever reports an empty field. */
  function Required(field: string, s: string, message: string): set<Violation> {
    if s == "" then {Violation(field, message)} else {}
  }

  /** `string().email(msg)`: the address syntax, which the schema library decides
      (given here as `isEmail`), is not tested on the empty string. */
  function EmailSyntax(s: string, isEmail: string -> bool): set<Violation> {
    if s != "" && !isEmail(s) then {Violation("email", "Invalid email address")} else {}
  }

  /** The email field of both schemas. */
  function EmailViolations(s: string, isEmail: string -> bool): (errs: set<Violation>)
    ensures errs == {} <==> s != "" && isEmail(s)
    ensures Violation("email", "Email is required") in errs <==> s == ""
    ensures Violation("email", "Invalid email address") in errs <==> s != "" && !isEmail(s)
    ensures errs <= {Violation("email", "Email is required"), Violation("email", "Invalid email address")}
    ensures forall e | e in errs :: e.field == "email"
  {
    Required("email", s, "Email is required") + EmailSyntax(s, isEmail)
  }

  /** `signInSchema`: a required, syntactically valid email and a required password. */
  function SignInViolations(v: SignInValues, isEmail: string -> bool): (errs: set<Violation>)
    ensures errs == {} <==> v.email != "" && isEmail(v.email) && v.password != ""
    ensures forall e | e in errs :: e.field == "email" || e.field == "password"
    ensures Violation("password", "Password is required") in errs <==> v.password == ""
    ensures Violation("email", "Email is required") in errs <==> v.email == ""
    ensures Violation("email", "Invalid email address") in errs <==> v.email != "" && !isEmail(v.email)
    ensures errs <= {Violation("email", "Email is required"), Violation("email", "Invalid email address"),
                     Violation("password", "Password is required")}
  {
    EmailViolations(v.email, isEmail) + Required("password", v.password, "Password is required")
  }

  /** The sign-up password field: required, and at least 6 characters. The
      length test skips the empty field, which reaches it as `undefined`. */
  function NewPasswordViolations(s: string): (errs: set<Violation>)
    ensures errs == {} <==> |s| >= 6
    ensures Violation("password", "Password must be at least 6 characters") in errs <==> 0 < |s| < 6
    ensures Violation("password", "Password is required") in errs <==> s == ""
    ensures errs <= {Violation("password", "Password must be at least 6 characters"),
                     Violation("password", "Password is required")}
    ensures forall e | e in errs :: e.field == "password"
  {
    (if 0 < |s| < 6 then {Violation("password", "Password must be at least 6 characters")} else {})
    + Required("password", s, "Password is required")
  }

  /** The confirmation field: required, and one of the password (or null, which
      a text input never holds). The `oneOf` test skips the empty field, which
      reaches it as `undefined`; an empty password is `undefined` too, so any
      non-empty confirmation differs from it. */
  function ConfirmViolations(confirm: string, password: string): (errs: set<Violation>)
    ensures errs == {} <==> confirm != "" && confirm == password
    ensures Violation("confirmPassword", "Passwords must match") in errs <==> confirm != "" && confirm != password
    ensures Violation("confirmPassword", "Confirm Password is required") in errs <==> confirm == ""
    ensures errs <= {Violation("confirmPassword", "Passwords must match"),
                     Violation("confirmPassword", "Confirm Password is required")}
    ensures forall e | e in errs :: e.field == "confirmPassword"
  {
    (if confirm != "" && confirm != password then {Violation("confirmPassword", "Passwords must match")} else {})
    + Required("confirmPassword", confirm, "Confirm Password is required")
  }

  /** `signUpSchema`: a required username, a required valid email, a required
      password of at least 6 characters, and a required confirmation that equals
      the password. */
  function SignUpViolations(v: SignUpValues, isEmail: string -> bool): (errs: set<Violation>)
    ensures errs == {} <==>
      v.username != "" && v.email != "" && isEmail(v.email) && |v.password| >= 6 && v.confirmPassword == v.password
    ensures Violation("username", "Username is required") in errs <==> v.username == ""
    ensures Violation("email", "Email is required") in errs <==> v.email == ""
    ensures Violation("email", "Invalid email address") in errs <==> v.email != "" && !isEmail(v.email)
    ensures Violation("password", "Password is required") in errs <==> v.password == ""
    ensures Violation("password", "Password must be at least 6 characters") in errs <==> 0 < |v.password| < 6
    ensures Violation("confirmPassword", "Confirm Password is required") in errs <==> v.confirmPassword == ""
    ensures Violation("confirmPassword", "Passwords must match") in errs
        <==> v.confirmPassword != "" && v.confirmPassword != v.password
    ensures errs <= {Violation("username", "Username is required"),
                     Violation("email", "Email is required"), Violation("email", "Invalid email address"),
                     Violation("password", "Password is required"),
                     Violation("password", "Password must be at least 6 characters"),
                     Violation("confirmPassword", "Confirm Password is required"),
                     Violation("confirmPassword", "Passwords must match")}
    ensures forall e | e in errs :: e.field in {"username", "email", "password", "confirmPassword"}
  {
    Required("username", v.username, "Username is required")
    + EmailViolations(v.email, isEmail)
    + NewPasswordViolations(v.password)
    + ConfirmViolations(v.confirmPassword, v.password)
  }

  /** Only sign-up has a minimum password length: a one-character password
      passes the sign-in schema and fails the sign-up schema. */
  lemma OnlySignUpHasMinimumLength(username: string, email: string, isEmail: string -> bool)
    requires email != "" && isEmail(email)
    ensures SignInViolations(SignInValues(email, "x"), isEmail) == {}
    ensures SignUpViolations(SignUpValues(username, email, "x", "x"), isEmail)
         == {Violation("password", "Password must be at least 6 characters")} + (if username == "" then {Violation("username", "Username is required")} else {})
  {
  }

  // ---------------------------------------------------------------------------
  // Submitting

  /** The JSON body that `handleSubmitSignIn` posts. */
  datatype SignInRequest = SignInRequest(email: string, password: string)

  /** Submitting the sign-in form: the handler, and so the request, runs only
      when the schema reports nothing; the body carries the email and password. */
  function SubmitSignIn(v: SignInValues, isEmail: string -> bool): (r: Option<SignInRequest>)
    ensures r.Some? <==> v.email != "" && isEmail(v.email) && v.password != ""
    ensures r.Some? ==> r.value.email == v.email && r.value.password == v.password
  {
    if SignInViolations(v, isEmail) == {} then Some(SignInRequest(v.email, v.password)) else None
  }

  /** Errors handed to Formik's `setErrors`, by field name. */
  type FormErrors = map<string, Value>

  /** A call into the surrounding sign-up wizard. */
  datatype WizardCall = UpdateUser(user: map<string, string>) | GetNextPage(page: int)

  /** What `handleSubmitSignUp` does: the errors it sets, whether it resets the
      submitting flag, and the wizard calls it makes, in order. */
  datatype SignUpReaction = SignUpReaction(errors: Option<FormErrors>, submittingReset: bool, calls: seq<WizardCall>)

  /** `handleSubmitSignUp`. A mismatched confirmation sets exactly the
      confirmation error, resets the submitting flag and never continues; a
      matching one hands username, email and password (and nothing else) to the
      wizard and then advances it to page 2. */
  function HandleSubmitSignUp(v: SignUpValues): (r: SignUpReaction)
    ensures r.calls == [] <==> v.password != v.confirmPassword
    ensures v.password != v.confirmPassword ==>
      r.errors == Some(map["confirmPassword" := Str("Passwords must match")]) && r.submittingReset
    ensures v.password == v.confirmPassword ==>
      && r.errors.None? && !r.submittingReset
      && |r.calls| == 2 && r.calls[0].UpdateUser? && r.calls[1] == GetNextPage(2)
      && r.calls[0].user.Keys == {"username", "email", "password"}
      && r.calls[0].user["username"] == v.username
      && r.calls[0].user["email"] == v.email
      && r.calls[0].user["password"] == v.password
  {
    if v.password != v.confirmPassword then
      SignUpReaction(Some(map["confirmPassword" := Str("Passwords must match")]), true, [])
    else
      SignUpReaction(None, false,
        [UpdateUser(map["username" := v.username, "email" := v.email, "password" := v.password]), GetNextPage(2)])
  }

  /** Submitting the sign-up form: the handler runs only when the schema reports nothing. */
  function SubmitSignUp(v: SignUpValues, isEmail: string -> bool): (r: Option<SignUpReaction>)
    ensures r.Some? <==> SignUpViolations(v, isEmail) == {}
    ensures r.Some? <==>
      v.username != "" && v.email != "" && isEmail(v.email) && |v.password| >= 6 && v.confirmPassword == v.password
    ensures r.Some? ==> r.value == HandleSubmitSignUp(v)
  {
    if SignUpViolations(v, isEmail) == {} then Some(HandleSubmitSignUp(v)) else None
  }

  /** Behind the schema, the handler's mismatch branch is dead: every submitted
      sign-up continues the wizard. */
  lemma SchemaPrecludesMismatchBranch(v: SignUpValues, isEmail: string -> bool)
    requires SubmitSignUp(v, isEmail).Some?
    ensures SubmitSignUp(v, isEmail).value.errors.None?
    ensures SubmitSignUp(v, isEmail).value.calls[1] == GetNextPage(2)
  {
  }

  // ---------------------------------------------------------------------------
  // The sign-in response

  /** What the sign-in continuation does with the parsed response: whether it
      reset the submitting flag, the errors it set, the store actions it
      dispatched in order, whether it navigated to the home screen, and the
      error it threw, if any. */
  datatype SignInReaction<Media> = SignInReaction(
    submittingReset: bool,
    errors: Option<FormErrors>,
    actions: seq<Action<Media>>,
    navigated: bool,
    thrown: Option<string>)

  /** The twelve payloads a successful sign-in dispatches, in dispatch order. */
  datatype Payloads = Payloads(
    token: Value, username: Value, email: Value, firstName: Value, lastName: Value, address: Value,
    phoneNumber: Value, artist: Value, host: Value, birthDate: Value, isArtist: Value, isHost: Value)

  /** Reading the payloads from the response. `user` is `data.data` and
      `artist` is `data.data.artist` after its `_id` was deleted; the email is
      read from the top level of the response, and the birth date is formatted
      as day/month/year by the date library (given here as `formatDate`). */
  function ReadPayloads(data: Value, user: Value, artist: Value, formatDate: Value -> string): Payloads {
    Payloads(
      token := Prop(user, "token"),
      username := Prop(user, "username"),
      email := Prop(data, "email"),
      firstName := Prop(user, "firstname"),
      lastName := Prop(user, "lastname"),
      address := Prop(user, "address"),
      phoneNumber := Prop(user, "phoneNumber"),
      artist := artist,
      host := Prop(user, "host"),
      birthDate := Str(formatDate(Prop(user, "birthdate"))),
      isArtist := Prop(user, "isArtist"),
      isHost := Prop(user, "isHost"))
  }

  /** The twelve store actions of a successful sign-in, in dispatch order, with
      the action creators the slice exports. */
  function ProfileActions<Media>(x: Payloads): seq<Action<Media>> {
    [ UpdateToken(x.token), UpdateUsername(x.username), UpdateEmail(x.email),
      UpdateFirstName(x.firstName), UpdateLastName(x.lastName), UpdateAddress(x.address),
      UpdatePhoneNumber(x.phoneNumber), GetArtistInfos(x.artist), GetHostInfos(x.host),
      UpdateBirthDate(x.birthDate), UpdateArtist(x.isArtist), UpdateHost(x.isHost) ]
  }

  /** The profile with the twelve payloads stored and the media list kept. */
  function Stored<Media>(p: Profile<Media>, x: Payloads): Profile<Media> {
    p.(token := x.token, username := x.username, email := x.email,
       firstName := x.firstName, lastName := x.lastName, address := x.address,
       phoneNumber := x.phoneNumber, artist := x.artist, host := x.host,
       birthDate := x.birthDate, isArtist := x.isArtist, isHost := x.isHost)
  }

  /** The response of a successful sign-in: an object whose `result` is truthy
      and whose `data.artist` can have a property deleted. */
  predicate IsSuccess(data: Value) {
    && !Nullish(data)
    && Truthy(Prop(data, "result"))
    && !Nullish(Prop(data, "data"))
    && !Nullish(Prop(Prop(data, "data"), "artist"))
  }

  /** The artist sub-record with its `_id` deleted. */
  function StrippedArtist(data: Value): Value {
    var artist := Prop(Prop(data, "data"), "artist");
    match Delete(artist, "_id")
    case Normal(a) => a
    case Throw(_) => artist
  }

  /** The sign-in continuation, with the store's action creators imported under
      the names the slice exports. A null response throws when it is logged,
      before anything else; a falsy `result` sets only the general error; a
      success dispatches the twelve profile actions and navigates; a success
      without `data.artist` throws at the `delete`. */
  function InterpretSignIn<Media>(data: Value, formatDate: Value -> string): (r: SignInReaction<Media>)
    ensures r.submittingReset <==> !Nullish(data)
    ensures r.errors.Some? <==> !Nullish(data) && !Truthy(Prop(data, "result"))
    ensures r.errors.Some? ==> r.errors.value == map["general" := Prop(data, "error")]
    ensures r.navigated <==> IsSuccess(data)
    ensures r.actions != [] <==> r.navigated
    ensures r.thrown.Some? <==> !r.navigated && r.errors.None?
    ensures forall i | 0 <= i < |r.actions| :: r.actions[i].IsSetter()
  {
    // Line 75 logs `data.data` before anything else.
    match Get(data, "data")
    case Throw(e) => SignInReaction(false, None, [], false, Some(e))
    case Normal(user) =>
      if !Truthy(Prop(data, "result")) then
        SignInReaction(true, Some(map["general" := Prop(data, "error")]), [], false, None)
      else
        match Get(user, "artist")
        case Throw(e) => SignInReaction(true, None, [], false, Some(e))
        case Normal(artist) =>
          match Delete(artist, "_id")
          case Throw(e) => SignInReaction(true, None, [], false, Some(e))
          case Normal(stripped) =>
            SignInReaction(true, None, ProfileActions(ReadPayloads(data, user, stripped, formatDate)), true, None)
  }

  /** The TypeError the continuation throws as written: `updateFirstname` is not
      exported by the slice, so the imported name is `undefined` and calling it
      throws. The wording is the engine's; this text is illustrative. */
  const NotAFunction := "TypeError: updateFirstname is not a function"

  /** The sign-in continuation as written: identical up to the third dispatch,
      then calling the `undefined` import `updateFirstname` throws, so the
      remaining nine actions are never dispatched and there is no navigation. */
  function InterpretSignInAsWritten<Media>(data: Value, formatDate: Value -> string): (r: SignInReaction<Media>)
    ensures !r.navigated
    ensures IsSuccess(data) ==> r.thrown == Some(NotAFunction) && |r.actions| == 3
    ensures IsSuccess(data) ==>
      r.submittingReset && r.errors.None? && r.actions == InterpretSignIn<Media>(data, formatDate).actions[..3]
    ensures !IsSuccess(data) ==> r == InterpretSignIn(data, formatDate)
  {
    var intended := InterpretSignIn<Media>(data, formatDate);
    if intended.navigated then
      intended.(actions := intended.actions[..3], navigated := false, thrown := Some(NotAFunction))
    else intended
  }

  /** The first six profile actions write the session and the personal fields. */
  lemma RunProfileActionsHead<Media>(p: Profile<Media>, x: Payloads)
    ensures Run(p, ProfileActions(x)) ==
      Run(p.(token := x.token, username := x.username, email := x.email,
             firstName := x.firstName, lastName := x.lastName, address := x.address),
          ProfileActions<Media>(x)[6..])
  {
    var acts := ProfileActions<Media>(x);
    var q3 := p.(token := x.token, username := x.username, email := x.email);
    assert Run(p, acts) == Run(q3, acts[3..]) by {
      assert acts[0..] == acts;
      RunFromThree(p, acts, 0);
    }
    RunFromThree(q3, acts, 3);
  }

  /** The last six profile actions write the phone number, the sub-records,
      the birth date and the two flags. */
  lemma RunProfileActionsTail<Media>(q: Profile<Media>, x: Payloads)
    ensures Run(q, ProfileActions(x)[6..]) ==
      q.(phoneNumber := x.phoneNumber, artist := x.artist, host := x.host,
         birthDate := x.birthDate, isArtist := x.isArtist, isHost := x.isHost)
  {
    var acts := ProfileActions<Media>(x);
    var q9 := q.(phoneNumber := x.phoneNumber, artist := x.artist, host := x.host);
    assert Run(q, acts[6..]) == Run(q9, acts[9..]) by {
      RunFromThree(q, acts, 6);
    }
    RunFromThree(q9, acts, 9);
    assert acts[12..] == [];
  }

  /** Dispatching the twelve profile actions in order stores each payload in
      its own field, and leaves the media list alone. */
  lemma RunProfileActions<Media>(p: Profile<Media>, x: Payloads)
    ensures Run(p, ProfileActions(x)) == Stored(p, x)
    ensures Stored(p, x).medias == p.medias
  {
    RunProfileActionsHead(p, x);
    RunProfileActionsTail(p.(token := x.token, username := x.username, email := x.email,
                             firstName := x.firstName, lastName := x.lastName, address := x.address), x);
  }

  /** What a successful response stores. */
  function ResponsePayloads(data: Value, formatDate: Value -> string): Payloads {
    ReadPayloads(data, Prop(data, "data"), StrippedArtist(data), formatDate)
  }

  /** On a successful response the continuation dispatches exactly the twelve
      profile actions read from it. */
  lemma SuccessActions<Media>(data: Value, formatDate: Value -> string)
    requires IsSuccess(data)
    ensures InterpretSignIn<Media>(data, formatDate).actions == ProfileActions(ResponsePayloads(data, formatDate))
  {
    var user := Prop(data, "data");
    assert Get(data, "data") == Normal(user);
    assert Get(user, "artist") == Normal(Prop(user, "artist"));
  }

  /** A successful sign-in leaves the store holding the response's profile: the
      token is dispatched first and the username second, the email comes from
      the top level of the response (not from `data.data`), the artist
      sub-record is stored without its `_id`, the birth date is the formatted
      one, and the media list is untouched. */
  lemma SignInSuccessPopulatesStore<Media>(p: Profile<Media>, data: Value, formatDate: Value -> string)
    requires IsSuccess(data)
    ensures var r := InterpretSignIn<Media>(data, formatDate);
      && r.navigated && r.submittingReset && r.errors.None? && r.thrown.None?
      && Run(p, r.actions) == Stored(p, ResponsePayloads(data, formatDate))
      && r.actions[0] == UpdateToken(Prop(Prop(data, "data"), "token"))
      && r.actions[1] == UpdateUsername(Prop(Prop(data, "data"), "username"))
      && r.actions[2] == UpdateEmail(Prop(data, "email"))
      && r.actions[7] == GetArtistInfos(StrippedArtist(data))
    ensures var q := Stored(p, ResponsePayloads(data, formatDate));
      && q.token == Prop(Prop(data, "data"), "token")
      && q.email == Prop(data, "email")
      && q.firstName == Prop(Prop(data, "data"), "firstname")
      && q.birthDate == Str(formatDate(Prop(Prop(data, "data"), "birthdate")))
      && q.isArtist == Prop(Prop(data, "data"), "isArtist")
      && q.isHost == Prop(Prop(data, "data"), "isHost")
      && Prop(q.artist, "_id") == Undefined
      && q.medias == p.medias
  {
    SuccessActions<Media>(data, formatDate);
    RunProfileActions(p, ResponsePayloads(data, formatDate));
  }

  /** A response with a falsy `result` sets only the general error, dispatches
      nothing and does not navigate, so the store is unchanged. */
  lemma SignInFailureLeavesStore<Media>(p: Profile<Media>, data: Value, formatDate: Value -> string)
    requires !Nullish(data) && !Truthy(Prop(data, "result"))
    ensures var r := InterpretSignIn<Media>(data, formatDate);
      && r.errors == Some(map["general" := Prop(data, "error")])
      && r.actions == [] && !r.navigated && r.submittingReset && r.thrown.None?
      && Run(p, r.actions) == p
  {
  }

  /** Whatever the response, signing in never changes the media list. */
  lemma SignInKeepsMedias<Media>(p: Profile<Media>, data: Value, formatDate: Value -> string)
    ensures Run(p, InterpretSignIn<Media>(data, formatDate).actions).medias == p.medias
    ensures Run(p, InterpretSignInAsWritten<Media>(data, formatDate).actions).medias == p.medias
  {
    if IsSuccess(data) {
      SignInSuccessPopulatesStore(p, data, formatDate);
      SignInAsWrittenStopsAfterEmail(p, data, formatDate);
    } else {
      assert InterpretSignIn<Media>(data, formatDate).actions == [];
    }
  }

  /** As written, a successful sign-in stores only the token, the username and
      the email, then throws, so the promise rejects without navigating and the
      remaining profile fields keep their previous values. */
  lemma SignInAsWrittenStopsAfterEmail<Media>(p: Profile<Media>, data: Value, formatDate: Value -> string)
    requires IsSuccess(data)
    ensures var r := InterpretSignInAsWritten<Media>(data, formatDate);
      && r.thrown == Some(NotAFunction) && !r.navigated
      && Run(p, r.actions) ==
         p.(token := Prop(Prop(data, "data"), "token"),
            username := Prop(Prop(data, "data"), "username"),
            email := Prop(data, "email"))
  {
    SuccessActions<Media>(data, formatDate);
    var head := ProfileActions<Media>(ResponsePayloads(data, formatDate))[..3];
    assert InterpretSignInAsWritten<Media>(data, formatDate).actions == head;
    assert head[0..] == head;
    RunFromThree(p, head, 0);
    assert head[3..] == [];
  }

  /** A concrete response on which the two continuations disagree: as written,
      a first name sent by the server never reaches the store. */
  lemma AsWrittenLosesFirstName<Media>(formatDate: Value -> string)
    ensures var data := Obj(map["result" := Bool(true),
                                "data" := Obj(map["artist" := Obj(map[]), "firstname" := Str("Ada")])]);
      && Run(Initial<Media>(), InterpretSignInAsWritten<Media>(data, formatDate).actions).firstName == Null
      && Run(Initial<Media>(), InterpretSignIn<Media>(data, formatDate).actions).firstName == Str("Ada")
  {
    var data := Obj(map["result" := Bool(true),
                        "data" := Obj(map["artist" := Obj(map[]), "firstname" := Str("Ada")])]);
    assert IsSuccess(data);
    SignInAsWrittenStopsAfterEmail(Initial<Media>(), data, formatDate);
    SignInSuccessPopulatesStore(Initial<Media>(), data, formatDate);
  }

  /** The sign-in continuation run against the store: the same branches as
      `InterpretSignIn`, with each store action dispatched in source order. */
  method ApplySignInResponse<Media(==)>(store: UserState<Media>, data: Value, formatDate: Value -> string)
    returns (r: SignInReaction<Media>)
    modifies store
    ensures r == InterpretSignIn(data, formatDate)
    ensures store.Snapshot() == Run(old(store.Snapshot()), r.actions)
  {
    // Logging `data.data` is the first thing the continuation does.
    var logged := Get(data, "data");
    if logged.Throw? {
      return SignInReaction(false, None, [], false, Some(logged.error));
    }
    // `setSubmitting(false)`, then the branch on `data.result`.
    if !Truthy(Prop(data, "result")) {
      return SignInReaction(true, Some(map["general" := Prop(data, "error")]), [], false, None);
    }
    var user := logged.value;
    var artist := Get(user, "artist");
    if artist.Throw? {
      return SignInReaction(true, None, [], false, Some(artist.error));
    }
    var stripped := Delete(artist.value, "_id");
    if stripped.Throw? {
      return SignInReaction(true, None, [], false, Some(stripped.error));
    }
    ghost var before := store.Snapshot();
    // Each `dispatch(creator(payload))` runs that reducer on the record.
    store.UpdateToken(Prop(user, "token"));
    store.UpdateUsername(Prop(user, "username"));
    store.UpdateEmail(Prop(data, "email"));
    store.UpdateFirstName(Prop(user, "firstname"));
    store.UpdateLastName(Prop(user, "lastname"));
    store.UpdateAddress(Prop(user, "address"));
    store.UpdatePhoneNumber(Prop(user, "phoneNumber"));
    store.GetArtistInfos(stripped.value);
    store.GetHostInfos(Prop(user, "host"));
    store.UpdateBirthDate(Str(formatDate(Prop(user, "birthdate"))));
    store.UpdateArtist(Prop(user, "isArtist"));
    store.UpdateHost(Prop(user, "isHost"));
    var payloads := ReadPayloads(data, user, stripped.value, formatDate);
    r := SignInReaction(true, None, ProfileActions(payloads), true, None);
    RunProfileActions(before, payloads);
  }
}
