/** The login service of app/app.js: the dispatcher, `saveUser`, `loginUser`,
    `getUser`, `generateToken` and `verifyToken`.

    The DynamoDB table `user-login` is a map from email to user record. What the
    outside world decides (the bcrypt salt, whether a `put` or `get` succeeds,
    the clock) is an `Io` value; `validator.isEmail` is a predicate the service
    is given; the JWT secret is read once from the environment. */
module App {
  import opened Wrappers
  import opened Text
  import opened PasswordValidator
  import opened Validation
  import opened Crypto
  import opened Responses

  const HealthPath := "/health"
  const RegisterPath := "/register"
  const LoginPath := "/login"
  const VerifyPath := "/verify"

  /** The signing secret used when `JWT_SECRET` is unset or empty. */
  const DefaultSecret := "OneStrongKey"

  const HealthText := "welcome lambda login!"
  const NotFoundText := "not found"
  const MissingFields := "Verifique os dados e tente novamente."
  const BadName := "Nome deve ter no m\U{ed}nimo 3 e no m\U{e1}ximo 20 caracteres"
  const BadEmail := "Por favor insira um email v\U{e1}lido."
  const BadPassword := "Formato de senha invalido."
  const MissingCredentials := "email and password are required"
  const BadCredentials := "User or password is incorrect"
  const InvalidToken := "Invalid token"
  const VerifiedMessage := "verified"

  /** The parsed JSON request body; a field the client did not send is `None`. */
  datatype RequestBody = RequestBody(
    name: Option<string>, email: Option<string>, password: Option<string>, token: Option<Token<Claims>>)

  /** The Lambda event; `body` is `None` when it is not JSON (`JSON.parse` throws)
      or is `null` (reading a field of it throws). A JSON number, string, boolean
      or array has no fields and is `RequestBody(None, None, None, None)`. */
  datatype Event = Event(httpMethod: string, path: string, body: Option<RequestBody>)

  /** An item of the `user-login` table, keyed by `email`. */
  datatype UserRecord = UserRecord(name: string, email: string, password: Digest)

  type Table = map<string, UserRecord>

  /** Every item is stored under its own email: the table's key attribute. */
  predicate WellKeyed(store: Table) {
    forall email :: email in store ==> store[email].email == email
  }

  /** What the environment decides for one request: the bcrypt salt, whether
      DynamoDB's `put` and `get` succeed, and the clock in seconds. */
  datatype Io = Io(salt: nat, putSucceeds: bool, getSucceeds: bool, clock: int)

  /** An outcome together with the table afterwards. */
  datatype Transition = Transition(outcome: Outcome, store: Table)

  /** What `getUser` resolves to: a response with an `Item`, one without, or
      `undefined` after a failed `get`. */
  datatype Lookup = Found(item: UserRecord) | NoItem | LookupFailed

  /** The branches of the dispatcher's `switch`. */
  datatype Route = GetHealth | PostRegister | PostLogin | PostVerify | Unmatched

  /** JavaScript truthiness of a string field: present and not empty. */
  predicate Truthy(field: Option<string>) {
    field.Some? && field.value != ""
  }

  /** `process.env.JWT_SECRET || "OneStrongKey"`: never empty. */
  function SigningKey(env: Option<string>): (key: string)
    ensures key != ""
    ensures Truthy(env) ==> key == env.value
    ensures !Truthy(env) ==> key == DefaultSecret
  {
    if Truthy(env) then env.value else DefaultSecret
  }

  /** `name.toLowerCase().trim()`: no capital letter is left, and the result
      neither starts nor ends with whitespace. */
  function Normalize(name: string): (r: string)
    ensures |r| <= |name|
    ensures NoUpper(r)
    ensures r != [] ==> !IsWhitespace(r[0]) && !IsWhitespace(r[|r| - 1])
  {
    ToLowerNoUpper(name);
    TrimNoUpper(ToLower(name));
    Trim(ToLower(name))
  }

  /** Normalising a normalised name changes nothing. */
  lemma NormalizeIdempotent(name: string)
    ensures Normalize(Normalize(name)) == Normalize(name)
  {
    var r := Normalize(name);
    ToLowerWithoutUpper(r);
    TrimEnds(r);
  }

  predicate FieldsPresent(body: RequestBody) {
    Truthy(body.name) && Truthy(body.email) && Truthy(body.password)
  }

  /** Every check of `saveUser` passes. */
  predicate RegistrationAccepted(body: RequestBody, isEmail: string -> bool) {
    && FieldsPresent(body)
    && NameValid(body.name.value)
    && isEmail(body.email.value)
    && PasswordValid(body.password.value)
  }

  /** The checks of `saveUser`, each answered with its own 400 message. */
  datatype RegisterError = FieldsMissing | NameInvalid | EmailInvalid | PasswordInvalid

  function MessageOf(e: RegisterError): string {
    match e
    case FieldsMissing => MissingFields
    case NameInvalid => BadName
    case EmailInvalid => BadEmail
    case PasswordInvalid => BadPassword
  }

  function Rejected(e: RegisterError): Outcome {
    Reply(BuildResponse(400, Message(MessageOf(e))))
  }

  /** The first check of `saveUser` that fails, in the order the code runs
      them: missing fields, then the name, the email and the password. */
  function FirstFailure(body: RequestBody, isEmail: string -> bool): (e: Option<RegisterError>)
    ensures e.None? <==> RegistrationAccepted(body, isEmail)
    ensures e == Some(FieldsMissing) <==> !FieldsPresent(body)
    ensures e == Some(NameInvalid) <==> FieldsPresent(body) && !NameValid(body.name.value)
    ensures e == Some(EmailInvalid) <==>
      FieldsPresent(body) && NameValid(body.name.value) && !isEmail(body.email.value)
    ensures e == Some(PasswordInvalid) <==>
      FieldsPresent(body) && NameValid(body.name.value) && isEmail(body.email.value)
      && !PasswordValid(body.password.value)
  {
    if !FieldsPresent(body) then Some(FieldsMissing)
    else if !NameValid(body.name.value) then Some(NameInvalid)
    else if !isEmail(body.email.value) then Some(EmailInvalid)
    else if !PasswordValid(body.password.value) then Some(PasswordInvalid)
    else None
  }

  /** `saveUser` on the table `store`. The first failing check decides the 400
      reply and nothing is written; only a registration that passes every check
      and whose `put` succeeds changes the table, and then it writes the record
      under the email whether or not one was there. */
  function SaveUser(store: Table, body: RequestBody, isEmail: string -> bool, salt: nat, putSucceeds: bool)
    : (t: Transition)
    ensures Succeeded(t.outcome) <==> RegistrationAccepted(body, isEmail) && putSucceeds
    ensures Succeeded(t.outcome) ==>
      var email := body.email.value;
      var name := Normalize(body.name.value);
      && t.store == store[email := UserRecord(name, email, Hash(body.password.value, salt))]
      && t.outcome.response.body == Json(Saved("SAVE", "SUCCESS", Profile(name, email)))
    ensures !Succeeded(t.outcome) ==> t.store == store
    ensures RegistrationAccepted(body, isEmail) && !putSucceeds ==> t.outcome == NoReply
  {
    match FirstFailure(body, isEmail)
    case Some(e) => Transition(Rejected(e), store)
    case None =>
      var name, email, password := body.name.value, body.email.value, body.password.value;
      AcceptedPasswordIsTrimmed(password);
      var record := UserRecord(Normalize(name), email, Hash(Trim(password), salt));
      if putSucceeds then
        Transition(Reply(BuildResponse(200, Saved("SAVE", "SUCCESS", Profile(record.name, record.email)))),
                   store[email := record])
      else
        Transition(NoReply, store)
  }

  /** A registration that fails a check is answered with that check's 400
      message and leaves the table as it was. */
  lemma SaveUserRejects(store: Table, body: RequestBody, isEmail: string -> bool, salt: nat, putSucceeds: bool)
    requires !RegistrationAccepted(body, isEmail)
    ensures SaveUser(store, body, isEmail, salt, putSucceeds)
      == Transition(Rejected(FirstFailure(body, isEmail).value), store)
  {
  }

  /** Writing a record under its own email keeps the table well keyed. */
  lemma PutKeepsKeys(store: Table, item: UserRecord)
    requires WellKeyed(store)
    ensures WellKeyed(store[item.email := item])
  {
  }

  /** Registration stores each record under its own email. */
  lemma SaveUserKeepsKeys(store: Table, body: RequestBody, isEmail: string -> bool, salt: nat, putSucceeds: bool)
    requires WellKeyed(store)
    ensures WellKeyed(SaveUser(store, body, isEmail, salt, putSucceeds).store)
  {
    var t := SaveUser(store, body, isEmail, salt, putSucceeds);
    if Succeeded(t.outcome) {
      var email := body.email.value;
      forall k | k in t.store ensures t.store[k].email == k {
        if k != email {
          assert t.store[k] == store[k];
        }
      }
    }
  }

  predicate CredentialsPresent(body: RequestBody) {
    Truthy(body.email) && Truthy(body.password)
  }

  /** `loginUser` against the table `store`: 401 without credentials, 403 with the
      same body for an unknown email and for a wrong password, and on success the
      stored name and email with a token signed over exactly those two. */
  function LoginUser(store: Table, body: RequestBody, key: string, getSucceeds: bool, now: int): (o: Outcome)
    ensures Succeeded(o) <==>
      && CredentialsPresent(body) && getSucceeds && body.email.value in store
      && Compare(body.password.value, store[body.email.value].password)
    ensures Succeeded(o) ==>
      var record := store[body.email.value];
      var user := Profile(record.name, record.email);
      o.response.body == Json(LoggedIn(user, Sign(ClaimsOf(user), key, now)))
    ensures o == Crash <==> CredentialsPresent(body) && !getSucceeds
    ensures o == Reply(BuildResponse(401, Message(MissingCredentials))) <==> !CredentialsPresent(body)
    ensures o.Reply? ==> o.response.statusCode in {200, 401, 403}
    ensures o.Reply? && o.response.statusCode == 403 ==> o == Reply(BuildResponse(403, Message(BadCredentials)))
    ensures CredentialsPresent(body) && getSucceeds
      && (body.email.value !in store || !Compare(body.password.value, store[body.email.value].password))
      ==> o == Reply(BuildResponse(403, Message(BadCredentials)))
  {
    if !CredentialsPresent(body) then Reply(BuildResponse(401, Message(MissingCredentials)))
    else if !getSucceeds then Crash
    else
      var email, password := body.email.value, body.password.value;
      if email !in store then Reply(BuildResponse(403, Message(BadCredentials)))
      else if !Compare(password, store[email].password) then Reply(BuildResponse(403, Message(BadCredentials)))
      else
        var user := Profile(store[email].name, store[email].email);
        Reply(BuildResponse(200, LoggedIn(user, Sign(ClaimsOf(user), key, now))))
  }

  /** `verifyToken`: 200 exactly when the token is signed with the key, has not
      expired and its email claim is the email the caller supplies (loose `!=`:
      a claim and a field that are both absent count as equal); every failure
      gives the same 400 body. */
  function VerifyToken(body: RequestBody, key: string, now: int): (r: Response)
    ensures r.statusCode == 200 <==>
      && body.token.Some? && body.token.value.Signed?
      && body.token.value.key == key && now < body.token.value.expiresAt
      && body.email == body.token.value.payload.email
    ensures r.statusCode == 200 ==> r == BuildResponse(200, Verification(true, VerifiedMessage))
    ensures r.statusCode != 200 ==> r == BuildResponse(400, Verification(false, InvalidToken))
  {
    match Verify(body.token, key, now)
    case Err(_) => BuildResponse(400, Verification(false, InvalidToken))
    case Ok(payload) =>
      if payload.email != body.email then BuildResponse(400, Verification(false, InvalidToken))
      else BuildResponse(200, Verification(true, VerifiedMessage))
  }

  /** The dispatcher's `switch (true)`: the first case whose method and path
      match; the four cases are disjoint and anything else is unmatched. */
  function RouteOf(httpMethod: string, path: string): (r: Route)
    ensures r == GetHealth <==> httpMethod == "GET" && path == HealthPath
    ensures r == PostRegister <==> httpMethod == "POST" && path == RegisterPath
    ensures r == PostLogin <==> httpMethod == "POST" && path == LoginPath
    ensures r == PostVerify <==> httpMethod == "POST" && path == VerifyPath
    ensures r == Unmatched <==>
      !(httpMethod == "GET" && path == HealthPath) && !(httpMethod == "POST" && path in {RegisterPath, LoginPath, VerifyPath})
  {
    if httpMethod == "GET" && path == HealthPath then GetHealth
    else if httpMethod == "POST" && path == RegisterPath then PostRegister
    else if httpMethod == "POST" && path == LoginPath then PostLogin
    else if httpMethod == "POST" && path == VerifyPath then PostVerify
    else Unmatched
  }

  const HealthResponse := Response(200, map[], Text(HealthText))
  const NotFoundResponse := Response(404, map[], Text(NotFoundText))

  /** `exports.handler`: only a registration can change the table; the health
      check and unmatched routes answer with fixed plain-text responses; a body
      that does not parse makes the invocation fail. */
  function Handler(store: Table, event: Event, key: string, isEmail: string -> bool, io: Io): (t: Transition)
    ensures RouteOf(event.httpMethod, event.path) != PostRegister ==> t.store == store
    ensures RouteOf(event.httpMethod, event.path) == GetHealth ==> t.outcome == Reply(HealthResponse)
    ensures RouteOf(event.httpMethod, event.path) == Unmatched ==> t.outcome == Reply(NotFoundResponse)
    ensures RouteOf(event.httpMethod, event.path) in {PostRegister, PostLogin, PostVerify} && event.body.None?
      ==> t == Transition(Crash, store)
    ensures RouteOf(event.httpMethod, event.path) == PostRegister && event.body.Some?
      ==> t == SaveUser(store, event.body.value, isEmail, io.salt, io.putSucceeds)
    ensures RouteOf(event.httpMethod, event.path) == PostLogin && event.body.Some?
      ==> t == Transition(LoginUser(store, event.body.value, key, io.getSucceeds, io.clock), store)
    ensures RouteOf(event.httpMethod, event.path) == PostVerify && event.body.Some?
      ==> t == Transition(Reply(VerifyToken(event.body.value, key, io.clock)), store)
  {
    match RouteOf(event.httpMethod, event.path)
    case GetHealth => Transition(Reply(HealthResponse), store)
    case PostRegister =>
      if event.body.None? then Transition(Crash, store)
      else SaveUser(store, event.body.value, isEmail, io.salt, io.putSucceeds)
    case PostLogin =>
      if event.body.None? then Transition(Crash, store)
      else Transition(LoginUser(store, event.body.value, key, io.getSucceeds, io.clock), store)
    case PostVerify =>
      if event.body.None? then Transition(Crash, store)
      else Transition(Reply(VerifyToken(event.body.value, key, io.clock)), store)
    case Unmatched => Transition(Reply(NotFoundResponse), store)
  }

  /** The service: the user table and the two password-validator schemas, which
      are module-level objects that every `saveUser` call appends its rules to. */
  class LoginService {
    var store: Table
    var nameSchema: seq<Check>
    var passwordSchema: seq<Check>
    /** How many times the name and password rule chains have been appended. */
    ghost var nameRuns: nat
    ghost var passwordRuns: nat
    const secret: string
    const isEmail: string -> bool

    ghost predicate Valid()
      reads this
    {
      && WellKeyed(store)
      && nameSchema == Repeat(NameChain, nameRuns)
      && passwordSchema == Repeat(PasswordChain, passwordRuns)
    }

    constructor (table: Table, jwtSecret: Option<string>, isEmail: string -> bool)
      requires WellKeyed(table)
      ensures Valid()
      ensures store == table && nameSchema == [] && passwordSchema == []
      ensures secret == SigningKey(jwtSecret) && this.isEmail == isEmail
    {
      store := table;
      nameSchema, passwordSchema := [], [];
      nameRuns, passwordRuns := 0, 0;
      secret := SigningKey(jwtSecret);
      this.isEmail := isEmail;
    }

    /** `saveUser`: appends the rule chains to the shared schemas, validates,
        hashes the trimmed password, lower-cases and trims the name, and writes
        the record; the growing schemas accept exactly what one chain accepts. */
    method Register(body: RequestBody, salt: nat, putSucceeds: bool) returns (out: Outcome)
      requires Valid()
      modifies this
      ensures Valid()
      ensures Transition(out, store) == SaveUser(old(store), body, isEmail, salt, putSucceeds)
      ensures !Succeeded(out) ==> store == old(store)
      ensures nameSchema == if FieldsPresent(body) then old(nameSchema) + NameChain else old(nameSchema)
      ensures passwordSchema ==
        if FieldsPresent(body) && NameValid(body.name.value) && isEmail(body.email.value)
        then old(passwordSchema) + PasswordChain
        else old(passwordSchema)
    {
      if !Truthy(body.name) || !Truthy(body.email) || !Truthy(body.password) {
        return Rejected(FieldsMissing);
      }
      var name, email, password := body.name.value, body.email.value, body.password.value;
      nameSchema, nameRuns := nameSchema + NameChain, nameRuns + 1;
      ValidateRepeat(NameChain, nameRuns, name);
      assert Valid();
      if !Validate(nameSchema, name) {
        return Rejected(NameInvalid);
      }
      if !isEmail(email) {
        return Rejected(EmailInvalid);
      }
      passwordSchema, passwordRuns := passwordSchema + PasswordChain, passwordRuns + 1;
      ValidateRepeat(PasswordChain, passwordRuns, password);
      assert Valid();
      if !Validate(passwordSchema, password) {
        return Rejected(PasswordInvalid);
      }
      // The request body is updated in place: hashed password, normalised name.
      var item := UserRecord(ToLower(name), email, Hash(Trim(password), salt));
      item := item.(name := Trim(item.name));
      assert item.name == Normalize(name) && item.email == email;
      if putSucceeds {
        PutKeepsKeys(store, item);
        store := store[email := item];
        // `delete requestBody.password` before echoing the item.
        out := Reply(BuildResponse(200, Saved("SAVE", "SUCCESS", Profile(item.name, item.email))));
      } else {
        out := NoReply;
      }
    }

    /** `getUser`: a single-key read of the table, which may fail. */
    method GetUser(email: string, getSucceeds: bool) returns (r: Lookup)
      ensures r == LookupFailed <==> !getSucceeds
      ensures r.Found? <==> getSucceeds && email in store
      ensures r.Found? ==> r.item == store[email]
    {
      if !getSucceeds {
        return LookupFailed;
      }
      if email in store {
        r := Found(store[email]);
      } else {
        r := NoItem;
      }
    }

    /** `loginUser`: reads the table and never writes it. */
    method Login(body: RequestBody, getSucceeds: bool, now: int) returns (out: Outcome)
      ensures out == LoginUser(store, body, secret, getSucceeds, now)
    {
      if !Truthy(body.email) || !Truthy(body.password) {
        return Reply(BuildResponse(401, Message(MissingCredentials)));
      }
      var email, password := body.email.value, body.password.value;
      var found := GetUser(email, getSucceeds);
      match found
      case LookupFailed =>
        // `dynamoUser.Item` on `undefined` throws.
        out := Crash;
      case NoItem =>
        out := Reply(BuildResponse(403, Message(BadCredentials)));
      case Found(item) =>
        if !Compare(password, item.password) {
          out := Reply(BuildResponse(403, Message(BadCredentials)));
        } else {
          var user := Profile(item.name, item.email);
          var token := Sign(ClaimsOf(user), secret, now);
          out := Reply(BuildResponse(200, LoggedIn(user, token)));
        }
    }

    /** `exports.handler` */
    method Handle(event: Event, io: Io) returns (out: Outcome)
      requires Valid()
      modifies this
      ensures Valid()
      ensures Transition(out, store) == Handler(old(store), event, secret, isEmail, io)
      ensures nameSchema ==
        if RouteOf(event.httpMethod, event.path) == PostRegister && event.body.Some?
           && FieldsPresent(event.body.value)
        then old(nameSchema) + NameChain
        else old(nameSchema)
      ensures passwordSchema ==
        if RouteOf(event.httpMethod, event.path) == PostRegister && event.body.Some?
           && FieldsPresent(event.body.value) && NameValid(event.body.value.name.value)
           && isEmail(event.body.value.email.value)
        then old(passwordSchema) + PasswordChain
        else old(passwordSchema)
    {
      match RouteOf(event.httpMethod, event.path)
      case GetHealth =>
        out := Reply(HealthResponse);
      case PostRegister =>
        if event.body.None? {
          out := Crash;
        } else {
          out := Register(event.body.value, io.salt, io.putSucceeds);
        }
      case PostLogin =>
        if event.body.None? {
          out := Crash;
        } else {
          out := Login(event.body.value, io.getSucceeds, io.clock);
        }
      case PostVerify =>
        if event.body.None? {
          out := Crash;
        } else {
          out := Reply(VerifyToken(event.body.value, secret, io.clock));
        }
      case Unmatched =>
        out := Reply(NotFoundResponse);
    }
  }
}
