/** Properties that relate several operations of the login service. */
module AppProperties {
  import opened Wrappers
  import opened Text
  import opened Validation
  import opened Crypto
  import opened Responses
  import opened App

  /** After a successful registration, logging in with the same email succeeds
      with exactly the registered password and with no other, and returns the
      normalised name with the email. */
  lemma RegisterThenLogin(
    store: Table, name: string, email: string, password: string, isEmail: string -> bool, salt: nat,
    attempt: string, key: string, now: int)
    requires Succeeded(SaveUser(store, RequestBody(Some(name), Some(email), Some(password), None), isEmail, salt, true).outcome)
    ensures
      var registered := SaveUser(store, RequestBody(Some(name), Some(email), Some(password), None), isEmail, salt, true).store;
      var login := LoginUser(registered, RequestBody(None, Some(email), Some(attempt), None), key, true, now);
      && (Succeeded(login) <==> attempt == password)
      && (Succeeded(login) ==>
            login.response.body == Json(LoggedIn(Profile(Normalize(name), email), Sign(ClaimsOf(Profile(Normalize(name), email)), key, now))))
  {
    var registered := SaveUser(store, RequestBody(Some(name), Some(email), Some(password), None), isEmail, salt, true).store;
    assert registered[email] == UserRecord(Normalize(name), email, Hash(password, salt));
  }

  /** An unknown email and a known email with a wrong password get the same
      answer, so a client cannot tell which accounts exist. */
  lemma UnknownUserLooksLikeWrongPassword(
    store: Table, unknown: RequestBody, wrong: RequestBody, key: string, now: int)
    requires CredentialsPresent(unknown) && unknown.email.value !in store
    requires CredentialsPresent(wrong) && wrong.email.value in store
    requires !Compare(wrong.password.value, store[wrong.email.value].password)
    ensures LoginUser(store, unknown, key, true, now) == LoginUser(store, wrong, key, true, now)
    ensures LoginUser(store, unknown, key, true, now).response.statusCode == 403
  {
  }

  /** A token issued at `issuedAt` passes `verifyToken` exactly when it is
      checked with the signing key, within the hour, against its own email. */
  lemma IssuedTokenVerifies(user: Profile, key: string, issuedAt: int, email: Option<string>, checkKey: string, now: int)
    ensures
      var r := VerifyToken(RequestBody(None, email, None, Some(Sign(ClaimsOf(user), key, issuedAt))), checkKey, now);
      r.statusCode == 200 <==> checkKey == key && now < issuedAt + TokenLifetime && email == Some(user.email)
  {
  }

  /** Anyone who knows the key can sign claims without an email; such a token
      passes `verifyToken` for a request that sends no email either, because
      `undefined != undefined` is false. */
  lemma TokenWithoutEmailVerifies(key: string, issuedAt: int, now: int)
    requires now < issuedAt + TokenLifetime
    ensures
      var token := Sign(Claims(None, None), key, issuedAt);
      VerifyToken(RequestBody(None, None, None, Some(token)), key, now).statusCode == 200
  {
  }

  /** The token a successful login hands out verifies for the user's email
      until an hour after the login. */
  lemma LoginTokenVerifies(store: Table, body: RequestBody, key: string, loginTime: int, now: int)
    requires WellKeyed(store)
    requires Succeeded(LoginUser(store, body, key, true, loginTime))
    ensures
      var token := LoginUser(store, body, key, true, loginTime).response.body.payload.token;
      var check := VerifyToken(RequestBody(None, body.email, None, Some(token)), key, now);
      check.statusCode == 200 <==> now < loginTime + TokenLifetime
  {
  }

  /** Every reply built by `buildResponse` (the register, login and verify
      routes) carries the JSON content type and a JSON body; the health check
      and the not-found reply are plain text without headers. */
  lemma ReplyHeaders(store: Table, event: Event, key: string, isEmail: string -> bool, io: Io)
    ensures
      var t := Handler(store, event, key, isEmail, io);
      var route := RouteOf(event.httpMethod, event.path);
      t.outcome.Reply? ==>
        && (route in {PostRegister, PostLogin, PostVerify} ==>
              t.outcome.response.headers == map[ContentType := ApplicationJson] && t.outcome.response.body.Json?)
        && (route in {GetHealth, Unmatched} ==>
              t.outcome.response.headers == map[] && t.outcome.response.body.Text?)
  {
  }

  /** The registration the repository's test performs: the test user is
      accepted and echoed back with its name and email only. */
  lemma RegisterTestUser(store: Table, body: RequestBody, isEmail: string -> bool, salt: nat)
    requires body == RequestBody(Some("mytest2"), Some("mytest2@gmail.com"), Some("Test$2022"), None)
    requires isEmail("mytest2@gmail.com")
    ensures
      var t := SaveUser(store, body, isEmail, salt, true);
      && t.outcome.response.statusCode == 200
      && t.outcome.response.body == Json(Saved("SAVE", "SUCCESS", Profile("mytest2", "mytest2@gmail.com")))
  {
    TestPasswordAccepted();
    assert NameValid("mytest2");
    AcceptedRegistrationEchoes(store, body, isEmail, salt);
    TestNameUnchanged();
  }

  /** An accepted registration whose write succeeds answers 200 with the
      normalised name and the email. */
  lemma AcceptedRegistrationEchoes(store: Table, body: RequestBody, isEmail: string -> bool, salt: nat)
    requires RegistrationAccepted(body, isEmail)
    ensures
      var t := SaveUser(store, body, isEmail, salt, true);
      && t.outcome.response.statusCode == 200
      && t.outcome.response.body == Json(Saved("SAVE", "SUCCESS", Profile(Normalize(body.name.value), body.email.value)))
  {
  }

  /** The test user's password passes the password rule. */
  lemma TestPasswordAccepted()
    ensures PasswordValid("Test$2022")
  {
    TestPasswordShape("Test$2022");
  }

  /** The same fact with the password as a parameter. It is stated this way so
      that the solver does not unroll the rule over the literal; the witnesses
      are the positions of 'T', 'e', '2' and '0'. */
  lemma TestPasswordShape(p: string)
    requires p == "Test$2022"
    ensures PasswordValid(p)
  {
    PasswordRule(p);
    assert IsUpper(p[0]) && IsLower(p[1]) && IsDigit(p[5]) && IsDigit(p[6]);
    assert forall i :: 0 <= i < |p| ==> !IsWhitespace(p[i]);
  }

  /** The test user's name passes the name rule and normalises to itself. */
  lemma TestNameUnchanged()
    ensures NameValid("mytest2") && Normalize("mytest2") == "mytest2"
  {
    assert ToLower("mytest2") == "mytest2";
    TrimWithoutWhitespace("mytest2");
  }

  /** A password of six characters is refused with the password message. */
  lemma ShortPasswordRejected(store: Table, isEmail: string -> bool, salt: nat)
    requires isEmail("alice@x.com")
    ensures
      SaveUser(store, RequestBody(Some("alice"), Some("alice@x.com"), Some("short1"), None), isEmail, salt, true)
      == Transition(Rejected(PasswordInvalid), store)
  {
    PasswordRule("short1");
  }
}
