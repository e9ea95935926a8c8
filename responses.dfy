/** The shapes of the service's responses (app/app.js:176-184 and the literal
    responses of the dispatcher). JSON bodies are kept as structured values. */
module Responses {
  import opened Wrappers
  import opened Crypto

  /** The `{name, email}` object that is echoed on register, returned on login
      and signed into the token. */
  datatype Profile = Profile(name: string, email: string)

  /** The payload of a token as `jwt.verify` decodes it: a token signed by
      anyone who knows the key may lack either field. */
  datatype Claims = Claims(name: Option<string>, email: Option<string>)

  /** The claims `generateToken` signs for a user. */
  function ClaimsOf(user: Profile): (c: Claims)
    ensures c.name == Some(user.name) && c.email == Some(user.email)
  {
    Claims(Some(user.name), Some(user.email))
  }

  /** The JSON objects the service serialises into a response body. */
  datatype Payload =
    | Message(message: string)
    | Saved(operation: string, status: string, item: Profile)
    | LoggedIn(user: Profile, token: Token<Claims>)
    | Verification(verified: bool, message: string)

  /** A body is either a plain string or the serialisation of a JSON object. */
  datatype ResponseBody = Text(text: string) | Json(payload: Payload)

  datatype Response = Response(statusCode: int, headers: map<string, string>, body: ResponseBody)

  /** What the Lambda invocation produces: a response, the value `undefined`
      (a handler that returned nothing), or a rejected promise (an exception). */
  datatype Outcome = Reply(response: Response) | NoReply | Crash

  const ContentType := "Content-Type"
  const ApplicationJson := "application/json"

  /** `buildResponse(statusCode, body)`: the given status, the JSON content type
      as the only header, and the body serialised as JSON. */
  function BuildResponse(statusCode: int, payload: Payload): (r: Response)
    ensures r.statusCode == statusCode
    ensures r.headers.Keys == {ContentType} && r.headers[ContentType] == ApplicationJson
    ensures r.body.Json? && r.body.payload == payload
  {
    Response(statusCode, map[ContentType := ApplicationJson], Json(payload))
  }

  predicate Succeeded(o: Outcome) {
    o.Reply? && o.response.statusCode == 200
  }
}
