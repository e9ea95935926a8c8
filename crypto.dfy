/** Symbolic stand-ins for bcrypt and jsonwebtoken. A digest and a token are
    terms that only `Compare` and `Verify` look inside: hashing is a perfect
    one-way commitment to the password, signing a perfect seal under a key. */
module Crypto {
  import opened Wrappers

  /** The bcrypt cost factor passed to `hashSync`. */
  const BcryptCost: nat := 10

  /** `expiresIn: '1h'`, in seconds. */
  const TokenLifetime: int := 3600

  /** A salted bcrypt digest of `secret`. */
  datatype Digest = Bcrypt(cost: nat, salt: nat, secret: string)

  /** `bcrypt.compareSync(password, digest)` */
  predicate Compare(password: string, digest: Digest) {
    digest.secret == password
  }

  /** `bcrypt.hashSync(password, 10)` with the random salt given explicitly. The
      digest matches the password it was made from, and no other. */
  function Hash(password: string, salt: nat): (d: Digest)
    ensures Compare(password, d)
    ensures forall other :: Compare(other, d) ==> other == password
  {
    Bcrypt(BcryptCost, salt, password)
  }

  /** A JSON web token: one signed over a payload with a key and an expiry time,
      or any string that is not a well-formed token. */
  datatype Token<P> = Signed(payload: P, key: string, expiresAt: int) | Malformed(text: string)

  datatype TokenError = NotProvided | BadSignature | Expired | NotAToken

  /** `jwt.sign(payload, key, {expiresIn: '1h'})` at clock time `now` (seconds). */
  function Sign<P>(payload: P, key: string, now: int): (t: Token<P>)
    ensures t.Signed? && t.payload == payload && t.key == key
    ensures t.expiresAt - now == TokenLifetime
  {
    Signed(payload, key, now + TokenLifetime)
  }

  /** `jwt.verify(token, key)` at clock time `now`: the signature is checked
      first, then the expiry; a token is expired from its `exp` second on. */
  function Verify<P>(token: Option<Token<P>>, key: string, now: int): (r: Result<P, TokenError>)
    ensures r.Ok? <==>
      token.Some? && token.value.Signed? && token.value.key == key && now < token.value.expiresAt
    ensures r.Ok? ==> r.value == token.value.payload
  {
    match token
    case None => Err(NotProvided)
    case Some(Malformed(_)) => Err(NotAToken)
    case Some(Signed(payload, k, exp)) =>
      if k != key then Err(BadSignature)
      else if now >= exp then Err(Expired)
      else Ok(payload)
  }

  /** A token signed at `issuedAt` verifies under the same key until an hour has
      passed, and never under another key. */
  lemma SignThenVerify<P>(payload: P, key: string, issuedAt: int, checkKey: string, now: int)
    ensures Verify(Some(Sign(payload, key, issuedAt)), checkKey, now) ==
      if checkKey != key then Err(BadSignature)
      else if now >= issuedAt + TokenLifetime then Err(Expired)
      else Ok(payload)
  {
  }
}
