/** The part of the JSON Web Token library (golang-jwt/jwt v4) that the
    middleware relies on, as an oracle. Decoding a token and checking its
    signature and time claims are left uninterpreted (fields of `Library`);
    what is fixed is the order `Parse` follows: decode the token, hand it to
    the caller's key callback, and verify only with the key the callback
    returned. */
module Jwt {
  import opened GoTypes

  /** The concrete Go type behind a `jwt.SigningMethod` value. `Other`
      stands for every type outside the five the middleware knows about
      (the library's "none" method, or a method registered by the user). */
  datatype Family = HMAC | RSA | RSAPSS | ECDSA | EdDSA | Other

  /** A signing method: its Go type and the name `Alg()` reports, which is
      the `alg` header parameter of section 4.1.1 of RFC 7515. */
  datatype SigningMethod = SigningMethod(family: Family, alg: Str)

  const SigningMethodHS256 := SigningMethod(HMAC, Ascii("HS256"))
  const SigningMethodRS256 := SigningMethod(RSA, Ascii("RS256"))
  const SigningMethodPS256 := SigningMethod(RSAPSS, Ascii("PS256"))
  const SigningMethodES256 := SigningMethod(ECDSA, Ascii("ES256"))
  const SigningMethodEdDSA := SigningMethod(EdDSA, Ascii("EdDSA"))

  /** `jwt.MapClaims`, with every claim value kept as its text. */
  type Claims = map<Str, Str>

  /** A decoded token: the signing method named by its header, and its claims. */
  datatype Token = Token(signingMethod: SigningMethod, claims: Claims)

  /** Verification key material (a shared secret or an encoded public key). */
  datatype Key = Key(material: Str)

  /** The library's uninterpreted steps. `decode` splits and decodes the
      token string, looking up the signing method its header names; `verify`
      checks the signature with the given key and the time claims, returning
      the reason for rejecting the token, if any. */
  datatype Library = Library(
    decode: Str -> Result<Token, Str>,
    verify: (Str, Token, Key) -> Option<Str>)

  /** Why `Parse` failed: the key callback's own error, or the library's. */
  datatype ParseError<+E> = KeyFuncFailed(inner: E) | Rejected(reason: Str)

  /** `jwt.Parse(tokenString, keyFunc)`. */
  function Parse<E>(lib: Library, tokenString: Str, keyFunc: Token -> Result<Key, E>): (r: Result<Token, ParseError<E>>)
    ensures r.Success? ==>
      && lib.decode(tokenString) == Success(r.value)
      && keyFunc(r.value).Success?
      && lib.verify(tokenString, r.value, keyFunc(r.value).value) == None
    ensures lib.decode(tokenString).Failure? ==> r == Failure(Rejected(lib.decode(tokenString).error))
    ensures lib.decode(tokenString).Success? ==>
      var token := lib.decode(tokenString).value;
      match keyFunc(token)
      case Failure(e) => r == Failure(KeyFuncFailed(e))
      case Success(key) =>
        (lib.verify(tokenString, token, key) == None ==> r == Success(token)) &&
        (lib.verify(tokenString, token, key).Some? ==> r == Failure(Rejected(lib.verify(tokenString, token, key).value)))
  {
    match lib.decode(tokenString)
    case Failure(reason) => Failure(Rejected(reason))
    case Success(token) =>
      match keyFunc(token)
      case Failure(e) => Failure(KeyFuncFailed(e))
      case Success(key) =>
        match lib.verify(tokenString, token, key)
        case Some(reason) => Failure(Rejected(reason))
        case None => Success(token)
  }
}
