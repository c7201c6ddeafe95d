/** The tokenauth middleware: it takes the bearer token out of a request's
    Authorization header, has the JWT library parse it with a key callback
    that refuses any token whose algorithm is not the configured one, and
    only then stores the claims in the request context and runs the next
    handler. */
module TokenAuth {
  import opened GoTypes
  import opened Jwt

  /** The Go errors that reach the middleware or leave it. */
  datatype Error =
    | ErrTokenInvalid                          // "token invalid"
    | ErrNoToken                               // "token not found in request"
    | ErrBadSigningMethod                      // "unexpected signing method"
    | ParseFailed(parseError: ParseError<Error>) // what jwt.Parse returned
    | HTTPError(status: int, cause: Error)     // what the context's Error method returns
    | Wrapped(message: Str, cause: Error)      // errors.Wrap
    | External(message: Str)                   // an error of code outside the model (key loaders, handlers)

  const StatusUnauthorized := 401
  const Bearer := Ascii("Bearer")
  const ClaimsKey := Ascii("claims")
  const CouldntGetKey := Ascii("couldn't get key")

  /** The functions that can fill the GetKey option: the package's five
      loaders by name, or a function of the user's. */
  datatype KeyLoader = GetHMACKey | GetKeyRSA | GetKeyRSAPSS | GetKeyECDSA | GetkeyEdDSA | Custom(name: Str)

  /** What running a KeyLoader yields: it reads the process environment and
      key files, so the model takes it as a parameter. */
  type Environment = (KeyLoader, SigningMethod) -> Result<Key, Error>

  /** The `Options` struct; `None` is a nil field, `[]` an empty scheme. */
  datatype Options = Options(signMethod: Option<SigningMethod>, getKey: Option<KeyLoader>, authScheme: Str)

  /** What the request handler closes over once `New` has filled in the
      defaults and loaded the key. */
  datatype Config = Config(signMethod: SigningMethod, getKey: KeyLoader, key: Key, authScheme: Str)

  // ---------------------------------------------------------------------
  // Scheme extraction

  /** `getJwtToken`: the token is what follows the scheme and one more byte,
      which is dropped unchecked. The scheme is compared byte for byte. */
  function GetJwtToken(authString: Str, authScheme: Str): (r: Result<Str, Error>)
    ensures r == Failure(ErrNoToken) <==> authString == []
    ensures r.Failure? ==> r.error == ErrNoToken || r.error == ErrTokenInvalid
    ensures r.Success? <==> |authString| > |authScheme| + 1 && authString[..|authScheme|] == authScheme
    ensures r.Success? ==> r.value != [] && authString == authScheme + [authString[|authScheme|]] + r.value
  {
    if authString == [] then
      Failure(ErrNoToken)
    else
      var l := |authScheme|;
      if |authString| > l + 1 && authString[..l] == authScheme then
        Success(authString[l + 1..])
      else
        Failure(ErrTokenInvalid)
  }

  /** Scheme, any separator byte and a non-empty token make a header from
      which exactly that token is extracted. */
  lemma HeaderRoundTrip(authScheme: Str, separator: byte, token: Str)
    requires token != []
    ensures GetJwtToken(authScheme + [separator] + token, authScheme) == Success(token)
  {
  }

  /** The byte after the scheme never influences the outcome. */
  lemma SeparatorIgnored(authString: Str, authScheme: Str, b: byte)
    requires |authString| > |authScheme|
    ensures GetJwtToken(authString[|authScheme| := b], authScheme) == GetJwtToken(authString, authScheme)
  {
  }

  /** A non-empty header that does not begin with the scheme, or that has no
      byte left for a token, is invalid rather than missing. */
  lemma NotSchemeIsInvalid(authString: Str, authScheme: Str)
    requires authString != []
    requires |authString| <= |authScheme| + 1 || authString[..|authScheme|] != authScheme
    ensures GetJwtToken(authString, authScheme) == Failure(ErrTokenInvalid)
  {
  }

  /** Headers under the default scheme: those the package's tests send
      (none, "badcreds", "Bearer <token>") and the two scheme-only ones. */
  lemma ExtractionExamples()
    ensures GetJwtToken([], Bearer) == Failure(ErrNoToken)
    ensures GetJwtToken(Ascii("badcreds"), Bearer) == Failure(ErrTokenInvalid)
    ensures GetJwtToken(Ascii("Bearer"), Bearer) == Failure(ErrTokenInvalid)
    ensures GetJwtToken(Ascii("Bearer "), Bearer) == Failure(ErrTokenInvalid)
    ensures GetJwtToken(Ascii("Bearer a.b.c"), Bearer) == Success(Ascii("a.b.c"))
  {
    assert Ascii("badcreds")[0] != Bearer[0];
    assert Ascii("Bearer a.b.c") == Bearer + [Ascii(" ")[0]] + Ascii("a.b.c");
    HeaderRoundTrip(Bearer, Ascii(" ")[0], Ascii("a.b.c"));
  }

  // ---------------------------------------------------------------------
  // Key-loader dispatch

  /** The family each package loader is named for (GetKeyRSAPSS is named
      for RSA-PSS, though it reads the same RSA key as GetKeyRSA); a user's
      function has none. */
  function LoaderFamily(loader: KeyLoader): Option<Family> {
    match loader
    case GetHMACKey => Some(HMAC)
    case GetKeyRSA => Some(RSA)
    case GetKeyRSAPSS => Some(RSAPSS)
    case GetKeyECDSA => Some(ECDSA)
    case GetkeyEdDSA => Some(EdDSA)
    case Custom(_) => None
  }

  /** `selectGetKeyFunc`: a switch on the method's Go type only; every type
      other than the four asymmetric ones falls back to the HMAC loader. */
  function SelectGetKeyFunc(signMethod: SigningMethod): (r: KeyLoader)
    ensures LoaderFamily(r) == Some(if signMethod.family == Other then HMAC else signMethod.family)
  {
    match signMethod.family
    case RSA => GetKeyRSA
    case ECDSA => GetKeyECDSA
    case RSAPSS => GetKeyRSAPSS
    case EdDSA => GetkeyEdDSA
    case _ => GetHMACKey
  }

  /** Each package loader is the one dispatched for its own family, whatever
      name the method reports. */
  lemma DispatchInverse(loader: KeyLoader, alg: Str)
    requires LoaderFamily(loader).Some?
    ensures SelectGetKeyFunc(SigningMethod(LoaderFamily(loader).value, alg)) == loader
  {
  }

  // ---------------------------------------------------------------------
  // Construction

  /** `New` up to the returned closure: fills the nil options in, in the
      source's order, and loads the key once. A failed load is fatal in the
      source (log.Fatal); here it yields no configuration. */
  method New(options: Options, environment: Environment) returns (r: Result<Config, Error>)
    ensures var signMethod := if options.signMethod.None? then SigningMethodHS256 else options.signMethod.value;
            var getKey := if options.getKey.None? then SelectGetKeyFunc(signMethod) else options.getKey.value;
            match environment(getKey, signMethod)
            case Failure(e) => r == Failure(Wrapped(CouldntGetKey, e))
            case Success(key) =>
              r == Success(Config(signMethod, getKey, key, if options.authScheme == [] then Bearer else options.authScheme))
    ensures r.Success? ==> r.value.authScheme != []
  {
    var opts := options;
    if opts.signMethod.None? {
      opts := opts.(signMethod := Some(SigningMethodHS256));
    }
    if opts.getKey.None? {
      opts := opts.(getKey := Some(SelectGetKeyFunc(opts.signMethod.value)));
    }
    var key := environment(opts.getKey.value, opts.signMethod.value);
    if key.Failure? {
      return Failure(Wrapped(CouldntGetKey, key.error));
    }
    if opts.authScheme == [] {
      opts := opts.(authScheme := Bearer);
    }
    r := Success(Config(opts.signMethod.value, opts.getKey.value, key.value, opts.authScheme));
  }

  // ---------------------------------------------------------------------
  // Token verification

  /** The key callback given to jwt.Parse: the cached key, and only for a
      token whose `alg` is the configured one. */
  function KeyFunc(cfg: Config, token: Token): (r: Result<Key, Error>)
    ensures r.Success? <==> token.signingMethod.alg == cfg.signMethod.alg
    ensures r.Success? ==> r.value == cfg.key
    ensures r.Failure? ==> r.error == ErrBadSigningMethod
  {
    if token.signingMethod.alg != cfg.signMethod.alg then Failure(ErrBadSigningMethod) else Success(cfg.key)
  }

  /** `jwt.Parse(tokenString, keyFunc)` as the handler calls it. */
  function ParseToken(cfg: Config, lib: Library, tokenString: Str): (r: Result<Token, ParseError<Error>>)
    ensures r.Success? <==>
      && lib.decode(tokenString).Success?
      && lib.decode(tokenString).value.signingMethod.alg == cfg.signMethod.alg
      && lib.verify(tokenString, lib.decode(tokenString).value, cfg.key) == None
    ensures r.Success? ==> lib.decode(tokenString) == Success(r.value)
    ensures lib.decode(tokenString).Success? && lib.decode(tokenString).value.signingMethod.alg != cfg.signMethod.alg ==>
      r == Failure(KeyFuncFailed(ErrBadSigningMethod))
  {
    Parse(lib, tokenString, (token: Token) => KeyFunc(cfg, token))
  }

  // ---------------------------------------------------------------------
  // The request handler

  /** A value stored in the request context. */
  datatype Value = ClaimsValue(claims: Claims) | OtherValue(text: Str)

  type Values = map<Str, Value>

  /** The next handler, seen through the context values it is given. */
  type Handler = Values -> Option<Error>

  /** A call the handler makes into code outside it, in order. */
  datatype Call = ParseCall(tokenString: Str) | NextCall(seen: Values)

  /** What one request does: its calls, the context afterwards, the error returned (nil is None). */
  datatype Run = Run(calls: seq<Call>, values: Values, result: Option<Error>)

  predicate ParseCalled(calls: seq<Call>) {
    exists i :: 0 <= i < |calls| && calls[i].ParseCall?
  }

  predicate NextCalled(calls: seq<Call>) {
    exists i :: 0 <= i < |calls| && calls[i].NextCall?
  }

  /** The handler closure's decision for one request with the given
      Authorization header ("" when absent) and context values. */
  function Serve(cfg: Config, lib: Library, next: Handler, authorization: Str, values: Values): (run: Run)
    ensures ParseCalled(run.calls) <==> GetJwtToken(authorization, cfg.authScheme).Success?
    ensures NextCalled(run.calls) <==>
      && GetJwtToken(authorization, cfg.authScheme).Success?
      && ParseToken(cfg, lib, GetJwtToken(authorization, cfg.authScheme).value).Success?
    ensures GetJwtToken(authorization, cfg.authScheme).Failure? ==>
      run == Run([], values, Some(HTTPError(StatusUnauthorized, GetJwtToken(authorization, cfg.authScheme).error)))
    ensures GetJwtToken(authorization, cfg.authScheme).Success? ==>
      var parsed := ParseToken(cfg, lib, GetJwtToken(authorization, cfg.authScheme).value);
      parsed.Failure? ==>
        && run.calls == [ParseCall(GetJwtToken(authorization, cfg.authScheme).value)]
        && run.result == Some(HTTPError(StatusUnauthorized, ParseFailed(parsed.error)))
    ensures !NextCalled(run.calls) ==>
      && run.values == values
      && run.result.Some? && run.result.value.HTTPError?
      && run.result.value.status == StatusUnauthorized
    ensures NextCalled(run.calls) ==>
      var tokenString := GetJwtToken(authorization, cfg.authScheme).value;
      var token := ParseToken(cfg, lib, tokenString).value;
      && run.values == values[ClaimsKey := ClaimsValue(token.claims)]
      && run.calls == [ParseCall(tokenString), NextCall(run.values)]
      && run.result == next(run.values)
  {
    match GetJwtToken(authorization, cfg.authScheme)
    case Failure(e) => Run([], values, Some(HTTPError(StatusUnauthorized, e)))
    case Success(tokenString) =>
      match ParseToken(cfg, lib, tokenString)
      case Failure(e) =>
        var calls := [ParseCall(tokenString)];
        assert calls[0].ParseCall?;
        Run(calls, values, Some(HTTPError(StatusUnauthorized, ParseFailed(e))))
      case Success(token) =>
        var withClaims := values[ClaimsKey := ClaimsValue(token.claims)];
        var calls := [ParseCall(tokenString), NextCall(withClaims)];
        assert calls[0].ParseCall? && calls[1].NextCall?;
        Run(calls, withClaims, next(withClaims))
  }

  /** A token that declares another algorithm than the configured one is
      refused with a 401, whatever the library's signature check would say. */
  lemma AlgorithmMismatchRejected(cfg: Config, lib: Library, next: Handler, authorization: Str, values: Values, tokenString: Str)
    requires GetJwtToken(authorization, cfg.authScheme) == Success(tokenString)
    requires lib.decode(tokenString).Success?
    requires lib.decode(tokenString).value.signingMethod.alg != cfg.signMethod.alg
    ensures var run := Serve(cfg, lib, next, authorization, values);
      && !NextCalled(run.calls)
      && run.values == values
      && run.result == Some(HTTPError(StatusUnauthorized, ParseFailed(KeyFuncFailed(ErrBadSigningMethod))))
  {
  }

  /** The next handler runs only for a header made of the configured scheme,
      one byte and a token that declares the configured algorithm and
      passes verification with the configured key; it then finds the
      token's claims under "claims". */
  lemma NextOnlyForVerifiedTokens(cfg: Config, lib: Library, next: Handler, authorization: Str, values: Values)
    requires NextCalled(Serve(cfg, lib, next, authorization, values).calls)
    ensures |authorization| > |cfg.authScheme| + 1 && authorization[..|cfg.authScheme|] == cfg.authScheme
    ensures var tokenString := authorization[|cfg.authScheme| + 1..];
      && lib.decode(tokenString).Success?
      && lib.decode(tokenString).value.signingMethod.alg == cfg.signMethod.alg
      && lib.verify(tokenString, lib.decode(tokenString).value, cfg.key) == None
      && Serve(cfg, lib, next, authorization, values).values[ClaimsKey] == ClaimsValue(lib.decode(tokenString).value.claims)
  {
  }

  /** A header of the configured scheme, any byte and a token that decodes,
      declares the configured algorithm and verifies with the configured key
      reaches the next handler, which sees the token's claims under "claims"
      and whose result is returned. */
  lemma VerifiedTokenReachesNext(cfg: Config, lib: Library, next: Handler, separator: byte, tokenString: Str, values: Values)
    requires tokenString != []
    requires lib.decode(tokenString).Success?
    requires lib.decode(tokenString).value.signingMethod.alg == cfg.signMethod.alg
    requires lib.verify(tokenString, lib.decode(tokenString).value, cfg.key) == None
    ensures var run := Serve(cfg, lib, next, cfg.authScheme + [separator] + tokenString, values);
      && NextCalled(run.calls)
      && run.values == values[ClaimsKey := ClaimsValue(lib.decode(tokenString).value.claims)]
      && run.result == next(run.values)
  {
  }

  /** With the scheme set to "Token", "Token <tok>" reaches jwt.Parse with
      <tok> and, when <tok> is a valid token, the next handler; "Bearer <tok>"
      is refused before parsing. */
  lemma CustomSchemeSwitch(cfg: Config, lib: Library, next: Handler, tokenString: Str, values: Values)
    requires cfg.authScheme == Ascii("Token")
    requires tokenString != []
    ensures var run := Serve(cfg, lib, next, Ascii("Token ") + tokenString, values);
      && |run.calls| > 0 && run.calls[0] == ParseCall(tokenString)
      && (lib.decode(tokenString).Success?
          && lib.decode(tokenString).value.signingMethod.alg == cfg.signMethod.alg
          && lib.verify(tokenString, lib.decode(tokenString).value, cfg.key) == None
          ==> NextCalled(run.calls) && run.result == next(run.values))
    ensures Serve(cfg, lib, next, Ascii("Bearer ") + tokenString, values)
         == Run([], values, Some(HTTPError(StatusUnauthorized, ErrTokenInvalid)))
  {
    var space := Ascii(" ")[0];
    assert Ascii("Token ") == Ascii("Token") + [space];
    HeaderRoundTrip(Ascii("Token"), space, tokenString);
    var bearer := Ascii("Bearer ") + tokenString;
    assert bearer[0] != Ascii("Token")[0];
    NotSchemeIsInvalid(bearer, cfg.authScheme);
  }

  /** The request context: the Authorization header, the values handlers
      share, and (for the proof only) the calls the handler has made. */
  class Context {
    const authorization: Str
    var values: Values
    ghost var calls: seq<Call>

    constructor (authorization: Str, values: Values)
      ensures this.authorization == authorization && this.values == values && calls == []
    {
      this.authorization := authorization;
      this.values := values;
      calls := [];
    }

    /** The context's Set method. */
    method Set(key: Str, value: Value)
      modifies this`values
      ensures values == old(values)[key := value]
    {
      values := values[key := value];
    }
  }

  /** The handler closure returned by `New`, run on one request. */
  method Handle(cfg: Config, lib: Library, next: Handler, c: Context) returns (err: Option<Error>)
    modifies c
    ensures var run := Serve(cfg, lib, next, c.authorization, old(c.values));
      && c.values == run.values
      && c.calls == old(c.calls) + run.calls
      && err == run.result
  {
    var tokenString := GetJwtToken(c.authorization, cfg.authScheme);
    if tokenString.Failure? {
      return Some(HTTPError(StatusUnauthorized, tokenString.error));
    }
    c.calls := c.calls + [ParseCall(tokenString.value)];
    var token := ParseToken(cfg, lib, tokenString.value);
    if token.Failure? {
      return Some(HTTPError(StatusUnauthorized, ParseFailed(token.error)));
    }
    c.Set(ClaimsKey, ClaimsValue(token.value.claims));
    c.calls := c.calls + [NextCall(c.values)];
    err := next(c.values);
  }

  /** The configurations the package's test applications build, with every
      key load succeeding. */
  method TestApplications()
  {
    var environment: Environment := (loader: KeyLoader, signMethod: SigningMethod) => Success(Key([]));
    var hmac := New(Options(None, Some(GetHMACKey), []), environment);
    assert hmac.Success? && hmac.value.signMethod == SigningMethodHS256 && hmac.value.authScheme == Bearer;
    var rsa := New(Options(Some(SigningMethodRS256), None, []), environment);
    assert rsa.Success? && rsa.value.getKey == GetKeyRSA;
    var eddsa := New(Options(Some(SigningMethodEdDSA), None, []), environment);
    assert eddsa.Success? && eddsa.value.getKey == GetkeyEdDSA;
    var rsapss := New(Options(Some(SigningMethodPS256), Some(GetKeyRSAPSS), []), environment);
    assert rsapss.Success? && rsapss.value.signMethod == SigningMethodPS256 && rsapss.value.getKey == GetKeyRSAPSS;
    var ecdsa := New(Options(Some(SigningMethodES256), None, []), environment);
    assert ecdsa.Success? && ecdsa.value.getKey == GetKeyECDSA;
    var custom := New(Options(None, None, Ascii("Token")), environment);
    assert custom.Success? && custom.value.getKey == GetHMACKey && custom.value.authScheme == Ascii("Token");
    var missing := New(Options(None, None, []), (loader: KeyLoader, signMethod: SigningMethod) => Failure(External(Ascii("JWT_SECRET"))));
    assert missing.Failure?;
  }
}
