# tokenauth: a Dafny model of a JWT bearer-token middleware

This project models the decision logic of the Go package `tokenauth`, a
middleware for the buffalo web framework. The middleware authorises a
request by the JSON Web Token in its `Authorization` header. The model covers:

- **Scheme extraction** (`getJwtToken`). It has three outcomes: "token not
  found in request" for an empty header, "token invalid", or the token. The
  token is the header without its first `len(scheme)+1` bytes. The scheme is
  compared byte for byte and case-sensitively. The byte after it is dropped
  without being checked.
- **Key-loader dispatch** (`selectGetKeyFunc`). The concrete Go type of the
  signing method picks one of the package's key loaders. The RSA, RSA-PSS,
  ECDSA and Ed25519 types each have a loader. Every other type, HMAC
  included, gets the HMAC loader.
- **Construction** (`New`). A nil signing method becomes HS256. A nil GetKey
  becomes the dispatched loader. The key is loaded once, and a failed load
  stops the program. An empty scheme becomes "Bearer".
- **Per-request handling** (the closure `New` returns). It extracts the
  token, then calls `jwt.Parse` with a key callback. The callback hands out
  the cached key only when the token's `alg` equals the configured
  method's `Alg()`; otherwise it fails with "unexpected signing method".
  This check is the defence that section 3.1 of RFC 8725 recommends. Any
  failure answers 401 and does not call the next handler. On success the
  claims are stored under `"claims"`, then the next handler runs and its
  error is returned unchanged.

Files:

- `go_types.dfy`: Go strings as byte sequences, plus `Option` and `Result`.
- `jwt.dfy`: the JWT library, modelled as an oracle.
- `tokenauth.dfy`: the package itself.

The library is used in a fixed order. `Jwt.Parse` decodes the token string,
gives the decoded token to the key callback, and verifies the signature and
time claims only with the key the callback returned. Decoding and verifying
are uninterpreted functions, the fields of `Jwt.Library`. So every property
here holds for every possible outcome of the cryptography. This order is an
assumption about golang-jwt v4. That library is not part of this model.

Strings are byte sequences because Go's `len` and slicing count bytes. If the
byte after the scheme begins a multi-byte UTF-8 character, only that one byte
is dropped.

The code differs from the `Bearer` syntax of section 2.1 of RFC 6750 in
three ways. Any byte is accepted as the separator, so `BearerXabc` yields
`abc`. The scheme is case-sensitive, whereas RFC 7235 makes schemes
case-insensitive, so `bearer abc` is refused. Extra spaces stay in the
token, so `Bearer  abc`, which the RFC allows, yields ` abc`. The model
follows the code. A header of only the scheme, or of the scheme and one
byte, is "token invalid". Such a header never yields an empty token.

The algorithm check compares the `Alg()` names, not signing-method
families. A server configured with RS256 therefore also refuses RS384
tokens.

`TokenAuth.TestApplications` is a client of `New`. It rebuilds the six
configurations of the package's test applications (HMAC, RSA, RSA-PSS,
EdDSA, ECDSA and the "Token" scheme) and proves what each one resolves to.

## Model

| member | source | states |
|---|---|---|
| `TokenAuth.GetJwtToken` | tokenauth.go:199-208 | "token not found" exactly when the header is empty. Any other failure is "token invalid". Success exactly when the header is longer than the scheme plus one byte and starts with the scheme. The token is then non-empty, and the header is the scheme, one byte and the token. |
| `TokenAuth.HeaderRoundTrip` | tokenauth.go:203-205 | A header built from the scheme, any separator byte and a non-empty token extracts to exactly that token. This is the inverse of extraction. |
| `TokenAuth.SeparatorIgnored` | tokenauth.go:204-205 | Replacing the byte at index `len(scheme)` with any other byte never changes the outcome of extraction. |
| `TokenAuth.NotSchemeIsInvalid` | tokenauth.go:204-207 | A non-empty header that does not start with the scheme, or is at most one byte longer than it, is "token invalid". |
| `TokenAuth.ExtractionExamples` | tokenauth_test.go:107-116 | With scheme "Bearer": the empty header (the tests' missing header) is "token not found"; "badcreds" (as in the tests) and the scheme-only headers "Bearer" and "Bearer " are "token invalid"; "Bearer a.b.c" yields "a.b.c". |
| `TokenAuth.SelectGetKeyFunc` | tokenauth.go:130-143 | The loader chosen for a method is the one for its family. The Other family gets the HMAC loader. A user-defined loader is never chosen. |
| `TokenAuth.DispatchInverse` | tokenauth.go:130-143 | Every package loader is the one dispatched for its own family, whatever the method's `alg` name. Together with `SelectGetKeyFunc` this makes dispatch and `LoaderFamily` inverse on the five families. |
| `TokenAuth.New` | tokenauth.go:76-92 | A nil method becomes HS256. A nil GetKey becomes the loader dispatched for that method, and a given one is kept. The key comes from that loader applied to that method. A failed load yields the error wrapped as "couldn't get key" and no configuration. An empty scheme becomes "Bearer", and a given one is kept. The scheme of a built configuration is never empty. |
| `TokenAuth.KeyFunc` | tokenauth.go:105-111 | The callback yields a key if and only if the token's `alg` equals the configured `alg`. That key is the cached one. Otherwise the error is "unexpected signing method". |
| `TokenAuth.ParseToken` | tokenauth.go:105-111 | A token is accepted if and only if it decodes from the string, declares the configured `alg` and verifies with the configured key; the accepted token is the decoded one. A decoded token with another `alg` always fails with the callback's "unexpected signing method". |
| `Jwt.Parse` | tokenauth.go:105 | The library succeeds if and only if decoding succeeds, the key callback yields a key, and verification with that key raises nothing; it then returns the decoded token. A decoding failure and a verification failure come back as the library's rejection, a callback error as `KeyFuncFailed` of that error. |
| `TokenAuth.Serve` | tokenauth.go:94-124 | Parse is called if and only if extraction succeeded. Next is called if and only if extraction and parse both succeeded. A failed extraction makes no call, leaves the context unchanged and returns a 401 carrying the extraction error ("token not found" or "token invalid"). A failed parse records exactly one parse call, with the extracted token, and returns a 401 carrying the parse error. Without a call to next, the context is unchanged and the result is a 401 HTTP error. With one, the context gets exactly the token's claims under "claims" before next runs, next is the last call, and its result is returned unchanged. |
| `TokenAuth.AlgorithmMismatchRejected` | tokenauth.go:105-115 | A token declaring a different `alg` from the configured one gets 401 "unexpected signing method". Next is never called and the context is unchanged, whatever signature verification would say. |
| `TokenAuth.NextOnlyForVerifiedTokens` | tokenauth.go:98-121 | When next runs, the header is the configured scheme, one byte and a token. That token decodes, declares the configured `alg` and verifies with the configured key, and its claims are in the context under "claims". |
| `TokenAuth.VerifiedTokenReachesNext` | tokenauth.go:105-123 | A header of the configured scheme, any byte and a token that decodes, declares the configured `alg` and verifies with the configured key reaches next. Next sees the context with exactly the token's claims added under "claims", and its result is returned. |
| `TokenAuth.CustomSchemeSwitch` | tokenauth_test.go:334-348 | With scheme "Token", "Token <tok>" passes `<tok>` to the parser, and a valid `<tok>` reaches next, whose result is returned. "Bearer <tok>" gets 401 "token invalid" before any parse. |
| `TokenAuth.Context.Set` | tokenauth.go:119 | Setting a context value changes that one key and nothing else. |
| `TokenAuth.TestApplications` | tokenauth_test.go:21-100 | With every key load succeeding, the six test applications resolve to: HS256 with scheme "Bearer"; RS256 with `GetKeyRSA`; PS256 with the given `GetKeyRSAPSS`; EdDSA with `GetkeyEdDSA`; ES256 with `GetKeyECDSA`; HMAC with scheme "Token". A failing key load builds no configuration. These are assertions in the method body. |
| `TokenAuth.Handle` | tokenauth.go:94-124 | The handler run on a context leaves the context values, the recorded calls and the returned error exactly as `Serve` describes. |

## Left out

- The key loaders `GetHMACKey`, `GetKeyRSA`, `GetKeyRSAPSS`, `GetKeyECDSA` and `GetkeyEdDSA` (tokenauth.go:146-193) are kept only as dispatch tags. Each one reads an environment variable, a file and a PEM key. `New` receives their outcome as a function parameter (`Environment`).
- `log.Fatal` ends the process when the key cannot be loaded. `New` instead returns a failure and builds no middleware.
- The internals of `jwt.Parse` are uninterpreted: signature checking, time claims and the "Token is expired" message. `Jwt.Parse` keeps only their order relative to the key callback.
- The buffalo context is modelled as the class `Context`: the `Authorization` header value (empty when absent), a map of values and a ghost record of the calls made. It has no request, no rendering and no response writing. `HTTPError` is the value the context's `Error` method returns.
- The next handler is a function of the context values it sees. Its own effects on the context and the response are not modelled.
- Claims are a map from name to text. JSON value types are not modelled.
- Concurrency between requests is left out. The configuration and key are immutable after `New`.
- The test harness (HTTP recording, key files, real signing) is not part of this model.
