# OAuth2 client-credentials authenticator — Dafny model

This project models the core of the collector's `oauth2clientauth` extension
(`extension/oauth2clientauthextension/extension.go`). The extension is a
client authenticator for the OAuth2 client-credentials grant (section 4.4 of
RFC 6749). The model covers these parts of it:

- **Configuration validation and construction** (`newClientCredentialsExtension`).
  Client ID, client secret and token URL are checked in that order, and the
  first empty one yields its own sentinel error. Only then are the TLS
  settings used: a TLS loader error is returned unchanged. On success the
  authenticator stores a shallow copy of the credentials (the scopes slice
  is shared with the configuration) and a token client carrying the loaded
  TLS configuration and the configured timeout.
- **The lifecycle hooks** `Start` and `Shutdown`, which always succeed.
- **The two decorations.** `RoundTripper` returns an `oauth2.Transport` over
  the caller's base transport. `PerRPCCredentials` returns gRPC per-call
  credentials. Each builds a fresh error-wrapping token source bound to the
  authenticator's own credentials and token client.
- **The error-wrapping token source** (`errorWrappingTokenSource.Token`). The
  inner source's token passes through unchanged. Its error is replaced by a
  `FailedToGetSecurityTokenError` that holds the original error and the
  credentials.
- **The structured error**, with its `Error` message and its `Unwrap`. The
  model also includes `errors.Is` over the unwrap chain, which `Unwrap` exists
  to serve.
- **Go's `%q` formatting of the token URL** in that message, with a decoder
  for it. This shows that the message names the endpoint unambiguously.

The model is pure: the Go code has no loops and updates no field after
construction. Every entity is a datatype and every operation a function.
Go's methods are datatype members. Calls into libraries that are not modelled
are replaced by their outcomes, given as parameters:

- the TLS loader's result is a `Result<T, Error>` over an abstract TLS type `T`;
- the inner token source's `(token, error)` pair is a `Fetch` value.

Files: `wrappers.dfy` (Option and Result), `quote.dfy` (module `GoQuote`),
`extension.dfy` (module `OAuth2ClientAuth`).

## Model

| member | source | states |
|---|---|---|
| OAuth2ClientAuth.NewClientCredentialsExtension | extension/oauth2clientauthextension/extension.go:58-90 | An empty client ID fails with NoClientIDProvided. Otherwise an empty secret fails with NoClientSecretProvided. Otherwise an empty token URL fails with NoTokenURLProvided. All three hold in both directions. With all three present, a TLS loader error is returned unchanged and no authenticator is made. Success happens exactly when all fields are present and TLS loads. The result then holds the config's client ID, secret, token URL and scopes (order kept), the loaded TLS value and the config's timeout, and its credentials are valid (all required fields non-empty). |
| OAuth2ClientAuth.MissingFieldPrecedesTls | extension/oauth2clientauthextension/extension.go:59-74 | When a required field is missing, the TLS outcome cannot change the result, and the result is a failure that is never a TLS error. |
| OAuth2ClientAuth.Authenticator.Start | extension/oauth2clientauthextension/extension.go:93-95 | Start always returns a nil error. |
| OAuth2ClientAuth.Authenticator.Shutdown | extension/oauth2clientauthextension/extension.go:98-100 | Shutdown always returns a nil error. |
| OAuth2ClientAuth.Authenticator.RoundTripper | extension/oauth2clientauthextension/extension.go:115-124 | Never fails. It returns a transport over the caller's base. The transport's wrapping token source carries the authenticator's own credentials as its config. Its inner source is built from those credentials and the authenticator's token client. |
| OAuth2ClientAuth.Authenticator.PerRPCCredentials | extension/oauth2clientauthextension/extension.go:128-136 | Never fails. It returns per-call credentials whose wrapping token source carries the authenticator's own credentials. Its inner source is built from those credentials and the authenticator's token client. |
| OAuth2ClientAuth.ErrorWrappingTokenSource.Token | extension/oauth2clientauthextension/extension.go:102-111 | The inner token is returned unchanged. The result has an error exactly when the inner source had one. That error is a FailedToGetSecurityTokenError whose config is the wrapper's config and whose Unwrap gives back the original error. |
| OAuth2ClientAuth.Error.Unwrap | extension/oauth2clientauthextension/extension.go:148-150 | For a FailedToGetSecurityTokenError, Unwrap returns its inner error exactly, nil included. Whatever Unwrap returns is structurally smaller, so unwrap chains are finite. |
| OAuth2ClientAuth.Error.Message | extension/oauth2clientauthextension/extension.go:139-145 | Without a config, the message is exactly "unconfigured ErrFailedToGetSecurityToken". With a config, it is exactly "failed to get security token from token endpoint " followed by the %q-quoted token URL, ": " and the inner error's %v text. Either way it is non-empty. For an error from unmodelled code it is that error's own text. |
| OAuth2ClientAuth.InnerText | extension/oauth2clientauthextension/extension.go:144 | The %v of the inner error: "<nil>" when the inner error is nil, otherwise that error's own message. |
| OAuth2ClientAuth.Authenticator.NewTokenSource | extension/oauth2clientauthextension/extension.go:118-121 | The wrapping token source both decorations build: its config is the authenticator's credentials, and its inner source is a client-credentials source over those credentials and the authenticator's token client. |
| OAuth2ClientAuth.MessageNamesEndpoint | extension/oauth2clientauthextension/extension.go:139-145 | With a config, the Error message is the fixed prefix, the quoted token URL, ": " and the inner error's text ("<nil>" for a nil inner). Reading it back gives exactly the token URL and that text. |
| OAuth2ClientAuth.UnconfiguredMessage | extension/oauth2clientauthextension/extension.go:139-142 | Without a config, the Error message is exactly "unconfigured ErrFailedToGetSecurityToken", whatever the inner error. That text is non-empty and does not read as naming an endpoint. |
| OAuth2ClientAuth.WrappedErrorMatchesCause | extension/oauth2clientauthextension/extension.go:102-111 | An error returned by the wrapper matches under errors.Is exactly itself, the original error and every error the original matches. |
| OAuth2ClientAuth.IsTransitive | extension/oauth2clientauthextension/extension.go:147-150 | errors.Is, which follows Unwrap, is transitive along unwrap chains. So a cause nested inside the inner error can be matched on the wrapped error. |
| OAuth2ClientAuth.DecoratedFetchErrorNamesConfiguredEndpoint | extension/oauth2clientauthextension/extension.go:58-150 | For any successfully constructed authenticator, the token sources of both decorations carry the authenticator's credentials as their config. Their inner sources are built from those credentials and the authenticator's token client. For either decoration, an inner fetch error comes back as an error that unwraps to the original. Its message reads back as the configured token URL and the original error's text. |
| GoQuote.Quote | extension/oauth2clientauthextension/extension.go:144 | `%q` of the token URL: the result starts and ends with a double quote and is at least two characters longer than the URL. |
| GoQuote.UnquoteQuote | extension/oauth2clientauthextension/extension.go:144 | The quoted URL, followed by any text, decodes to exactly the URL and that text. So quoting is injective and self-delimiting. |
| GoQuote.ReadBodyOfEscaped | extension/oauth2clientauthextension/extension.go:144 | The escaped body of a quoted string, followed by the closing quote, decodes to the original string (proved by induction). |

## Left out

- Token fetching, caching, expiry and refresh belong to `golang.org/x/oauth2/clientcredentials` and are not modelled. A token source is described only by the credentials and token client it was built from. `Token` takes the inner source's result as a parameter.
- The HTTP plumbing is not modelled: cloning `http.DefaultTransport`, the `http.Client`, how `oauth2.Transport` attaches the bearer header and calls the base transport, and the `context.WithValue` that hands the client to the token source.
- The gRPC `oauth.TokenSource` internals are not modelled.
- `LoadTLSConfig` is not modelled. Its outcome is an input: an opaque TLS value (possibly Go's nil) or an error.
- The zap logger the authenticator stores is not modelled. Nothing in the modelled code uses it.
- The sentinel errors' message texts are not modelled. They are defined in a file that is not part of this model, so the sentinels are distinct constructors.
- GoQuote.Quote: follows `strconv.Quote` exactly for ASCII characters. It keeps every non-ASCII character as it is, whereas Go escapes non-printable non-ASCII characters as `\u`/`\U` sequences. Strings with invalid UTF-8 cannot be represented in this model.
- Error-value identity is not modelled: credentials are compared by value where Go compares `*clientcredentials.Config` pointers, both in `errors.Is` and in the nil check of `Error`.
- Each decoration call's freshness is not modelled. Two calls give equal values here, where Go gives distinct token sources with separate caches.
- Aliasing of the scopes is not modelled: Go copies the `Scopes` slice header, so the stored credentials share its elements with the configuration; here they are an independent sequence.
- `errors.As` and `Is` methods on foreign error types are not modelled; `errors.Is` is modelled as plain equality along the unwrap chain.
- Concurrency is out of scope; the code has no concurrent logic of its own.
