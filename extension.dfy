/** The OAuth2 client-credentials authenticator (the client-credentials grant
    of section 4.4 of RFC 6749) of the collector's oauth2clientauth
    extension: validation of its configuration, the authenticator it builds,
    the token source that wraps token-fetch errors with the token endpoint
    they came from, and that structured error.

    Values the source obtains from libraries not modelled here are inputs:
    the TLS loader's outcome is a parameter of the construction, and the
    inner token source's outcome is a parameter of `Token`. */
module OAuth2ClientAuth {
  import opened Wrappers
  import GoQuote

  /** The extension's configuration, without its TLS settings (whose loading
      is an input of the construction). `timeout` is a Go time.Duration. */
  datatype Config = Config(
    clientID: string,
    clientSecret: string,
    tokenURL: string,
    scopes: seq<string>,
    timeout: int)

  /** The clientcredentials.Config the authenticator stores and hands to
      every token source and every error it wraps. */
  datatype Credentials = Credentials(
    clientID: string,
    clientSecret: string,
    tokenURL: string,
    scopes: seq<string>)

  /** The HTTP client used only for token-endpoint requests: a clone of the
      default transport carrying the loaded TLS configuration `tls`, and the
      configured timeout. */
  datatype TokenClient<T> = TokenClient(tls: T, timeout: int)

  /** An access token as the token endpoint issued it. */
  datatype OAuth2Token = OAuth2Token(accessToken: string, tokenType: string, expiry: int)

  /** The Go `error` values this model deals with: errors produced by code
      that is not modelled (`text` is what their Error method gives, `cause`
      what their Unwrap gives), and FailedToGetSecurityTokenError, whose
      `inner` and `config` may each be nil in Go. */
  datatype Error =
    | External(text: string, cause: Option<Error>)
    | FailedToGetSecurityToken(inner: Option<Error>, config: Option<Credentials>)
  {
    /** The text `%v` prints for this error; for a
        FailedToGetSecurityTokenError this is its Error method. */
    function Message(): (r: string)
      ensures External? ==> r == text
      ensures FailedToGetSecurityToken? && config.None? ==> r == Unconfigured
      ensures FailedToGetSecurityToken? && config.Some? ==>
        r == Prefix + GoQuote.Quote(config.value.tokenURL) + ": " + InnerText(inner)
      ensures FailedToGetSecurityToken? ==> |r| > 0
    {
      match this
      case External(text, _) => text
      case FailedToGetSecurityToken(inner, config) =>
        if config.None? then Unconfigured
        else Prefix + GoQuote.Quote(config.value.tokenURL) + ": " + InnerText(inner)
    }

    /** What Unwrap gives: the wrapped error, or nil. */
    function Unwrap(): (r: Option<Error>)
      ensures r.Some? ==> r.value < this
      ensures FailedToGetSecurityToken? ==> r == inner
    {
      match this
      case External(_, cause) => cause
      case FailedToGetSecurityToken(inner, _) => inner
    }
  }

  /** The message of a FailedToGetSecurityTokenError built without a config. */
  const Unconfigured: string := "unconfigured ErrFailedToGetSecurityToken"

  /** The text a FailedToGetSecurityTokenError's message starts with when it
      has a config; the quoted token URL follows. */
  const Prefix: string := "failed to get security token from token endpoint "

  /** What `%v` prints for an error that may be nil. */
  function InnerText(e: Option<Error>): (r: string)
    ensures e.None? ==> r == "<nil>"
    ensures e.Some? ==> r == e.value.Message()
    decreases e, 0
  {
    if e.None? then "<nil>" else e.value.Message()
  }

  /** The configuration errors of the construction; the sentinel errors
      come first, in the order they are checked. The TLS loader's error is
      carried unchanged. */
  datatype ConstructionError =
    | NoClientIDProvided
    | NoClientSecretProvided
    | NoTokenURLProvided
    | TlsLoadFailed(cause: Error)

  /** Credentials an authenticator can hold: the three required fields
      are non-empty. */
  predicate ValidCredentials(c: Credentials)
  {
    c.clientID != "" && c.clientSecret != "" && c.tokenURL != ""
  }

  /** The credentials a configuration names. */
  function CredentialsOf(cfg: Config): Credentials
  {
    Credentials(cfg.clientID, cfg.clientSecret, cfg.tokenURL, cfg.scopes)
  }

  /** A configuration the construction accepts, TLS aside. */
  predicate Complete(cfg: Config)
  {
    ValidCredentials(CredentialsOf(cfg))
  }

  /** The authenticator. It owns its credentials and its token client and
      never changes after construction. */
  datatype Authenticator<T> = Authenticator(credentials: Credentials, client: TokenClient<T>)
  {
    /** The lifecycle start hook. */
    function Start(): (r: Option<Error>)
      ensures r.None?
    {
      None
    }

    /** The lifecycle shutdown hook. */
    function Shutdown(): (r: Option<Error>)
      ensures r.None?
    {
      None
    }

    /** The error-wrapping token source each decoration call builds around a
        new client-credentials token source that uses this authenticator's
        credentials and token client. */
    function NewTokenSource(): (r: ErrorWrappingTokenSource<T>)
      ensures r.config == Some(credentials)
      ensures r.ts == ClientCredentialsTokenSource(credentials, client)
    {
      ErrorWrappingTokenSource(ClientCredentialsTokenSource(credentials, client), Some(credentials))
    }

    /** The HTTP decoration: an oauth2.Transport over `base` whose token
        source wraps errors with this authenticator's credentials. */
    function RoundTripper<B>(base: B): (r: Result<OAuth2Transport<T, B>, Error>)
      ensures r.Success?
      ensures r.value.base == base
      ensures r.value.source.config == Some(credentials)
      ensures r.value.source.ts.credentials == credentials && r.value.source.ts.client == client
    {
      Success(OAuth2Transport(NewTokenSource(), base))
    }

    /** The gRPC decoration: per-call credentials drawing tokens from a
        token source that wraps errors with this authenticator's
        credentials. */
    function PerRPCCredentials(): (r: Result<GrpcTokenSource<T>, Error>)
      ensures r.Success?
      ensures r.value.source.config == Some(credentials)
      ensures r.value.source.ts.credentials == credentials && r.value.source.ts.client == client
    {
      Success(GrpcTokenSource(NewTokenSource()))
    }
  }

  /** A client-credentials token source, described by what it was built
      from; its fetching and caching are not modelled. */
  datatype TokenSource<T> = ClientCredentialsTokenSource(credentials: Credentials, client: TokenClient<T>)

  /** What a token source's Token method returns; Go returns both halves,
      and either may be nil. */
  datatype Fetch = Fetch(token: Option<OAuth2Token>, err: Option<Error>)

  /** A token source whose errors are replaced by
      FailedToGetSecurityTokenError carrying `config`. */
  datatype ErrorWrappingTokenSource<T> = ErrorWrappingTokenSource(ts: TokenSource<T>, config: Option<Credentials>)
  {
    /** Token, given what the inner source `ts` returned. The token passes
        through; an error becomes a structured error that unwraps to it and
        carries this source's config. */
    function Token(inner: Fetch): (r: Fetch)
      ensures r.token == inner.token
      ensures r.err.None? <==> inner.err.None?
      ensures r.err.Some? ==> r.err.value.FailedToGetSecurityToken? && r.err.value.config == config
      ensures r.err.Some? ==> r.err.value.Unwrap() == inner.err
    {
      if inner.err.Some? then Fetch(inner.token, Some(FailedToGetSecurityToken(inner.err, config)))
      else inner
    }
  }

  /** oauth2.Transport: the HTTP round tripper over `base`. */
  datatype OAuth2Transport<T, B> = OAuth2Transport(source: ErrorWrappingTokenSource<T>, base: B)

  /** grpc's oauth.TokenSource: gRPC per-call credentials. */
  datatype GrpcTokenSource<T> = GrpcTokenSource(source: ErrorWrappingTokenSource<T>)

  /** newClientCredentialsExtension, given the outcome `tlsLoad` of loading
      the configuration's TLS settings. The three required fields are checked
      in order before the TLS settings are used. */
  function NewClientCredentialsExtension<T>(cfg: Config, tlsLoad: Result<T, Error>): (r: Result<Authenticator<T>, ConstructionError>)
    ensures r == Failure(NoClientIDProvided) <==> cfg.clientID == ""
    ensures r == Failure(NoClientSecretProvided) <==> cfg.clientID != "" && cfg.clientSecret == ""
    ensures r == Failure(NoTokenURLProvided) <==> cfg.clientID != "" && cfg.clientSecret != "" && cfg.tokenURL == ""
    ensures (r.Failure? && r.error.TlsLoadFailed?) <==> Complete(cfg) && tlsLoad.Failure?
    ensures r.Failure? && r.error.TlsLoadFailed? ==> r.error.cause == tlsLoad.error
    ensures r.Success? <==> Complete(cfg) && tlsLoad.Success?
    ensures r.Success? ==> ValidCredentials(r.value.credentials)
    ensures r.Success? ==>
      && r.value.credentials.clientID == cfg.clientID
      && r.value.credentials.clientSecret == cfg.clientSecret
      && r.value.credentials.tokenURL == cfg.tokenURL
      && r.value.credentials.scopes == cfg.scopes
    ensures r.Success? ==> r.value.client.tls == tlsLoad.value && r.value.client.timeout == cfg.timeout
  {
    if cfg.clientID == "" then Failure(NoClientIDProvided)
    else if cfg.clientSecret == "" then Failure(NoClientSecretProvided)
    else if cfg.tokenURL == "" then Failure(NoTokenURLProvided)
    else if tlsLoad.Failure? then Failure(TlsLoadFailed(tlsLoad.error))
    else Success(Authenticator(CredentialsOf(cfg), TokenClient(tlsLoad.value, cfg.timeout)))
  }

  /** A missing field is reported whatever the TLS settings are: the TLS
      outcome cannot change the result, and it is never a TLS error. */
  lemma MissingFieldPrecedesTls<T>(cfg: Config, tls1: Result<T, Error>, tls2: Result<T, Error>)
    requires !Complete(cfg)
    ensures NewClientCredentialsExtension(cfg, tls1) == NewClientCredentialsExtension(cfg, tls2)
    ensures NewClientCredentialsExtension(cfg, tls1).Failure?
    ensures !NewClientCredentialsExtension(cfg, tls1).error.TlsLoadFailed?
  {
  }

  /** errors.Is: whether `target` is `e` or is reached from `e` by Unwrap. */
  predicate Is(e: Error, target: Error)
    decreases e
  {
    e == target || (e.Unwrap().Some? && Is(e.Unwrap().value, target))
  }

  /** errors.Is is transitive along unwrap chains. */
  lemma {:induction false} IsTransitive(a: Error, b: Error, c: Error)
    requires Is(a, b) && Is(b, c)
    ensures Is(a, c)
    decreases a
  {
    if a != b {
      IsTransitive(a.Unwrap().value, b, c);
    }
  }

  /** An error fetched through the wrapper matches, under errors.Is, the
      original error and every error that one matches, and nothing else
      except itself. */
  lemma WrappedErrorMatchesCause<T>(w: ErrorWrappingTokenSource<T>, inner: Fetch, target: Error)
    requires inner.err.Some?
    ensures Is(w.Token(inner).err.value, target) <==> target == w.Token(inner).err.value || Is(inner.err.value, target)
  {
  }

  /** Reads a FailedToGetSecurityTokenError's message back into the token
      URL and the inner error's text. */
  function ParseMessage(msg: string): (r: Option<(string, string)>)
    ensures r.Some? ==> |r.value.1| < |msg|
  {
    if |msg| < |Prefix| || msg[..|Prefix|] != Prefix then None
    else
      match GoQuote.Unquote(msg[|Prefix|..])
      case None => None
      case Some((url, rest)) =>
        if |rest| >= 2 && rest[..2] == ": " then Some((url, rest[2..])) else None
  }

  /** With a config, the message names the token endpoint unambiguously:
      the token URL and the inner error's text can both be read back. */
  lemma {:induction false} MessageNamesEndpoint(inner: Option<Error>, c: Credentials)
    ensures ParseMessage(FailedToGetSecurityToken(inner, Some(c)).Message()) == Some((c.tokenURL, InnerText(inner)))
  {
    var q := GoQuote.Quote(c.tokenURL);
    var it := InnerText(inner);
    var msg := FailedToGetSecurityToken(inner, Some(c)).Message();
    assert msg == Prefix + (q + (": " + it));
    assert msg[..|Prefix|] == Prefix;
    assert msg[|Prefix|..] == q + (": " + it);
    GoQuote.UnquoteQuote(c.tokenURL, ": " + it);
    assert (": " + it)[..2] == ": ";
    assert (": " + it)[2..] == it;
  }

  /** Without a config, the message is the fixed placeholder, which is not
      empty and does not read as naming an endpoint. */
  lemma UnconfiguredMessage(inner: Option<Error>)
    ensures FailedToGetSecurityToken(inner, None).Message() == Unconfigured
    ensures |Unconfigured| > 0 && ParseMessage(Unconfigured) == None
  {
    assert |Unconfigured| < |Prefix|;
  }

  /** Whether an error fetched through `s` from an inner source that failed
      as `inner` unwraps to the original error and names `url` as the token
      endpoint beside the original error's text. */
  predicate ReportsEndpoint<T>(s: ErrorWrappingTokenSource<T>, inner: Fetch, url: string)
    requires inner.err.Some?
  {
    var r := s.Token(inner);
    && r.err.Some?
    && r.err.value.Unwrap() == inner.err
    && ParseMessage(r.err.value.Message()) == Some((url, inner.err.value.Message()))
  }

  /** End to end: both decorations of a freshly constructed authenticator
      wrap a token source built from the same credentials and token client,
      and an error fetched through either of them names the configured token
      URL, carries the original error's text, and unwraps to the original
      error. */
  lemma {:induction false} DecoratedFetchErrorNamesConfiguredEndpoint<T, B>(
    cfg: Config, tlsLoad: Result<T, Error>, base: B, inner: Fetch)
    requires NewClientCredentialsExtension(cfg, tlsLoad).Success?
    requires inner.err.Some?
    ensures var a := NewClientCredentialsExtension(cfg, tlsLoad).value;
      var http := a.RoundTripper(base).value.source;
      var grpc := a.PerRPCCredentials().value.source;
      && http.config == grpc.config == Some(a.credentials)
      && http.ts.credentials == grpc.ts.credentials == a.credentials
      && http.ts.client == grpc.ts.client == a.client
      && ReportsEndpoint(http, inner, cfg.tokenURL)
      && ReportsEndpoint(grpc, inner, cfg.tokenURL)
  {
    var a := NewClientCredentialsExtension(cfg, tlsLoad).value;
    MessageNamesEndpoint(inner.err, a.credentials);
  }
}
