/** Obtaining the access token: use the one cached in token.json, and only when
    it cannot be loaded, ask the operator for an authorization code, exchange it
    for a token and cache that token. The OAuth library calls are parameters. */
module Auth {
  import opened Wrappers

  datatype Token = Token(accessToken: string, tokenType: string, refreshToken: string, expiry: int)

  /** The client configuration read from credentials.json; only passed on to the exchange. */
  datatype Config = Config(clientId: string, clientSecret: string, redirectUrl: string)

  /** What token.json holds: nothing, something that does not decode as a token, or a token. */
  datatype TokenFile = Absent | Undecodable | Holds(token: Token)

  /** `tokenFromFile`: the cached token, or None when the file is missing or does not decode. */
  function TokenFromFile(f: TokenFile): (token: Option<Token>)
  {
    if f.Holds? then Some(f.token) else None
  }

  /** `getTokenFromWeb`: read one authorization code (None when reading it fails) and
      exchange it for a token; either failure is fatal. */
  function TokenFromWeb(config: Config, code: Option<string>, exchange: (Config, string) -> Option<Token>): (web: Result<Token>)
  {
    match code
    case None => Err(AuthCodeUnreadable)
    case Some(c) =>
      match exchange(config, c)
      case None => Err(ExchangeFailed)
      case Some(t) => Ok(t)
  }

  /** The token `getClient` binds the client to, given the cache, the web flow's
      result and whether token.json can be opened for writing. */
  function ClientToken(f: TokenFile, web: Result<Token>, writable: bool): (client: Result<Token>) {
    match TokenFromFile(f)
    case Some(t) => Ok(t)
    case None =>
      if web.Err? then web
      else if writable then web
      else Err(TokenUnsaved)
  }

  /** token.json after `getClient`. */
  function TokenFileAfter(f: TokenFile, web: Result<Token>, writable: bool): (file: TokenFile) {
    if f.Holds? || web.Err? || !writable then f else Holds(web.value)
  }

  /** A token cached in the file is used unchanged and the file is left alone. */
  lemma CachedTokenIsUsed(f: TokenFile, web: Result<Token>, writable: bool)
    requires f.Holds?
    ensures ClientToken(f, web, writable) == Ok(f.token)
    ensures TokenFileAfter(f, web, writable) == f
  {
  }

  /** Without a usable cache, the client gets the web flow's token exactly when the
      flow succeeds and the token can be cached, and then the cache holds it. */
  lemma WebTokenIsCached(f: TokenFile, web: Result<Token>, writable: bool)
    requires !f.Holds?
    ensures ClientToken(f, web, writable).Ok? <==> web.Ok? && writable
    ensures ClientToken(f, web, writable).Ok? ==>
              ClientToken(f, web, writable) == web && TokenFileAfter(f, web, writable) == Holds(web.value)
    ensures ClientToken(f, web, writable).Err? ==> TokenFileAfter(f, web, writable) == f
  {
  }

  /** Whatever `getClient` obtains it has also cached: a later run loads the same
      token from the file and does not ask the operator again. */
  lemma ObtainedTokenIsReloaded(f: TokenFile, web: Result<Token>, writable: bool)
    requires ClientToken(f, web, writable).Ok?
    ensures TokenFromFile(TokenFileAfter(f, web, writable)) == Some(ClientToken(f, web, writable).value)
  {
  }

  /** Without a usable cache, a failure of the web flow is the run's failure: no
      code read, or no token for the code, and token.json stays as it was. */
  lemma WebFlowFailuresAreFatal(f: TokenFile, config: Config, code: Option<string>,
                                exchange: (Config, string) -> Option<Token>, writable: bool)
    requires !f.Holds?
    ensures code.None? ==>
      ClientToken(f, TokenFromWeb(config, code, exchange), writable) == Err(AuthCodeUnreadable)
    ensures code.Some? && exchange(config, code.value).None? ==>
      ClientToken(f, TokenFromWeb(config, code, exchange), writable) == Err(ExchangeFailed)
    ensures ClientToken(f, TokenFromWeb(config, code, exchange), writable).Err? ==>
      TokenFileAfter(f, TokenFromWeb(config, code, exchange), writable) == f
  {
  }

  /** The operator at the console, who is shown the authorization URL and types
      a code; `asked` counts the prompts. */
  class Operator {
    var asked: nat

    constructor ()
      ensures asked == 0
    {
      asked := 0;
    }

    /** Print the prompt and read one code (None when reading fails). */
    method Prompt(typed: Option<string>) returns (code: Option<string>)
      modifies this
      ensures code == typed
      ensures asked == old(asked) + 1
    {
      asked := asked + 1;
      code := typed;
    }
  }

  /** token.json, read and written in place. */
  class TokenStore {
    var file: TokenFile

    constructor (initial: TokenFile)
      ensures file == initial
    {
      file := initial;
    }

    /** `saveToken`: truncate and rewrite the file, or fail when it cannot be opened. */
    method SaveToken(token: Token, writable: bool) returns (r: Option<Failure>)
      modifies this
      ensures r.None? <==> writable
      ensures r.Some? ==> r.value == TokenUnsaved
      ensures file == if writable then Holds(token) else old(file)
    {
      if !writable {
        return Some(TokenUnsaved);
      }
      file := Holds(token);
      return None;
    }

    /** `getClient`: load the cached token; only if that fails, prompt the operator
        for a code, exchange it, and save the token it yields. */
    method GetClient(config: Config, operator: Operator, typed: Option<string>,
                     exchange: (Config, string) -> Option<Token>, writable: bool)
      returns (r: Result<Token>)
      modifies this, operator
      ensures operator.asked == old(operator.asked) + (if old(file).Holds? then 0 else 1)
      ensures old(file).Holds? ==> r == Ok(old(file).token) && file == old(file)
      ensures r == ClientToken(old(file), TokenFromWeb(config, typed, exchange), writable)
      ensures file == TokenFileAfter(old(file), TokenFromWeb(config, typed, exchange), writable)
    {
      var cached := TokenFromFile(file);
      if cached.Some? {
        return Ok(cached.value);
      }
      var code := operator.Prompt(typed);
      r := TokenFromWeb(config, code, exchange);
      if r.Err? {
        return;
      }
      var saved := SaveToken(r.value, writable);
      if saved.Some? {
        r := Err(saved.value);
      }
    }
  }

  /** `saveToken` then `tokenFromFile`: whatever token.json held before, a token
      saved to it is the token loaded from it. */
  method CacheRoundTrip(initial: TokenFile, token: Token) returns (loaded: Option<Token>)
    ensures loaded == Some(token)
  {
    var store := new TokenStore(initial);
    var _ := store.SaveToken(token, true);
    loaded := TokenFromFile(store.file);
  }

  /** A missing token.json and one that does not decode both load nothing, so
      either sends `getClient` to the web flow. */
  lemma UnusableCacheLoadsNothing(f: TokenFile)
    requires f == Absent || f == Undecodable
    ensures TokenFromFile(f) == None
    ensures forall web: Result<Token>, writable: bool ::
      ClientToken(f, web, writable) == ClientToken(Absent, web, writable) &&
      TokenFileAfter(f, web, writable) == (if web.Ok? && writable then Holds(web.value) else f)
  {
  }

  /** Two runs one after the other: when the first gets a token, the second one
      finds it in token.json, gets the same token without prompting the operator,
      and leaves the file holding it. */
  method TwoRuns(store: TokenStore, operator: Operator, config: Config, typed: Option<string>,
                 exchange: (Config, string) -> Option<Token>)
    returns (first: Result<Token>, second: Result<Token>)
    modifies store, operator
    ensures first.Ok? ==>
      second == first && store.file == Holds(first.value) &&
      operator.asked == old(operator.asked) + (if old(store.file).Holds? then 0 else 1)
  {
    first := store.GetClient(config, operator, typed, exchange, true);
    ghost var between := operator.asked;
    second := store.GetClient(config, operator, typed, exchange, true);
    if first.Ok? {
      assert operator.asked == between;
    }
  }
}
