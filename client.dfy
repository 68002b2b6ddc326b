/**
 * The non-streaming half of `Client`: its configuration and defaults, URL and
 * header construction, the classification of one HTTP attempt inside `post`,
 * and the retry loop that `post` hands that attempt to.
 */
module Client {
  import opened Wrappers
  import opened Json
  import opened Errors

  const BaseUrl: string := "https://api.anthropic.com"
  const DefaultVersion: string := "2023-06-01"

  /** The four settings `Default` gives `ExponentialBackoff`; durations in seconds. */
  datatype BackoffPolicy = BackoffPolicy(
    initialIntervalSecs: nat,
    multiplier: real,
    randomizationFactor: real,
    maxElapsedSecs: Option<nat>)

  /** The fields of `Client` other than the HTTP connection pool, which is left out. */
  datatype ClientConfig = ClientConfig(
    baseUrl: string,
    apiKey: string,
    version: string,
    beta: Option<string>,
    backoff: BackoffPolicy)

  /**
   * `impl Default for Client`. The API key comes from the environment, which
   * is a parameter here.
   */
  function Default(envApiKey: string): (c: ClientConfig)
    ensures c.baseUrl == BaseUrl && c.version == DefaultVersion && c.beta == None
    ensures c.apiKey == envApiKey
    ensures c.backoff == BackoffPolicy(15, 2.0, 0.05, Some(120))
  {
    ClientConfig(BaseUrl, envApiKey, DefaultVersion, None, BackoffPolicy(15, 2.0, 0.05, Some(120)))
  }

  /** `Client::from_api_key`: the defaults with the given key. */
  function FromApiKey(apiKey: string): (c: ClientConfig)
    ensures c.apiKey == apiKey
    ensures forall k :: c == Default(k).(apiKey := apiKey)
  {
    Default(apiKey)
  }

  // ---------------------------------------------------------------------------
  // format_url

  /**
   * Where `str::trim_end_matches('/')` cuts `s[..n]`: every character from
   * there to `n` is a slash, and the one before it is not.
   */
  function TrimEndLen(s: string, n: nat): (k: nat)
    requires n <= |s|
    ensures k <= n
    ensures forall i :: k <= i < n ==> s[i] == '/'
    ensures k == 0 || s[k - 1] != '/'
    decreases n
  {
    if n > 0 && s[n - 1] == '/' then TrimEndLen(s, n - 1) else n
  }

  /**
   * Where `str::trim_start_matches('/')` cuts `s[m..]`: every character from
   * `m` to there is a slash, and the one at it is not.
   */
  function TrimStartLen(s: string, m: nat): (k: nat)
    requires m <= |s|
    ensures m <= k <= |s|
    ensures forall i :: m <= i < k ==> s[i] == '/'
    ensures k == |s| || s[k] != '/'
    decreases |s| - m
  {
    if m < |s| && s[m] == '/' then TrimStartLen(s, m + 1) else m
  }

  /** The cut of `trim_end_matches` is the only point with its two properties. */
  lemma TrimEndLenUnique(s: string, n: nat, k: nat)
    requires k <= n <= |s|
    requires forall i :: k <= i < n ==> s[i] == '/'
    requires k == 0 || s[k - 1] != '/'
    ensures TrimEndLen(s, n) == k
  {
  }

  /** The cut of `trim_start_matches` is the only point with its two properties. */
  lemma TrimStartLenUnique(s: string, m: nat, k: nat)
    requires m <= k <= |s|
    requires forall i :: m <= i < k ==> s[i] == '/'
    requires k == |s| || s[k] != '/'
    ensures TrimStartLen(s, m) == k
  {
  }

  /** `str::trim_end_matches('/')`. */
  function TrimEndSlashes(s: string): string {
    s[..TrimEndLen(s, |s|)]
  }

  /** `str::trim_start_matches('/')`. */
  function TrimStartSlashes(s: string): string {
    s[TrimStartLen(s, 0)..]
  }

  /**
   * `Client::format_url`: a prefix of the base URL that does not end in `/`,
   * a single `/`, then a suffix of the path that does not start with `/`.
   */
  function FormatUrl(c: ClientConfig, path: string): (u: string)
    ensures var i := TrimEndLen(c.baseUrl, |c.baseUrl|);
      && i < |u| && u[i] == '/'
      && u[..i] <= c.baseUrl
      && (i == 0 || u[i - 1] != '/') && (i + 1 == |u| || u[i + 1] != '/')
      && |u| - i - 1 <= |path| && u[i + 1..] == path[|path| - (|u| - i - 1)..]
  {
    TrimEndSlashes(c.baseUrl) + "/" + TrimStartSlashes(path)
  }

  /**
   * The URL is the base URL without its trailing slashes and the path
   * without its leading slashes, joined by exactly one `/`.
   */
  lemma FormatUrlJoins(c: ClientConfig, path: string)
    ensures exists i, j | 0 <= i <= |c.baseUrl| && 0 <= j <= |path| ::
      && FormatUrl(c, path) == c.baseUrl[..i] + "/" + path[j..]
      && (forall k :: i <= k < |c.baseUrl| ==> c.baseUrl[k] == '/') && (i == 0 || c.baseUrl[i - 1] != '/')
      && (forall k :: 0 <= k < j ==> path[k] == '/') && (j == |path| || path[j] != '/')
  {
    var i, j := TrimEndLen(c.baseUrl, |c.baseUrl|), TrimStartLen(path, 0);
    assert FormatUrl(c, path) == c.baseUrl[..i] + "/" + path[j..];
  }

  function Slashes(n: nat): (s: string)
    ensures |s| == n && forall i :: 0 <= i < n ==> s[i] == '/'
  {
    if n == 0 then "" else "/" + Slashes(n - 1)
  }

  lemma TrimEndIgnoresExtraSlashes(s: string, n: nat)
    ensures TrimEndSlashes(s + Slashes(n)) == TrimEndSlashes(s)
  {
    var t := s + Slashes(n);
    var k := TrimEndLen(s, |s|);
    forall i | k <= i < |t| ensures t[i] == '/' {
      if i >= |s| {
        assert t[i] == Slashes(n)[i - |s|];
      }
    }
    TrimEndLenUnique(t, |t|, k);
    assert t[..k] == s[..k];
  }

  lemma TrimStartIgnoresExtraSlashes(s: string, n: nat)
    ensures TrimStartSlashes(Slashes(n) + s) == TrimStartSlashes(s)
  {
    var t := Slashes(n) + s;
    var k := TrimStartLen(s, 0);
    forall i | 0 <= i < n + k ensures t[i] == '/' {
      if i >= n {
        assert t[i] == s[i - n];
      }
    }
    assert n + k == |t| || t[n + k] == s[k];
    TrimStartLenUnique(t, 0, n + k);
    assert t[n + k..] == s[k..];
  }

  /** Extra slashes at the end of the base URL or the start of the path do not change the URL. */
  lemma FormatUrlIgnoresExtraSlashes(c: ClientConfig, path: string, m: nat, n: nat)
    ensures FormatUrl(c.(baseUrl := c.baseUrl + Slashes(m)), Slashes(n) + path) == FormatUrl(c, path)
  {
    TrimEndIgnoresExtraSlashes(c.baseUrl, m);
    TrimStartIgnoresExtraSlashes(path, n);
  }

  /** With the default base URL, the messages endpoint is the documented one. */
  lemma DefaultMessagesUrl(k: string)
    ensures FormatUrl(Default(k), "/v1/messages") == "https://api.anthropic.com/v1/messages"
  {
    var p := "/v1/messages";
    assert BaseUrl[|BaseUrl| - 1] == 'm';
    assert TrimEndLen(BaseUrl, |BaseUrl|) == |BaseUrl|;
    assert BaseUrl[..|BaseUrl|] == BaseUrl;
    assert p[0] == '/' && p[1] == 'v';
    assert TrimStartLen(p, 1) == 1;
    assert TrimStartLen(p, 0) == 1;
    assert p[1..] == "v1/messages";
  }

  // ---------------------------------------------------------------------------
  // headers

  /** What `HeaderValue::from_str` accepts; anything else makes `parse().unwrap()` panic. */
  predicate ValidHeaderValue(v: string) {
    forall i :: 0 <= i < |v| ==> (' ' <= v[i] && v[i] != '\U{7F}') || v[i] == '\t'
  }

  /** `Client::headers`: the key and the version always, the beta flag exactly when set. */
  method Headers(c: ClientConfig) returns (h: map<string, string>)
    requires ValidHeaderValue(c.apiKey) && ValidHeaderValue(c.version)
    requires c.beta.Some? ==> ValidHeaderValue(c.beta.value)
    ensures h.Keys == {"x-api-key", "anthropic-version"} + (if c.beta.Some? then {"anthropic-beta"} else {})
    ensures h["x-api-key"] == c.apiKey && h["anthropic-version"] == c.version
    ensures "anthropic-beta" in h <==> c.beta.Some?
    ensures c.beta.Some? ==> h["anthropic-beta"] == c.beta.value
  {
    h := map[];
    h := h["x-api-key" := c.apiKey];
    h := h["anthropic-version" := c.version];
    if c.beta.Some? {
      h := h["anthropic-beta" := c.beta.value];
    }
  }

  // ---------------------------------------------------------------------------
  // One attempt of `post`

  /** `http::StatusCode` holds three-digit codes. */
  type StatusCode = s: int | 100 <= s <= 999 witness 200

  const StatusOk: StatusCode := 200
  const StatusBadRequest: StatusCode := 400
  const StatusUnauthorized: StatusCode := 401
  const StatusTooManyRequests: StatusCode := 429
  /** Non-standard status the API uses for "overloaded". */
  const StatusOverloaded: StatusCode := 529

  /** Reading the body as text, which may fail on the network. */
  datatype BodyRead = ReadFailed(cause: string) | Read(text: string)

  /** What `send().await` gives: a transport error, or a status with a body still to be read. */
  datatype HttpResponse = SendFailed(cause: string) | Received(status: StatusCode, body: BodyRead)

  /**
   * The closure `post` gives the retry loop: one HTTP outcome classified into
   * a value, a permanent error or a transient one. `decode` is `serde_json`
   * reading the body as the caller's type; its error becomes a `NetworkError`,
   * as `reqwest::Response::json` reports it.
   */
  function Classify<T>(resp: HttpResponse, decode: string -> Result<T, string>): (r: Result<T, BackoffError>)
    // only 429 and 529 with a readable body are transient, and then ApiError(body), no retry-after
    ensures r.Err? && r.error.Transient? <==>
      resp.Received? && (resp.status == StatusTooManyRequests || resp.status == StatusOverloaded) && resp.body.Read?
    ensures r.Err? && r.error.Transient? ==> r.error == Transient(ApiError(resp.body.text), None)
    // success only for a 200 whose body reads and decodes
    ensures r.Ok? <==> resp.Received? && resp.status == StatusOk && resp.body.Read? && decode(resp.body.text).Ok?
    ensures r.Ok? ==> decode(resp.body.text) == Ok(r.value)
    // transport failures and undecodable 200 bodies are permanent network errors
    ensures resp.SendFailed? ==> r == Err(Permanent(NetworkError(resp.cause)))
    ensures resp.Received? && resp.status != StatusUnauthorized && resp.body.ReadFailed? ==>
      r == Err(Permanent(NetworkError(resp.body.cause)))
    ensures resp.Received? && resp.status == StatusOk && resp.body.Read? && decode(resp.body.text).Err? ==>
      r == Err(Permanent(NetworkError(decode(resp.body.text).error)))
    // 400 and 401
    ensures resp.Received? && resp.status == StatusBadRequest && resp.body.Read? ==>
      r == Err(Permanent(BadRequest(resp.body.text)))
    ensures resp.Received? && resp.status == StatusUnauthorized ==> r == Err(Permanent(Unauthorized))
    // every other status
    ensures resp.Received? && resp.status !in {200, 400, 401, 429, 529} && resp.body.Read? ==>
      r == Err(Permanent(Unknown(resp.body.text)))
  {
    match resp
    case SendFailed(cause) => Err(Permanent(NetworkError(cause)))
    case Received(status, body) =>
      if status == StatusOk then
        match body
        case ReadFailed(cause) => Err(Permanent(NetworkError(cause)))
        case Read(text) =>
          match decode(text)
          case Ok(v) => Ok(v)
          case Err(cause) => Err(Permanent(NetworkError(cause)))
      else if status == StatusBadRequest then
        match body
        case ReadFailed(cause) => Err(Permanent(NetworkError(cause)))
        case Read(text) => Err(Permanent(BadRequest(text)))
      else if status == StatusUnauthorized then
        Err(Permanent(Unauthorized))
      else if status == StatusTooManyRequests || status == StatusOverloaded then
        match body
        case ReadFailed(cause) => Err(Permanent(NetworkError(cause)))
        case Read(text) => Err(Transient(ApiError(text), None))
      else
        match body
        case ReadFailed(cause) => Err(Permanent(NetworkError(cause)))
        case Read(text) => Err(Permanent(Unknown(text)))
  }

  /** A 401 is answered without reading the body: the body does not matter. */
  lemma UnauthorizedIgnoresBody<T>(b1: BodyRead, b2: BodyRead, decode: string -> Result<T, string>)
    ensures Classify(Received(StatusUnauthorized, b1), decode) == Classify(Received(StatusUnauthorized, b2), decode)
  {
  }

  // ---------------------------------------------------------------------------
  // The retry loop (`backoff::future::retry`)

  /**
   * What the retry loop makes of the last attempt it ran: the value, or the
   * error carried by a permanent or a transient failure, unwrapped.
   */
  function Settle<T>(a: Result<T, BackoffError>): (r: Result<T, AnthropicError>)
    ensures r.Ok? <==> a.Ok?
    ensures a.Ok? ==> r.value == a.value
    ensures a.Err? ==> r.error == a.error.err
  {
    match a
    case Ok(v) => Ok(v)
    case Err(b) => Err(b.err)
  }

  predicate IsTransient<T>(a: Result<T, BackoffError>) {
    a.Err? && a.error.Transient?
  }

  datatype RetryOutcome<T> = RetryOutcome(result: Result<T, AnthropicError>, attempts: nat)

  /**
   * The retry loop from attempt `i` on. `attempt(j)` is the classified outcome
   * of the `j`-th attempt; `retriesLeft` is how many more times the backoff
   * policy lets a transient failure be retried before its time budget runs out.
   */
  function RetryFrom<T>(attempt: nat -> Result<T, BackoffError>, i: nat, retriesLeft: nat): (o: RetryOutcome<T>)
    ensures i < o.attempts <= i + retriesLeft + 1
    ensures o.result == Settle(attempt(o.attempts - 1))
    ensures forall j :: i <= j < o.attempts - 1 ==> IsTransient(attempt(j))
    ensures o.attempts < i + retriesLeft + 1 ==> !IsTransient(attempt(o.attempts - 1))
    decreases retriesLeft
  {
    match attempt(i)
    case Ok(v) => RetryOutcome(Ok(v), i + 1)
    case Err(Permanent(e)) => RetryOutcome(Err(e), i + 1)
    case Err(Transient(e, _)) =>
      if retriesLeft == 0 then RetryOutcome(Err(e), i + 1)
      else RetryFrom(attempt, i + 1, retriesLeft - 1)
  }

  /** With no retry budget, exactly one attempt is made, whatever its outcome. */
  lemma NoBudgetOneAttempt<T>(attempt: nat -> Result<T, BackoffError>)
    ensures RetryFrom(attempt, 0, 0).attempts == 1
    ensures RetryFrom(attempt, 0, 0).result == Settle(attempt(0))
  {
  }

  /** `n` transient failures then a success, within budget: the value after `n + 1` attempts. */
  lemma {:induction false} RetryRecovers<T>(attempt: nat -> Result<T, BackoffError>, i: nat, n: nat, budget: nat, v: T)
    requires n <= budget
    requires forall j :: i <= j < i + n ==> IsTransient(attempt(j))
    requires attempt(i + n) == Ok(v)
    ensures RetryFrom(attempt, i, budget) == RetryOutcome(Ok(v), i + n + 1)
    decreases n
  {
    if n > 0 {
      assert IsTransient(attempt(i));
      RetryRecovers(attempt, i + 1, n - 1, budget - 1, v);
    }
  }

  /** Transient failures that outlast the budget surface the last one's error as it is. */
  lemma {:induction false} RetryExhausts<T>(attempt: nat -> Result<T, BackoffError>, i: nat, budget: nat)
    requires forall j :: i <= j <= i + budget ==> IsTransient(attempt(j))
    ensures RetryFrom(attempt, i, budget).attempts == i + budget + 1
    ensures RetryFrom(attempt, i, budget).result == Settle(attempt(i + budget))
    decreases budget
  {
    assert IsTransient(attempt(i));
    if budget > 0 {
      RetryExhausts(attempt, i + 1, budget - 1);
    }
  }

  // ---------------------------------------------------------------------------
  // post

  /**
   * A request as sent: `headers` is the header map set by `.headers(...)`,
   * `appended` the headers added after it with `.header(...)`, which
   * `reqwest` appends rather than replaces.
   */
  datatype HttpRequest = HttpRequest(url: string, headers: map<string, string>,
                                     appended: seq<(string, string)>, body: Json)

  /** The attempts of one `post` call, each classified. */
  function Attempts<T>(server: nat -> HttpResponse, decode: string -> Result<T, string>): nat -> Result<T, BackoffError> {
    (j: nat) => Classify(server(j), decode)
  }

  /**
   * `Client::post`: the same request is sent on every attempt; `server(j)`
   * is how the `j`-th one ends.
   */
  method Post<T>(c: ClientConfig, path: string, body: Json, server: nat -> HttpResponse,
                 decode: string -> Result<T, string>, retries: nat)
    returns (sent: HttpRequest, outcome: RetryOutcome<T>)
    requires ValidHeaderValue(c.apiKey) && ValidHeaderValue(c.version)
    requires c.beta.Some? ==> ValidHeaderValue(c.beta.value)
    ensures sent.url == FormatUrl(c, path) && sent.body == body
    ensures "x-api-key" in sent.headers && "anthropic-version" in sent.headers
    ensures sent.headers["x-api-key"] == c.apiKey && sent.headers["anthropic-version"] == c.version
    ensures "anthropic-beta" in sent.headers <==> c.beta.Some?
    ensures c.beta.Some? ==> sent.headers["anthropic-beta"] == c.beta.value
    ensures sent.headers.Keys == {"x-api-key", "anthropic-version"} + (if c.beta.Some? then {"anthropic-beta"} else {})
    // the beta flag goes out a second time
    ensures sent.appended == if c.beta.Some? then [("anthropic-beta", c.beta.value)] else []
    ensures outcome == RetryFrom(Attempts(server, decode), 0, retries)
  {
    var headers := Headers(c);
    var appended := [];
    if c.beta.Some? {
      appended := appended + [("anthropic-beta", c.beta.value)];
    }
    sent := HttpRequest(FormatUrl(c, path), headers, appended, body);
    outcome := RetryFrom(Attempts(server, decode), 0, retries);
  }

  /**
   * The rate-limit scenario end to end: `n` responses of 429 or 529 with a
   * readable body, then a 200 that decodes, and a budget of at least `n`
   * retries: the decoded value after `n + 1` requests.
   */
  lemma RateLimitedThenOk<T>(server: nat -> HttpResponse, decode: string -> Result<T, string>, n: nat, retries: nat, v: T)
    requires n <= retries
    requires forall j :: 0 <= j < n ==>
      (server(j).Received? && server(j).body.Read? &&
       (server(j).status == StatusTooManyRequests || server(j).status == StatusOverloaded))
    requires server(n).Received? && server(n).status == StatusOk && server(n).body.Read?
    requires decode(server(n).body.text) == Ok(v)
    ensures RetryFrom(Attempts(server, decode), 0, retries) == RetryOutcome(Ok(v), n + 1)
  {
    var attempt := Attempts(server, decode);
    forall j | 0 <= j < n ensures IsTransient(attempt(j)) {
      assert server(j).Received?;
    }
    RetryRecovers(attempt, 0, n, retries, v);
  }
}
