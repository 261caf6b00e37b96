/**
 * The token lifecycle manager and the authenticated request wrapper: an OAuth 2.0
 * client-credentials client (section 4.4 of RFC 6749) that caches its access token,
 * lets concurrent callers share one refresh, retries transient failures with a fixed
 * backoff, and presents the token as a Bearer credential (section 2.1 of RFC 6750)
 * with one forced refresh and re-send when the protected API answers 401.
 *
 * Time is the caller's `now` (milliseconds since the epoch); the token endpoint,
 * the database and the protected API are oracles passed in per call.
 */
module IcdAuth {
  import opened Wrappers
  import opened Strings
  import opened HttpsUtil
  import opened TokenStore

  const MaxRetries: nat := 3
  /** Backoff before the second, third and fourth attempt, in milliseconds. */
  const RetryDelays: seq<int> := [300, 900, 2700]
  /** Seconds taken off the declared lifetime before a token is stored. */
  const GraceSeconds: int := 10
  /** Lifetime assumed when `expires_in` is missing or zero. */
  const DefaultExpiresIn: int := 3600
  const DefaultTokenEndpoint: string := "https://icdaccessmanagement.who.int/connect/token"
  const GrantType: string := "client_credentials"
  const Scope: string := "icdapi_access"
  const TokenTimeoutMs: int := 10000
  const ApiTimeoutMs: int := 30000

  // ---------------------------------------------------------------------------
  // One credential exchange

  /**
   * What the token endpoint does with one exchange: a response body (an empty
   * `accessToken` stands for a missing or empty `access_token`), an HTTP-level
   * failure with the response status if one arrived, or any other thrown error.
   */
  datatype Reply =
    | Granted(accessToken: string, expiresIn: Option<int>)
    | HttpError(status: Option<int>)
    | OtherError

  /** Why one attempt failed. */
  datatype AttemptError =
    | Http(status: Option<int>)
    | NoAccessToken
    | StoreWrite(cause: StoreError)
    | Thrown

  datatype AttemptOutcome = Obtained(record: TokenRecord) | Failed(error: AttemptError)

  /** The world of one attempt: the endpoint's reply, the clock when it arrives, the database. */
  datatype AttemptEnv = AttemptEnv(reply: Reply, now: int, db: DbEnv)

  /** The error a failed refresh surfaces (the message text is not modelled). */
  datatype AuthError = TokenRefreshFailed(cause: AttemptError)

  /** The request sent to the token endpoint on every attempt. */
  datatype TokenRequest = TokenRequest(
    url: string, grantType: string, scope: string, username: string, password: string, timeoutMs: int)

  /** Axios errors are retried without a status (or a zero status), on 5xx and on 429; every other error is retried. */
  predicate ShouldRetry(e: AttemptError) {
    match e
    case Http(status) => status.None? || status.value == 0 || status.value >= 500 || status.value == 429
    case _ => true
  }

  /** `expires_in || 3600` */
  function LifetimeSeconds(expiresIn: Option<int>): (s: int)
    ensures expiresIn.Some? && expiresIn.value != 0 ==> s == expiresIn.value
    ensures expiresIn.None? || expiresIn.value == 0 ==> s == DefaultExpiresIn
  {
    match expiresIn
    case None => DefaultExpiresIn
    case Some(n) => if n == 0 then DefaultExpiresIn else n
  }

  /** The record stored after a successful exchange that the clock saw at `now`. */
  function RecordFor(token: string, expiresIn: Option<int>, now: int): (r: TokenRecord)
    ensures r.token == token && r.fetchedAt == now
    ensures r.expiresAt - r.fetchedAt == (LifetimeSeconds(expiresIn) - GraceSeconds) * 1000
  {
    TokenRecord(token, now + (LifetimeSeconds(expiresIn) - GraceSeconds) * 1000, now)
  }

  /** What an exchange yields before the store write: the record to store, or the attempt's error. */
  function Received(reply: Reply, now: int): (r: Result<TokenRecord, AttemptError>)
    ensures r.Success? <==> reply.Granted? && reply.accessToken != ""
    ensures r.Success? ==> r.value == RecordFor(reply.accessToken, reply.expiresIn, now)
    ensures reply.HttpError? ==> r == Failure(Http(reply.status))
  {
    match reply
    case Granted(token, expiresIn) =>
      if token != "" then Success(RecordFor(token, expiresIn, now)) else Failure(NoAccessToken)
    case HttpError(status) => Failure(Http(status))
    case OtherError => Failure(Thrown)
  }

  /**
   * An attempt's outcome agrees with its world: either the reply's own error, or
   * the reply's record, which the store write may still have turned into a failure.
   */
  predicate Consistent(a: AttemptEnv, o: AttemptOutcome) {
    match Received(a.reply, a.now)
    case Failure(e) => o == Failed(e)
    case Success(rec) => o == Obtained(rec) || (o.Failed? && o.error.StoreWrite?)
  }

  /** The outcome of an attempt whose store write succeeds. */
  function Ideal(a: AttemptEnv): (o: AttemptOutcome)
    ensures Consistent(a, o)
    ensures o.Obtained? <==> a.reply.Granted? && a.reply.accessToken != ""
  {
    match Received(a.reply, a.now)
    case Success(rec) => Obtained(rec)
    case Failure(e) => Failed(e)
  }

  /** The outcome of an attempt whose store write finds no database connection. */
  function Refused(a: AttemptEnv): (o: AttemptOutcome)
    ensures Consistent(a, o) && o.Failed?
    ensures o.error.StoreWrite? <==> Received(a.reply, a.now).Success?
  {
    match Received(a.reply, a.now)
    case Success(_) => Failed(StoreWrite(InitializationFailed))
    case Failure(e) => Failed(e)
  }

  /** No attempt finds the database connected. */
  predicate NeverConnects(env: nat -> AttemptEnv) {
    forall k: nat :: k <= MaxRetries ==> env(k).db.readyState != 1
  }

  /**
   * Whether the database model is set up after an attempt in world `a`, given
   * whether it was before: only an attempt that gets as far as the store write
   * sets it up, and only on a ready connection.
   */
  predicate ConnectedAfter(a: AttemptEnv, connected: bool) {
    connected || (Received(a.reply, a.now).Success? && a.db.readyState == 1)
  }

  /** Whether the model is set up before attempt `k` of a run that started with `connected`. */
  predicate ConnectedBefore(env: nat -> AttemptEnv, k: nat, connected: bool) {
    if k == 0 then connected else ConnectedAfter(env(k - 1), ConnectedBefore(env, k - 1, connected))
  }

  /** A run that starts without the model and never finds the connection ready never sets it up. */
  lemma {:induction false} NeverConnected(env: nat -> AttemptEnv, k: nat)
    requires NeverConnects(env) && k <= MaxRetries + 1
    ensures !ConnectedBefore(env, k, false)
  {
    if k > 0 {
      NeverConnected(env, k - 1);
      assert env(k - 1).db.readyState != 1;
    }
  }

  /** `n` copies of `x`. */
  function Copies<T>(x: T, n: nat): (r: seq<T>)
    ensures |r| == n && forall k :: 0 <= k < n ==> r[k] == x
  {
    if n == 0 then [] else Copies(x, n - 1) + [x]
  }

  lemma CopiesSnoc<T>(x: T, n: nat)
    ensures Copies(x, n) + [x] == Copies(x, n + 1)
  {
  }

  // ---------------------------------------------------------------------------
  // The retry loop as a specification

  /** What the loop does after attempt number `attempt` (counted from 0). */
  datatype Step = Return(token: string) | Throw(error: AttemptError) | Sleep(delay: int)

  /** The loop's decision: return a token, throw on the last attempt or on a terminal error, or back off. */
  function Decide(attempt: nat, o: AttemptOutcome): (s: Step)
    requires attempt <= MaxRetries
    ensures s.Sleep? ==> attempt < MaxRetries && o.Failed? && ShouldRetry(o.error)
  {
    match o
    case Obtained(record) => Return(record.token)
    case Failed(e) =>
      if attempt == MaxRetries then Throw(e)
      else if ShouldRetry(e) then Sleep(RetryDelays[attempt])
      else Throw(e)
  }

  /** The step a refresh's result corresponds to. */
  function Settles(r: Result<string, AuthError>): Step {
    match r
    case Success(token) => Return(token)
    case Failure(TokenRefreshFailed(cause)) => Throw(cause)
  }

  /**
   * A complete run of the retry loop: the attempts made, in order, the sleeps
   * requested between them, and the refresh's result.  Every attempt but the
   * last backed off, and the last one settled the refresh with `r`.
   */
  predicate IsRetryRun(outcomes: seq<AttemptOutcome>, delays: seq<int>, r: Result<string, AuthError>) {
    && 1 <= |outcomes| <= MaxRetries + 1
    && |delays| == |outcomes| - 1
    && (forall k :: 0 <= k < |outcomes| - 1 ==> Decide(k, outcomes[k]) == Sleep(delays[k]))
    && Decide(|outcomes| - 1, outcomes[|outcomes| - 1]) == Settles(r)
  }

  /** A run still going: each attempt so far backed off with the delay recorded for it. */
  predicate BackedOff(outcomes: seq<AttemptOutcome>, delays: seq<int>) {
    && |outcomes| == |delays| <= MaxRetries
    && forall k :: 0 <= k < |outcomes| ==> Decide(k, outcomes[k]) == Sleep(delays[k])
  }

  lemma BackedOffSnoc(outcomes: seq<AttemptOutcome>, delays: seq<int>, o: AttemptOutcome, d: int)
    requires BackedOff(outcomes, delays) && |outcomes| < MaxRetries && Decide(|outcomes|, o) == Sleep(d)
    ensures BackedOff(outcomes + [o], delays + [d])
  {
  }

  lemma RunClosed(outcomes: seq<AttemptOutcome>, delays: seq<int>, o: AttemptOutcome, r: Result<string, AuthError>)
    requires BackedOff(outcomes, delays) && Decide(|outcomes|, o) == Settles(r)
    ensures IsRetryRun(outcomes + [o], delays, r)
  {
  }

  /** The sleeps of a run are the backoff schedule, in order, one fewer than the attempts. */
  lemma {:induction false} RunDelays(outcomes: seq<AttemptOutcome>, delays: seq<int>, r: Result<string, AuthError>)
    requires IsRetryRun(outcomes, delays, r)
    ensures delays == RetryDelays[..|outcomes| - 1]
  {
    forall k | 0 <= k < |delays|
      ensures delays[k] == RetryDelays[k]
    {
      assert Decide(k, outcomes[k]) == Sleep(delays[k]);
    }
  }

  /** A terminal error on the first attempt ends the refresh at once, with that error. */
  lemma TerminalErrorStopsAtOnce(outcomes: seq<AttemptOutcome>, delays: seq<int>, r: Result<string, AuthError>)
    requires IsRetryRun(outcomes, delays, r)
    requires outcomes[0].Failed? && !ShouldRetry(outcomes[0].error)
    ensures |outcomes| == 1 && delays == []
    ensures r == Failure(TokenRefreshFailed(outcomes[0].error))
  {
  }

  /**
   * When every attempt fails with a retryable error, all four attempts are made,
   * with every backoff in between, and the fourth attempt's error is surfaced.
   */
  lemma RetryableFailuresExhaust(outcomes: seq<AttemptOutcome>, delays: seq<int>, r: Result<string, AuthError>)
    requires IsRetryRun(outcomes, delays, r)
    requires forall k :: 0 <= k < |outcomes| ==> outcomes[k].Failed? && ShouldRetry(outcomes[k].error)
    ensures |outcomes| == MaxRetries + 1
    ensures delays == [300, 900, 2700]
    ensures r == Failure(TokenRefreshFailed(outcomes[MaxRetries].error))
  {
    var last := |outcomes| - 1;
    assert Decide(last, outcomes[last]).Throw?;
    RunDelays(outcomes, delays, r);
  }

  /**
   * A refresh succeeds only with the token of its last attempt, after failures
   * that were all retryable; a refresh fails with its last attempt's error, which
   * is terminal unless the attempts ran out.
   */
  lemma RunSettlesOnLastAttempt(outcomes: seq<AttemptOutcome>, delays: seq<int>, r: Result<string, AuthError>)
    requires IsRetryRun(outcomes, delays, r)
    ensures forall k :: 0 <= k < |outcomes| - 1 ==> outcomes[k].Failed? && ShouldRetry(outcomes[k].error)
    ensures r.Success? <==> outcomes[|outcomes| - 1].Obtained?
    ensures r.Success? ==> r.value == outcomes[|outcomes| - 1].record.token
    ensures r.Failure? ==> outcomes[|outcomes| - 1] == Failed(r.error.cause)
    ensures r.Failure? ==> |outcomes| == MaxRetries + 1 || !ShouldRetry(r.error.cause)
  {
    forall k | 0 <= k < |outcomes| - 1
      ensures outcomes[k].Failed? && ShouldRetry(outcomes[k].error)
    {
      assert Decide(k, outcomes[k]).Sleep?;
    }
  }

  /** A first attempt that obtains a record settles the refresh at once, with its token. */
  lemma FirstAttemptObtained(outcomes: seq<AttemptOutcome>, delays: seq<int>, r: Result<string, AuthError>)
    requires IsRetryRun(outcomes, delays, r)
    ensures outcomes[0].Obtained? ==> |outcomes| == 1 && delays == [] && r == Success(outcomes[0].record.token)
  {
  }

  // ---------------------------------------------------------------------------
  // Expiry arithmetic

  /** The fast-path test: a record is used while the clock is strictly before its expiry. */
  predicate IsFresh(record: Option<TokenRecord>, now: int) {
    record.Some? && now < record.value.expiresAt
  }

  /**
   * A record stays usable for its declared lifetime less the grace period, and
   * is refreshed from then on; a lifetime of ten seconds or less is never usable.
   */
  lemma FreshnessWindow(token: string, expiresIn: Option<int>, fetched: int, now: int)
    ensures IsFresh(Some(RecordFor(token, expiresIn, fetched)), now) <==>
      now - fetched < (LifetimeSeconds(expiresIn) - GraceSeconds) * 1000
    ensures LifetimeSeconds(expiresIn) <= GraceSeconds ==> !IsFresh(Some(RecordFor(token, expiresIn, fetched)), fetched)
  {
  }

  /**
   * `expires_in` 3600 received at t = 0 gives a record still used at t = 10 s and
   * refreshed at t = 3595 s, inside the grace period; a missing or zero
   * `expires_in` gives the same record.
   */
  lemma ExpiryExample(token: string, expiresIn: Option<int>)
    requires expiresIn == Some(3600) || expiresIn == Some(0) || expiresIn == None
    ensures RecordFor(token, expiresIn, 0) == TokenRecord(token, 3590000, 0)
    ensures IsFresh(Some(RecordFor(token, expiresIn, 0)), 10000)
    ensures !IsFresh(Some(RecordFor(token, expiresIn, 0)), 3595000)
  {
  }

  /** Missing credentials are a configuration error raised before anything else happens. */
  datatype ConfigError = MissingCredentials

  /** The process environment the configuration is read from. */
  datatype ProcessEnv = ProcessEnv(vars: map<string, string>)

  /** `process.env[key] || fallback` */
  function EnvOr(env: ProcessEnv, key: string, fallback: string): (v: string)
    ensures key in env.vars && env.vars[key] != "" ==> v == env.vars[key]
    ensures key !in env.vars || env.vars[key] == "" ==> v == fallback
  {
    if key in env.vars && env.vars[key] != "" then env.vars[key] else fallback
  }

  // ---------------------------------------------------------------------------
  // The protected API

  datatype RequestConfig = RequestConfig(url: string, headers: map<string, string>)

  /**
   * The protected API's answer to one send: data, an HTTP-level failure (with its
   * status if a response arrived, and whether the error carries the request
   * config), or any other failure.
   */
  datatype ApiReply =
    | Answered(data: string)
    | HttpFailure(status: Option<int>, hasConfig: bool)
    | OtherFailure

  datatype RequestError = TokenUnavailable(error: AuthError) | ApiFailed(failure: ApiReply)

  /** The world of one `getAccessToken` call: the clock, the database, and the endpoint per attempt. */
  datatype TokenCall = TokenCall(now: int, db: DbEnv, env: nat -> AttemptEnv)

  /** The defaults of a client made by `createAxiosClient`. */
  datatype ClientConfig = ClientConfig(baseUrl: Option<string>, timeoutMs: int, headers: map<string, string>)

  const AuthorizationHeader: string := "Authorization"

  function Bearer(token: string): string {
    "Bearer " + token
  }

  /** The request with its `Authorization` header set to the Bearer token and nothing else changed. */
  function WithToken(config: RequestConfig, token: string): (c: RequestConfig)
    ensures c.url == config.url && c.headers.Keys == config.headers.Keys + {AuthorizationHeader}
    ensures c.headers[AuthorizationHeader] == Bearer(token)
    ensures forall h :: h in config.headers && h != AuthorizationHeader ==> c.headers[h] == config.headers[h]
  {
    config.(headers := config.headers[AuthorizationHeader := Bearer(token)])
  }

  predicate IsUnauthorized(reply: ApiReply) {
    reply.HttpFailure? && reply.status == Some(401)
  }

  function Delivered(reply: ApiReply): Result<string, RequestError> {
    if reply.Answered? then Success(reply.data) else Failure(ApiFailed(reply))
  }

  /**
   * The client's defaults: a base URL forced to HTTPS when one is given, a 30 s
   * timeout, and the fixed API headers.
   */
  function ClientDefaults(baseUrl: Option<string>): (c: ClientConfig)
    ensures baseUrl.None? || baseUrl.value == "" ==> c.baseUrl.None?
    ensures baseUrl.Some? && baseUrl.value != "" ==>
      c.baseUrl == Some(EnsureHttps(baseUrl.value)) &&
      (StartsWith(c.baseUrl.value, Https) || c.baseUrl.value == baseUrl.value)
    ensures c.timeoutMs == ApiTimeoutMs && "API-Version" in c.headers && c.headers["API-Version"] == "v2"
  {
    if baseUrl.Some? && baseUrl.value != "" then
      SecureOrUnchanged(baseUrl.value);
      ClientConfig(Some(EnsureHttps(baseUrl.value)), ApiTimeoutMs, StandardHeaders())
    else
      ClientConfig(None, ApiTimeoutMs, StandardHeaders())
  }

  function StandardHeaders(): map<string, string> {
    map["API-Version" := "v2", "Accept" := "application/json, application/ld+json",
        "Accept-Language" := "en", "User-Agent" := "NAMASTE-ICD-CLI/1.0.0"]
  }

  // ---------------------------------------------------------------------------
  // The manager

  /** How an arriving caller proceeds: with the cached token, by attaching to a refresh in flight, or by starting one. */
  datatype Arrival = FromCache(token: string) | Joined(refresh: nat) | Started(refresh: nat)

  /**
   * The manager.  `marker` is the refresh new callers attach to (the source's
   * `currentRefreshPromise`), by number; `running` are the refreshes started and
   * not yet settled, `settled` the result each settled refresh delivered to all
   * its callers, `exchanges` every request sent to the token endpoint.
   */
  class ICDAuthService {
    const clientId: string
    const clientSecret: string
    const tokenEndpoint: string
    const useMongo: bool
    const memoryStore: InMemoryTokenStore
    const mongoStore: MongoTokenStore
    var marker: Option<nat>
    var nextRefresh: nat
    ghost var running: set<nat>
    ghost var settled: map<nat, Result<string, AuthError>>
    ghost var exchanges: seq<TokenRequest>
    ghost var forcedRefreshes: nat

    ghost predicate Valid()
      reads this
    {
      && (marker.Some? ==> marker.value in running)
      && (forall id :: id in running ==> id < nextRefresh && id !in settled)
      && (forall id :: id in settled ==> id < nextRefresh)
    }

    constructor (clientId: string, clientSecret: string, tokenEndpoint: string, useMongo: bool,
                 stored: map<string, TokenRecord>)
      ensures Valid()
      ensures this.clientId == clientId && this.clientSecret == clientSecret
      ensures this.tokenEndpoint == tokenEndpoint && this.useMongo == useMongo
      ensures fresh(memoryStore) && fresh(mongoStore)
      ensures memoryStore.tokenRecord == None && !mongoStore.collection && mongoStore.documents == stored
      ensures marker == None && nextRefresh == 0 && running == {} && settled == map[] && exchanges == []
      ensures forcedRefreshes == 0
    {
      this.clientId := clientId;
      this.clientSecret := clientSecret;
      this.tokenEndpoint := tokenEndpoint;
      this.useMongo := useMongo;
      memoryStore := new InMemoryTokenStore();
      mongoStore := new MongoTokenStore(stored);
      marker := None;
      nextRefresh := 0;
      running := {};
      settled := map[];
      exchanges := [];
      forcedRefreshes := 0;
    }

    /** The record in the configured store. */
    ghost function StoredRecord(): Option<TokenRecord>
      reads memoryStore, mongoStore
    {
      if useMongo then mongoStore.Stored() else memoryStore.tokenRecord
    }

    /** Whether a store write under `db` cannot fail. */
    predicate Reliable(db: DbEnv) {
      !useMongo || (db.readyState == 1 && !db.operationFails)
    }

    /**
     * Why a store write under `db` fails, if it does, given whether the database
     * model was set up before it: set-up fails on a connection that is not ready,
     * and then the query may throw.  The in-memory store never fails.
     */
    function WriteFailure(db: DbEnv, connected: bool): (e: Option<StoreError>)
      ensures e.None? <==> !useMongo || ((connected || db.readyState == 1) && !db.operationFails)
      ensures Reliable(db) ==> e.None?
    {
      if !useMongo then None
      else if !connected && db.readyState != 1 then Some(InitializationFailed)
      else if db.operationFails then Some(OperationFailed)
      else None
    }

    /** Whether a store write under `db` succeeds in the current state. */
    ghost predicate Writable(db: DbEnv)
      reads mongoStore
    {
      !useMongo || ((mongoStore.collection || db.readyState == 1) && !db.operationFails)
    }

    /**
     * The outcome of an attempt in world `a`, given whether the database model was
     * set up before it: the reply's own error, or its record unless the write fails.
     */
    function Predicted(a: AttemptEnv, connected: bool): (o: AttemptOutcome)
      ensures Consistent(a, o)
      ensures WriteFailure(a.db, connected).None? ==> o == Ideal(a)
      ensures useMongo && !connected && a.db.readyState != 1 ==> o == Refused(a)
      ensures Received(a.reply, a.now).Success? && WriteFailure(a.db, connected).Some? ==>
        o == Failed(StoreWrite(WriteFailure(a.db, connected).value))
    {
      match Received(a.reply, a.now)
      case Failure(e) => Failed(e)
      case Success(rec) =>
        match WriteFailure(a.db, connected)
        case None => Obtained(rec)
        case Some(e) => Failed(StoreWrite(e))
    }

    /** Whether the endpoint grants a token on the first attempt and the store takes it. */
    predicate Serves(env: nat -> AttemptEnv) {
      Reliable(env(0).db) && Ideal(env(0)).Obtained?
    }

    /** What a store read under `db` returns. */
    ghost function Visible(db: DbEnv): Option<TokenRecord>
      reads memoryStore, mongoStore
    {
      if !useMongo then memoryStore.tokenRecord
      else if (mongoStore.collection || db.readyState == 1) && !db.operationFails then mongoStore.Stored()
      else None
    }

    /** Whether a store read under `db` sees a record that is fresh at `now`. */
    ghost predicate CacheHit(db: DbEnv, now: int)
      reads memoryStore, mongoStore
    {
      IsFresh(Visible(db), now)
    }

    /** The exchange request: HTTPS endpoint, client-credentials grant, fixed scope, Basic credentials, 10 s timeout. */
    function TokenRequestFor(): (r: TokenRequest)
      ensures r.url == EnsureHttps(tokenEndpoint) && r.grantType == GrantType && r.scope == Scope
      ensures r.username == clientId && r.password == clientSecret && r.timeoutMs == TokenTimeoutMs
    {
      TokenRequest(EnsureHttps(tokenEndpoint), GrantType, Scope, clientId, clientSecret, TokenTimeoutMs)
    }

    method StoreGet(db: DbEnv) returns (r: Option<TokenRecord>)
      modifies mongoStore
      ensures r == old(Visible(db))
      ensures StoredRecord() == old(StoredRecord())
      ensures mongoStore.collection == (old(mongoStore.collection) || (useMongo && db.readyState == 1))
    {
      if useMongo {
        r := mongoStore.Get(db);
      } else {
        r := memoryStore.Get();
      }
    }

    /** The in-memory store never fails; the database store fails as its `set` does. */
    method StoreSet(record: TokenRecord, db: DbEnv) returns (w: Result<(), StoreError>)
      modifies memoryStore, mongoStore
      ensures w.Success? ==> StoredRecord() == Some(record)
      ensures w.Failure? ==> StoredRecord() == old(StoredRecord())
      ensures !useMongo ==> w.Success?
      ensures useMongo && db.readyState == 1 && !db.operationFails ==> w.Success?
      ensures useMongo && !old(mongoStore.collection) && db.readyState != 1 ==> w == Failure(InitializationFailed)
      ensures w.Success? <==> WriteFailure(db, old(mongoStore.collection)).None?
      ensures w.Failure? ==> w.error == WriteFailure(db, old(mongoStore.collection)).value
      ensures mongoStore.collection == (old(mongoStore.collection) || (useMongo && db.readyState == 1))
    {
      if useMongo {
        w := mongoStore.Set(record, db);
      } else {
        memoryStore.Set(record);
        w := Success(());
      }
    }

    /** Clearing never fails; a failed database delete leaves the document. */
    method StoreClear(db: DbEnv)
      modifies memoryStore, mongoStore
      ensures !useMongo ==> StoredRecord() == None
      ensures useMongo ==>
        StoredRecord() == (if (old(mongoStore.collection) || db.readyState == 1) && !db.operationFails then None else old(StoredRecord()))
      ensures mongoStore.collection == (old(mongoStore.collection) || (useMongo && db.readyState == 1))
    {
      if useMongo {
        mongoStore.Clear(db);
      } else {
        memoryStore.Clear();
      }
    }

    /** The predicted outcome of attempt `k` of a run that started with `connected`. */
    function RunOutcome(env: nat -> AttemptEnv, k: nat, connected: bool): AttemptOutcome {
      Predicted(env(k), ConnectedBefore(env, k, connected))
    }

    /** Every attempt of a run so far had the outcome its world predicts, for a run that started with `connected`. */
    ghost predicate AllExplained(env: nat -> AttemptEnv, outcomes: seq<AttemptOutcome>, connected: bool) {
      forall k :: 0 <= k < |outcomes| ==> outcomes[k] == RunOutcome(env, k, connected)
    }

    lemma ExplainedSnoc(env: nat -> AttemptEnv, outcomes: seq<AttemptOutcome>, o: AttemptOutcome, connected: bool)
      requires AllExplained(env, outcomes, connected)
      requires o == RunOutcome(env, |outcomes|, connected)
      ensures AllExplained(env, outcomes + [o], connected)
    {
      var run := outcomes + [o];
      forall k | 0 <= k < |run|
        ensures run[k] == RunOutcome(env, k, connected)
      {
        if k < |outcomes| {
          assert run[k] == outcomes[k];
        }
      }
    }

    /**
     * The predicted outcomes agree with their worlds, are the ideal ones whenever
     * the store is reliable, and are all refused when the database store starts
     * without a model and never finds the connection ready.
     */
    lemma ExplainedRun(env: nat -> AttemptEnv, outcomes: seq<AttemptOutcome>, connected: bool)
      requires AllExplained(env, outcomes, connected)
      ensures forall k :: 0 <= k < |outcomes| ==> Consistent(env(k), outcomes[k])
      ensures forall k :: 0 <= k < |outcomes| && Reliable(env(k).db) ==> outcomes[k] == Ideal(env(k))
      ensures useMongo && !connected && NeverConnects(env) && |outcomes| <= MaxRetries + 1 ==>
        forall k :: 0 <= k < |outcomes| ==> outcomes[k] == Refused(env(k))
    {
      if useMongo && !connected && NeverConnects(env) && |outcomes| <= MaxRetries + 1 {
        forall k | 0 <= k < |outcomes|
          ensures outcomes[k] == Refused(env(k))
        {
          NeverConnected(env, k);
        }
      }
    }

    /** One exchange's response handling: the record is stored, and a failing write fails the attempt. */
    method Attempt(world: AttemptEnv) returns (o: AttemptOutcome)
      modifies memoryStore, mongoStore
      ensures Consistent(world, o)
      ensures Reliable(world.db) ==> o == Ideal(world)
      ensures useMongo && !old(mongoStore.collection) && world.db.readyState != 1 ==>
        o == Refused(world) && !mongoStore.collection
      ensures o.Obtained? ==> StoredRecord() == Some(o.record)
      ensures o.Failed? ==> StoredRecord() == old(StoredRecord())
      ensures o == Predicted(world, old(mongoStore.collection))
      ensures old(Writable(world.db)) ==> o == Ideal(world)
      ensures useMongo ==> mongoStore.collection == ConnectedAfter(world, old(mongoStore.collection))
    {
      var received := Received(world.reply, world.now);
      if received.Success? {
        var written := StoreSet(received.value, world.db);
        if written.Success? {
          o := Obtained(received.value);
        } else {
          o := Failed(StoreWrite(written.error));
        }
      } else {
        o := Failed(received.error);
      }
    }

    /**
     * The retry loop: up to four attempts, sleeping 300, 900 and 2700 ms between
     * them, storing the record of the first attempt that yields one.  A failing
     * store write fails its attempt like any other non-HTTP error.
     */
    method RefreshToken(env: nat -> AttemptEnv)
      returns (r: Result<string, AuthError>, delays: seq<int>, ghost outcomes: seq<AttemptOutcome>)
      modifies this`exchanges, memoryStore, mongoStore
      ensures IsRetryRun(outcomes, delays, r)
      ensures forall k :: 0 <= k < |outcomes| ==> Consistent(env(k), outcomes[k])
      ensures forall k :: 0 <= k < |outcomes| && Reliable(env(k).db) ==> outcomes[k] == Ideal(env(k))
      ensures exchanges == old(exchanges) + Copies(TokenRequestFor(), |outcomes|)
      ensures r.Success? ==> StoredRecord() == Some(outcomes[|outcomes| - 1].record)
      ensures r.Failure? ==> StoredRecord() == old(StoredRecord())
      ensures useMongo && !old(mongoStore.collection) && NeverConnects(env) ==>
        forall k :: 0 <= k < |outcomes| ==> outcomes[k] == Refused(env(k))
      ensures forall k :: 0 <= k < |outcomes| ==>
        outcomes[k] == RunOutcome(env, k, old(mongoStore.collection))
    {
      var request := TokenRequestFor();
      ghost var connected := mongoStore.collection;
      delays, outcomes := [], [];
      var attempt: nat := 0;
      while attempt <= MaxRetries
        invariant attempt <= MaxRetries && |outcomes| == attempt
        invariant BackedOff(outcomes, delays)
        invariant AllExplained(env, outcomes, connected)
        invariant useMongo ==> mongoStore.collection == ConnectedBefore(env, attempt, connected)
        invariant exchanges == old(exchanges) + Copies(request, attempt)
        invariant StoredRecord() == old(StoredRecord())
      {
        var world := env(attempt);
        exchanges := exchanges + [request];
        CopiesSnoc(request, attempt);
        var outcome := Attempt(world);
        ExplainedSnoc(env, outcomes, outcome, connected);
        if outcome.Obtained? || attempt == MaxRetries || !ShouldRetry(outcome.error) {
          r := if outcome.Obtained? then Success(outcome.record.token) else Failure(TokenRefreshFailed(outcome.error));
          RunClosed(outcomes, delays, outcome, r);
          outcomes := outcomes + [outcome];
          ExplainedRun(env, outcomes, connected);
          return r, delays, outcomes;
        }
        var delay := RetryDelays[attempt];
        BackedOffSnoc(outcomes, delays, outcome, delay);
        delays, outcomes := delays + [delay], outcomes + [outcome];
        attempt := attempt + 1;
      }
      assert false;
    }

    /**
     * A caller arrives (`getAccessToken` up to its first wait).  Unless forced, it
     * reads the store and returns a token that is fresh at `now`.  Otherwise it
     * attaches to the refresh in flight, or marks a new refresh as in flight.
     * No exchange happens on arrival.
     */
    method Arrive(forceRefresh: bool, now: int, db: DbEnv) returns (a: Arrival)
      requires Valid()
      modifies this, mongoStore
      ensures Valid()
      ensures exchanges == old(exchanges) && settled == old(settled) && forcedRefreshes == old(forcedRefreshes)
      ensures StoredRecord() == old(StoredRecord())
      ensures forceRefresh ==> mongoStore.collection == old(mongoStore.collection)
      ensures a.FromCache? <==> !forceRefresh && old(CacheHit(db, now))
      ensures a.FromCache? ==> a.token == old(Visible(db)).value.token
      ensures a.Joined? <==> !a.FromCache? && old(marker).Some?
      ensures a.Joined? ==> a.refresh == old(marker).value
      ensures !a.Started? ==> marker == old(marker) && nextRefresh == old(nextRefresh) && running == old(running)
      ensures a.Started? ==>
        && a.refresh == old(nextRefresh) && marker == Some(a.refresh)
        && running == old(running) + {a.refresh} && nextRefresh == old(nextRefresh) + 1
    {
      if !forceRefresh {
        var cached := StoreGet(db);
        if cached.Some? && now < cached.value.expiresAt {
          return FromCache(cached.value.token);
        }
      }
      if marker.Some? {
        return Joined(marker.value);
      }
      a := Started(nextRefresh);
      marker := Some(nextRefresh);
      running := running + {nextRefresh};
      nextRefresh := nextRefresh + 1;
    }

    /**
     * A running refresh settles: its retry loop runs, and its result goes to every
     * caller attached to it.  The marker is cleared on success and on failure,
     * whichever refresh it pointed at.
     */
    method Complete(refresh: nat, env: nat -> AttemptEnv)
      returns (r: Result<string, AuthError>, delays: seq<int>, ghost outcomes: seq<AttemptOutcome>)
      requires Valid() && refresh in running
      modifies this, memoryStore, mongoStore
      ensures Valid()
      ensures marker == None && nextRefresh == old(nextRefresh) && forcedRefreshes == old(forcedRefreshes)
      ensures running == old(running) - {refresh} && settled == old(settled)[refresh := r]
      ensures IsRetryRun(outcomes, delays, r)
      ensures forall k :: 0 <= k < |outcomes| ==> Consistent(env(k), outcomes[k])
      ensures forall k :: 0 <= k < |outcomes| && Reliable(env(k).db) ==> outcomes[k] == Ideal(env(k))
      ensures exchanges == old(exchanges) + Copies(TokenRequestFor(), |outcomes|)
      ensures r.Success? ==> StoredRecord() == Some(outcomes[|outcomes| - 1].record)
      ensures r.Failure? ==> StoredRecord() == old(StoredRecord())
      ensures forall k :: 0 <= k < |outcomes| ==>
        outcomes[k] == RunOutcome(env, k, old(mongoStore.collection))
    {
      r, delays, outcomes := RefreshToken(env);
      marker := None;
      running := running - {refresh};
      settled := settled[refresh := r];
    }

    /** Completes a refresh for a caller that waits on it, dropping the run's details. */
    method Settle(refresh: nat, env: nat -> AttemptEnv) returns (r: Result<string, AuthError>)
      requires Valid() && refresh in running
      modifies this, memoryStore, mongoStore
      ensures Valid()
      ensures marker == None && nextRefresh == old(nextRefresh) && forcedRefreshes == old(forcedRefreshes)
      ensures running == old(running) - {refresh} && settled == old(settled)[refresh := r]
      ensures old(|exchanges|) < |exchanges| <= old(|exchanges|) + MaxRetries + 1
      ensures r.Success? ==> StoredRecord().Some? && StoredRecord().value.token == r.value
      ensures r.Failure? ==> StoredRecord() == old(StoredRecord())
      ensures Serves(env) ==>
        r == Success(Ideal(env(0)).record.token) && StoredRecord() == Some(Ideal(env(0)).record) &&
        |exchanges| == old(|exchanges|) + 1
    {
      var delays;
      ghost var outcomes;
      r, delays, outcomes := Complete(refresh, env);
      RunSettlesOnLastAttempt(outcomes, delays, r);
      FirstAttemptObtained(outcomes, delays, r);
    }

    /**
     * `getAccessToken`, run to completion: a caller that has to wait for a refresh
     * (its own or the one in flight) receives that refresh's result.
     */
    method GetAccessToken(forceRefresh: bool, call: TokenCall) returns (r: Result<string, AuthError>)
      requires Valid()
      modifies this, memoryStore, mongoStore
      ensures Valid()
      ensures forcedRefreshes == old(forcedRefreshes) + (if forceRefresh then 1 else 0)
      ensures !forceRefresh && old(CacheHit(call.db, call.now)) ==>
        r == Success(old(Visible(call.db)).value.token) && exchanges == old(exchanges) &&
        marker == old(marker) && settled == old(settled) && StoredRecord() == old(StoredRecord())
      ensures forceRefresh || !old(CacheHit(call.db, call.now)) ==>
        var refresh := if old(marker).Some? then old(marker).value else old(nextRefresh);
        && marker == None
        && nextRefresh == (if old(marker).Some? then old(nextRefresh) else old(nextRefresh) + 1)
        && refresh in settled && settled[refresh] == r
        && old(|exchanges|) < |exchanges| <= old(|exchanges|) + MaxRetries + 1
      ensures r.Success? ==> StoredRecord().Some? && StoredRecord().value.token == r.value
      ensures Serves(call.env) ==> r.Success?
      ensures Serves(call.env) && (forceRefresh || !old(CacheHit(call.db, call.now))) ==>
        r == Success(call.env(0).reply.accessToken) && StoredRecord() == Some(Ideal(call.env(0)).record)
    {
      var a := Arrive(forceRefresh, call.now, call.db);
      if forceRefresh {
        forcedRefreshes := forcedRefreshes + 1;
      }
      match a {
        case FromCache(token) =>
          r := Success(token);
        case Joined(refresh) =>
          r := Settle(refresh, call.env);
        case Started(refresh) =>
          r := Settle(refresh, call.env);
      }
    }

    /** `clearTokenCache`: empties the store and forgets the refresh in flight, which still runs on. */
    method ClearTokenCache(db: DbEnv)
      requires Valid()
      modifies this`marker, memoryStore, mongoStore
      ensures Valid() && marker == None
      ensures !useMongo ==> StoredRecord() == None
      ensures useMongo ==>
        StoredRecord() == (if (old(mongoStore.collection) || db.readyState == 1) && !db.operationFails then None else old(StoredRecord()))
      ensures mongoStore.collection == (old(mongoStore.collection) || (useMongo && db.readyState == 1))
    {
      StoreClear(db);
      marker := None;
    }
  }

  /** `getInstance`: the process-wide manager, configured from the environment on first use. */
  class Registry {
    var instance: Option<ICDAuthService>

    constructor ()
      ensures instance == None
    {
      instance := None;
    }

    /**
     * The first successful call builds the manager from `ICD_CLIENT_ID`,
     * `ICD_CLIENT_SECRET`, `ICD_TOKEN_ENDPOINT` and `TOKEN_STORE`; later calls
     * return it whatever the environment then says.  Missing credentials fail and
     * leave no manager behind.  `stored` is the database's token collection.
     */
    method GetInstance(env: ProcessEnv, stored: map<string, TokenRecord>) returns (r: Result<ICDAuthService, ConfigError>)
      modifies this
      ensures old(instance).Some? ==> r == Success(old(instance).value) && instance == old(instance)
      ensures old(instance).None? ==>
        (r.Failure? <==> EnvOr(env, "ICD_CLIENT_ID", "") == "" || EnvOr(env, "ICD_CLIENT_SECRET", "") == "")
      ensures old(instance).None? && r.Failure? ==> instance == None
      ensures old(instance).None? && r.Success? ==>
        && instance == Some(r.value) && fresh(r.value) && r.value.Valid()
        && r.value.clientId == env.vars["ICD_CLIENT_ID"] && r.value.clientSecret == env.vars["ICD_CLIENT_SECRET"]
        && r.value.tokenEndpoint == EnvOr(env, "ICD_TOKEN_ENDPOINT", DefaultTokenEndpoint)
        && r.value.useMongo == ("TOKEN_STORE" in env.vars && env.vars["TOKEN_STORE"] == "mongo")
        && r.value.marker == None && r.value.exchanges == []
        && r.value.memoryStore.tokenRecord == None && r.value.mongoStore.documents == stored
    {
      if instance.Some? {
        return Success(instance.value);
      }
      var clientId := EnvOr(env, "ICD_CLIENT_ID", "");
      var clientSecret := EnvOr(env, "ICD_CLIENT_SECRET", "");
      var endpoint := EnvOr(env, "ICD_TOKEN_ENDPOINT", DefaultTokenEndpoint);
      var useMongo := "TOKEN_STORE" in env.vars && env.vars["TOKEN_STORE"] == "mongo";
      if clientId == "" || clientSecret == "" {
        return Failure(MissingCredentials);
      }
      var service := new ICDAuthService(clientId, clientSecret, endpoint, useMongo, stored);
      instance := Some(service);
      r := Success(service);
    }
  }

  /**
   * A client made by `createAxiosClient`: requests carry the manager's token, and
   * a 401 answer is met with one forced refresh and one re-send.  `sent` is every
   * request this client put on the wire.
   */
  class AuthenticatedClient {
    const auth: ICDAuthService
    const defaults: ClientConfig
    ghost var sent: seq<RequestConfig>

    constructor (auth: ICDAuthService, baseUrl: Option<string>)
      ensures this.auth == auth && defaults == ClientDefaults(baseUrl) && sent == []
    {
      this.auth := auth;
      defaults := ClientDefaults(baseUrl);
      sent := [];
    }

    /** The request interceptor: the current token as a Bearer credential, or the token error. */
    method AttachToken(config: RequestConfig, call: TokenCall)
      returns (token: Result<string, AuthError>, r: Result<RequestConfig, AuthError>)
      requires auth.Valid()
      modifies auth, auth.memoryStore, auth.mongoStore
      ensures auth.Valid() && auth.forcedRefreshes == old(auth.forcedRefreshes)
      ensures token.Success? ==> r == Success(WithToken(config, token.value))
      ensures token.Failure? ==> r == Failure(token.error)
      ensures !old(auth.CacheHit(call.db, call.now)) ==> auth.marker == None
      ensures auth.Serves(call.env) ==> token.Success?
      ensures old(auth.CacheHit(call.db, call.now)) ==>
        token == Success(old(auth.Visible(call.db)).value.token) && auth.exchanges == old(auth.exchanges)
    {
      token := auth.GetAccessToken(false, call);
      if token.Success? {
        r := Success(WithToken(config, token.value));
      } else {
        r := Failure(token.error);
      }
    }

    /**
     * One request through the client.  `calls` is the world of each token lookup
     * (attach, forced refresh, lookup for the re-send) and `api` the answer to the
     * first send and to the re-send.  `tokens` are the lookups' results in order.
     * The re-send goes through a plain client, so its failure is not intercepted again;
     * when the refresh or the lookup fails, the original 401 is surfaced.
     */
    method Send(config: RequestConfig, calls: nat -> TokenCall, api: nat -> ApiReply)
      returns (r: Result<string, RequestError>, tokens: seq<Result<string, AuthError>>)
      requires auth.Valid()
      modifies this, auth, auth.memoryStore, auth.mongoStore
      ensures auth.Valid()
      ensures 1 <= |tokens| <= 3
      ensures old(|sent|) <= |sent| <= old(|sent|) + 2 && sent[..old(|sent|)] == old(sent)
      ensures auth.forcedRefreshes == old(auth.forcedRefreshes) + (if |tokens| >= 2 then 1 else 0)
      ensures tokens[0].Failure? ==>
        |tokens| == 1 && |sent| == old(|sent|) && r == Failure(TokenUnavailable(tokens[0].error))
      ensures tokens[0].Success? ==> |sent| > old(|sent|) && sent[old(|sent|)] == WithToken(config, tokens[0].value)
      ensures |tokens| >= 2 <==> tokens[0].Success? && IsUnauthorized(api(0))
      ensures |tokens| == 3 <==> |tokens| >= 2 && tokens[1].Success? && api(0).hasConfig
      ensures |sent| == old(|sent|) + 2 <==> |tokens| == 3 && tokens[2].Success?
      ensures tokens[0].Success? && |sent| < old(|sent|) + 2 ==> r == Delivered(api(0))
      ensures |sent| == old(|sent|) + 2 ==>
        sent[old(|sent|) + 1] == WithToken(sent[old(|sent|)], tokens[2].value) && r == Delivered(api(1))
      ensures (forall i :: 0 <= i < 3 ==> auth.Serves(calls(i).env)) ==> forall i :: 0 <= i < |tokens| ==> tokens[i].Success?
    {
      var first, attached := AttachToken(config, calls(0));
      tokens := [first];
      if attached.Failure? {
        return Failure(TokenUnavailable(attached.error)), tokens;
      }
      var request := attached.value;
      sent := sent + [request];
      var reply := api(0);
      if reply.Answered? {
        return Success(reply.data), tokens;
      }
      r := Failure(ApiFailed(reply));
      if IsUnauthorized(reply) {
        var forced := auth.GetAccessToken(true, calls(1));
        tokens := tokens + [forced];
        if forced.Success? && reply.hasConfig {
          var again := auth.GetAccessToken(false, calls(2));
          tokens := tokens + [again];
          if again.Success? {
            sent := sent + [WithToken(request, again.value)];
            r := Delivered(api(1));
          }
        }
      }
    }
  }
}
