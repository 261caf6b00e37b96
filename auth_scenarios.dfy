/**
 * Whole runs of the token manager and the authenticated client on fresh objects,
 * with concrete endpoint and API behaviour.
 */
module AuthScenarios {
  import opened Wrappers
  import opened TokenStore
  import opened IcdAuth

  const Working: DbEnv := DbEnv(1, false)

  /** An endpoint that grants `token` for an hour, answering at `now`. */
  function Granting(token: string, now: int): nat -> AttemptEnv {
    (k: nat) => AttemptEnv(Granted(token, Some(3600)), now, Working)
  }

  /**
   * A token fetched at t = 0 with `expires_in` 3600 is served from the cache at
   * t = 10 s, and replaced by a fresh exchange at t = 3595 s.
   */
  method CacheLifecycle() returns (first: Result<string, AuthError>, second: Result<string, AuthError>,
                                   third: Result<string, AuthError>)
    ensures first == Success("abc") && second == Success("abc") && third == Success("def")
  {
    var service := new ICDAuthService("client", "secret", DefaultTokenEndpoint, false, map[]);
    first := service.GetAccessToken(false, TokenCall(0, Working, Granting("abc", 0)));
    second := service.GetAccessToken(false, TokenCall(10000, Working, Granting("def", 10000)));
    third := service.GetAccessToken(false, TokenCall(3595000, Working, Granting("def", 3595000)));
  }

  /** A forced refresh bypasses a token that is still fresh. */
  method ForcedRefresh() returns (cached: Result<string, AuthError>, forced: Result<string, AuthError>)
    ensures cached == Success("abc") && forced == Success("def")
  {
    var service := new ICDAuthService("client", "secret", DefaultTokenEndpoint, false, map[]);
    cached := service.GetAccessToken(false, TokenCall(0, Working, Granting("abc", 0)));
    forced := service.GetAccessToken(true, TokenCall(1000, Working, Granting("def", 1000)));
  }

  /** After `clearTokenCache` the next caller exchanges again. */
  method ClearThenFetch() returns (before: Result<string, AuthError>, after: Result<string, AuthError>)
    ensures before == Success("abc") && after == Success("def")
  {
    var service := new ICDAuthService("client", "secret", DefaultTokenEndpoint, false, map[]);
    before := service.GetAccessToken(false, TokenCall(0, Working, Granting("abc", 0)));
    service.ClearTokenCache(Working);
    after := service.GetAccessToken(false, TokenCall(1000, Working, Granting("def", 1000)));
  }

  /**
   * Single flight: `n` callers arriving while the first caller's refresh is in
   * flight attach to it; one exchange serves them all.  `exchanged` counts the
   * requests sent to the token endpoint, and `delivered` is what refresh 0, the
   * one every caller waits on, delivered.
   */
  method SingleFlight(n: nat)
    returns (arrivals: seq<Arrival>, result: Result<string, AuthError>,
             ghost exchanged: nat, ghost delivered: Result<string, AuthError>)
    ensures |arrivals| == n + 1 && arrivals[0] == Started(0)
    ensures forall k :: 1 <= k < |arrivals| ==> arrivals[k] == Joined(0)
    ensures result == Success("abc")
    ensures exchanged == 1 && delivered == result
  {
    var service := new ICDAuthService("client", "secret", DefaultTokenEndpoint, false, map[]);
    var a := service.Arrive(false, 0, Working);
    arrivals := [a];
    while |arrivals| <= n
      invariant 1 <= |arrivals| <= n + 1 && arrivals[0] == Started(0)
      invariant forall k :: 1 <= k < |arrivals| ==> arrivals[k] == Joined(0)
      invariant service.Valid() && service.marker == Some(0) && 0 in service.running
      invariant service.StoredRecord() == None && service.exchanges == []
    {
      a := service.Arrive(false, 0, Working);
      arrivals := arrivals + [a];
    }
    var delays;
    ghost var outcomes;
    result, delays, outcomes := service.Complete(0, Granting("abc", 0));
    FirstAttemptObtained(outcomes, delays, result);
    exchanged, delivered := |service.exchanges|, service.settled[0];
  }

  /** An endpoint that keeps answering 500 is tried four times, with every backoff in between. */
  method PersistentServerError() returns (result: Result<string, AuthError>, delays: seq<int>)
    ensures result == Failure(TokenRefreshFailed(Http(Some(500))))
    ensures delays == [300, 900, 2700]
  {
    var service := new ICDAuthService("client", "secret", DefaultTokenEndpoint, false, map[]);
    ghost var outcomes;
    result, delays, outcomes := service.RefreshToken((k: nat) => AttemptEnv(HttpError(Some(500)), 0, Working));
    RetryableFailuresExhaust(outcomes, delays, result);
  }

  /** A 400 from the endpoint is terminal: one attempt, no backoff. */
  method RejectedCredentials() returns (result: Result<string, AuthError>, delays: seq<int>)
    ensures result == Failure(TokenRefreshFailed(Http(Some(400))))
    ensures delays == []
  {
    var service := new ICDAuthService("client", "secret", DefaultTokenEndpoint, false, map[]);
    ghost var outcomes;
    result, delays, outcomes := service.RefreshToken((k: nat) => AttemptEnv(HttpError(Some(400)), 0, Working));
    TerminalErrorStopsAtOnce(outcomes, delays, result);
  }

  /** A 503 followed by a grant succeeds on the second attempt after one 300 ms backoff. */
  method TransientOutage() returns (result: Result<string, AuthError>, delays: seq<int>)
    ensures result == Success("abc") && delays == [300]
  {
    var service := new ICDAuthService("client", "secret", DefaultTokenEndpoint, false, map[]);
    ghost var outcomes;
    var env := (k: nat) => if k == 0 then AttemptEnv(HttpError(Some(503)), 0, Working)
                           else AttemptEnv(Granted("abc", Some(3600)), 300, Working);
    result, delays, outcomes := service.RefreshToken(env);
    RunSettlesOnLastAttempt(outcomes, delays, result);
    assert outcomes[0] == Ideal(env(0));
    assert outcomes[1] == Ideal(env(1));
    RunDelays(outcomes, delays, result);
  }

  /** A database store that cannot connect fails every attempt's write, so the refresh fails after four attempts. */
  method StoreUnavailable() returns (result: Result<string, AuthError>, delays: seq<int>)
    ensures result == Failure(TokenRefreshFailed(StoreWrite(InitializationFailed)))
    ensures delays == [300, 900, 2700]
  {
    var service := new ICDAuthService("client", "secret", DefaultTokenEndpoint, true, map[]);
    ghost var outcomes;
    var env := (k: nat) => AttemptEnv(Granted("abc", Some(3600)), 0, DbEnv(0, false));
    result, delays, outcomes := service.RefreshToken(env);
    RetryableFailuresExhaust(outcomes, delays, result);
  }

  /**
   * `getInstance`: missing credentials fail and build nothing; the first
   * configured call builds the manager, and later calls return it as it is.
   */
  method SingletonConfiguration() returns (missing: Result<ICDAuthService, ConfigError>,
                                           built: Result<ICDAuthService, ConfigError>,
                                           again: Result<ICDAuthService, ConfigError>)
    ensures missing == Failure(MissingCredentials)
    ensures built.Success? && again == built
    ensures built.value.tokenEndpoint == DefaultTokenEndpoint && !built.value.useMongo
  {
    var registry := new Registry();
    var partial := ProcessEnv(map["ICD_CLIENT_ID" := "client"]);
    assert "ICD_CLIENT_SECRET" !in partial.vars;
    missing := registry.GetInstance(partial, map[]);
    assert missing.Failure?;
    assert missing.error == MissingCredentials;
    built := registry.GetInstance(ProcessEnv(map["ICD_CLIENT_ID" := "client", "ICD_CLIENT_SECRET" := "secret",
                                                 "ICD_TOKEN_ENDPOINT" := ""]), map[]);
    again := registry.GetInstance(ProcessEnv(map["TOKEN_STORE" := "mongo"]), map[]);
  }

  /**
   * A request answered 401 is re-sent once after a forced refresh, and the
   * re-send's answer is what the caller receives.
   */
  method UnauthorizedThenRetried() returns (r: Result<string, RequestError>, tokens: seq<Result<string, AuthError>>)
    ensures r == Success("entity") && |tokens| == 3
  {
    var service := new ICDAuthService("client", "secret", DefaultTokenEndpoint, false, map[]);
    var client := new AuthenticatedClient(service, Some("http://id.who.int"));
    var calls := (i: nat) => TokenCall(i * 1000, Working, Granting(if i == 0 then "abc" else "def", i * 1000));
    var api := (i: nat) => if i == 0 then HttpFailure(Some(401), true) else Answered("entity");
    r, tokens := client.Send(RequestConfig("/icd/entity", map[]), calls, api);
  }

  /** A 401 on the re-send is surfaced as is, without a second refresh. */
  method UnauthorizedTwice() returns (r: Result<string, RequestError>)
    ensures r == Failure(ApiFailed(HttpFailure(Some(401), true)))
  {
    var service := new ICDAuthService("client", "secret", DefaultTokenEndpoint, false, map[]);
    var client := new AuthenticatedClient(service, None);
    var calls := (i: nat) => TokenCall(i * 1000, Working, Granting("abc", i * 1000));
    var api := (i: nat) => HttpFailure(Some(401), true);
    var tokens;
    r, tokens := client.Send(RequestConfig("/icd/entity", map[]), calls, api);
  }

  /** Other API failures are passed through without touching the token. */
  method ServerFailurePassedThrough() returns (r: Result<string, RequestError>, tokens: seq<Result<string, AuthError>>)
    ensures r == Failure(ApiFailed(HttpFailure(Some(500), true))) && |tokens| == 1
  {
    var service := new ICDAuthService("client", "secret", DefaultTokenEndpoint, false, map[]);
    var client := new AuthenticatedClient(service, None);
    var calls := (i: nat) => TokenCall(0, Working, Granting("abc", 0));
    var api := (i: nat) => HttpFailure(Some(500), true);
    r, tokens := client.Send(RequestConfig("/icd/entity", map[]), calls, api);
  }
}
