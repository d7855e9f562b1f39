/** The authentication class `com.sc.hcv.auth.VaultAuthenticator`: AppRole login, TLS
    certificate login and the token check. The login path is an argument of each login, not
    a field. Building the TLS client (key store and trust store loading) happens inside the
    `try` of every attempt, so its failure is one more `OtherException`. */
module AuthAuthenticator {
  import opened Wire
  import opened Backoff
  import opened Envelope
  import opened Classify

  /** `authenticateAppRole(roleId, secretId, authPath)`: POST the credentials to
      `vaultUrl + authPath`. */
  function AuthenticateAppRole(s: Settings, roleId: string, secretId: string, authPath: string,
                               script: nat -> Outcome): (c: Call<string>)
    ensures c.request == Request(POST, s.vaultUrl + authPath, AppRoleLogin(roleId, secretId))
    ensures Trace(WaitPolicy(s), AuthSteps(script), AuthExhausted, 0, c.run)
    ensures c.run.result.Success? <==> 0 < c.run.attempts && IsOk(script(c.run.attempts - 1))
    ensures c.run.result.Success? ==> c.run.result.value == AuthSucceeded
    ensures (c.run.result == Failure(InvalidCredentials)) <==>
              (0 < c.run.attempts && script(c.run.attempts - 1) == ClientError(UNAUTHORIZED))
    ensures (c.run.result == Failure(AuthExhausted)) <==>
              (c.run.attempts == Budget(s.maxRetries) && AllRetry(AuthSteps(script), 0, c.run.attempts))
  {
    Call(Request(POST, s.vaultUrl + authPath, AppRoleLogin(roleId, secretId)),
         Execute(WaitPolicy(s), AuthSteps(script), AuthExhausted))
  }

  /** The first attempt decides when it is OK (the fixed message) or a 401 client error
      ("Invalid Vault credentials"): one attempt, no pause, no retry consumed. */
  lemma AppRoleFirstAttemptDecides(s: Settings, roleId: string, secretId: string, authPath: string,
                                   script: nat -> Outcome)
    requires s.maxRetries > 0
    requires IsOk(script(0)) || script(0) == ClientError(UNAUTHORIZED)
    ensures var r := AuthenticateAppRole(s, roleId, secretId, authPath, script).run;
            && r.attempts == 1 && r.pauses == []
            && r.result == (if IsOk(script(0)) then Success(AuthSucceeded) else Failure(InvalidCredentials))
  {
    FirstAttemptSettles(WaitPolicy(s), AuthSteps(script), AuthExhausted);
  }

  /** A login that keeps failing transiently makes `Budget(maxRetries)` attempts, waits
      `waitUntilConditionMet(backoffInterval * k, maxBackoffInterval)` after the k-th and
      throws "Max retries exceeded". */
  lemma AppRoleTransientExhausts(s: Settings, roleId: string, secretId: string, authPath: string,
                                 script: nat -> Outcome)
    requires forall i: nat :: !IsOk(script(i)) && script(i) != ClientError(UNAUTHORIZED)
    ensures AuthenticateAppRole(s, roleId, secretId, authPath, script).run
            == Run(Failure(AuthExhausted), Budget(s.maxRetries), Pauses(WaitPolicy(s), Budget(s.maxRetries)))
  {
    assert forall i: nat :: AuthSteps(script)(i) == AuthStep(script(i));
    AllRetriedExhausts(WaitPolicy(s), AuthSteps(script), AuthExhausted);
  }

  /** `authenticateTLS(keyStorePath, keyStorePassword, trustStorePath, trustStorePassword,
      authPath)`: GET `vaultUrl + authPath` over a client built from the key material; the
      same classification as the AppRole login. */
  function AuthenticateTLS(s: Settings, keyStorePath: string, keyStorePassword: string,
                           trustStorePath: string, trustStorePassword: string, authPath: string,
                           script: nat -> Outcome): (c: Call<string>)
    ensures c.request == Request(GET, s.vaultUrl + authPath,
                                 ClientCertificate(keyStorePath, keyStorePassword, trustStorePath, trustStorePassword))
    ensures Trace(WaitPolicy(s), AuthSteps(script), AuthExhausted, 0, c.run)
    ensures c.run.result.Success? <==> 0 < c.run.attempts && IsOk(script(c.run.attempts - 1))
    ensures c.run.result.Success? ==> c.run.result.value == AuthSucceeded
    ensures (c.run.result == Failure(InvalidCredentials)) <==>
              (0 < c.run.attempts && script(c.run.attempts - 1) == ClientError(UNAUTHORIZED))
    ensures (c.run.result == Failure(AuthExhausted)) <==>
              (c.run.attempts == Budget(s.maxRetries) && AllRetry(AuthSteps(script), 0, c.run.attempts))
  {
    Call(Request(GET, s.vaultUrl + authPath,
                 ClientCertificate(keyStorePath, keyStorePassword, trustStorePath, trustStorePassword)),
         Execute(WaitPolicy(s), AuthSteps(script), AuthExhausted))
  }

  /** A failure to build the TLS client is transient: the attempt is followed by the first
      wait and, when the budget allows, by another attempt that builds the client again. */
  lemma TlsClientFailureIsRetried(s: Settings, keyStorePath: string, keyStorePassword: string,
                                  trustStorePath: string, trustStorePassword: string, authPath: string,
                                  script: nat -> Outcome)
    requires s.maxRetries > 0 && script(0) == OtherException
    ensures var r := AuthenticateTLS(s, keyStorePath, keyStorePassword, trustStorePath, trustStorePassword, authPath, script).run;
            && r.pauses[0] == WaitLoop(s.backoffInterval, s.maxBackoffInterval)
            && (s.maxRetries > 1 ==> r.attempts >= 2)
            && (s.maxRetries == 1 ==> r.result == Failure(AuthExhausted))
  {
    assert AuthSteps(script)(0).Retry?;
    FirstAttemptRetried(WaitPolicy(s), AuthSteps(script), AuthExhausted);
  }

  /** `isValidToken(vaultToken)`: GET `vaultUrl/v1/auth/token/lookup-self` with a bearer
      header; every exception, a 401 included, is retried after a single
      `Thread.sleep(backoffInterval * numRetries)`. */
  function IsValidToken(s: Settings, vaultToken: string, script: nat -> Outcome): (c: Call<bool>)
    ensures c.request == Request(GET, ApiUrl(s.vaultUrl, "auth/token/lookup-self"), BearerToken(vaultToken))
    ensures Trace(SleepPolicy(s), TokenSteps(script), TokenExhausted, 0, c.run)
    ensures c.run.result.Success? <==> 0 < c.run.attempts && script(c.run.attempts - 1).Response?
    ensures c.run.result.Success? ==> (c.run.result.value <==> script(c.run.attempts - 1).status == OK)
    ensures c.run.result.Failure? <==> c.run.result == Failure(TokenExhausted)
    ensures c.run.result.Failure? <==> c.run.attempts == Budget(s.maxRetries) && AllRetry(TokenSteps(script), 0, c.run.attempts)
  {
    Call(Request(GET, ApiUrl(s.vaultUrl, "auth/token/lookup-self"), BearerToken(vaultToken)),
         Execute(SleepPolicy(s), TokenSteps(script), TokenExhausted))
  }

  /** When every lookup throws (401s included) the check never answers `false`: it throws
      after `Budget(maxRetries)` attempts, having slept `backoffInterval * k` after the k-th,
      `backoffInterval * n * (n + 1) / 2` in all. */
  lemma IsValidTokenThrowsWhenAllThrow(s: Settings, vaultToken: string, script: nat -> Outcome)
    requires forall i: nat :: !script(i).Response?
    ensures var r := IsValidToken(s, vaultToken, script).run;
            && r == Run(Failure(TokenExhausted), Budget(s.maxRetries), Pauses(SleepPolicy(s), Budget(s.maxRetries)))
            && AllEnd(r.pauses)
            && 2 * TotalDuration(r.pauses) == s.backoffInterval * r.attempts * (r.attempts + 1)
  {
    assert forall i: nat :: TokenSteps(script)(i) == TokenStep(script(i));
    AllRetriedExhausts(SleepPolicy(s), TokenSteps(script), TokenExhausted);
    SleepTotal(SleepPolicy(s), Budget(s.maxRetries));
  }
}
