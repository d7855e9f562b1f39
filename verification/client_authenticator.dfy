/** The consolidated client class `com.sc.hcv.client.VaultAuthenticator`: AppRole login, the
    four secret reads and the token check, each inside its own copy of the retry envelope.
    Every operation but the token check pauses with `waitUntilConditionMet`. */
module ClientAuthenticator {
  import opened Wire
  import opened Backoff
  import opened Envelope
  import opened Extraction
  import opened Classify

  /** The constructor's arguments: the class also holds the login path. */
  datatype Authenticator = Authenticator(settings: Settings, authPath: string)

  /** `authenticate(roleId, secretId)`: POST the AppRole credentials to `vaultUrl + authPath`. */
  function Authenticate(a: Authenticator, roleId: string, secretId: string, script: nat -> Outcome): (c: Call<string>)
    ensures c.request == Request(POST, a.settings.vaultUrl + a.authPath, AppRoleLogin(roleId, secretId))
    ensures Trace(WaitPolicy(a.settings), AuthSteps(script), AuthExhausted, 0, c.run)
    ensures c.run.result.Success? <==> 0 < c.run.attempts && IsOk(script(c.run.attempts - 1))
    ensures c.run.result.Success? ==> c.run.result.value == AuthSucceeded
    ensures (c.run.result == Failure(InvalidCredentials)) <==>
              (0 < c.run.attempts && script(c.run.attempts - 1) == ClientError(UNAUTHORIZED))
    ensures (c.run.result == Failure(AuthExhausted)) <==>
              (c.run.attempts == Budget(a.settings.maxRetries) && AllRetry(AuthSteps(script), 0, c.run.attempts))
  {
    Call(Request(POST, a.settings.vaultUrl + a.authPath, AppRoleLogin(roleId, secretId)),
         Execute(WaitPolicy(a.settings), AuthSteps(script), AuthExhausted))
  }

  /** An OK response returns the fixed message at once: no further attempt, no pause. */
  lemma AuthenticateOkReturnsAtOnce(a: Authenticator, roleId: string, secretId: string, script: nat -> Outcome)
    requires a.settings.maxRetries > 0 && IsOk(script(0))
    ensures Authenticate(a, roleId, secretId, script).run == Run(Success(AuthSucceeded), 1, [])
  {
    FirstAttemptSettles(WaitPolicy(a.settings), AuthSteps(script), AuthExhausted);
  }

  /** A 401 client error throws "Invalid Vault credentials" after one attempt and no pause,
      whatever the retry budget. */
  lemma AuthenticateUnauthorizedIsTerminal(a: Authenticator, roleId: string, secretId: string, script: nat -> Outcome)
    requires a.settings.maxRetries > 0 && script(0) == ClientError(UNAUTHORIZED)
    ensures Authenticate(a, roleId, secretId, script).run == Run(Failure(InvalidCredentials), 1, [])
  {
    FirstAttemptSettles(WaitPolicy(a.settings), AuthSteps(script), AuthExhausted);
  }

  /** When no attempt is OK and none is a 401 client error, every attempt the budget allows
      is made, the k-th is followed by `waitUntilConditionMet(backoffInterval * k,
      maxBackoffInterval)`, and the login throws "Max retries exceeded"; a budget of zero or
      less makes no attempt at all. */
  lemma AuthenticateTransientExhausts(a: Authenticator, roleId: string, secretId: string, script: nat -> Outcome)
    requires forall i: nat :: !IsOk(script(i)) && script(i) != ClientError(UNAUTHORIZED)
    ensures var r := Authenticate(a, roleId, secretId, script).run;
            && r.result == Failure(AuthExhausted)
            && r.attempts == Budget(a.settings.maxRetries)
            && |r.pauses| == r.attempts
            && forall k :: 1 <= k <= r.attempts ==> r.pauses[k - 1] == WaitLoop(a.settings.backoffInterval * k, a.settings.maxBackoffInterval)
  {
    var p := WaitPolicy(a.settings);
    assert forall i: nat :: AuthSteps(script)(i) == AuthStep(script(i));
    AllRetriedExhausts(p, AuthSteps(script), AuthExhausted);
    var r := Authenticate(a, roleId, secretId, script).run;
    forall k | 1 <= k <= r.attempts
      ensures r.pauses[k - 1] == WaitLoop(a.settings.backoffInterval * k, a.settings.maxBackoffInterval)
    {
      assert r.pauses[k - 1] == PauseFor(p, k);
    }
  }

  /** `readKVSecrets(vaultToken, secretPath, secretKeys...)`: GET `vaultUrl/v1/secretPath`
      with the token as a bearer header, and return the requested keys of `"data"`. */
  function ReadKVSecrets(s: Settings, vaultToken: string, secretPath: string, secretKeys: seq<string>,
                         script: nat -> Outcome): (c: Call<map<string, string>>)
    ensures c.request == Request(GET, ApiUrl(s.vaultUrl, secretPath), BearerToken(vaultToken))
    ensures Trace(WaitPolicy(s), KeyValueSteps(secretKeys, script), KeyValueExhausted, 0, c.run)
    ensures c.run.result.Success? ==>
              && 0 < c.run.attempts
              && IsOk(script(c.run.attempts - 1))
              && KeyValueSecrets(script(c.run.attempts - 1).body, secretKeys) == Some(c.run.result.value)
              && c.run.result.value.Keys == KeySet(secretKeys)
    ensures (c.run.result == Failure(InvalidToken)) <==>
              (0 < c.run.attempts && script(c.run.attempts - 1) == ClientError(UNAUTHORIZED))
    ensures (c.run.result == Failure(KeyValueExhausted)) <==>
              (c.run.attempts == Budget(s.maxRetries) && AllRetry(KeyValueSteps(secretKeys, script), 0, c.run.attempts))
  {
    Call(Request(GET, ApiUrl(s.vaultUrl, secretPath), BearerToken(vaultToken)),
         Execute(WaitPolicy(s), KeyValueSteps(secretKeys, script), KeyValueExhausted))
  }

  /** An OK response whose `"data"` lacks a requested key (or has no `"data"` object) is
      caught by the generic handler and retried: it is followed by the first pause and, when
      the budget allows, by another attempt. */
  lemma ReadKVMissingKeyIsRetried(s: Settings, vaultToken: string, secretPath: string, secretKeys: seq<string>,
                                  script: nat -> Outcome)
    requires s.maxRetries > 0 && IsOk(script(0))
    requires DataObject(script(0).body).None? || exists i :: 0 <= i < |secretKeys| && secretKeys[i] !in DataObject(script(0).body).value
    ensures var r := ReadKVSecrets(s, vaultToken, secretPath, secretKeys, script).run;
            && r.pauses[0] == WaitLoop(s.backoffInterval, s.maxBackoffInterval)
            && (s.maxRetries > 1 ==> r.attempts >= 2)
  {
    assert KeyValueSteps(secretKeys, script)(0).Retry?;
    FirstAttemptRetried(WaitPolicy(s), KeyValueSteps(secretKeys, script), KeyValueExhausted);
  }

  /** `readDatabaseSecret(vaultToken, databasePath)`: GET `vaultUrl/v1/databasePath` and
      return the OK body as it came. Only a 401 client error is terminal. */
  function ReadDatabaseSecret(s: Settings, vaultToken: string, databasePath: string,
                              script: nat -> Outcome): (c: Call<Body>)
    ensures c.request == Request(GET, ApiUrl(s.vaultUrl, databasePath), TokenUriVariable(vaultToken))
    ensures Trace(WaitPolicy(s), DatabaseSteps(script), DatabaseExhausted, 0, c.run)
    ensures c.run.result.Success? ==>
              0 < c.run.attempts && IsOk(script(c.run.attempts - 1)) && c.run.result.value == script(c.run.attempts - 1).body
    ensures (c.run.result == Failure(InvalidToken)) <==>
              (0 < c.run.attempts && script(c.run.attempts - 1) == ClientError(UNAUTHORIZED))
    ensures (c.run.result == Failure(DatabaseExhausted)) <==>
              (c.run.attempts == Budget(s.maxRetries) && AllRetry(DatabaseSteps(script), 0, c.run.attempts))
  {
    Call(Request(GET, ApiUrl(s.vaultUrl, databasePath), TokenUriVariable(vaultToken)),
         Execute(WaitPolicy(s), DatabaseSteps(script), DatabaseExhausted))
  }

  /** `readActiveDirectorySecret(vaultToken, adPath, adKey)`: GET
      `vaultUrl/v1/adPath/adKey` and return every pair under `"data"`. */
  function ReadActiveDirectorySecret(s: Settings, vaultToken: string, adPath: string, adKey: string,
                                     script: nat -> Outcome): (c: Call<map<string, string>>)
    ensures c.request == Request(GET, ApiUrl(s.vaultUrl, adPath + "/" + adKey), TokenUriVariable(vaultToken))
    ensures Trace(WaitPolicy(s), DirectorySteps(script), DirectoryExhausted, 0, c.run)
    ensures c.run.result.Success? ==>
              && 0 < c.run.attempts
              && IsOk(script(c.run.attempts - 1))
              && DirectorySecrets(script(c.run.attempts - 1).body) == Some(c.run.result.value)
              && forall k :: k in c.run.result.value <==> Present(DataObject(script(c.run.attempts - 1).body).value, k)
    ensures (c.run.result == Failure(InvalidToken)) <==>
              (0 < c.run.attempts && script(c.run.attempts - 1) == ClientError(UNAUTHORIZED))
    ensures (c.run.result == Failure(SecretNotFound)) <==>
              (0 < c.run.attempts && script(c.run.attempts - 1) == ClientError(NOT_FOUND))
    ensures (c.run.result == Failure(DirectoryExhausted)) <==>
              (c.run.attempts == Budget(s.maxRetries) && AllRetry(DirectorySteps(script), 0, c.run.attempts))
  {
    Call(Request(GET, ApiUrl(s.vaultUrl, adPath + "/" + adKey), TokenUriVariable(vaultToken)),
         Execute(WaitPolicy(s), DirectorySteps(script), DirectoryExhausted))
  }

  /** `readLdapSecret(vaultToken, ldapPath)`: GET `vaultUrl/v1/ldapPath` and return the OK
      body as it came; 401 and 404 client errors are terminal. */
  function ReadLdapSecret(s: Settings, vaultToken: string, ldapPath: string,
                          script: nat -> Outcome): (c: Call<Body>)
    ensures c.request == Request(GET, ApiUrl(s.vaultUrl, ldapPath), TokenUriVariable(vaultToken))
    ensures Trace(WaitPolicy(s), LdapSteps(script), LdapExhausted, 0, c.run)
    ensures c.run.result.Success? ==>
              0 < c.run.attempts && IsOk(script(c.run.attempts - 1)) && c.run.result.value == script(c.run.attempts - 1).body
    ensures (c.run.result == Failure(InvalidToken)) <==>
              (0 < c.run.attempts && script(c.run.attempts - 1) == ClientError(UNAUTHORIZED))
    ensures (c.run.result == Failure(SecretNotFound)) <==>
              (0 < c.run.attempts && script(c.run.attempts - 1) == ClientError(NOT_FOUND))
    ensures (c.run.result == Failure(LdapExhausted)) <==>
              (c.run.attempts == Budget(s.maxRetries) && AllRetry(LdapSteps(script), 0, c.run.attempts))
  {
    Call(Request(GET, ApiUrl(s.vaultUrl, ldapPath), TokenUriVariable(vaultToken)),
         Execute(WaitPolicy(s), LdapSteps(script), LdapExhausted))
  }

  /** A 404 is terminal for the LDAP read but retried by the database read. */
  lemma NotFoundTerminalForLdapOnly(s: Settings, vaultToken: string, path: string, script: nat -> Outcome)
    requires s.maxRetries > 1 && script(0) == ClientError(NOT_FOUND)
    ensures ReadLdapSecret(s, vaultToken, path, script).run == Run(Failure(SecretNotFound), 1, [])
    ensures ReadDatabaseSecret(s, vaultToken, path, script).run.attempts >= 2
  {
    FirstAttemptSettles(WaitPolicy(s), LdapSteps(script), LdapExhausted);
    assert DatabaseSteps(script)(0).Retry?;
    FirstAttemptRetried(WaitPolicy(s), DatabaseSteps(script), DatabaseExhausted);
  }

  /** `isValidToken(vaultToken)`: GET `vaultUrl/v1/auth/token/lookup-self` with a bearer
      header, pausing with a single `Thread.sleep(backoffInterval * numRetries)`. */
  function IsValidToken(s: Settings, vaultToken: string, script: nat -> Outcome): (c: Call<bool>)
    ensures c.request == Request(GET, ApiUrl(s.vaultUrl, "auth/token/lookup-self"), BearerToken(vaultToken))
    ensures Trace(SleepPolicy(s), TokenSteps(script), TokenExhausted, 0, c.run)
    ensures c.run.result.Success? <==> 0 < c.run.attempts && script(c.run.attempts - 1).Response?
    ensures c.run.result.Success? ==> (c.run.result.value <==> script(c.run.attempts - 1).status == OK)
    ensures c.run.result.Failure? <==> c.run.result == Failure(TokenExhausted)
    ensures c.run.result.Failure? <==> c.run.attempts == Budget(s.maxRetries) && AllRetry(TokenSteps(script), 0, c.run.attempts)
  {
    Call(Request(GET, ApiUrl(s.vaultUrl, "auth/token/lookup-self"), BearerToken(vaultToken)),
         Execute(SleepPolicy(s), TokenSteps(script), TokenExhausted))
  }

  /** A response that is handed back with a status other than OK answers `false` at once,
      without a retry. */
  lemma IsValidTokenNonOkIsFalse(s: Settings, vaultToken: string, script: nat -> Outcome)
    requires s.maxRetries > 0 && script(0).Response? && script(0).status != OK
    ensures IsValidToken(s, vaultToken, script).run == Run(Success(false), 1, [])
  {
    FirstAttemptSettles(SleepPolicy(s), TokenSteps(script), TokenExhausted);
  }

  /** A 401 client error is retried like any exception, after `Thread.sleep(backoffInterval)`. */
  lemma IsValidTokenRetriesUnauthorized(s: Settings, vaultToken: string, script: nat -> Outcome)
    requires s.maxRetries > 0 && script(0) == ClientError(UNAUTHORIZED)
    ensures IsValidToken(s, vaultToken, script).run.pauses[0] == Sleep(s.backoffInterval)
    ensures s.maxRetries > 1 ==> IsValidToken(s, vaultToken, script).run.attempts >= 2
  {
    assert TokenSteps(script)(0).Retry?;
    FirstAttemptRetried(SleepPolicy(s), TokenSteps(script), TokenExhausted);
  }
}
