/** The class `com.sc.hcv.secrets.VaultDirectorySecrets`: the Active Directory and LDAP
    secret reads, each with its own copy of the retry envelope and `waitUntilConditionMet`.
    Both send the token as the `token` URI variable. */
module VaultDirectorySecrets {
  import opened Wire
  import opened Backoff
  import opened Envelope
  import opened Extraction
  import opened Classify

  /** `readActiveDirectorySecret(vaultToken, adPath, adKey)`: GET `vaultUrl/v1/adPath/adKey`
      and return every pair under `"data"`. */
  function ReadActiveDirectorySecret(s: Settings, vaultToken: string, adPath: string, adKey: string,
                                     script: nat -> Outcome): (c: Call<map<string, string>>)
    ensures c.request == Request(GET, ApiUrl(s.vaultUrl, adPath + "/" + adKey), TokenUriVariable(vaultToken))
    ensures Trace(WaitPolicy(s), DirectorySteps(script), DirectoryExhausted, 0, c.run)
    ensures c.run.result.Success? ==>
              && 0 < c.run.attempts
              && IsOk(script(c.run.attempts - 1))
              && DirectorySecrets(script(c.run.attempts - 1).body) == Some(c.run.result.value)
              && forall k :: k in c.run.result.value <==> Present(DataObject(script(c.run.attempts - 1).body).value, k)
    ensures (c.run.result == Failure(InvalidToken)) <==>
              (0 < c.run.attempts && script(c.run.attempts - 1) == ClientError(UNAUTHORIZED))
    ensures (c.run.result == Failure(SecretNotFound)) <==>
              (0 < c.run.attempts && script(c.run.attempts - 1) == ClientError(NOT_FOUND))
    ensures (c.run.result == Failure(DirectoryExhausted)) <==>
              (c.run.attempts == Budget(s.maxRetries) && AllRetry(DirectorySteps(script), 0, c.run.attempts))
  {
    Call(Request(GET, ApiUrl(s.vaultUrl, adPath + "/" + adKey), TokenUriVariable(vaultToken)),
         Execute(WaitPolicy(s), DirectorySteps(script), DirectoryExhausted))
  }

  /** An OK response whose `"data"` object holds only strings and `null`s returns all of its
      string pairs after one attempt and no pause. */
  lemma ActiveDirectoryReturnsEveryPair(s: Settings, vaultToken: string, adPath: string, adKey: string,
                                        script: nat -> Outcome, d: map<string, Value>)
    requires s.maxRetries > 0
    requires script(0) == Response(OK, Json(map["data" := Obj(d)]))
    requires AllStrings(d)
    ensures ReadActiveDirectorySecret(s, vaultToken, adPath, adKey, script).run
            == Run(Success(map k | k in d && Present(d, k) :: d[k].s), 1, [])
  {
    FirstAttemptSettles(WaitPolicy(s), DirectorySteps(script), DirectoryExhausted);
  }

  /** An OK response without a `"data"` object, a `null` one included, throws "Secret data
      not found" inside the `try`; the generic handler retries it, so it is followed by the
      first wait and never ends the read with that message. */
  lemma ActiveDirectoryMissingDataIsRetried(s: Settings, vaultToken: string, adPath: string, adKey: string,
                                            script: nat -> Outcome)
    requires s.maxRetries > 0 && IsOk(script(0)) && DataObject(script(0).body).None?
    ensures var r := ReadActiveDirectorySecret(s, vaultToken, adPath, adKey, script).run;
            && r.pauses[0] == WaitLoop(s.backoffInterval, s.maxBackoffInterval)
            && (s.maxRetries > 1 ==> r.attempts >= 2)
            && (s.maxRetries == 1 ==> r.result == Failure(DirectoryExhausted))
  {
    assert DirectorySteps(script)(0).Retry?;
    FirstAttemptRetried(WaitPolicy(s), DirectorySteps(script), DirectoryExhausted);
  }

  /** The `null` case in particular: a single attempt with `{"data": null}` exhausts a
      budget of one. */
  lemma ActiveDirectoryNullDataExhaustsBudgetOfOne(s: Settings, vaultToken: string, adPath: string, adKey: string,
                                                   script: nat -> Outcome)
    requires s.maxRetries == 1 && script(0) == Response(OK, Json(map["data" := Null]))
    ensures ReadActiveDirectorySecret(s, vaultToken, adPath, adKey, script).run
            == Run(Failure(DirectoryExhausted), 1, [WaitLoop(s.backoffInterval, s.maxBackoffInterval)])
  {
    ActiveDirectoryMissingDataIsRetried(s, vaultToken, adPath, adKey, script);
  }

  /** 401 and 404 client errors end the read after one attempt, with no pause and the
      retry counter untouched. */
  lemma ActiveDirectoryClientErrorsTerminal(s: Settings, vaultToken: string, adPath: string, adKey: string,
                                            script: nat -> Outcome)
    requires s.maxRetries > 0
    requires script(0) == ClientError(UNAUTHORIZED) || script(0) == ClientError(NOT_FOUND)
    ensures ReadActiveDirectorySecret(s, vaultToken, adPath, adKey, script).run
            == Run(Failure(if script(0).status == UNAUTHORIZED then InvalidToken else SecretNotFound), 1, [])
  {
    FirstAttemptSettles(WaitPolicy(s), DirectorySteps(script), DirectoryExhausted);
  }

  /** `readLdapSecret(vaultToken, ldapPath)`: GET `vaultUrl/v1/ldapPath` and return the OK
      body as it came; 401 and 404 client errors are terminal. */
  function ReadLdapSecret(s: Settings, vaultToken: string, ldapPath: string,
                          script: nat -> Outcome): (c: Call<Body>)
    ensures c.request == Request(GET, ApiUrl(s.vaultUrl, ldapPath), TokenUriVariable(vaultToken))
    ensures Trace(WaitPolicy(s), LdapSteps(script), LdapExhausted, 0, c.run)
    ensures c.run.result.Success? ==>
              0 < c.run.attempts && IsOk(script(c.run.attempts - 1)) && c.run.result.value == script(c.run.attempts - 1).body
    ensures (c.run.result == Failure(InvalidToken)) <==>
              (0 < c.run.attempts && script(c.run.attempts - 1) == ClientError(UNAUTHORIZED))
    ensures (c.run.result == Failure(SecretNotFound)) <==>
              (0 < c.run.attempts && script(c.run.attempts - 1) == ClientError(NOT_FOUND))
    ensures (c.run.result == Failure(LdapExhausted)) <==>
              (c.run.attempts == Budget(s.maxRetries) && AllRetry(LdapSteps(script), 0, c.run.attempts))
  {
    Call(Request(GET, ApiUrl(s.vaultUrl, ldapPath), TokenUriVariable(vaultToken)),
         Execute(WaitPolicy(s), LdapSteps(script), LdapExhausted))
  }

  /** A readable OK body is returned unchanged after one attempt, with no check of its
      shape: an empty body or one without `"data"` is returned as it is. */
  lemma LdapReturnsBodyAsItCame(s: Settings, vaultToken: string, ldapPath: string, script: nat -> Outcome)
    requires s.maxRetries > 0 && IsOk(script(0)) && !script(0).body.Malformed?
    ensures ReadLdapSecret(s, vaultToken, ldapPath, script).run == Run(Success(script(0).body), 1, [])
  {
    FirstAttemptSettles(WaitPolicy(s), LdapSteps(script), LdapExhausted);
  }

  /** When every attempt fails transiently the read makes `Budget(maxRetries)` attempts, waits
      after each, and throws "Max retries exceeded for Vault LDAP secret retrieval". With a
      positive interval and bound, the waits together last at least `n * maxBackoffInterval`
      and at most `n * maxBackoffInterval + backoffInterval * n * (n + 1) / 2`. */
  lemma LdapTransientExhausts(s: Settings, vaultToken: string, ldapPath: string, script: nat -> Outcome)
    requires forall i: nat :: LdapStep(script(i)).Retry?
    ensures var r := ReadLdapSecret(s, vaultToken, ldapPath, script).run;
            r == Run(Failure(LdapExhausted), Budget(s.maxRetries), Pauses(WaitPolicy(s), Budget(s.maxRetries)))
    ensures s.backoffInterval > 0 && s.maxBackoffInterval > 0 ==>
            var r := ReadLdapSecret(s, vaultToken, ldapPath, script).run;
            && AllEnd(r.pauses)
            && r.attempts * s.maxBackoffInterval <= TotalDuration(r.pauses)
            && 2 * TotalDuration(r.pauses) <= 2 * r.attempts * s.maxBackoffInterval + s.backoffInterval * r.attempts * (r.attempts + 1)
  {
    assert forall i: nat :: LdapSteps(script)(i) == LdapStep(script(i));
    AllRetriedExhausts(WaitPolicy(s), LdapSteps(script), LdapExhausted);
    if s.backoffInterval > 0 && s.maxBackoffInterval > 0 {
      WaitLoopTotal(WaitPolicy(s), Budget(s.maxRetries));
    }
  }
}
