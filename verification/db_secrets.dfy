/** The class `com.sc.hcv.secrets.VaultDBSecrets`: the database secret read with its own copy
    of the retry envelope and `waitUntilConditionMet`. */
module VaultDBSecrets {
  import opened Wire
  import opened Backoff
  import opened Envelope
  import opened Extraction
  import opened Classify

  /** `readDatabaseSecret(vaultToken, databasePath)`: GET `vaultUrl/v1/databasePath` with the
      token as the `token` URI variable and return the OK body as it came. */
  function ReadDatabaseSecret(s: Settings, vaultToken: string, databasePath: string,
                              script: nat -> Outcome): (c: Call<Body>)
    ensures c.request == Request(GET, ApiUrl(s.vaultUrl, databasePath), TokenUriVariable(vaultToken))
    ensures Trace(WaitPolicy(s), DatabaseSteps(script), DatabaseExhausted, 0, c.run)
    ensures c.run.result.Success? ==>
              0 < c.run.attempts && IsOk(script(c.run.attempts - 1)) && c.run.result.value == script(c.run.attempts - 1).body
    ensures (c.run.result == Failure(InvalidToken)) <==>
              (0 < c.run.attempts && script(c.run.attempts - 1) == ClientError(UNAUTHORIZED))
    ensures (c.run.result == Failure(DatabaseExhausted)) <==>
              (c.run.attempts == Budget(s.maxRetries) && AllRetry(DatabaseSteps(script), 0, c.run.attempts))
  {
    Call(Request(GET, ApiUrl(s.vaultUrl, databasePath), TokenUriVariable(vaultToken)),
         Execute(WaitPolicy(s), DatabaseSteps(script), DatabaseExhausted))
  }

  /** A readable OK body is returned unchanged after one attempt and no pause. */
  lemma DatabaseReturnsBodyAsItCame(s: Settings, vaultToken: string, databasePath: string, script: nat -> Outcome)
    requires s.maxRetries > 0 && IsOk(script(0)) && !script(0).body.Malformed?
    ensures ReadDatabaseSecret(s, vaultToken, databasePath, script).run == Run(Success(script(0).body), 1, [])
  {
    FirstAttemptSettles(WaitPolicy(s), DatabaseSteps(script), DatabaseExhausted);
  }

  /** Of the client errors only 401 is terminal: any other status, 404 included, is followed
      by the first wait and another attempt when the budget allows. */
  lemma DatabaseOnlyUnauthorizedIsTerminal(s: Settings, vaultToken: string, databasePath: string,
                                           script: nat -> Outcome)
    requires s.maxRetries > 0 && script(0).ClientError?
    ensures var r := ReadDatabaseSecret(s, vaultToken, databasePath, script).run;
            if script(0).status == UNAUTHORIZED then r == Run(Failure(InvalidToken), 1, [])
            else r.pauses != [] && r.pauses[0] == WaitLoop(s.backoffInterval, s.maxBackoffInterval)
                 && (s.maxRetries > 1 ==> r.attempts >= 2)
  {
    if script(0).status == UNAUTHORIZED {
      FirstAttemptSettles(WaitPolicy(s), DatabaseSteps(script), DatabaseExhausted);
    } else {
      assert DatabaseSteps(script)(0).Retry?;
      FirstAttemptRetried(WaitPolicy(s), DatabaseSteps(script), DatabaseExhausted);
    }
  }

  /** A response handed back with a status other than OK throws inside the `try`; the
      generic handler retries it after the first wait. */
  lemma DatabaseNonOkResponseIsRetried(s: Settings, vaultToken: string, databasePath: string,
                                       script: nat -> Outcome)
    requires s.maxRetries > 0 && script(0).Response? && script(0).status != OK
    ensures var r := ReadDatabaseSecret(s, vaultToken, databasePath, script).run;
            && r.pauses != [] && r.pauses[0] == WaitLoop(s.backoffInterval, s.maxBackoffInterval)
            && (s.maxRetries > 1 ==> r.attempts >= 2)
            && (s.maxRetries == 1 ==> r.result == Failure(DatabaseExhausted))
  {
    assert DatabaseSteps(script)(0).Retry?;
    FirstAttemptRetried(WaitPolicy(s), DatabaseSteps(script), DatabaseExhausted);
  }

  /** When every attempt fails transiently the read makes `Budget(maxRetries)` attempts,
      waits after each, and throws "Max retries exceeded for Vault database secret
      retrieval". */
  lemma DatabaseTransientExhausts(s: Settings, vaultToken: string, databasePath: string, script: nat -> Outcome)
    requires forall i: nat :: DatabaseStep(script(i)).Retry?
    ensures ReadDatabaseSecret(s, vaultToken, databasePath, script).run
            == Run(Failure(DatabaseExhausted), Budget(s.maxRetries), Pauses(WaitPolicy(s), Budget(s.maxRetries)))
  {
    assert forall i: nat :: DatabaseSteps(script)(i) == DatabaseStep(script(i));
    AllRetriedExhausts(WaitPolicy(s), DatabaseSteps(script), DatabaseExhausted);
  }
}
