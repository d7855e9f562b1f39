/** The class `com.sc.hcv.secrets.VaultStaticSecrets`: the key-value secret read with its own
    copy of the retry envelope and `waitUntilConditionMet`. */
module VaultStaticSecrets {
  import opened Wire
  import opened Backoff
  import opened Envelope
  import opened Extraction
  import opened Classify

  /** `readKVSecrets(vaultToken, secretPath, secretKeys...)`: GET `vaultUrl/v1/secretPath`
      with the token as a bearer header, and return the requested keys of `"data"`. */
  function ReadKVSecrets(s: Settings, vaultToken: string, secretPath: string, secretKeys: seq<string>,
                         script: nat -> Outcome): (c: Call<map<string, string>>)
    ensures c.request == Request(GET, ApiUrl(s.vaultUrl, secretPath), BearerToken(vaultToken))
    ensures Trace(WaitPolicy(s), KeyValueSteps(secretKeys, script), KeyValueExhausted, 0, c.run)
    ensures c.run.result.Success? ==>
              && 0 < c.run.attempts
              && IsOk(script(c.run.attempts - 1))
              && KeyValueSecrets(script(c.run.attempts - 1).body, secretKeys) == Some(c.run.result.value)
              && c.run.result.value.Keys == KeySet(secretKeys)
    ensures (c.run.result == Failure(InvalidToken)) <==>
              (0 < c.run.attempts && script(c.run.attempts - 1) == ClientError(UNAUTHORIZED))
    ensures (c.run.result == Failure(KeyValueExhausted)) <==>
              (c.run.attempts == Budget(s.maxRetries) && AllRetry(KeyValueSteps(secretKeys, script), 0, c.run.attempts))
  {
    Call(Request(GET, ApiUrl(s.vaultUrl, secretPath), BearerToken(vaultToken)),
         Execute(WaitPolicy(s), KeyValueSteps(secretKeys, script), KeyValueExhausted))
  }

  /** Asking for `user` and `pass` of `{"data": {"user": "u1", "pass": "p1", "extra": "x"}}`
      returns exactly those two pairs after one attempt: unrequested keys are dropped. */
  lemma ReadKVReturnsRequestedKeysOnly(s: Settings, vaultToken: string, secretPath: string, script: nat -> Outcome)
    requires s.maxRetries > 0
    requires script(0) == Response(OK, Json(map["data" := Obj(map["user" := Str("u1"), "pass" := Str("p1"), "extra" := Str("x")])]))
    ensures ReadKVSecrets(s, vaultToken, secretPath, ["user", "pass"], script).run
            == Run(Success(map["user" := "u1", "pass" := "p1"]), 1, [])
  {
    var keys := ["user", "pass"];
    var d := map["user" := Str("u1"), "pass" := Str("p1"), "extra" := Str("x")];
    assert HasString(d, keys[0]) && HasString(d, keys[1]);
    assert KeySet(keys) == {"user", "pass"};
    FirstAttemptSettles(WaitPolicy(s), KeyValueSteps(keys, script), KeyValueExhausted);
    var r := ReadKVSecrets(s, vaultToken, secretPath, keys, script).run;
    assert r.result.value == map["user" := "u1", "pass" := "p1"];
  }

  /** A 401 client error throws "Invalid Vault token" after one attempt and no pause. */
  lemma ReadKVUnauthorizedIsTerminal(s: Settings, vaultToken: string, secretPath: string, secretKeys: seq<string>,
                                     script: nat -> Outcome)
    requires s.maxRetries > 0 && script(0) == ClientError(UNAUTHORIZED)
    ensures ReadKVSecrets(s, vaultToken, secretPath, secretKeys, script).run == Run(Failure(InvalidToken), 1, [])
  {
    FirstAttemptSettles(WaitPolicy(s), KeyValueSteps(secretKeys, script), KeyValueExhausted);
  }

  /** A requested key that is missing from `"data"` makes `getString` throw; the generic
      handler retries the attempt after the first wait. */
  lemma ReadKVMissingKeyIsRetried(s: Settings, vaultToken: string, secretPath: string, secretKeys: seq<string>,
                                  script: nat -> Outcome, i: nat)
    requires s.maxRetries > 0 && IsOk(script(0)) && DataObject(script(0).body).Some?
    requires i < |secretKeys| && secretKeys[i] !in DataObject(script(0).body).value
    ensures var r := ReadKVSecrets(s, vaultToken, secretPath, secretKeys, script).run;
            && r.pauses[0] == WaitLoop(s.backoffInterval, s.maxBackoffInterval)
            && (s.maxRetries > 1 ==> r.attempts >= 2)
            && (s.maxRetries == 1 ==> r.result == Failure(KeyValueExhausted))
  {
    assert KeyValueSteps(secretKeys, script)(0).Retry?;
    FirstAttemptRetried(WaitPolicy(s), KeyValueSteps(secretKeys, script), KeyValueExhausted);
  }

  /** When every attempt fails transiently, the k-th failure is followed by
      `waitUntilConditionMet(backoffInterval * k, maxBackoffInterval)`, and after
      `Budget(maxRetries)` attempts the read throws "Max retries exceeded". */
  lemma ReadKVTransientExhausts(s: Settings, vaultToken: string, secretPath: string, secretKeys: seq<string>,
                                script: nat -> Outcome)
    requires forall i: nat :: KeyValueStep(secretKeys, script(i)).Retry?
    ensures var r := ReadKVSecrets(s, vaultToken, secretPath, secretKeys, script).run;
            && r.result == Failure(KeyValueExhausted)
            && r.attempts == Budget(s.maxRetries)
            && |r.pauses| == r.attempts
            && forall k :: 1 <= k <= r.attempts ==> r.pauses[k - 1] == WaitLoop(s.backoffInterval * k, s.maxBackoffInterval)
  {
    var p := WaitPolicy(s);
    assert forall i: nat :: KeyValueSteps(secretKeys, script)(i) == KeyValueStep(secretKeys, script(i));
    AllRetriedExhausts(p, KeyValueSteps(secretKeys, script), KeyValueExhausted);
    var r := ReadKVSecrets(s, vaultToken, secretPath, secretKeys, script).run;
    forall k | 1 <= k <= r.attempts
      ensures r.pauses[k - 1] == WaitLoop(s.backoffInterval * k, s.maxBackoffInterval)
    {
      assert r.pauses[k - 1] == PauseFor(p, k);
    }
  }
}
