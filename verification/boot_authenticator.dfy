/** The Spring Boot client's `com.sc.hcv.client.auth.VaultAuthenticator`: AppRole login at
    the fixed path `/v1/auth/approle/login`, pausing with a single
    `Thread.sleep(backoffInterval * numRetries)` and with no wait bound. */
module BootAuthenticator {
  import opened Wire
  import opened Backoff
  import opened Envelope
  import opened Classify

  /** The constructor's arguments. */
  datatype Authenticator = Authenticator(vaultUrl: string, maxRetries: int, backoffInterval: nat)

  /** The single-sleep policy of the Spring Boot constructor's arguments. This client has no
      `maxBackoffInterval`; a single sleep never reads it, so it is set to 0. */
  function BootPolicy(a: Authenticator): Policy
  {
    SleepPolicy(Settings(a.vaultUrl, a.maxRetries, a.backoffInterval, 0))
  }

  /** `authenticate(roleId, secretId)`: POST the credentials to
      `vaultUrl/v1/auth/approle/login`; OK returns the fixed message, a 401 client error
      throws "Invalid Vault credentials", everything else is retried. */
  function Authenticate(a: Authenticator, roleId: string, secretId: string, script: nat -> Outcome): (c: Call<string>)
    ensures c.request == Request(POST, ApiUrl(a.vaultUrl, "auth/approle/login"), AppRoleLogin(roleId, secretId))
    ensures Trace(BootPolicy(a), AuthSteps(script), AuthExhausted, 0, c.run)
    ensures c.run.result.Success? <==> 0 < c.run.attempts && IsOk(script(c.run.attempts - 1))
    ensures c.run.result.Success? ==> c.run.result.value == AuthSucceeded
    ensures (c.run.result == Failure(InvalidCredentials)) <==>
              (0 < c.run.attempts && script(c.run.attempts - 1) == ClientError(UNAUTHORIZED))
    ensures (c.run.result == Failure(AuthExhausted)) <==>
              (c.run.attempts == Budget(a.maxRetries) && AllRetry(AuthSteps(script), 0, c.run.attempts))
  {
    Call(Request(POST, ApiUrl(a.vaultUrl, "auth/approle/login"), AppRoleLogin(roleId, secretId)),
         Execute(BootPolicy(a), AuthSteps(script), AuthExhausted))
  }

  /** OK on the first attempt returns at once; a 401 client error throws at once. */
  lemma BootFirstAttemptDecides(a: Authenticator, roleId: string, secretId: string, script: nat -> Outcome)
    requires a.maxRetries > 0
    requires IsOk(script(0)) || script(0) == ClientError(UNAUTHORIZED)
    ensures Authenticate(a, roleId, secretId, script).run
            == Run(if IsOk(script(0)) then Success(AuthSucceeded) else Failure(InvalidCredentials), 1, [])
  {
    FirstAttemptSettles(BootPolicy(a), AuthSteps(script), AuthExhausted);
  }

  /** When every attempt fails transiently the login sleeps `backoffInterval * k` after the
      k-th of its `Budget(maxRetries)` attempts, `backoffInterval * n * (n + 1) / 2` in all,
      and throws "Max retries exceeded for Vault authentication". */
  lemma BootTransientExhausts(a: Authenticator, roleId: string, secretId: string, script: nat -> Outcome)
    requires forall i: nat :: AuthStep(script(i)).Retry?
    ensures var r := Authenticate(a, roleId, secretId, script).run;
            && r.result == Failure(AuthExhausted)
            && r.attempts == Budget(a.maxRetries)
            && |r.pauses| == r.attempts
            && (forall k :: 1 <= k <= r.attempts ==> r.pauses[k - 1] == Sleep(a.backoffInterval * k))
            && AllEnd(r.pauses)
            && 2 * TotalDuration(r.pauses) == a.backoffInterval * r.attempts * (r.attempts + 1)
  {
    var p := BootPolicy(a);
    var n := Budget(a.maxRetries);
    assert forall i: nat :: AuthSteps(script)(i) == AuthStep(script(i));
    AllRetriedExhausts(p, AuthSteps(script), AuthExhausted);
    SleepTotal(p, n);
    var ps := Pauses(p, n);
    assert Authenticate(a, roleId, secretId, script).run == Run(Failure(AuthExhausted), n, ps);
    forall k | 1 <= k <= n
      ensures ps[k - 1] == Sleep(a.backoffInterval * k)
    {
      assert ps[k - 1] == PauseFor(p, k);
    }
  }
}
