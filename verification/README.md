# Vault client retry envelope — a Dafny model

This project models the clients in the `vault-consumer-integration-patterns` repository that
log in to HashiCorp Vault and read secrets from it:

- the Spring client (`client/VaultAuthenticator`, `auth/VaultAuthenticator`,
  `secrets/VaultDirectorySecrets`, `secrets/VaultStaticSecrets`, `secrets/VaultDBSecrets`);
- the Spring Boot client (`client/auth/VaultAuthenticator`);
- the Python client (`authenticate_with_vault`).

Every Java operation except `isValidToken` wraps one HTTP attempt in the same hand-copied loop. The loop works like this:

- `numRetries` starts at 0, and the loop runs while `numRetries < maxRetries`.
- An OK response returns at once.
- A 401 client error is terminal and throws at once. For the Active Directory and LDAP reads, a 404 client error is terminal too.
- Anything else increments `numRetries` and pauses for `backoffInterval * numRetries`. That covers a non-OK status thrown inside the `try`, a failed JSON extraction, and any other exception.
- When the budget runs out, the operation throws "Max retries exceeded ...".

`isValidToken` has a loop of the same shape, but it catches only `Exception`. No client error is terminal there: a 401 is retried like any other exception, and a status handed back without an exception is the answer.

The pause takes one of two forms. One is `waitUntilConditionMet(waitTime, maxWaitTime)`, which sleeps `waitTime` repeatedly until `maxWaitTime` has passed. The other is a single `Thread.sleep`, used by `isValidToken` and by the Spring Boot client.

The Python loop is different: it retries only on 429.

How the model is built:

- **Attempts** (`Wire`): the network is a script `nat -> Outcome`, indexed by attempt number. Each attempt has one of three outcomes: a response handed back, an `HttpClientErrorException` carrying a status, or any other exception.
- **The loop** (`Envelope`): `Envelope.Execute` runs the loop once for every operation. It returns the result, the number of attempts and the pauses made, in order.
  - Its partner is the declarative predicate `Envelope.Trace`. `Envelope.TraceDeterminesRun` proves the trace pins the run down completely.
- **Classification** (`Classify`): each operation supplies its classification of a single attempt.
- **Extraction** (`Extraction`): each engine has its own rule:
  - key-value takes the requested keys of `data`;
  - Active Directory takes every pair of `data`;
  - database and LDAP return the body as it came.
- **Pause durations** (`Backoff`): durations are measured on an idealised clock, where `Thread.sleep(w)` advances time by exactly `w`.
- **One module per class** (`ClientAuthenticator`, `AuthAuthenticator`, `VaultDirectorySecrets`, `VaultStaticSecrets`, `VaultDBSecrets`, `BootAuthenticator`, `PythonClient`): each models that class's operations, with the request they send and their contracts.
  - The classes carry identical copies of the same operation. Each copy is modelled where it lives.
  - The private `waitUntilConditionMet` is modelled once, in `Backoff`, because every copy has the same text.

Where the code and its own description disagree, the model follows the code:

- **Missing `data` in an Active Directory read.** A missing or `null` `data` object throws "Secret data not found" inside the `try`. The generic handler catches it and retries, so it is not a terminal "Secret not found".
- **Login result.** Login returns the fixed message "Vault authentication successful", not a token.
- **Login method.** AppRole login is a POST. TLS login is a GET.
- **Final pause.** The pause after a transient failure comes before the loop test, so the last failed attempt is also followed by a pause.
- **No cap on waiting.** Nothing limits the total time spent waiting.
  - `waitUntilConditionMet` does not cap a pause at `maxBackoffInterval`. With a positive `maxBackoffInterval` and `backoffInterval`, every pause lasts *at least* `maxBackoffInterval`, and at most one sleep longer.
  - `n` pauses therefore take at least `n * maxBackoffInterval`.
- **Failure message.** A non-OK status is never reported as an authentication failure. It is retried, and the final exception is the "Max retries exceeded" message.
- **`isValidToken` without an exception.** It answers `status == OK` on the first response that is not thrown. A non-OK status handed back without an exception therefore gives `false` with no retry. An invalid token comes back as a client error such as 401, and it is not answered with `false` as the method's own comment promises. It is retried after `Thread.sleep(backoffInterval * numRetries)`, and once the budget is spent the check throws "Max retries exceeded for checking token validity".
- **Null members in Active Directory data.** The Active Directory read wraps the body `Map` in `new JSONObject(Map)`, which skips `null` values.
  - A `null` member of `data` is left out of the result and does not make `getString` throw.
  - The key-value read parses the body text, so there a `null` value of a requested key throws.
- **Token as a URI variable.** The database, Active Directory and LDAP reads pass the token only as the URI variable `token`. The URL has no `{token}` placeholder, so the token reaches the server only if `vaultUrl` or the path contains one. The model records the credentials as passed (`TokenUriVariable`).

## Model

Paths are relative to the repository root.

| member | source | states |
|---|---|---|
| Wire.ApiUrl | spring-vault-rest-api-client/src/main/java/com/sc/hcv/secrets/VaultStaticSecrets.java:52 | the request URL is the server address, then `/v1/`, then the path, and each part can be read back from the URL |
| Wire.ApiUrlInjective | spring-vault-rest-api-client/src/main/java/com/sc/hcv/secrets/VaultDirectorySecrets.java:44-52 | on one server two API URLs are equal exactly when their paths are, so the AD read for `(adPath, adKey)` addresses `adPath + "/" + adKey` and nothing else |
| Backoff.SleepCount | spring-vault-rest-api-client/src/main/java/com/sc/hcv/secrets/VaultDirectorySecrets.java:157-162 | the wait loop sleeps the least number of times whose total reaches `maxWaitTime`: at least once when the bound is positive, never when it is not |
| Backoff.IdealWait | spring-vault-rest-api-client/src/main/java/com/sc/hcv/auth/VaultAuthenticator.java:197-202 | the wait never returns before `maxWaitTime` has elapsed and overshoots it by less than one `waitTime`; it takes no time when `maxWaitTime <= 0` |
| Backoff.WaitUntilConditionMet | spring-vault-rest-api-client/src/main/java/com/sc/hcv/client/VaultAuthenticator.java:300-305 | the loop (with its invariants) ends with elapsed time a multiple of `waitTime`, sleeps zero times exactly when `maxWaitTime <= 0`, and otherwise stops at the first multiple reaching the bound, which agrees with `SleepCount` and `IdealWait` |
| Envelope.ExecuteFrom | spring-vault-rest-api-client/src/main/java/com/sc/hcv/auth/VaultAuthenticator.java:50-81 | from any counter value the loop makes at most `maxRetries` attempts in total; every attempt before the last was transient and followed by the pause for its new counter; the run ends either by exhaustion with the "Max retries exceeded" message or with what the last attempt returned or threw |
| Envelope.Execute | spring-vault-rest-api-client/src/main/java/com/sc/hcv/client/VaultAuthenticator.java:44-75 | the whole loop satisfies the trace; attempts never exceed `maxRetries` (none when `maxRetries <= 0`); a success is the value the last attempt returned; a non-retried last attempt decides the result |
| Envelope.TraceDeterminesRun | spring-vault-rest-api-client/src/main/java/com/sc/hcv/client/VaultAuthenticator.java:44-75 | two runs that both satisfy the trace are equal, so the trace is a complete description of the loop |
| Envelope.FirstAttemptSettles | spring-vault-rest-api-client/src/main/java/com/sc/hcv/client/VaultAuthenticator.java:53-62 | an attempt that returns or throws a terminal error ends the operation after one attempt, with no pause and no retry consumed |
| Envelope.NoAttemptAfterSettling | spring-vault-rest-api-client/src/main/java/com/sc/hcv/auth/VaultAuthenticator.java:59-68 | after an attempt that is not retried no further attempt is made |
| Envelope.FirstAttemptRetried | spring-vault-rest-api-client/src/main/java/com/sc/hcv/client/VaultAuthenticator.java:59-72 | a transient first attempt is followed by the pause for `backoffInterval * 1`, then by a second attempt when the budget allows; with a budget of one the operation throws after that pause |
| Envelope.AllRetriedExhausts | spring-vault-rest-api-client/src/main/java/com/sc/hcv/client/VaultAuthenticator.java:44-75 | when every attempt is transient the operation makes exactly `maxRetries` attempts (none if `maxRetries <= 0`), pauses after each (the k-th for `backoffInterval * k`) and throws the "Max retries exceeded" message |
| Envelope.PausesCountRetries | spring-vault-rest-api-client/src/main/java/com/sc/hcv/auth/VaultAuthenticator.java:70-77 | the counter moves only on transient attempts: one pause per transient attempt, so `attempts` pauses on exhaustion and `attempts - 1` otherwise |
| Envelope.SleepTotal | spring-boot-vault-rest-api-client/src/main/java/com/sc/hcv/client/auth/VaultAuthenticator.java:43-50 | `n` single linear sleeps take `backoffInterval * n * (n + 1) / 2` in all |
| Envelope.WaitLoopUnboundedTotal | spring-vault-rest-api-client/src/main/java/com/sc/hcv/secrets/VaultDirectorySecrets.java:157-162 | with `maxBackoffInterval <= 0` the wait loop never sleeps, so any number of pauses takes no time at all, whatever the backoff interval |
| Envelope.WaitLoopTotal | spring-vault-rest-api-client/src/main/java/com/sc/hcv/secrets/VaultDirectorySecrets.java:132-143 | `n` wait-loop pauses take at least `n * maxBackoffInterval` and at most that plus `backoffInterval * n * (n + 1) / 2`: nothing caps the total |
| Extraction.DataObject | spring-vault-rest-api-client/src/main/java/com/sc/hcv/client/VaultAuthenticator.java:198-200 | `data` is found exactly when the body is a JSON object whose `data` member is an object, and it is that object |
| Extraction.SelectKeys | spring-vault-rest-api-client/src/main/java/com/sc/hcv/secrets/VaultStaticSecrets.java:58-60 | selection succeeds exactly when every requested key holds a string; the result's keys are exactly the requested ones and each value is that string |
| Extraction.KeyValueSecrets | spring-vault-rest-api-client/src/main/java/com/sc/hcv/client/VaultAuthenticator.java:100-106 | the key-value rule succeeds exactly when `data` is an object holding a string for every requested key, and then maps exactly the requested keys to `data[key]` |
| Extraction.DirectorySecrets | spring-vault-rest-api-client/src/main/java/com/sc/hcv/secrets/VaultDirectorySecrets.java:54-66 | the directory rule succeeds exactly when `data` is an object whose non-null members are strings, and then returns every non-null pair of `data`, not only requested ones |
| Extraction.VerbatimBody | spring-vault-rest-api-client/src/main/java/com/sc/hcv/secrets/VaultDBSecrets.java:50-53 | a readable body is returned unchanged; only an unreadable one fails |
| Extraction.KeyValueDependsOnKeySet | spring-vault-rest-api-client/src/main/java/com/sc/hcv/secrets/VaultStaticSecrets.java:58-60 | the key-value result depends only on the set of requested keys: order and repetition do not matter |
| Extraction.DirectoryCoversKeyValue | spring-vault-rest-api-client/src/main/java/com/sc/hcv/client/VaultAuthenticator.java:198-209 | where the directory rule succeeds, the key-value rule for keys it found succeeds too and is the directory result restricted to those keys |
| Extraction.KeyValueNeedsOnlyRequestedKeys | spring-vault-rest-api-client/src/main/java/com/sc/hcv/secrets/VaultStaticSecrets.java:55-62 | a non-string member nobody requested is ignored by the key-value rule but makes the directory rule throw |
| Extraction.NullMemberDroppedByDirectoryOnly | spring-vault-rest-api-client/src/main/java/com/sc/hcv/secrets/VaultDirectorySecrets.java:55-64 | a `null` member of `data` is left out by the directory rule, while the key-value rule throws when that key is requested |
| Extraction.SelectKeysIgnoresOtherMembers | spring-vault-rest-api-client/src/main/java/com/sc/hcv/secrets/VaultStaticSecrets.java:58-60 | `getString` is called only on the requested keys: setting any other member of `data` to any value leaves the selection unchanged |
| Extraction.KeyValueIgnoresUnrequestedMembers | spring-vault-rest-api-client/src/main/java/com/sc/hcv/secrets/VaultStaticSecrets.java:55-62 | for every body and every key list, adding or replacing a member of `data` that was not requested leaves the key-value result unchanged, success or throw |
| Extraction.WithoutNulls | spring-vault-rest-api-client/src/main/java/com/sc/hcv/secrets/VaultDirectorySecrets.java:55 | the members `new JSONObject(Map)` keeps: exactly the non-null members of `data`, with their values |
| Extraction.DirectoryIgnoresNullMembers | spring-vault-rest-api-client/src/main/java/com/sc/hcv/secrets/VaultDirectorySecrets.java:55-64 | for every `data` map the directory rule gives the same result, success or throw, as on that map with its `null` members removed |
| Classify.AuthStep | spring-vault-rest-api-client/src/main/java/com/sc/hcv/client/VaultAuthenticator.java:53-72 | login: an attempt returns exactly when the response is OK (the fixed message) and is terminal exactly on a 401 client error ("Invalid Vault credentials"); everything else is retried |
| Classify.KeyValueStep | spring-vault-rest-api-client/src/main/java/com/sc/hcv/client/VaultAuthenticator.java:100-126 | key-value: returns exactly on OK with an extractable body, is terminal exactly on a 401 client error ("Invalid Vault token") |
| Classify.DatabaseStep | spring-vault-rest-api-client/src/main/java/com/sc/hcv/client/VaultAuthenticator.java:149-169 | database: returns the body exactly on OK with a readable body; only a 401 client error is terminal |
| Classify.DirectoryStep | spring-vault-rest-api-client/src/main/java/com/sc/hcv/client/VaultAuthenticator.java:197-234 | Active Directory: returns exactly on OK with an extractable `data`; terminal exactly on 401 ("Invalid Vault token") and 404 ("Secret not found") client errors |
| Classify.LdapStep | spring-vault-rest-api-client/src/main/java/com/sc/hcv/client/VaultAuthenticator.java:259-283 | LDAP: returns the body exactly on OK with a readable body; terminal exactly on 401 and 404 client errors, with their messages |
| Classify.TokenStep | spring-vault-rest-api-client/src/main/java/com/sc/hcv/client/VaultAuthenticator.java:316-331 | token check: answers exactly when a response is handed back, with `status == OK`; nothing is terminal |
| ClientAuthenticator.Authenticate | spring-vault-rest-api-client/src/main/java/com/sc/hcv/client/VaultAuthenticator.java:43-76 | POSTs the AppRole credentials to `vaultUrl + authPath`; succeeds exactly when the last attempt is OK, throws "Invalid Vault credentials" exactly when it is a 401, and "Max retries exceeded" exactly when the whole budget was transient |
| ClientAuthenticator.AuthenticateOkReturnsAtOnce | spring-vault-rest-api-client/src/main/java/com/sc/hcv/client/VaultAuthenticator.java:53-55 | an OK first response returns "Vault authentication successful" after one attempt, no pause |
| ClientAuthenticator.AuthenticateUnauthorizedIsTerminal | spring-vault-rest-api-client/src/main/java/com/sc/hcv/client/VaultAuthenticator.java:59-62 | a 401 client error throws "Invalid Vault credentials" after exactly one attempt, whatever `maxRetries` is |
| ClientAuthenticator.AuthenticateTransientExhausts | spring-vault-rest-api-client/src/main/java/com/sc/hcv/client/VaultAuthenticator.java:44-75 | all-transient outcomes give exactly `maxRetries` attempts, the k-th followed by `waitUntilConditionMet(backoffInterval * k, maxBackoffInterval)`, then "Max retries exceeded" |
| ClientAuthenticator.ReadKVSecrets | spring-vault-rest-api-client/src/main/java/com/sc/hcv/client/VaultAuthenticator.java:89-130 | GETs `vaultUrl/v1/secretPath` with a bearer token; a success is the key-value extraction of the last OK body, with exactly the requested keys; 401 and exhaustion throw their messages, each exactly in its case |
| ClientAuthenticator.ReadKVMissingKeyIsRetried | spring-vault-rest-api-client/src/main/java/com/sc/hcv/client/VaultAuthenticator.java:100-126 | an OK body without `data` or without a requested key is retried after the first wait, not reported |
| ClientAuthenticator.ReadDatabaseSecret | spring-vault-rest-api-client/src/main/java/com/sc/hcv/client/VaultAuthenticator.java:140-174 | GETs `vaultUrl/v1/databasePath`; a success is the last OK body unchanged; only 401 is terminal; exhaustion throws exactly when the whole budget was transient |
| ClientAuthenticator.ReadActiveDirectorySecret | spring-vault-rest-api-client/src/main/java/com/sc/hcv/client/VaultAuthenticator.java:186-239 | GETs `vaultUrl/v1/adPath/adKey`; a success holds exactly the non-null members of `data`; "Invalid Vault token" exactly on a final 401, "Secret not found" exactly on a final 404 |
| ClientAuthenticator.ReadLdapSecret | spring-vault-rest-api-client/src/main/java/com/sc/hcv/client/VaultAuthenticator.java:250-287 | GETs `vaultUrl/v1/ldapPath`; a success is the last OK body unchanged; 401 and 404 throw their messages exactly in their cases |
| ClientAuthenticator.NotFoundTerminalForLdapOnly | spring-vault-rest-api-client/src/main/java/com/sc/hcv/client/VaultAuthenticator.java:149-279 | a 404 client error ends the LDAP read at once with "Secret not found" but is retried by the database read |
| ClientAuthenticator.IsValidToken | spring-vault-rest-api-client/src/main/java/com/sc/hcv/client/VaultAuthenticator.java:316-334 | GETs `vaultUrl/v1/auth/token/lookup-self` with a bearer token; answers exactly when a response is handed back, `true` exactly on OK; otherwise throws "Max retries exceeded" after the whole budget, with single sleeps |
| ClientAuthenticator.IsValidTokenNonOkIsFalse | spring-vault-rest-api-client/src/main/java/com/sc/hcv/client/VaultAuthenticator.java:327 | a non-OK response that is not thrown answers `false` at once, without a retry |
| ClientAuthenticator.IsValidTokenRetriesUnauthorized | spring-vault-rest-api-client/src/main/java/com/sc/hcv/client/VaultAuthenticator.java:328-331 | a 401 client error is retried after `Thread.sleep(backoffInterval)` |
| AuthAuthenticator.AuthenticateAppRole | spring-vault-rest-api-client/src/main/java/com/sc/hcv/auth/VaultAuthenticator.java:49-82 | POSTs to `vaultUrl + authPath` with the path as an argument; success, "Invalid Vault credentials" and exhaustion each exactly in their case |
| AuthAuthenticator.AppRoleFirstAttemptDecides | spring-vault-rest-api-client/src/main/java/com/sc/hcv/auth/VaultAuthenticator.java:59-68 | OK returns the fixed message and a 401 client error throws, each after one attempt and no pause |
| AuthAuthenticator.AppRoleTransientExhausts | spring-vault-rest-api-client/src/main/java/com/sc/hcv/auth/VaultAuthenticator.java:50-81 | all-transient outcomes give exactly `maxRetries` attempts and waits, then "Max retries exceeded" |
| AuthAuthenticator.AuthenticateTLS | spring-vault-rest-api-client/src/main/java/com/sc/hcv/auth/VaultAuthenticator.java:96-129 | GETs `vaultUrl + authPath` with the client certificate material, classified as the AppRole login |
| AuthAuthenticator.TlsClientFailureIsRetried | spring-vault-rest-api-client/src/main/java/com/sc/hcv/auth/VaultAuthenticator.java:100-125 | a failure building the TLS client inside the `try` is retried after the first wait |
| AuthAuthenticator.IsValidToken | spring-vault-rest-api-client/src/main/java/com/sc/hcv/auth/VaultAuthenticator.java:168-186 | the public token check: answers `status == OK` on the first response handed back; throws only after the whole budget threw |
| AuthAuthenticator.IsValidTokenThrowsWhenAllThrow | spring-vault-rest-api-client/src/main/java/com/sc/hcv/auth/VaultAuthenticator.java:180-185 | when every lookup throws, 401s included, the check throws after `maxRetries` attempts, never answers `false`, and sleeps `backoffInterval * n * (n + 1) / 2` in all |
| VaultDirectorySecrets.ReadActiveDirectorySecret | spring-vault-rest-api-client/src/main/java/com/sc/hcv/secrets/VaultDirectorySecrets.java:43-96 | GETs `vaultUrl/v1/adPath/adKey`; a success holds exactly the non-null members of `data`; 401 and 404 throw their messages exactly in their cases; exhaustion exactly when the whole budget was transient |
| VaultDirectorySecrets.ActiveDirectoryReturnsEveryPair | spring-vault-rest-api-client/src/main/java/com/sc/hcv/secrets/VaultDirectorySecrets.java:54-66 | an OK `data` of strings returns all of its pairs after one attempt |
| VaultDirectorySecrets.ActiveDirectoryMissingDataIsRetried | spring-vault-rest-api-client/src/main/java/com/sc/hcv/secrets/VaultDirectorySecrets.java:67-91 | a missing or `null` `data` is caught by the generic handler and retried after the first wait |
| VaultDirectorySecrets.ActiveDirectoryNullDataExhaustsBudgetOfOne | spring-vault-rest-api-client/src/main/java/com/sc/hcv/secrets/VaultDirectorySecrets.java:88-95 | `{"data": null}` with a budget of one ends in "Max retries exceeded for secret retrieval" after one wait, not in "Secret not found" |
| VaultDirectorySecrets.ActiveDirectoryClientErrorsTerminal | spring-vault-rest-api-client/src/main/java/com/sc/hcv/secrets/VaultDirectorySecrets.java:77-82 | 401 and 404 client errors throw their messages after one attempt, no pause |
| VaultDirectorySecrets.ReadLdapSecret | spring-vault-rest-api-client/src/main/java/com/sc/hcv/secrets/VaultDirectorySecrets.java:107-144 | GETs `vaultUrl/v1/ldapPath`; a success is the last OK body unchanged; 401, 404 and exhaustion each exactly in their case |
| VaultDirectorySecrets.LdapReturnsBodyAsItCame | spring-vault-rest-api-client/src/main/java/com/sc/hcv/secrets/VaultDirectorySecrets.java:116-120 | a readable OK body is returned unchanged after one attempt, whatever its shape |
| VaultDirectorySecrets.LdapTransientExhausts | spring-vault-rest-api-client/src/main/java/com/sc/hcv/secrets/VaultDirectorySecrets.java:132-143 | all-transient outcomes give `maxRetries` attempts and waits, then the LDAP "Max retries exceeded" message; the waits take between `n * maxBackoffInterval` and that plus `backoffInterval * n * (n + 1) / 2` |
| VaultStaticSecrets.ReadKVSecrets | spring-vault-rest-api-client/src/main/java/com/sc/hcv/secrets/VaultStaticSecrets.java:43-84 | GETs `vaultUrl/v1/secretPath` with a bearer token; a success maps exactly the requested keys to their `data` strings; 401 and exhaustion each exactly in their case |
| VaultStaticSecrets.ReadKVReturnsRequestedKeysOnly | spring-vault-rest-api-client/src/main/java/com/sc/hcv/secrets/VaultStaticSecrets.java:55-62 | asking for `user` and `pass` of `{"data": {"user": "u1", "pass": "p1", "extra": "x"}}` returns exactly those two pairs |
| VaultStaticSecrets.ReadKVUnauthorizedIsTerminal | spring-vault-rest-api-client/src/main/java/com/sc/hcv/secrets/VaultStaticSecrets.java:68-70 | a 401 client error throws "Invalid Vault token" after one attempt |
| VaultStaticSecrets.ReadKVMissingKeyIsRetried | spring-vault-rest-api-client/src/main/java/com/sc/hcv/secrets/VaultStaticSecrets.java:59-79 | a requested key missing from `data` is retried after the first wait; with a budget of one it ends in "Max retries exceeded" |
| VaultStaticSecrets.ReadKVTransientExhausts | spring-vault-rest-api-client/src/main/java/com/sc/hcv/secrets/VaultStaticSecrets.java:71-83 | the k-th transient failure, the last included, waits with `backoffInterval * k`; after `maxRetries` of them the read throws |
| VaultDBSecrets.ReadDatabaseSecret | spring-vault-rest-api-client/src/main/java/com/sc/hcv/secrets/VaultDBSecrets.java:41-75 | GETs `vaultUrl/v1/databasePath`; a success is the last OK body unchanged; only 401 is terminal; exhaustion exactly when the whole budget was transient |
| VaultDBSecrets.DatabaseReturnsBodyAsItCame | spring-vault-rest-api-client/src/main/java/com/sc/hcv/secrets/VaultDBSecrets.java:50-53 | a readable OK body is returned unchanged after one attempt |
| VaultDBSecrets.DatabaseOnlyUnauthorizedIsTerminal | spring-vault-rest-api-client/src/main/java/com/sc/hcv/secrets/VaultDBSecrets.java:59-66 | a 401 client error throws at once; any other client error, 404 included, is retried after the first wait |
| VaultDBSecrets.DatabaseNonOkResponseIsRetried | spring-vault-rest-api-client/src/main/java/com/sc/hcv/secrets/VaultDBSecrets.java:54-70 | a non-OK status handed back throws inside the `try` and is retried by the generic handler |
| VaultDBSecrets.DatabaseTransientExhausts | spring-vault-rest-api-client/src/main/java/com/sc/hcv/secrets/VaultDBSecrets.java:42-74 | all-transient outcomes give exactly `maxRetries` attempts, then "Max retries exceeded for Vault database secret retrieval" |
| BootAuthenticator.Authenticate | spring-boot-vault-rest-api-client/src/main/java/com/sc/hcv/client/auth/VaultAuthenticator.java:25-53 | always POSTs to `vaultUrl/v1/auth/approle/login`; success, "Invalid Vault credentials" and exhaustion each exactly in their case, with single sleeps |
| BootAuthenticator.BootFirstAttemptDecides | spring-boot-vault-rest-api-client/src/main/java/com/sc/hcv/client/auth/VaultAuthenticator.java:35-42 | OK returns the fixed message and a 401 client error throws, each after one attempt and no sleep |
| BootAuthenticator.BootTransientExhausts | spring-boot-vault-rest-api-client/src/main/java/com/sc/hcv/client/auth/VaultAuthenticator.java:26-52 | all-transient outcomes give `maxRetries` attempts, the k-th followed by one `Thread.sleep(backoffInterval * k)`, `backoffInterval * n * (n + 1) / 2` in all, then "Max retries exceeded" |
| PythonClient.ClientToken | vault-python-rest-api-pattern/vault-auth-secrets.py:36-37 | the token is found exactly when the body is an object whose `auth` member is an object with a `client_token` member, and it is that member |
| PythonClient.Delay | vault-python-rest-api-pattern/vault-auth-secrets.py:42 | an absent `Retry-After` gives 1, an integer header gives its value, anything else raises |
| PythonClient.Iterate | vault-python-rest-api-pattern/vault-auth-secrets.py:31-51 | an iteration returns exactly on 200 with a token, sleeps exactly on 429 with a non-negative delay, and breaks on everything else |
| PythonClient.LoopFrom | vault-python-rest-api-pattern/vault-auth-secrets.py:30-53 | the loop satisfies its trace: every iteration but the last slept, and the loop ends either out of iterations with `None` or with what its last iteration answered |
| PythonClient.Authenticate | vault-python-rest-api-pattern/vault-auth-secrets.py:18-53 | POSTs the credentials to `AUTH_PATH`; sends at most `MAX_RETRIES` requests, none without an `http://` or `https://` address; a token comes only from a final 200; every sleep is non-negative |
| PythonClient.PyTraceDeterminesRun | vault-python-rest-api-pattern/vault-auth-secrets.py:30-53 | two runs satisfying the loop's trace are equal |
| PythonClient.RateLimitedUntilExhausted | vault-python-rest-api-pattern/vault-auth-secrets.py:30-53 | all-429 responses with usable delays give `None` after exactly `MAX_RETRIES` requests, each followed by its `Retry-After` sleep |
| PythonClient.TokenOnFirstOk | vault-python-rest-api-pattern/vault-auth-secrets.py:35-38 | a first 200 carrying `auth.client_token` returns it after one request, no sleep |
| PythonClient.FirstBreakStops | vault-python-rest-api-pattern/vault-auth-secrets.py:35-53 | a first status other than 200 and 429, an unusable `Retry-After`, a 200 without the token, or an exception returns `None` after one request |
| PythonClient.AbsentRetryAfterSleepsOneSecond | vault-python-rest-api-pattern/vault-auth-secrets.py:40-43 | a 429 without `Retry-After` sleeps one second before the next request, or before giving up when `MAX_RETRIES` is 1 |

## Left out

- HTTP transport (RestTemplate, Apache `HttpClients`, `http.client`) is the attempt script. The script also decides how `http.client` behaves when a request follows an unread 429 response.
- JSON parsing is left out. Bodies are already-parsed values.
  - Numbers, booleans and arrays are one `Scalar` value, since no operation reads them.
  - A body whose top level is not an object counts as unreadable.
- `getHttpClient` (key store and trust store loading, SSL context) is left out. Only its failure matters, and that is one more exception inside the `try`.
- Real time is left out: `System.currentTimeMillis`, `Thread.sleep`, `time.sleep` and `InterruptedException`. Pauses are recorded values, measured on an idealised clock.
- Logging and the Python `print` calls are left out.
- Configuration loading is left out: both `VaultMain` classes and the Python `config` module. Their values are parameters.
- `read_kv_secret_from_vault` in the Python file is left out. It only prints and returns nothing.
- `VaultAuthenticatorTest` is left out. It expects a token from the AppRole login, which returns a fixed message.
- 64-bit `long` overflow of `backoffInterval * numRetries` is not modelled.
- A negative `backoffInterval` is excluded by typing it `nat`. With a negative value `Thread.sleep` throws outside any handler, or inside `waitUntilConditionMet` when the bound is positive.
- Backoff.WaitUntilConditionMet: requires a positive `waitTime` or a non-positive `maxWaitTime`. With a zero wait time and a positive bound, the real loop ends only because the wall clock moves on its own, and an idealised clock cannot express that.
- Backoff.IdealWait: requires a positive `waitTime` or a non-positive `maxWaitTime`, for the same reason.
- Backoff.SleepCount: requires a positive `waitTime` or a non-positive `maxWaitTime`, for the same reason.
- PythonClient.Authenticate: the request records only the method, `AUTH_PATH` and the credentials. The connection is left out: it goes to `urlparse(VAULT_ADDR).netloc`, over plain HTTP or over HTTPS with `ssl.create_default_context()`. Because only the network location is kept, any path prefix in `VAULT_ADDR` is dropped, while the Java clients concatenate `vaultUrl` with the path. The model records only whether the address has an `http://` or `https://` scheme.
- PythonClient.Authenticate: a JSON `null` token is returned as `Some(Null)`. Python returns `None` for it, which its caller cannot tell from failure.
