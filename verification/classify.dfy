/** How each Java operation classifies the outcome of one attempt, and the messages of the
    exceptions it throws. The classification is the same in every class that carries a copy
    of the operation. */
module Classify {
  import opened Wire
  import opened Envelope
  import opened Extraction

  /** The settings every Java client class is constructed with. */
  datatype Settings = Settings(vaultUrl: string, maxRetries: int, backoffInterval: nat, maxBackoffInterval: int)

  /** Pauses through `waitUntilConditionMet(backoffInterval * numRetries, maxBackoffInterval)`. */
  function WaitPolicy(s: Settings): (p: Policy)
    ensures p.maxRetries == s.maxRetries && p.backoffInterval == s.backoffInterval
    ensures p.shape == UntilElapsed(s.maxBackoffInterval)
  {
    Policy(s.maxRetries, s.backoffInterval, UntilElapsed(s.maxBackoffInterval))
  }

  /** Pauses through a single `Thread.sleep(backoffInterval * numRetries)`. */
  function SleepPolicy(s: Settings): (p: Policy)
    ensures p.maxRetries == s.maxRetries && p.backoffInterval == s.backoffInterval
    ensures p.shape == SingleSleep
  {
    Policy(s.maxRetries, s.backoffInterval, SingleSleep)
  }

  /** One call of an operation: the request it sends on every attempt, and its run. */
  datatype Call<T> = Call(request: Request, run: Run<T>)

  const AuthSucceeded := "Vault authentication successful"
  const InvalidCredentials := "Invalid Vault credentials"
  const InvalidToken := "Invalid Vault token"
  const SecretNotFound := "Secret not found"

  const AuthExhausted := "Max retries exceeded for Vault authentication"
  const KeyValueExhausted := "Max retries exceeded for reading secrets from Key-Value"
  const DatabaseExhausted := "Max retries exceeded for Vault database secret retrieval"
  const DirectoryExhausted := "Max retries exceeded for secret retrieval"
  const LdapExhausted := "Max retries exceeded for Vault LDAP secret retrieval"
  const TokenExhausted := "Max retries exceeded for checking token validity"

  /** The attempt got an OK response. */
  predicate IsOk(o: Outcome)
  {
    o.Response? && o.status == OK
  }

  /** Login (AppRole or TLS): OK returns the fixed message, a 401 client error throws
      "Invalid Vault credentials", and everything else (another status, which is thrown
      inside the `try`, another client error, any other exception) is retried. */
  function AuthStep(o: Outcome): (s: Step<string>)
    ensures s.Done? <==> IsOk(o)
    ensures s.Abort? <==> o == ClientError(UNAUTHORIZED)
    ensures s.Done? ==> s.value == AuthSucceeded
    ensures s.Abort? ==> s.message == InvalidCredentials
  {
    match o
    case Response(status, _) => if status == OK then Done(AuthSucceeded) else Retry
    case ClientError(status) => if status == UNAUTHORIZED then Abort(InvalidCredentials) else Retry
    case OtherException => Retry
  }

  /** Key-value read: OK returns the requested keys; an OK body the rule cannot extract from
      throws inside the `try` and is retried; only a 401 client error is terminal. */
  function KeyValueStep(keys: seq<string>, o: Outcome): (s: Step<map<string, string>>)
    ensures s.Done? <==> IsOk(o) && KeyValueSecrets(o.body, keys).Some?
    ensures s.Done? ==> s.value == KeyValueSecrets(o.body, keys).value
    ensures s.Abort? <==> o == ClientError(UNAUTHORIZED)
    ensures s.Abort? ==> s.message == InvalidToken
  {
    match o
    case Response(status, body) =>
      if status == OK then
        match KeyValueSecrets(body, keys)
        case Some(secrets) => Done(secrets)
        case None => Retry
      else Retry
    case ClientError(status) => if status == UNAUTHORIZED then Abort(InvalidToken) else Retry
    case OtherException => Retry
  }

  /** Database read: OK returns the body as it came; only a 401 client error is terminal, so
      a 404 is retried. */
  function DatabaseStep(o: Outcome): (s: Step<Body>)
    ensures s.Done? <==> IsOk(o) && !o.body.Malformed?
    ensures s.Done? ==> s.value == o.body
    ensures s.Abort? <==> o == ClientError(UNAUTHORIZED)
    ensures s.Abort? ==> s.message == InvalidToken
  {
    match o
    case Response(status, body) =>
      if status == OK then
        match VerbatimBody(body)
        case Some(raw) => Done(raw)
        case None => Retry
      else Retry
    case ClientError(status) => if status == UNAUTHORIZED then Abort(InvalidToken) else Retry
    case OtherException => Retry
  }

  /** Active Directory read: OK returns every pair under `"data"`; a missing or `null`
      `"data"` is thrown inside the `try` and retried; 401 and 404 client errors are
      terminal. */
  function DirectoryStep(o: Outcome): (s: Step<map<string, string>>)
    ensures s.Done? <==> IsOk(o) && DirectorySecrets(o.body).Some?
    ensures s.Done? ==> s.value == DirectorySecrets(o.body).value
    ensures s.Abort? <==> o == ClientError(UNAUTHORIZED) || o == ClientError(NOT_FOUND)
    ensures s.Abort? ==> s.message == (if o.status == UNAUTHORIZED then InvalidToken else SecretNotFound)
  {
    match o
    case Response(status, body) =>
      if status == OK then
        match DirectorySecrets(body)
        case Some(secrets) => Done(secrets)
        case None => Retry
      else Retry
    case ClientError(status) =>
      if status == UNAUTHORIZED then Abort(InvalidToken)
      else if status == NOT_FOUND then Abort(SecretNotFound)
      else Retry
    case OtherException => Retry
  }

  /** LDAP read: OK returns the body as it came; 401 and 404 client errors are terminal. */
  function LdapStep(o: Outcome): (s: Step<Body>)
    ensures s.Done? <==> IsOk(o) && !o.body.Malformed?
    ensures s.Done? ==> s.value == o.body
    ensures s.Abort? <==> o == ClientError(UNAUTHORIZED) || o == ClientError(NOT_FOUND)
    ensures s.Abort? ==> s.message == (if o.status == UNAUTHORIZED then InvalidToken else SecretNotFound)
  {
    match o
    case Response(status, body) =>
      if status == OK then
        match VerbatimBody(body)
        case Some(raw) => Done(raw)
        case None => Retry
      else Retry
    case ClientError(status) =>
      if status == UNAUTHORIZED then Abort(InvalidToken)
      else if status == NOT_FOUND then Abort(SecretNotFound)
      else Retry
    case OtherException => Retry
  }

  /** Token self-lookup: the first response that is not thrown decides, OK or not; every
      exception, a 401 included, is retried. Nothing is terminal. */
  function TokenStep(o: Outcome): (s: Step<bool>)
    ensures s.Done? <==> o.Response?
    ensures s.Done? ==> (s.value <==> o.status == OK)
    ensures !s.Abort?
  {
    match o
    case Response(status, _) => Done(status == OK)
    case _ => Retry
  }

  /** The scripted attempts of each operation, classified. */
  function AuthSteps(script: nat -> Outcome): nat -> Step<string>
  {
    (i: nat) => AuthStep(script(i))
  }

  function KeyValueSteps(keys: seq<string>, script: nat -> Outcome): nat -> Step<map<string, string>>
  {
    (i: nat) => KeyValueStep(keys, script(i))
  }

  function DatabaseSteps(script: nat -> Outcome): nat -> Step<Body>
  {
    (i: nat) => DatabaseStep(script(i))
  }

  function DirectorySteps(script: nat -> Outcome): nat -> Step<map<string, string>>
  {
    (i: nat) => DirectoryStep(script(i))
  }

  function LdapSteps(script: nat -> Outcome): nat -> Step<Body>
  {
    (i: nat) => LdapStep(script(i))
  }

  function TokenSteps(script: nat -> Outcome): nat -> Step<bool>
  {
    (i: nat) => TokenStep(script(i))
  }
}
