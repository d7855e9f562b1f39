/** The Python client's `authenticate_with_vault`: AppRole login over `http.client`, read from
    the configuration constants. Unlike the Java clients it retries only on 429 (sleeping the
    `Retry-After` seconds), stops on any other status or any exception, and answers the
    token or `None` instead of throwing. */
module PythonClient {
  import opened Wire
  import opened Envelope

  /** The configuration constants the function reads. */
  datatype Config = Config(vaultAddr: string, authPath: string, maxRetries: int, roleId: string, secretId: string)

  /** The `Retry-After` header as `int(...)` sees it: absent (the default `1` is used), a
      string `int` accepts, or one it rejects with `ValueError`. */
  datatype RetryAfter = Absent | Seconds(n: int) | NotAnInteger

  /** What one `conn.request` plus `conn.getresponse()` produced. */
  datatype PyOutcome = HttpResponse(status: int, retryAfter: RetryAfter, body: Body) | RaisedException

  /** How one loop iteration ends: `return token`, a `time.sleep` and the next iteration, or
      `break` (the printed failure and the caught exception alike). */
  datatype Iteration = Returned(token: Value) | Slept(seconds: int) | Broke

  /** The login's result, the number of iterations that sent a request, and the seconds slept
      between them. */
  datatype PyRun = PyRun(token: Option<Value>, requests: nat, sleeps: seq<int>)

  /** One call: the request each iteration sends, and the run. */
  datatype Login = Login(request: Request, run: PyRun)

  /** `VAULT_ADDR` starts with a scheme the function knows how to connect with. */
  predicate HasScheme(addr: string)
  {
    "http://" <= addr || "https://" <= addr
  }

  /** `data["auth"]["client_token"]` of the decoded body, or `None` where decoding or either
      subscript raises. */
  function ClientToken(b: Body): (t: Option<Value>)
    ensures t.Some? <==> b.Json? && "auth" in b.fields && b.fields["auth"].Obj? && "client_token" in b.fields["auth"].fields
    ensures t.Some? ==> t.value == b.fields["auth"].fields["client_token"]
  {
    match b
    case Json(fields) =>
      if "auth" in fields && fields["auth"].Obj? && "client_token" in fields["auth"].fields
      then Some(fields["auth"].fields["client_token"])
      else None
    case _ => None
  }

  /** `int(response.getheader("Retry-After", 1))`, or `None` where `int` raises. */
  function Delay(ra: RetryAfter): (d: Option<int>)
    ensures ra.Absent? ==> d == Some(1)
    ensures ra.Seconds? ==> d == Some(ra.n)
    ensures ra.NotAnInteger? <==> d.None?
  {
    match ra
    case Absent => Some(1)
    case Seconds(n) => Some(n)
    case NotAnInteger => None
  }

  /** One iteration of the loop: 200 returns the client token, 429 sleeps the delay (a
      rejected header or a negative delay raises and breaks), anything else breaks. */
  function Iterate(o: PyOutcome): (it: Iteration)
    ensures it.Returned? <==> o.HttpResponse? && o.status == 200 && ClientToken(o.body).Some?
    ensures it.Returned? ==> it.token == ClientToken(o.body).value
    ensures it.Slept? <==> o.HttpResponse? && o.status == TOO_MANY_REQUESTS && Delay(o.retryAfter).Some? && Delay(o.retryAfter).value >= 0
    ensures it.Slept? ==> it.seconds == Delay(o.retryAfter).value && it.seconds >= 0
  {
    match o
    case HttpResponse(status, retryAfter, body) =>
      if status == 200 then
        match ClientToken(body)
        case Some(token) => Returned(token)
        case None => Broke
      else if status == TOO_MANY_REQUESTS then
        match Delay(retryAfter)
        case Some(d) => if d >= 0 then Slept(d) else Broke
        case None => Broke
      else Broke
    case RaisedException => Broke
  }

  /** What the function returns after an iteration that did not sleep. */
  function Answer(it: Iteration): Option<Value>
  {
    if it.Returned? then Some(it.token) else None
  }

  /** The first `|sleeps|` iterations from `i` all slept, for those many seconds. */
  ghost predicate SleptThrough(script: nat -> PyOutcome, i: nat, sleeps: seq<int>)
  {
    && (forall k: nat :: i <= k < i + |sleeps| ==> Iterate(script(k)).Slept?)
    && (forall j :: 0 <= j < |sleeps| ==> Iterate(script(i + j)) == Slept(sleeps[j]))
  }

  /** The declarative description of the loop from iteration `i` on: either every remaining
      iteration slept and the loop ran out (`None`), or the last one did not sleep and its
      answer is the result. */
  ghost predicate PyTrace(budget: nat, script: nat -> PyOutcome, i: nat, r: PyRun)
  {
    && i + r.requests <= budget
    && SleptThrough(script, i, r.sleeps)
    && ((&& i + r.requests == budget
         && |r.sleeps| == r.requests
         && r.token == None)
        || (&& 0 < r.requests
            && |r.sleeps| == r.requests - 1
            && !Iterate(script(i + r.requests - 1)).Slept?
            && r.token == Answer(Iterate(script(i + r.requests - 1)))))
  }

  /** `for _ in range(MAX_RETRIES)`, from iteration `i`. */
  function LoopFrom(budget: nat, script: nat -> PyOutcome, i: nat): (r: PyRun)
    requires i <= budget
    ensures PyTrace(budget, script, i, r)
    decreases budget - i
  {
    if i == budget then PyRun(None, 0, [])
    else
      match Iterate(script(i))
      case Returned(token) => PyRun(Some(token), 1, [])
      case Broke => PyRun(None, 1, [])
      case Slept(d) =>
        var rest := LoopFrom(budget, script, i + 1);
        var sleeps := [d] + rest.sleeps;
        assert SleptThrough(script, i, sleeps) by {
          forall j | 0 <= j < |sleeps|
            ensures Iterate(script(i + j)) == Slept(sleeps[j])
          {
            if j > 0 {
              assert sleeps[j] == rest.sleeps[j - 1];
              assert i + j == (i + 1) + (j - 1);
            }
          }
        }
        PyRun(rest.token, rest.requests + 1, sleeps)
  }

  /** `authenticate_with_vault()`. Without a known scheme `conn` is never bound, so the first
      `conn.request` raises inside the `try` and the loop breaks before any request is sent. */
  function Authenticate(c: Config, script: nat -> PyOutcome): (l: Login)
    ensures l.request == Request(POST, c.authPath, AppRoleLogin(c.roleId, c.secretId))
    ensures !HasScheme(c.vaultAddr) ==> l.run == PyRun(None, 0, [])
    ensures HasScheme(c.vaultAddr) ==> PyTrace(Budget(c.maxRetries), script, 0, l.run)
    ensures l.run.requests <= Budget(c.maxRetries)
    ensures l.run.token.Some? ==>
              && HasScheme(c.vaultAddr)
              && 0 < l.run.requests
              && script(l.run.requests - 1).HttpResponse?
              && script(l.run.requests - 1).status == 200
              && ClientToken(script(l.run.requests - 1).body) == l.run.token
    ensures forall j :: 0 <= j < |l.run.sleeps| ==> l.run.sleeps[j] >= 0
  {
    var run := if HasScheme(c.vaultAddr) then LoopFrom(Budget(c.maxRetries), script, 0) else PyRun(None, 0, []);
    assert forall j :: 0 <= j < |run.sleeps| ==> Iterate(script(j)) == Slept(run.sleeps[j]);
    Login(Request(POST, c.authPath, AppRoleLogin(c.roleId, c.secretId)), run)
  }

  /** The trace describes exactly one run: two runs that both satisfy it are equal. */
  lemma PyTraceDeterminesRun(budget: nat, script: nat -> PyOutcome, i: nat, r1: PyRun, r2: PyRun)
    requires PyTrace(budget, script, i, r1) && PyTrace(budget, script, i, r2)
    ensures r1 == r2
  {
    var last1: nat := if r1.requests > 0 then i + r1.requests - 1 else i;
    var last2: nat := if r2.requests > 0 then i + r2.requests - 1 else i;
    assert r1.requests < r2.requests ==> Iterate(script(last1)).Slept?;
    assert r2.requests < r1.requests ==> Iterate(script(last2)).Slept?;
    assert r1.requests == r2.requests;
    assert |r1.sleeps| == |r2.sleeps|;
    forall j | 0 <= j < |r1.sleeps|
      ensures r1.sleeps[j] == r2.sleeps[j]
    {
      assert Iterate(script(i + j)) == Slept(r1.sleeps[j]);
    }
  }

  /** A run of 429s sleeps each `Retry-After` (1 when absent), sends `MAX_RETRIES` requests and
      returns `None`. */
  lemma RateLimitedUntilExhausted(c: Config, script: nat -> PyOutcome)
    requires HasScheme(c.vaultAddr)
    requires forall i: nat ::
               && script(i).HttpResponse? && script(i).status == TOO_MANY_REQUESTS
               && Delay(script(i).retryAfter).Some? && Delay(script(i).retryAfter).value >= 0
    ensures var r := Authenticate(c, script).run;
            && r.token == None
            && r.requests == Budget(c.maxRetries)
            && |r.sleeps| == r.requests
            && forall j: nat :: j < r.requests ==> r.sleeps[j] == Delay(script(j).retryAfter).value
  {
    var r := Authenticate(c, script).run;
    var last: nat := if r.requests > 0 then r.requests - 1 else 0;
    assert Iterate(script(last)).Slept?;
    forall j: nat | j < r.requests
      ensures r.sleeps[j] == Delay(script(j).retryAfter).value
    {
      assert Iterate(script(0 + j)) == Slept(r.sleeps[j]);
    }
  }

  /** A 200 whose body carries `auth.client_token` on the first iteration returns that value
      after one request and no sleep. */
  lemma TokenOnFirstOk(c: Config, script: nat -> PyOutcome)
    requires HasScheme(c.vaultAddr) && c.maxRetries > 0
    requires script(0).HttpResponse? && script(0).status == 200 && ClientToken(script(0).body).Some?
    ensures Authenticate(c, script).run == PyRun(ClientToken(script(0).body), 1, [])
  {
    var r := Authenticate(c, script).run;
    assert r.requests > 0 ==> !Iterate(script(0)).Slept?;
  }

  /** Any status but 200 and 429, a negative or non-integer `Retry-After` on a 429, a 200
      whose body lacks the token, and any exception end the function with `None` after one
      request: a server error is not retried. */
  lemma FirstBreakStops(c: Config, script: nat -> PyOutcome)
    requires HasScheme(c.vaultAddr) && c.maxRetries > 0
    requires || script(0).RaisedException?
             || (script(0).HttpResponse? && script(0).status != 200 && script(0).status != TOO_MANY_REQUESTS)
             || (&& script(0).HttpResponse? && script(0).status == TOO_MANY_REQUESTS
                 && (script(0).retryAfter.NotAnInteger? || (script(0).retryAfter.Seconds? && script(0).retryAfter.n < 0)))
             || (script(0).HttpResponse? && script(0).status == 200 && ClientToken(script(0).body).None?)
    ensures Authenticate(c, script).run == PyRun(None, 1, [])
  {
    var r := Authenticate(c, script).run;
    assert Iterate(script(0)) == Broke;
    assert r.requests > 0 ==> !Iterate(script(0)).Slept?;
  }

  /** A 429 without `Retry-After` sleeps one second before the next request, or before giving
      up when `MAX_RETRIES` is 1. */
  lemma AbsentRetryAfterSleepsOneSecond(c: Config, script: nat -> PyOutcome)
    requires HasScheme(c.vaultAddr) && c.maxRetries > 0
    requires script(0).HttpResponse? && script(0).status == TOO_MANY_REQUESTS && script(0).retryAfter.Absent?
    ensures var r := Authenticate(c, script).run;
            && |r.sleeps| >= 1 && r.sleeps[0] == 1
            && (c.maxRetries > 1 ==> r.requests >= 2)
            && (c.maxRetries == 1 ==> r == PyRun(None, 1, [1]))
  {
    var r := Authenticate(c, script).run;
    assert Iterate(script(0)) == Slept(1);
    assert r.requests >= 1;
    assert r.requests == 1 ==> |r.sleeps| == 1;
    assert |r.sleeps| >= 1 ==> Iterate(script(0 + 0)) == Slept(r.sleeps[0]);
  }
}
