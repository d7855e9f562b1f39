/** What crosses the wire between the Vault clients and the Vault server: JSON values and
    response bodies as the client libraries see them, the classified outcome of one HTTP
    attempt, and the request an operation sends on every attempt. */
module Wire {

  datatype Option<+T> = None | Some(value: T)

  /** A JSON value. Numbers, booleans and arrays are not told apart: no operation of the
      client reads them, and a getter that expects a string or an object throws on them. */
  datatype Value =
    | Str(s: string)
    | Null
    | Obj(fields: map<string, Value>)
    | Scalar

  /** A response body: absent, not parseable as a JSON object, or a JSON object. */
  datatype Body =
    | NoBody
    | Malformed
    | Json(fields: map<string, Value>)

  /** HTTP status codes the clients compare against. */
  const OK: int := 200
  const UNAUTHORIZED: int := 401
  const NOT_FOUND: int := 404
  const TOO_MANY_REQUESTS: int := 429

  /** What one attempt of a Java operation observes from RestTemplate: a response that was
      handed back (any status the default error handler lets through), an
      `HttpClientErrorException` carrying a 4xx status, or any other exception (a 5xx
      `HttpServerErrorException`, an I/O failure, a failure to build the TLS client, a body
      the message converter cannot read). */
  datatype Outcome =
    | Response(status: int, body: Body)
    | ClientError(status: int)
    | OtherException

  datatype HttpMethod = GET | POST

  /** How an operation presents its credentials. */
  datatype Credentials =
    | BearerToken(token: string)
    | TokenUriVariable(token: string)
    | AppRoleLogin(roleId: string, secretId: string)
    | ClientCertificate(keyStorePath: string, keyStorePassword: string,
                        trustStorePath: string, trustStorePassword: string)

  /** The request an operation sends; it is rebuilt identically on every attempt. */
  datatype Request = Request(verb: HttpMethod, url: string, credentials: Credentials)

  /** The URL of a path under the server's `/v1/` API prefix. */
  function ApiUrl(vaultUrl: string, path: string): (url: string)
    ensures |url| == |vaultUrl| + 4 + |path|
    ensures url[..|vaultUrl|] == vaultUrl
    ensures url[|vaultUrl|..|vaultUrl| + 4] == "/v1/"
    ensures url[|vaultUrl| + 4..] == path
  {
    vaultUrl + "/v1/" + path
  }

  /** Two API URLs on the same server are equal exactly when their paths are. */
  lemma ApiUrlInjective(vaultUrl: string, p: string, q: string)
    ensures ApiUrl(vaultUrl, p) == ApiUrl(vaultUrl, q) <==> p == q
  {
    if ApiUrl(vaultUrl, p) == ApiUrl(vaultUrl, q) {
      assert p == ApiUrl(vaultUrl, p)[|vaultUrl| + 4..];
    }
  }
}
