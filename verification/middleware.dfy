/** The decisions of CORSMiddleware and AuthMiddleware (internal/api/middleware.go). */
module Middleware {
  import opened Wrappers
  import opened Seqs
  import opened Text

  const AllowCredentials := "true"
  const AllowMethods := "GET, POST, PUT, DELETE, OPTIONS"
  const AllowHeaders := "Content-Type, Authorization, X-Requested-With"
  const BearerPrefix := "Bearer "

  // ---------------------------------------------------------------------------
  // CORS

  /** A configured entry admits an origin when it is the wildcard or the origin itself. */
  predicate OriginMatches(entry: string, origin: string)
  {
    entry == "*" || entry == origin
  }

  /** The CORS headers set on the response and whether the request is answered 204 on the spot. */
  datatype CorsResult = CorsResult(
    allowOrigin: Option<string>,
    allowCredentials: string,
    allowMethods: string,
    allowHeaders: string,
    abortWith204: bool)

  method Cors(allowedOrigins: seq<string>, origin: string, requestMethod: string) returns (r: CorsResult)
    ensures r.allowOrigin.Some? <==> exists i :: 0 <= i < |allowedOrigins| && OriginMatches(allowedOrigins[i], origin)
    ensures r.allowOrigin.Some? ==> r.allowOrigin.value == origin
    ensures r.allowCredentials == AllowCredentials && r.allowMethods == AllowMethods && r.allowHeaders == AllowHeaders
    ensures r.abortWith204 <==> requestMethod == "OPTIONS"
  {
    var allowed := FindAny(allowedOrigins, (o: string) => OriginMatches(o, origin));
    var allowOrigin := if allowed then Some(origin) else None;
    r := CorsResult(allowOrigin, AllowCredentials, AllowMethods, AllowHeaders, requestMethod == "OPTIONS");
  }

  // ---------------------------------------------------------------------------
  // API-key authentication

  /** The token: the header with "Bearer " removed when it is longer than that prefix and starts with it. */
  function BearerToken(header: string): (token: string)
    ensures |header| > 7 && HasPrefix(header, BearerPrefix) ==> BearerPrefix + token == header
    ensures !(|header| > 7 && HasPrefix(header, BearerPrefix)) ==> token == header
  {
    if |header| > 7 && header[..7] == BearerPrefix then header[7..] else header
  }

  /** "Bearer " + key yields the key back for every non-empty key; the bare prefix is its own token. */
  lemma BearerTokenRoundTrip(key: string)
    ensures key != "" ==> BearerToken(BearerPrefix + key) == key
    ensures BearerToken(BearerPrefix) == BearerPrefix
  {
    assert (BearerPrefix + key)[..7] == BearerPrefix;
  }

  datatype AuthResult = Proceed | Unauthorized(message: string, errType: string)

  const MissingHeader := Unauthorized("Missing Authorization header", "authentication_error")
  const InvalidKey := Unauthorized("Invalid API key", "authentication_error")

  method Authenticate(requireAuth: bool, apiKeys: seq<string>, header: string) returns (r: AuthResult)
    ensures !requireAuth ==> r == Proceed
    ensures requireAuth && header == "" ==> r == MissingHeader
    ensures requireAuth && header != "" ==>
              (r == Proceed <==> exists i :: 0 <= i < |apiKeys| && apiKeys[i] == BearerToken(header))
    ensures requireAuth && header != "" && r != Proceed ==> r == InvalidKey
    ensures r == Proceed || r == MissingHeader || r == InvalidKey
  {
    if !requireAuth {
      return Proceed;
    }
    if header == "" {
      return MissingHeader;
    }
    var token := BearerToken(header);
    var valid := FindAny(apiKeys, (key: string) => key == token);
    if !valid {
      return InvalidKey;
    }
    r := Proceed;
  }
}
