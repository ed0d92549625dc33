/** The HTTP interceptor (src/app/interceptors/auth.interceptor.ts): adds
    the session token as a bearer credential to every outgoing request. */
module AuthInterceptor {
  import opened JsStrings
  import opened Auth
  import opened BrowserStorage

  const AuthorizationHeader: string := "Authorization"
  const BearerPrefix: string := "Bearer "

  datatype HttpRequest = HttpRequest(
    verb: string,
    url: string,
    body: Option<string>,
    headers: map<string, string>)

  /** The request the interceptor hands to `next`, its only call: the
      original when there is no token, otherwise a copy with the header. */
  function Intercept(req: HttpRequest, token: Option<string>): (forwarded: HttpRequest)
    ensures forwarded.verb == req.verb && forwarded.url == req.url && forwarded.body == req.body
  {
    if token.None? || token.value == "" then req
    else req.(headers := req.headers[AuthorizationHeader := BearerPrefix + token.value])
  }

  /** Without a token the request goes on unchanged; with one it carries
      "Bearer <token>", from which the token reads back, and every other
      header is kept. */
  lemma InterceptAddsBearer(req: HttpRequest, token: Option<string>, name: string)
    ensures token.None? || token.value == "" ==> Intercept(req, token) == req
    ensures token.Some? && token.value != "" ==>
      var h := Intercept(req, token).headers;
      AuthorizationHeader in h && StartsWith(h[AuthorizationHeader], BearerPrefix)
      && h[AuthorizationHeader][|BearerPrefix|..] == token.value
    ensures name != AuthorizationHeader ==>
      (name in Intercept(req, token).headers <==> name in req.headers)
      && (name in req.headers ==> Intercept(req, token).headers[name] == req.headers[name])
  {
    if token.Some? && token.value != "" {
      assert (BearerPrefix + token.value)[..|BearerPrefix|] == BearerPrefix;
    }
  }

  /** Passing a request through twice is the same as once. */
  lemma InterceptIdempotent(req: HttpRequest, token: Option<string>)
    ensures Intercept(Intercept(req, token), token) == Intercept(req, token)
  {
  }

  /** `authInterceptor(req, next)` with the injected service. */
  method InterceptWith(auth: AuthService, req: HttpRequest) returns (forwarded: HttpRequest)
    ensures forwarded == Intercept(req, auth.Token())
  {
    var token := auth.storage.GetItem(TokenKey);
    if token.None? || token.value == "" {
      return req;
    }
    forwarded := req.(headers := req.headers[AuthorizationHeader := BearerPrefix + token.value]);
  }

  /** After a login that returned a token, requests carry that token. */
  method RequestAfterLogin(storage: LocalStorage, r: AuthResponse, req: HttpRequest)
    returns (forwarded: HttpRequest)
    requires r.token.Some? && r.token.value != ""
    modifies storage
    ensures AuthorizationHeader in forwarded.headers
    ensures forwarded.headers[AuthorizationHeader] == BearerPrefix + r.token.value
  {
    var auth := new AuthService(storage);
    auth.OnAuthenticated(r);
    forwarded := InterceptWith(auth, req);
  }
}
