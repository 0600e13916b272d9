/** The two HTTP client instances and the interceptor that adds the bearer header. */
module Api {
  import opened Js
  import opened BrowserStorage
  import AuthService

  const AuthorizationHeader := "Authorization"
  const BearerPrefix := "Bearer "

  /** `getAuthToken()` over storage `m`. */
  function GetAuthToken(m: map<string, string>): (h: string)
    ensures h != "" <==> AuthService.TokenKey in m && m[AuthService.TokenKey] != ""
    ensures h != "" ==> h == BearerPrefix + m[AuthService.TokenKey]
  {
    if AuthService.TokenKey in m && m[AuthService.TokenKey] != "" then BearerPrefix + m[AuthService.TokenKey] else ""
  }

  /** The stored token can be read back from the header. */
  lemma BearerRoundTrip(m: map<string, string>)
    requires GetAuthToken(m) != ""
    ensures GetAuthToken(m)[..|BearerPrefix|] == BearerPrefix
    ensures GetAuthToken(m)[|BearerPrefix|..] == m[AuthService.TokenKey]
  {
  }

  /** After logout no header is derived. */
  lemma NoHeaderAfterLogout(m: map<string, string>)
    ensures GetAuthToken(AuthService.Cleared(m)) == ""
  {
  }

  /** The request interceptor's effect on a request's headers. */
  function Intercept(headers: map<string, string>, m: map<string, string>): (r: map<string, string>)
    ensures GetAuthToken(m) != "" ==> AuthorizationHeader in r && r[AuthorizationHeader] == GetAuthToken(m)
    ensures GetAuthToken(m) != "" ==> forall k :: k in headers && k != AuthorizationHeader ==> k in r && r[k] == headers[k]
    ensures GetAuthToken(m) == "" ==> r == headers
  {
    var token := GetAuthToken(m);
    if token != "" then headers[AuthorizationHeader := token] else headers
  }

  datatype Instance = AuthApi | WalletApi

  /** Both instances send JSON and accept JSON. */
  function DefaultHeaders(): map<string, string>
  {
    map["Content-Type" := "application/json", "Accept" := "application/json"]
  }

  /** A request configuration whose headers the interceptor edits in place. */
  class RequestConfig {
    var headers: map<string, string>

    constructor ()
      ensures headers == DefaultHeaders()
    {
      headers := DefaultHeaders();
    }
  }

  /** The interceptor registered on every instance; `instance` does not influence the header. */
  method RunInterceptor(instance: Instance, config: RequestConfig, storage: Storage)
    modifies config
    ensures config.headers == Intercept(old(config.headers), storage.items)
  {
    var token := GetAuthToken(storage.items);
    if token != "" {
      config.headers := config.headers[AuthorizationHeader := token];
    }
  }
}
