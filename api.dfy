/**
 * The request interceptor of `src/app/api/axios.ts`: before each request it
 * reads the stored "user" record and, when that record carries a non-empty
 * token, sets the `Authorization` header to `Bearer <token>`. The header
 * derivation is a function; the interceptor itself is a method that assigns
 * the config's `headers` field and hands back the same config object.
 */
module Api {
  import opened Wrappers
  import Json
  import Browser
  import Auth

  const AuthorizationHeader: string := "Authorization"
  const TokenField: string := "token"

  /** `JSON.parse(stored)` threw inside the interceptor, so the request fails. */
  datatype InterceptError = SyntaxError

  /**
   * The `Authorization` value derived from what `getItem("user")` returned:
   * `None` when the interceptor sets no header.
   */
  function BearerValue(stored: Option<string>): (r: Result<Option<string>, InterceptError>)
    ensures stored.None? || stored == Some("") ==> r == Success(None)
    ensures r.Failure? <==> stored.Some? && stored.value != "" && Json.Parse(stored.value).None?
    ensures r.Success? && r.value.Some? ==>
              |r.value.value| > |"Bearer "| && r.value.value[..|"Bearer "|] == "Bearer "
  {
    if stored.None? || stored.value == "" then Success(None)
    else
      match Json.Parse(stored.value)
      case None => Failure(SyntaxError)
      case Some(o) =>
        match Json.Lookup(o, TokenField)
        case Some(token) => if token != "" then Success(Some("Bearer " + token)) else Success(None)
        case None => Success(None)
  }

  /** The headers the interceptor leaves on a config whose headers were `headers`. */
  function Intercepted(stored: Option<string>, headers: map<string, string>): (r: Result<map<string, string>, InterceptError>)
    ensures r.Failure? <==> BearerValue(stored).Failure?
    ensures r.Success? ==> r.value.Keys <= headers.Keys + {AuthorizationHeader}
    ensures r.Success? ==> forall k :: k in headers && k != AuthorizationHeader ==>
                                         k in r.value && r.value[k] == headers[k]
    ensures r.Success? && BearerValue(stored).value.Some? ==>
              AuthorizationHeader in r.value && r.value[AuthorizationHeader] == BearerValue(stored).value.value
    ensures r.Success? && BearerValue(stored).value.None? ==> r.value == headers
  {
    match BearerValue(stored)
    case Failure(e) => Failure(e)
    case Success(None) => Success(headers)
    case Success(Some(value)) => Success(headers[AuthorizationHeader := value])
  }

  /** With no stored record (or an empty one) the headers are left as they are. */
  lemma NoRecordLeavesHeaders(stored: Option<string>, headers: map<string, string>)
    requires stored.None? || stored == Some("")
    ensures Intercepted(stored, headers) == Success(headers)
  {
  }

  /**
   * A record whose token is non-empty sets `Authorization` to
   * `"Bearer " + token`, replacing any value it had and keeping every other header.
   */
  lemma TokenIsAttached(stored: string, o: Json.Object, token: string, headers: map<string, string>)
    requires stored != "" && Json.Parse(stored) == Some(o)
    requires Json.Lookup(o, TokenField) == Some(token) && token != ""
    ensures Intercepted(Some(stored), headers) == Success(headers[AuthorizationHeader := "Bearer " + token])
  {
  }

  /** A record whose token is empty or missing leaves the headers as they are. */
  lemma NoTokenLeavesHeaders(stored: string, o: Json.Object, headers: map<string, string>)
    requires stored != "" && Json.Parse(stored) == Some(o)
    requires Json.Lookup(o, TokenField) in {None, Some("")}
    ensures Intercepted(Some(stored), headers) == Success(headers)
  {
  }

  /** A stored record the codec cannot read makes the interceptor throw. */
  lemma MalformedRecordRejectsRequest(stored: string, headers: map<string, string>)
    requires stored != "" && Json.Parse(stored).None?
    ensures Intercepted(Some(stored), headers) == Failure(SyntaxError)
  {
  }

  /** The headers the interceptor leaves when the store holds `store`. */
  function HeadersFor(store: map<string, string>, headers: map<string, string>): Result<map<string, string>, InterceptError>
  {
    Intercepted(Browser.Get(store, Auth.UserKey), headers)
  }

  /**
   * While the store mirrors the session, a signed-in user's non-empty token is
   * attached to every request, and nothing is attached otherwise.
   */
  lemma SyncedSessionAuthorizes(s: Auth.Session, headers: map<string, string>)
    requires Auth.Synced(s)
    ensures s.user.Some? && s.user.value.token != "" ==>
              HeadersFor(s.store, headers) == Success(headers[AuthorizationHeader := "Bearer " + s.user.value.token])
    ensures s.user.None? || s.user.value.token == "" ==> HeadersFor(s.store, headers) == Success(headers)
  {
    if s.user.Some? {
      var stored := s.store[Auth.UserKey];
      assert Json.Lookup(Json.Parse(stored).value, TokenField) == Some(s.user.value.token);
    }
  }

  /** After `login(u)` with a non-empty token, requests carry `Bearer <u.token>`. */
  lemma LoginAuthorizesRequests(s: Auth.Session, u: Auth.User, headers: map<string, string>)
    requires u.token != ""
    ensures HeadersFor(Auth.AfterLogin(s, u).store, headers) == Success(headers[AuthorizationHeader := "Bearer " + u.token])
  {
    SyncedSessionAuthorizes(Auth.AfterLogin(s, u), headers);
  }

  /** After `logout()`, requests go out with the headers they had. */
  lemma LogoutStopsAuthorizing(s: Auth.Session, headers: map<string, string>)
    ensures HeadersFor(Auth.AfterLogout(s).store, headers) == Success(headers)
  {
    SyncedSessionAuthorizes(Auth.AfterLogout(s), headers);
  }

  /** The parts of an axios request config the interceptor can see (`verb` is its `method`). */
  class RequestConfig {
    var url: string
    var verb: string
    var headers: map<string, string>

    constructor (url: string, verb: string, headers: map<string, string>)
      ensures this.url == url && this.verb == verb && this.headers == headers
    {
      this.url := url;
      this.verb := verb;
      this.headers := headers;
    }
  }

  /**
   * The interceptor callback: it may reassign `config.headers` and nothing
   * else, and it returns the very config object it was given.
   */
  method Intercept(config: RequestConfig, storage: Browser.LocalStorage) returns (r: Result<RequestConfig, InterceptError>)
    modifies config`headers
    ensures match Intercepted(Browser.Get(storage.entries, Auth.UserKey), old(config.headers))
            case Success(h) => r == Success(config) && config.headers == h
            case Failure(e) => r == Failure(e) && config.headers == old(config.headers)
  {
    var stored := storage.GetItem(Auth.UserKey);
    var bearer := BearerValue(stored);
    match bearer
    case Failure(e) =>
      r := Failure(e);
    case Success(value) =>
      if value.Some? {
        config.headers := config.headers[AuthorizationHeader := value.value];
      }
      r := Success(config);
  }

  /**
   * Signing in and then sending a request: the request carries the new
   * user's token, and the config's other fields are untouched.
   */
  method LoginThenRequest(provider: Auth.AuthProvider, config: RequestConfig, u: Auth.User)
    returns (r: Result<RequestConfig, InterceptError>)
    requires u.token != ""
    modifies provider, provider.storage, config`headers
    ensures r == Success(config)
    ensures config.headers == old(config.headers)[AuthorizationHeader := "Bearer " + u.token]
    ensures config.url == old(config.url) && config.verb == old(config.verb)
  {
    provider.Login(u);
    LoginAuthorizesRequests(old(provider.State()), u, config.headers);
    r := Intercept(config, provider.storage);
  }

  /** Signing out and then sending a request: no credential is added. */
  method LogoutThenRequest(provider: Auth.AuthProvider, config: RequestConfig)
    returns (r: Result<RequestConfig, InterceptError>)
    modifies provider, provider.storage, config`headers
    ensures r == Success(config) && config.headers == old(config.headers)
  {
    provider.Logout();
    LogoutStopsAuthorizing(old(provider.State()), config.headers);
    r := Intercept(config, provider.storage);
  }
}
