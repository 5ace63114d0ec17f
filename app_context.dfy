/**
 * The request/response policy of `ApiProvider` and the result wrapping of its
 * `propertyApi` methods: which token goes into the Authorization header (the
 * Bearer scheme of RFC 6750, section 2.1), what a 401 reply clears and where
 * it sends the browser, how every call turns a reply or an exception into a
 * result, and how request URLs are put together.
 *
 * The HTTP exchange itself is not modelled: each call is given the reply it got.
 */
module ApiClient {
  import opened Wrappers
  import opened AuthSession
  import Text

  /** `adminToken || token`: the admin token wins whenever it is non-empty. */
  function AuthToken(store: Store): (t: Option<string>)
    ensures Truthy(GetItem(store, AdminTokenKey)) ==> t == GetItem(store, AdminTokenKey)
    ensures !Truthy(GetItem(store, AdminTokenKey)) && Truthy(GetItem(store, UserTokenKey)) ==> t == GetItem(store, UserTokenKey)
    ensures !Truthy(GetItem(store, AdminTokenKey)) && !Truthy(GetItem(store, UserTokenKey)) ==> !Truthy(t)
  {
    if Truthy(GetItem(store, AdminTokenKey)) then GetItem(store, AdminTokenKey) else GetItem(store, UserTokenKey)
  }

  /** The Authorization header the request interceptor sets, or none. */
  function AuthorizationHeader(store: Store): (h: Option<string>)
    ensures h.Some? <==> Truthy(GetItem(store, AdminTokenKey)) || Truthy(GetItem(store, UserTokenKey))
    ensures h.Some? ==> exists key :: key in {AdminTokenKey, UserTokenKey} && key in store && store[key] != ""
                                       && h.value == "Bearer " + store[key]
    ensures Truthy(GetItem(store, AdminTokenKey)) ==> h == Some("Bearer " + store[AdminTokenKey])
  {
    var t := AuthToken(store);
    if Truthy(t) then Some("Bearer " + t.value) else None
  }

  /** The header set does not depend on anything in storage but the two token keys. */
  lemma HeaderIgnoresOtherKeys(store: Store, key: string, v: string)
    requires key != AdminTokenKey && key != UserTokenKey
    ensures AuthorizationHeader(store[key := v]) == AuthorizationHeader(store)
  {
    assert GetItem(store[key := v], AdminTokenKey) == GetItem(store, AdminTokenKey);
    assert GetItem(store[key := v], UserTokenKey) == GetItem(store, UserTokenKey);
  }

  /** The keys a 401 reply removes. */
  function UnauthorizedCleanup(store: Store): (r: Store)
    ensures UserTokenKey !in r && AdminTokenKey !in r && AdminDataKey !in r
    ensures forall k :: k in r <==> k in store && k != UserTokenKey && k != AdminTokenKey && k != AdminDataKey
    ensures forall k :: k in r ==> r[k] == store[k]
  {
    store - {UserTokenKey, AdminTokenKey, AdminDataKey}
  }

  /**
   * The three clean-up paths remove three different key sets: a 401 keeps
   * `adminEmail`, logout keeps the user `token`, and an expired or unparsable
   * stored session at mount keeps both.
   */
  lemma CleanupPathsDiffer(store: Store, decode: string -> Decoded, parse: string -> Option<AdminProfile>, now: real)
    requires AdminEmailKey in store && UserTokenKey in store
    ensures AdminEmailKey in UnauthorizedCleanup(store) && UserTokenKey !in UnauthorizedCleanup(store)
    ensures UserTokenKey in Logout(Initial(store)).store && AdminEmailKey !in Logout(Initial(store)).store
    ensures AdminEmailKey in Restore(store, decode, parse, now).store && UserTokenKey in Restore(store, decode, parse, now).store
  {
    RestoreKeepsOtherKeys(store, decode, parse, now, AdminEmailKey);
    RestoreKeepsOtherKeys(store, decode, parse, now, UserTokenKey);
  }

  /** Where a 401 sends the browser: the admin login from any path containing `/admin`, the user login otherwise. */
  function LoginPathFor(pathname: string): (p: string)
    ensures Text.Contains(pathname, "/admin") ==> p == "/admin/login"
    ensures !Text.Contains(pathname, "/admin") ==> p == "/login"
  {
    if Text.Contains(pathname, "/admin") then "/admin/login" else "/login"
  }

  /** An axios error: the HTTP status when the server answered, and the fields of its body. */
  datatype HttpError = HttpError(status: Option<int>, dataMessage: Option<string>, dataError: Option<string>, message: Option<string>)

  /** The parts of the browser the interceptors touch: storage and the location. */
  class Browser {
    var storage: Store
    var pathname: string
    /** The page `window.location.href` was last set to, if any. */
    var navigatedTo: Option<string>

    constructor (storage0: Store, pathname0: string)
      ensures storage == storage0 && pathname == pathname0 && navigatedTo.None?
    {
      storage := storage0;
      pathname := pathname0;
      navigatedTo := None;
    }

    /** The request interceptor: adds the Authorization header when a token is stored, and changes nothing else. */
    method AttachAuthorization(headers: map<string, string>) returns (out: map<string, string>)
      ensures AuthorizationHeader(storage).Some? ==> out == headers["Authorization" := AuthorizationHeader(storage).value]
      ensures AuthorizationHeader(storage).None? ==> out == headers
    {
      var adminToken := GetItem(storage, AdminTokenKey);
      var token := GetItem(storage, UserTokenKey);
      var authToken := if Truthy(adminToken) then adminToken else token;
      out := headers;
      if Truthy(authToken) {
        out := out["Authorization" := "Bearer " + authToken.value];
      }
    }

    /**
     * The response interceptor's error path: a 401 clears the three keys and
     * navigates to the matching login page; every error is passed on unchanged.
     */
    method OnResponseError(err: HttpError) returns (rejected: HttpError)
      modifies this
      ensures rejected == err
      ensures pathname == old(pathname)
      ensures err.status == Some(401) ==> storage == UnauthorizedCleanup(old(storage)) && navigatedTo == Some(LoginPathFor(pathname))
      ensures err.status != Some(401) ==> storage == old(storage) && navigatedTo == old(navigatedTo)
    {
      if err.status == Some(401) {
        storage := storage - {UserTokenKey};
        storage := storage - {AdminTokenKey};
        storage := storage - {AdminDataKey};
        if Text.Contains(pathname, "/admin") {
          navigatedTo := Some("/admin/login");
        } else {
          navigatedTo := Some("/login");
        }
      }
      return err;
    }
  }

  /** The admin calls that go through the intercepted client and wrap their result. */
  datatype AdminCall = CreateProperty | GetAllProperties | ApproveProperty | RejectProperty | DeleteProperty

  /** The public calls that return the server body as it is. */
  datatype PublicCall = AllLocationsProperties | PropertiesByLocation | PropertyById | SearchProperties

  function AdminFallback(call: AdminCall): (msg: string)
    ensures msg != ""
  {
    match call
    case CreateProperty => "Failed to create property"
    case GetAllProperties => "Failed to fetch properties"
    case ApproveProperty => "Failed to approve property"
    case RejectProperty => "Failed to reject property"
    case DeleteProperty => "Failed to delete property"
  }

  function PublicFallback(call: PublicCall): (msg: string)
    ensures msg != ""
  {
    match call
    case AllLocationsProperties => "Failed to fetch properties"
    case PropertiesByLocation => "Failed to fetch properties"
    case PropertyById => "Failed to fetch property"
    case SearchProperties => "Search failed"
  }

  /** How a request settled: the response body, or an exception. */
  datatype Reply<T> = Answered(body: T) | Raised(error: HttpError)

  /** What the admin calls resolve to: `{ success: true, data }` or `{ success: false, error }`. */
  datatype Wrapped<T> = Success(data: T) | Failure(error: string)

  /** The result of an admin call: never an exception; the server's `message`, else the call's own fallback. */
  function WrapAdmin<T>(call: AdminCall, reply: Reply<T>): (r: Wrapped<T>)
    ensures r.Success? <==> reply.Answered?
    ensures r.Success? ==> r.data == reply.body
    ensures r.Failure? ==> r.error != ""
    ensures r.Failure? && Truthy(reply.error.dataMessage) ==> r.error == reply.error.dataMessage.value
    ensures r.Failure? && !Truthy(reply.error.dataMessage) ==> r.error == AdminFallback(call)
  {
    match reply
    case Answered(body) => Success(body)
    case Raised(e) => Failure(OrElse(e.dataMessage, AdminFallback(call)))
  }

  /** What the public calls resolve to: the body as the server sent it, or `{ success: false, error }`. */
  datatype Fetched<T> = Body(body: T) | Failed(error: string)

  /** The result of a public call: the server's `error`, else the exception's message, else the call's fallback. */
  function WrapPublic<T>(call: PublicCall, reply: Reply<T>): (r: Fetched<T>)
    ensures r.Body? <==> reply.Answered?
    ensures r.Body? ==> r.body == reply.body
    ensures r.Failed? ==> r.error != ""
    ensures r.Failed? && Truthy(reply.error.dataError) ==> r.error == reply.error.dataError.value
    ensures r.Failed? && !Truthy(reply.error.dataError) && Truthy(reply.error.message) ==> r.error == reply.error.message.value
    ensures r.Failed? && !Truthy(reply.error.dataError) && !Truthy(reply.error.message) ==> r.error == PublicFallback(call)
  {
    match reply
    case Answered(body) => Body(body)
    case Raised(e) => Failed(OrElse(e.dataError, OrElse(e.message, PublicFallback(call))))
  }

  /** `VITE_BACKEND_URL || 'http://localhost:5000'` */
  function BackendUrl(configured: Option<string>): (u: string)
    ensures u != ""
    ensures Truthy(configured) ==> u == configured.value
  {
    OrElse(configured, "http://localhost:5000")
  }

  /** One `key=value` pair as `URLSearchParams` writes it: the encoded key, `=`, the encoded value. */
  function EncodePair(p: (string, string)): (r: string)
    ensures r == Text.FormEncode(p.0) + "=" + Text.FormEncode(p.1)
    ensures '=' in r
    ensures '&' !in r
  {
    var k := Text.FormEncode(p.0);
    var v := Text.FormEncode(p.1);
    assert (k + "=" + v)[|k|] == '=';
    assert forall i :: 0 <= i < |k + "=" + v| ==> (k + "=" + v)[i] != '&' by {
      forall i | 0 <= i < |k + "=" + v| ensures (k + "=" + v)[i] != '&' {
        if i < |k| { assert Text.QueryChar(k[i]); }
        else if i > |k| { assert Text.QueryChar(v[i - |k| - 1]); }
      }
    }
    k + "=" + v
  }

  /** A written pair splits at its one `=` into two pieces that decode to the key's and the value's UTF-8 bytes. */
  lemma EncodePairDecodes(p: (string, string))
    ensures var pieces := Text.Split(EncodePair(p), '=');
            && |pieces| == 2
            && Text.PercentDecode(pieces[0], true) == Text.Utf8Of(p.0)
            && Text.PercentDecode(pieces[1], true) == Text.Utf8Of(p.1)
  {
    var k := Text.FormEncode(p.0);
    var v := Text.FormEncode(p.1);
    assert '=' !in k by {
      forall i | 0 <= i < |k| ensures k[i] != '=' { assert Text.QueryChar(k[i]); }
    }
    assert '=' !in v by {
      forall i | 0 <= i < |v| ensures v[i] != '=' { assert Text.QueryChar(v[i]); }
    }
    Text.SplitAround(k, v, '=');
    Text.SplitWithout(v, '=');
    Text.FormEncodeRoundTrip(p.0);
    Text.FormEncodeRoundTrip(p.1);
  }

  /** `new URLSearchParams(params).toString()`: the encoded pairs joined by `&`. */
  function Serialise(params: seq<(string, string)>): string {
    if |params| == 0 then ""
    else if |params| == 1 then EncodePair(params[0])
    else EncodePair(params[0]) + "&" + Serialise(params[1..])
  }

  /** The serialised text is empty exactly when there are no parameters. */
  lemma {:induction false} SerialiseEmpty(params: seq<(string, string)>)
    ensures Serialise(params) == "" <==> params == []
  {
    if |params| >= 1 {
      assert '=' in EncodePair(params[0]);
    }
  }

  /** Splitting the serialised text on `&` gives back one piece per parameter, each piece the encoded pair. */
  lemma {:induction false} SerialiseSplits(params: seq<(string, string)>)
    requires params != []
    ensures Text.Split(Serialise(params), '&') == seq(|params|, i requires 0 <= i < |params| => EncodePair(params[i]))
  {
    if |params| == 1 {
      Text.SplitWithout(EncodePair(params[0]), '&');
    } else {
      SerialiseSplits(params[1..]);
      Text.SplitAround(EncodePair(params[0]), Serialise(params[1..]), '&');
    }
  }

  /** The URL of a listing call: `?` and the query text are added only when the query text is non-empty. */
  function ListUrl(base: string, path: string, params: seq<(string, string)>): (url: string)
    ensures params == [] ==> url == base + path
    ensures params != [] ==> url == base + path + "?" + Serialise(params)
  {
    var query := Serialise(params);
    SerialiseEmpty(params);
    base + path + (if query != "" then "?" + query else "")
  }

  /** `getAllLocationsProperties(params)` */
  function AllLocationsUrl(configured: Option<string>, params: seq<(string, string)>): (url: string)
    ensures params == [] ==> url == BackendUrl(configured) + "/api/properties/all-locations"
    ensures params != [] ==> url == BackendUrl(configured) + "/api/properties/all-locations" + "?" + Serialise(params)
  {
    ListUrl(BackendUrl(configured), "/api/properties/all-locations", params)
  }

  /** `getPropertiesByLocation(location, params)`: the location goes into the path as it is. */
  function ByLocationUrl(configured: Option<string>, location: string, params: seq<(string, string)>): (url: string)
    ensures params == [] ==> url == BackendUrl(configured) + "/api/properties/properties/" + location
    ensures params != [] ==> url == BackendUrl(configured) + "/api/properties/properties/" + location + "?" + Serialise(params)
  {
    ListUrl(BackendUrl(configured), "/api/properties/properties/" + location, params)
  }

  /** `getPropertyById(id)` */
  function PropertyUrl(configured: Option<string>, id: string): (url: string)
    ensures Truthy(configured) ==> url == configured.value + "/api/properties/property/" + id
    ensures !Truthy(configured) ==> url == "http://localhost:5000" + "/api/properties/property/" + id
  {
    BackendUrl(configured) + "/api/properties/property/" + id
  }

  /**
   * `searchProperties(query)`: the query is percent-encoded, so it cannot add
   * parameters of its own, and decoding the tail gives the query's UTF-8 bytes back.
   */
  function SearchUrl(configured: Option<string>, query: string): (url: string)
    ensures Text.IsPrefix(BackendUrl(configured) + "/api/properties/search?query=", url)
    ensures var tail := url[|BackendUrl(configured) + "/api/properties/search?query=" |..];
            && tail == Text.EncodeUriComponent(query)
            && (forall i :: 0 <= i < |tail| ==> Text.QueryChar(tail[i]))
            && Text.PercentDecode(tail, false) == Text.Utf8Of(query)
  {
    Text.EncodeUriComponentRoundTrip(query);
    BackendUrl(configured) + "/api/properties/search?query=" + Text.EncodeUriComponent(query)
  }

  /** The path, under `<backend>/api/admin`, of each admin call. */
  function AdminPath(call: AdminCall, id: string): (p: string)
    ensures call == CreateProperty ==> p == "/"
    ensures call == GetAllProperties ==> p == "/properties"
    ensures call == ApproveProperty ==> p == "/properties/" + id + "/approve"
    ensures call == RejectProperty ==> p == "/properties/" + id + "/reject"
    ensures call == DeleteProperty ==> p == "/properties/" + id
  {
    match call
    case CreateProperty => "/"
    case GetAllProperties => "/properties"
    case ApproveProperty => "/properties/" + id + "/approve"
    case RejectProperty => "/properties/" + id + "/reject"
    case DeleteProperty => "/properties/" + id
  }
}
