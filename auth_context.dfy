/**
 * The admin session kept by `AuthProvider`: the token and profile in browser
 * storage, the `admin` / `isAdminAuthenticated` / `isLoading` state, the
 * expiry test with its 60-second buffer, restore-on-mount, login, logout and
 * the periodic expiry check.
 *
 * Browser storage is a map from keys to strings. The JWT decoder, the clock
 * (`Date.now() / 1000`, in seconds) and `JSON.parse` / `JSON.stringify` of the
 * stored profile are parameters. The `exp` claim is the Expiration Time claim
 * of RFC 7519, section 4.1.4.
 */
module AuthSession {
  import opened Wrappers

  /** `localStorage`: key to stored text. */
  type Store = map<string, string>

  const AdminTokenKey: string := "adminToken"
  const AdminDataKey: string := "adminData"
  const AdminEmailKey: string := "adminEmail"
  /** The non-admin token key, read by the request interceptor and cleared on a 401 reply. */
  const UserTokenKey: string := "token"

  /** Seconds before `exp` at which a token already counts as expired. */
  const ExpiryBuffer: real := 60.0

  /** `localStorage.getItem(key)`: `null` (here `None`) when the key is absent. */
  function GetItem(store: Store, key: string): (v: Option<string>)
    ensures v.Some? <==> key in store
    ensures key in store ==> v.value == store[key]
  {
    if key in store then Some(store[key]) else None
  }

  /** JavaScript truthiness of a stored value: present and not the empty string. */
  predicate Truthy(v: Option<string>) {
    v.Some? && v.value != ""
  }

  /** What the JWT decoder makes of a token: it throws, or yields a payload whose `exp` may be missing. */
  datatype Decoded = Rejected | Payload(exp: Option<real>)

  /** The admin profile object the server returns and the page keeps in `admin`. */
  datatype AdminProfile = AdminProfile(fields: map<string, string>)

  /** `decoded.exp` as JavaScript tests it: a missing claim and `0` are both falsy. */
  predicate HasExp(d: Decoded) {
    d.Payload? && d.exp.Some? && d.exp.value != 0.0
  }

  /**
   * `isTokenExpired(token)`: a missing or empty token, and one the decoder
   * rejects, are expired; a decodable token is expired exactly when its `exp`
   * is truthy and lies less than 60 seconds after `now`.
   */
  function IsTokenExpired(token: Option<string>, decode: string -> Decoded, now: real): (expired: bool)
    ensures !Truthy(token) ==> expired
    ensures Truthy(token) && decode(token.value).Rejected? ==> expired
    ensures Truthy(token) && decode(token.value).Payload? && !HasExp(decode(token.value)) ==> !expired
    ensures Truthy(token) && HasExp(decode(token.value)) ==> (expired <==> decode(token.value).exp.value < now + ExpiryBuffer)
  {
    if !Truthy(token) then true
    else
      match decode(token.value)
      case Rejected => true
      case Payload(exp) => exp.Some? && exp.value != 0.0 && exp.value < now + ExpiryBuffer
  }

  /** A token whose `exp` is exactly 60 seconds after `now` is still live; one second less and it is expired. */
  lemma ExpiryBoundary(token: string, decode: string -> Decoded, now: real)
    requires token != "" && decode(token).Payload? && decode(token).exp == Some(now + ExpiryBuffer)
    requires now + ExpiryBuffer != 0.0
    ensures !IsTokenExpired(Some(token), decode, now)
    ensures IsTokenExpired(Some(token), decode, now + 1.0)
  {
  }

  /** Once expired, a token stays expired as the clock advances. */
  lemma ExpiryMonotone(token: Option<string>, decode: string -> Decoded, now: real, later: real)
    requires now <= later
    requires IsTokenExpired(token, decode, now)
    ensures IsTokenExpired(token, decode, later)
  {
  }

  /** The provider's state: storage plus the three React state variables and whether the 60-second check is scheduled. */
  datatype Session = Session(store: Store, admin: Option<AdminProfile>, authenticated: bool, loading: bool, checkArmed: bool)

  /** The state at first render: nothing known, still loading, no check scheduled. */
  function Initial(store: Store): (s: Session)
    ensures s.store == store && s.loading && !s.authenticated && s.admin.None? && !s.checkArmed
  {
    Session(store, None, false, true, false)
  }

  /** Both keys are stored, the token is live and the profile parses: the only case in which mounting signs the admin in. */
  predicate Restorable(store: Store, decode: string -> Decoded, parse: string -> Option<AdminProfile>, now: real) {
    var token := GetItem(store, AdminTokenKey);
    var data := GetItem(store, AdminDataKey);
    Truthy(token) && Truthy(data) && !IsTokenExpired(token, decode, now) && parse(data.value).Some?
  }

  /** The mount effect, from the initial state over `store`. */
  function Restore(store: Store, decode: string -> Decoded, parse: string -> Option<AdminProfile>, now: real): (r: Session)
    ensures !r.loading
    ensures r.authenticated <==> Restorable(store, decode, parse, now)
    ensures r.authenticated ==> r.store == store && r.admin.Some? && Some(r.admin.value) == parse(store[AdminDataKey])
    ensures !r.authenticated ==> r.admin.None?
    ensures !Truthy(GetItem(store, AdminTokenKey)) || !Truthy(GetItem(store, AdminDataKey)) ==> r.store == store
    ensures Truthy(GetItem(store, AdminTokenKey)) && Truthy(GetItem(store, AdminDataKey)) && !r.authenticated
            ==> r.store == store - {AdminTokenKey, AdminDataKey}
    ensures !r.checkArmed <==> Truthy(GetItem(store, AdminTokenKey)) && Truthy(GetItem(store, AdminDataKey))
                                && IsTokenExpired(GetItem(store, AdminTokenKey), decode, now)
  {
    var token := GetItem(store, AdminTokenKey);
    var data := GetItem(store, AdminDataKey);
    if Truthy(token) && Truthy(data) then
      if IsTokenExpired(token, decode, now) then
        Session(store - {AdminTokenKey, AdminDataKey}, None, false, false, false)
      else
        match parse(data.value)
        case Some(p) => Session(store, Some(p), true, false, true)
        case None => Session(store - {AdminTokenKey, AdminDataKey}, None, false, false, true)
    else Session(store, None, false, false, true)
  }

  /** Mounting never removes `adminEmail` or the user `token`, whatever it finds. */
  lemma RestoreKeepsOtherKeys(store: Store, decode: string -> Decoded, parse: string -> Option<AdminProfile>, now: real, key: string)
    requires key != AdminTokenKey && key != AdminDataKey
    ensures var r := Restore(store, decode, parse, now);
            (key in r.store <==> key in store) && (key in store ==> r.store[key] == store[key])
  {
  }

  /** With only one of the two keys stored, mounting removes nothing and leaves the admin signed out. */
  lemma RestoreWithOneKey(store: Store, decode: string -> Decoded, parse: string -> Option<AdminProfile>, now: real)
    requires AdminTokenKey in store <==> AdminDataKey !in store
    ensures Restore(store, decode, parse, now).store == store
    ensures !Restore(store, decode, parse, now).authenticated
  {
  }

  /** `adminLogout()`: the three admin keys go, the user `token` stays, and the admin is signed out. */
  function Logout(s: Session): (r: Session)
    ensures r.store == s.store - {AdminTokenKey, AdminDataKey, AdminEmailKey}
    ensures r.admin.None? && !r.authenticated
    ensures r.loading == s.loading && r.checkArmed == s.checkArmed
  {
    s.(store := s.store - {AdminTokenKey, AdminDataKey, AdminEmailKey}, admin := None, authenticated := false)
  }

  /** Signing out twice is the same as signing out once, and the user `token` is never touched. */
  lemma LogoutIdempotent(s: Session)
    ensures Logout(Logout(s)) == Logout(s)
    ensures UserTokenKey in s.store ==> UserTokenKey in Logout(s).store && Logout(s).store[UserTokenKey] == s.store[UserTokenKey]
  {
  }

  /**
   * `checkTokenExpiration()`: re-reads `adminToken`; only a stored, truthy,
   * expired token signs the admin out and reports `true`.
   */
  function ExpiryCheck(s: Session, decode: string -> Decoded, now: real): (r: (bool, Session))
    ensures r.0 <==> Truthy(GetItem(s.store, AdminTokenKey)) && IsTokenExpired(GetItem(s.store, AdminTokenKey), decode, now)
    ensures r.0 ==> r.1 == Logout(s)
    ensures !r.0 ==> r.1 == s
  {
    var token := GetItem(s.store, AdminTokenKey);
    if Truthy(token) && IsTokenExpired(token, decode, now) then (true, Logout(s)) else (false, s)
  }

  /** After an expiry check nothing stays signed in on an expired stored token. */
  lemma CheckLeavesNoExpiredToken(s: Session, decode: string -> Decoded, now: real)
    ensures var r := ExpiryCheck(s, decode, now).1;
            Truthy(GetItem(r.store, AdminTokenKey)) ==> !IsTokenExpired(GetItem(r.store, AdminTokenKey), decode, now)
  {
  }

  /** One firing of the 60-second interval: the expiry check when scheduled, nothing otherwise. */
  function Tick(s: Session, decode: string -> Decoded, now: real): (r: Session)
    ensures !s.checkArmed ==> r == s
    ensures s.checkArmed ==> r == ExpiryCheck(s, decode, now).1
  {
    if s.checkArmed then ExpiryCheck(s, decode, now).1 else s
  }

  /** The login endpoint's answer, or a thrown request carrying the server's `error` field when it has one. */
  datatype LoginReply =
    | Replied(success: bool, token: Option<string>, admin: Option<AdminProfile>, message: Option<string>, error: Option<string>)
    | Thrown(serverError: Option<string>)

  /** What `adminLogin` resolves to: `{ success, message }` or `{ success: false, error }`. */
  datatype LoginResult = LoginResult(success: bool, message: Option<string>, error: Option<string>)

  const LoginFailed: string := "Login failed"
  const NetworkError: string := "Network error. Please try again."

  /** `a || fallback` for an optional server string. */
  function OrElse(a: Option<string>, fallback: string): (r: string)
    ensures Truthy(a) ==> r == a.value
    ensures !Truthy(a) ==> r == fallback
  {
    if Truthy(a) then a.value else fallback
  }

  /**
   * `localStorage.setItem(key, v)` for a value that may be `undefined`:
   * storage converts it to the text "undefined".
   */
  function SetItem(store: Store, key: string, v: Option<string>): (r: Store)
    ensures key in r && r[key] == v.GetOr("undefined")
    ensures forall k :: k in store && k != key ==> k in r && r[k] == store[k]
    ensures forall k :: k in r ==> k == key || k in store
  {
    store[key := v.GetOr("undefined")]
  }

  /**
   * `adminLogin` after the request settles: a successful reply stores the token and
   * the serialised profile and signs the admin in; anything else writes nothing
   * and reports the server's error or a fixed message.
   */
  function Login(s: Session, reply: LoginReply, stringify: AdminProfile -> string): (r: (LoginResult, Session))
    ensures r.0.success <==> reply.Replied? && reply.success
    ensures r.0.success ==> r.1.authenticated && r.1.admin == reply.admin && r.0.message == reply.message
    ensures r.0.success ==> r.1.store == SetItem(SetItem(s.store, AdminTokenKey, reply.token), AdminDataKey,
                                                 if reply.admin.Some? then Some(stringify(reply.admin.value)) else None)
    ensures !r.0.success ==> r.1 == s && r.0.error.Some? && r.0.error.value != ""
    ensures r.1.loading == s.loading && r.1.checkArmed == s.checkArmed
    ensures reply.Replied? && !reply.success ==> r.0.error == Some(OrElse(reply.error, LoginFailed))
    ensures reply.Thrown? ==> r.0.error == Some(OrElse(reply.serverError, NetworkError))
  {
    match reply
    case Replied(success, token, admin, message, error) =>
      if success then
        var data := if admin.Some? then Some(stringify(admin.value)) else None;
        var store := SetItem(SetItem(s.store, AdminTokenKey, token), AdminDataKey, data);
        (LoginResult(true, message, None), s.(store := store, admin := admin, authenticated := true))
      else (LoginResult(false, None, Some(OrElse(error, LoginFailed))), s)
    case Thrown(serverError) => (LoginResult(false, None, Some(OrElse(serverError, NetworkError))), s)
  }

  /**
   * A login followed by a reload signs the same admin back in, provided the
   * token is live and parsing inverts serialisation for that profile.
   */
  lemma LoginThenRestore(s: Session, token: string, p: AdminProfile, message: Option<string>,
                         stringify: AdminProfile -> string, parse: string -> Option<AdminProfile>,
                         decode: string -> Decoded, now: real)
    requires token != "" && stringify(p) != "" && parse(stringify(p)) == Some(p)
    requires !IsTokenExpired(Some(token), decode, now)
    ensures var stored := Login(s, Replied(true, Some(token), Some(p), message, None), stringify).1.store;
            var r := Restore(stored, decode, parse, now);
            r.authenticated && r.admin == Some(p) && r.store == stored
  {
    var stored := Login(s, Replied(true, Some(token), Some(p), message, None), stringify).1.store;
    assert GetItem(stored, AdminTokenKey) == Some(token);
    assert GetItem(stored, AdminDataKey) == Some(stringify(p));
  }

  /** `getAdminToken()` */
  function GetAdminToken(s: Session): (t: Option<string>)
    ensures t.Some? <==> AdminTokenKey in s.store
    ensures t.Some? ==> t.value == s.store[AdminTokenKey]
  {
    GetItem(s.store, AdminTokenKey)
  }

  /** The provider component: storage and its state, updated in place by the handlers. */
  class AuthProvider {
    var store: Store
    var admin: Option<AdminProfile>
    var isAdminAuthenticated: bool
    var isLoading: bool
    var intervalArmed: bool

    function State(): Session
      reads this
    {
      Session(store, admin, isAdminAuthenticated, isLoading, intervalArmed)
    }

    /** First render over whatever storage already holds. */
    constructor (initialStore: Store)
      ensures State() == Initial(initialStore)
    {
      store := initialStore;
      admin := None;
      isAdminAuthenticated := false;
      isLoading := true;
      intervalArmed := false;
    }

    /** `adminLogout()`, one storage removal at a time. */
    method AdminLogout()
      modifies this
      ensures State() == Logout(old(State()))
    {
      store := store - {AdminTokenKey};
      store := store - {AdminDataKey};
      store := store - {AdminEmailKey};
      admin := None;
      isAdminAuthenticated := false;
    }

    /** The mount effect, with its early return on an expired stored token. */
    method MountEffect(decode: string -> Decoded, parse: string -> Option<AdminProfile>, now: real)
      requires State() == Initial(store)
      modifies this
      ensures State() == Restore(old(store), decode, parse, now)
    {
      var token := GetItem(store, AdminTokenKey);
      var adminData := GetItem(store, AdminDataKey);
      if Truthy(token) && Truthy(adminData) {
        if IsTokenExpired(token, decode, now) {
          store := store - {AdminTokenKey};
          store := store - {AdminDataKey};
          isLoading := false;
          return;
        }
        var parsed := parse(adminData.value);
        if parsed.Some? {
          admin := parsed;
          isAdminAuthenticated := true;
        } else {
          store := store - {AdminTokenKey};
          store := store - {AdminDataKey};
        }
      }
      isLoading := false;
      intervalArmed := true;
    }

    /** `checkTokenExpiration()` */
    method CheckTokenExpiration(decode: string -> Decoded, now: real) returns (expired: bool)
      modifies this
      ensures (expired, State()) == ExpiryCheck(old(State()), decode, now)
    {
      var token := GetItem(store, AdminTokenKey);
      if Truthy(token) && IsTokenExpired(token, decode, now) {
        AdminLogout();
        return true;
      }
      return false;
    }

    /** One firing of the interval set up by the mount effect. */
    method IntervalTick(decode: string -> Decoded, now: real)
      modifies this
      ensures State() == Tick(old(State()), decode, now)
    {
      if intervalArmed {
        var _ := CheckTokenExpiration(decode, now);
      }
    }

    /** The effect's clean-up: the interval is cleared. */
    method Unmount()
      modifies this
      ensures State() == old(State()).(checkArmed := false)
    {
      intervalArmed := false;
    }

    /** `adminLogin(email, password)` once the request has settled with `reply`. */
    method AdminLogin(reply: LoginReply, stringify: AdminProfile -> string) returns (result: LoginResult)
      modifies this
      ensures (result, State()) == Login(old(State()), reply, stringify)
      ensures isLoading == old(isLoading) && intervalArmed == old(intervalArmed)
    {
      match reply {
        case Replied(success, token, profile, message, error) =>
          if success {
            store := SetItem(store, AdminTokenKey, token);
            store := SetItem(store, AdminDataKey, if profile.Some? then Some(stringify(profile.value)) else None);
            admin := profile;
            isAdminAuthenticated := true;
            return LoginResult(true, message, None);
          } else {
            return LoginResult(false, None, Some(OrElse(error, LoginFailed)));
          }
        case Thrown(serverError) =>
          return LoginResult(false, None, Some(OrElse(serverError, NetworkError)));
      }
    }
  }
}
