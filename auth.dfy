// Bearer-token authentication against Microsoft's signing keys: the key cache
// with its stale fallback, key lookup by id, the token check's error
// messages, the user built from a verified payload, role checks, and the
// per-user rate limiter. Signature and claim verification is a parameter.
module Auth {
  import opened Wrappers
  import opened Text
  import opened Json
  import opened Models
  import opened Clock
  import opened Http

  /** Fetched keys are served from the cache for one hour. */
  const KeyCacheLifetime: int := 3600 * Second

  type Payload = map<string, Json>

  /** `_microsoft_keys_cache`: the last key document fetched and when it goes stale. */
  datatype KeyCacheState = KeyCacheState(keys: Option<map<string, Json>>, expiresAt: Option<Instant>)

  /** Python truthiness of the cached key document. */
  predicate HasKeys(c: KeyCacheState) {
    c.keys.Some? && c.keys.value != map[]
  }

  /** The cache answers without a fetch: keys present and not yet expired. */
  predicate CacheFresh(c: KeyCacheState, now: Instant) {
    HasKeys(c) && c.expiresAt.Some? && now < c.expiresAt.value
  }

  const KeysUnavailable: string := "Unable to fetch Microsoft public keys"

  /**
   * `get_microsoft_public_keys`: the cached keys while fresh; otherwise the
   * fetch (`Err` for any failure of the request or its body), stored with a
   * one-hour expiry; if the fetch fails, the stale keys when there are any.
   */
  function KeysStep(c: KeyCacheState, now: Instant, fetch: Result<map<string, Json>, string>)
    : (r: (KeyCacheState, Result<map<string, Json>, string>))
    ensures CacheFresh(c, now) ==> r == (c, Ok(c.keys.value))
    ensures !CacheFresh(c, now) && fetch.Ok? ==>
      r == (KeyCacheState(Some(fetch.value), Some(now + KeyCacheLifetime)), Ok(fetch.value))
    ensures fetch.Err? ==> r.0 == c
    ensures r.1.Err? <==> !HasKeys(c) && fetch.Err?
  {
    if CacheFresh(c, now) then (c, Ok(c.keys.value))
    else
      match fetch
      case Ok(k) => (KeyCacheState(Some(k), Some(now + KeyCacheLifetime)), Ok(k))
      case Err(_) => if HasKeys(c) then (c, Ok(c.keys.value)) else (c, Err(KeysUnavailable))
  }

  /** A refreshed non-empty key document is served from the cache for the following hour. */
  lemma RefreshedKeysServedForAnHour(c: KeyCacheState, now: Instant, k: map<string, Json>,
                                     later: Instant, fetch: Result<map<string, Json>, string>)
    requires !CacheFresh(c, now) && k != map[]
    requires now <= later < now + KeyCacheLifetime
    ensures var c1 := KeysStep(c, now, Ok(k)).0; KeysStep(c1, later, fetch) == (c1, Ok(k))
  {
  }

  /** When a fetch fails, previously fetched keys are still served, however old. */
  lemma StaleKeysServedOnFailure(c: KeyCacheState, now: Instant, failure: string)
    requires HasKeys(c)
    ensures KeysStep(c, now, Err(failure)).1 == Ok(c.keys.value)
  {
  }

  /** Whether a key entry's `kid` is the token's. */
  predicate KidMatches(key: Json, kid: Json) {
    key.JObj? && Get(key.fields, "kid", JNull) == kid
  }

  /**
   * Where the loop over the key entries stops: at the first entry that is no
   * object (calling `.get` on it raises) or whose `kid` matches; the length
   * when there is none.
   */
  function FirstStop(keys: seq<Json>, kid: Json): (i: nat)
    ensures i <= |keys|
    ensures forall j :: 0 <= j < i ==> keys[j].JObj? && !KidMatches(keys[j], kid)
    ensures i < |keys| ==> !keys[i].JObj? || KidMatches(keys[i], kid)
  {
    if keys == [] then 0
    else if !keys[0].JObj? || KidMatches(keys[0], kid) then 0
    else 1 + FirstStop(keys[1..], kid)
  }

  /** `str(e)` for the `AttributeError` of calling `.get` on a value of that type. */
  function NoGetMessage(v: Json): string {
    "'" + TypeName(v) + "' object has no attribute 'get'"
  }

  /** `str(e)` for the `TypeError` of iterating a value of that type. */
  function NotIterableMessage(v: Json): string {
    "'" + TypeName(v) + "' object is not iterable"
  }

  /** `keys_data.get("keys", [])`: what the lookup iterates. */
  function KeysValue(keysData: map<string, Json>): Json {
    Get(keysData, "keys", JArr([]))
  }

  /** Every entry is an object and none has that `kid`. */
  predicate NoneMatches(ks: seq<Json>, kid: Json) {
    forall j :: 0 <= j < |ks| ==> ks[j].JObj? && !KidMatches(ks[j], kid)
  }

  /** `key` is an entry with that `kid`, and every entry before it is an object. */
  predicate FoundAt(ks: seq<Json>, kid: Json, key: map<string, Json>) {
    exists j :: 0 <= j < |ks| && ks[j] == JObj(key) && KidMatches(ks[j], kid)
                && forall i :: 0 <= i < j ==> ks[i].JObj?
  }

  /** An entry that is no object comes before every matching entry. */
  predicate EntryRaises(ks: seq<Json>, kid: Json) {
    exists j :: 0 <= j < |ks| && !ks[j].JObj? && forall i :: 0 <= i < j ==> !KidMatches(ks[i], kid)
  }

  /** The loop over a list of key entries. */
  function ScanKeys(ks: seq<Json>, kid: Json): (r: Result<Option<map<string, Json>>, string>)
    ensures r.Err? <==> EntryRaises(ks, kid)
    ensures r == Ok(None) <==> NoneMatches(ks, kid)
    ensures r.Ok? && r.value.Some? ==> FoundAt(ks, kid, r.value.value)
    ensures r.Err? ==> exists j :: 0 <= j < |ks| && !ks[j].JObj? && r.error == NoGetMessage(ks[j])
  {
    var i := FirstStop(ks, kid);
    if i == |ks| then Ok(None)
    else if ks[i].JObj? then
      assert !EntryRaises(ks, kid) by {
        forall j | 0 <= j < |ks| && !ks[j].JObj? ensures !forall i' :: 0 <= i' < j ==> !KidMatches(ks[i'], kid) {
          assert i < j;
        }
      }
      Ok(Some(ks[i].fields))
    else Err(NoGetMessage(ks[i]))
  }

  /**
   * Whether the lookup raises, stated without the scan: an entry that is no
   * object comes before every matching entry of the list; a dict or a string
   * is iterated as strings, so a non-empty one raises on its first item;
   * `None`, a number or a boolean cannot be iterated at all.
   */
  predicate LookupRaises(v: Json, kid: Json) {
    match v
    case JArr(ks) => EntryRaises(ks, kid)
    case JObj(fields) => fields != map[]
    case JStr(s) => s != []
    case _ => true
  }

  /** The lookup finds nothing and raises nothing. */
  predicate LookupEmpty(v: Json, kid: Json) {
    (v.JArr? && NoneMatches(v.items, kid)) || v == JObj(map[]) || v == JStr([])
  }

  /**
   * `find_key_by_kid`: the first key with that `kid`, or nothing; `Err`
   * carries the text of the exception the loop raises.
   */
  function FindKeyByKid(keysData: map<string, Json>, kid: Json): (r: Result<Option<map<string, Json>>, string>)
    ensures r.Err? <==> LookupRaises(KeysValue(keysData), kid)
    ensures r == Ok(None) <==> LookupEmpty(KeysValue(keysData), kid)
    ensures r.Ok? && r.value.Some? ==> KeysValue(keysData).JArr? && FoundAt(KeysValue(keysData).items, kid, r.value.value)
  {
    match KeysValue(keysData)
    case JArr(ks) => ScanKeys(ks, kid)
    case JObj(fields) => if fields == map[] then Ok(None) else Err(NoGetMessage(JStr([])))
    case JStr(s) => if s == [] then Ok(None) else Err(NoGetMessage(JStr([])))
    case other => Err(NotIterableMessage(other))
  }

  /**
   * The messages of the lookup's errors: a `"keys"` value that cannot be
   * iterated names its type; a dict or a string fails on its first item, a
   * string; a list fails on its first entry that is no object.
   */
  lemma LookupErrorMessages(keysData: map<string, Json>, kid: Json)
    ensures var v := KeysValue(keysData);
      !(v.JArr? || v.JObj? || v.JStr?) ==> FindKeyByKid(keysData, kid) == Err(NotIterableMessage(v))
    ensures var v := KeysValue(keysData);
      (v.JObj? || v.JStr?) && FindKeyByKid(keysData, kid).Err? ==>
        FindKeyByKid(keysData, kid).error == "'str' object has no attribute 'get'"
    ensures var v := KeysValue(keysData);
      v.JArr? && FindKeyByKid(keysData, kid).Err? ==>
        exists j :: 0 <= j < |v.items| && !v.items[j].JObj? && FindKeyByKid(keysData, kid).error == NoGetMessage(v.items[j])
  {
    assert NoGetMessage(JStr([])) == "'str' object has no attribute 'get'";
  }

  /**
   * An entry that is no object stops the lookup with Python's error, even when
   * a matching key follows it.
   */
  lemma NonObjectEntryRefused(x: Json, kid: Json)
    requires !x.JObj?
    ensures FindKeyByKid(map["keys" := JArr([x, JObj(map["kid" := kid])])], kid) == Err(NoGetMessage(x))
  {
    var ks := [x, JObj(map["kid" := kid])];
    assert KeysValue(map["keys" := JArr(ks)]) == JArr(ks);
    assert FirstStop(ks, kid) == 0;
  }

  /** How `jwt.decode` rejects a token. */
  datatype JwtFailure = Expired | BadAudience | BadIssuer | InvalidToken(message: string) | OtherFailure(message: string)

  /** The `AuthenticationError` message for a decoding failure. */
  function JwtFailureMessage(f: JwtFailure): string {
    match f
    case Expired => "Token has expired"
    case BadAudience => "Invalid token audience"
    case BadIssuer => "Invalid token issuer"
    case InvalidToken(m) => "Invalid token: " + m
    case OtherFailure(m) => "Token verification failed: " + m
  }

  /**
   * What the token looks like to the verifier: its unverified header (or the
   * message of the decoding error), and what signature and claim checking
   * with the matching key gives.
   */
  datatype TokenView = TokenView(header: Result<map<string, Json>, string>, decoded: Result<Payload, JwtFailure>)

  /**
   * `verify_jwt_token`. Errors raised inside it (no `kid`, no keys, no
   * matching key) are caught by its own last handler, so their messages carry
   * the "Token verification failed: " prefix.
   */
  function VerifyStep(c: KeyCacheState, now: Instant, token: TokenView, fetch: Result<map<string, Json>, string>)
    : (r: (KeyCacheState, Result<Payload, string>))
    ensures r.1.Ok? ==> token.decoded.Ok? && r.1.value == token.decoded.value
    ensures r.1.Ok? ==>
      && token.header.Ok? && KeysStep(c, now, fetch).1.Ok?
      && FindKeyByKid(KeysStep(c, now, fetch).1.value, Get(token.header.value, "kid", JNull)).Ok?
      && FindKeyByKid(KeysStep(c, now, fetch).1.value, Get(token.header.value, "kid", JNull)).value.Some?
    ensures token.header.Ok? && !Truthy(Get(token.header.value, "kid", JNull)) ==>
      r == (c, Err("Token verification failed: Token missing 'kid' in header"))
  {
    match token.header
    case Err(m) => (c, Err("Invalid token: " + m))
    case Ok(header) =>
      var kid := Get(header, "kid", JNull);
      if !Truthy(kid) then (c, Err("Token verification failed: Token missing 'kid' in header"))
      else
        var (c1, keys) := KeysStep(c, now, fetch);
        match keys
        case Err(e) => (c1, Err("Token verification failed: " + e))
        case Ok(k) =>
          match FindKeyByKid(k, kid)
          case Err(m) => (c1, Err("Token verification failed: " + m))
          case Ok(None) => (c1, Err("Token verification failed: Unable to find key with kid: " + PyStr(kid)))
          case Ok(Some(_)) =>
            match token.decoded
            case Ok(p) => (c1, Ok(p))
            case Err(f) => (c1, Err(JwtFailureMessage(f)))
  }

  /**
   * A key document whose lookup raises refuses the token with the text of
   * that error, whatever the token's signature.
   */
  lemma MalformedKeysRefuseToken(c: KeyCacheState, now: Instant, token: TokenView,
                                 fetch: Result<map<string, Json>, string>, x: Json)
    requires token.header.Ok? && Truthy(Get(token.header.value, "kid", JNull)) && !x.JObj?
    requires KeysStep(c, now, fetch).1 == Ok(map["keys" := JArr([x, JObj(map["kid" := Get(token.header.value, "kid", JNull)])])])
    ensures VerifyStep(c, now, token, fetch).1 == Err("Token verification failed: " + NoGetMessage(x))
  {
    NonObjectEntryRefused(x, Get(token.header.value, "kid", JNull));
  }

  /** The module-level key cache. */
  class KeyCache {
    var keys: Option<map<string, Json>>
    var expiresAt: Option<Instant>

    function State(): KeyCacheState
      reads this
    {
      KeyCacheState(keys, expiresAt)
    }

    constructor()
      ensures State() == KeyCacheState(None, None)
    {
      keys, expiresAt := None, None;
    }

    /** `get_microsoft_public_keys` */
    method GetMicrosoftPublicKeys(now: Instant, fetch: Result<map<string, Json>, string>)
      returns (r: Result<map<string, Json>, string>)
      modifies this
      ensures (State(), r) == KeysStep(old(State()), now, fetch)
    {
      if keys.Some? && keys.value != map[] && expiresAt.Some? && now < expiresAt.value {
        return Ok(keys.value);
      }
      match fetch
      case Ok(k) =>
        keys := Some(k);
        expiresAt := Some(now + KeyCacheLifetime);
        r := Ok(k);
      case Err(_) =>
        if keys.Some? && keys.value != map[] {
          r := Ok(keys.value);
        } else {
          r := Err(KeysUnavailable);
        }
    }

    /** `verify_jwt_token` */
    method VerifyJwtToken(now: Instant, token: TokenView, fetch: Result<map<string, Json>, string>)
      returns (r: Result<Payload, string>)
      modifies this
      ensures (State(), r) == VerifyStep(old(State()), now, token, fetch)
    {
      if token.header.Err? {
        return Err("Invalid token: " + token.header.error);
      }
      var kid := Get(token.header.value, "kid", JNull);
      if !Truthy(kid) {
        return Err("Token verification failed: Token missing 'kid' in header");
      }
      var keysData := GetMicrosoftPublicKeys(now, fetch);
      if keysData.Err? {
        return Err("Token verification failed: " + keysData.error);
      }
      var key := FindKeyByKid(keysData.value, kid);
      if key.Err? {
        return Err("Token verification failed: " + key.error);
      }
      if key.value.None? {
        return Err("Token verification failed: Unable to find key with kid: " + PyStr(kid));
      }
      match token.decoded
      case Ok(p) => r := Ok(p);
      case Err(f) => r := Err(JwtFailureMessage(f));
    }
  }

  // ----- the user -----

  /** `User(payload)`: the claims it reads, each with its fallback. */
  datatype User = User(id: Json, name: Json, email: Json, roles: Json, groups: Json,
                       tenantId: Json, appId: Json, payload: Payload)

  /** `a or b` */
  function Or(a: Json, b: Json): (r: Json)
    ensures Truthy(a) ==> r == a
    ensures !Truthy(a) ==> r == b
  {
    if Truthy(a) then a else b
  }

  function UserOf(p: Payload): User {
    User(Or(Get(p, "sub", JNull), Get(p, "oid", JNull)),
         Get(p, "name", JStr("")),
         Or(Get(p, "preferred_username", JNull), Get(p, "email", JStr(""))),
         Get(p, "roles", JArr([])),
         Get(p, "groups", JArr([])),
         Get(p, "tid", JNull),
         Get(p, "aud", JNull),
         p)
  }

  /** A payload with only a subject gives empty name, e-mail, roles and groups. */
  lemma UserOfSubjectOnly(sub: string)
    requires sub != []
    ensures var u := UserOf(map["sub" := JStr(sub)]);
      u.id == JStr(sub) && u.name == JStr("") && u.email == JStr("") && u.roles == JArr([]) && u.groups == JArr([])
  {
  }

  /** The object id stands in for a missing or empty subject. */
  lemma UserIdFallsBackToOid(p: Payload)
    requires !Truthy(Get(p, "sub", JNull))
    ensures UserOf(p).id == Get(p, "oid", JNull)
  {
  }

  /** `has_role`: `role in roles`; `None` where the claim is no container and Python raises. */
  function HasRole(u: User, role: string): Option<bool> {
    PyIn(role, u.roles)
  }

  /** `is_in_group` */
  function IsInGroup(u: User, group: string): Option<bool> {
    PyIn(group, u.groups)
  }

  /** `any(role in self.roles for role in roles)`, stopping at the first hit. */
  function HasAnyRole(u: User, wanted: seq<string>): (r: Option<bool>)
    ensures wanted == [] ==> r == Some(false)
  {
    if wanted == [] then Some(false)
    else
      match PyIn(wanted[0], u.roles)
      case None => None
      case Some(true) => Some(true)
      case Some(false) => HasAnyRole(u, wanted[1..])
  }

  /** For a list of roles, `has_any_role` holds iff one of the wanted roles is in it. */
  lemma {:induction false} HasAnyRoleOfList(u: User, wanted: seq<string>)
    requires u.roles.JArr?
    ensures HasAnyRole(u, wanted) == Some(exists i :: 0 <= i < |wanted| && JStr(wanted[i]) in u.roles.items)
  {
    if wanted != [] {
      HasAnyRoleOfList(u, wanted[1..]);
      if JStr(wanted[0]) !in u.roles.items {
        assert (exists i :: 0 <= i < |wanted| && JStr(wanted[i]) in u.roles.items)
           <==> (exists i :: 0 <= i < |wanted[1..]| && JStr(wanted[1..][i]) in u.roles.items) by {
          if i :| 0 <= i < |wanted| && JStr(wanted[i]) in u.roles.items {
            assert i > 0 && wanted[1..][i - 1] == wanted[i];
          }
          if i :| 0 <= i < |wanted[1..]| && JStr(wanted[1..][i]) in u.roles.items {
            assert wanted[i + 1] == wanted[1..][i];
          }
        }
      }
    }
  }

  const AdminRoles: seq<string> := ["admin", "administrator", "Admin", "Administrator"]

  /** `check_admin_access` */
  function CheckAdminAccess(u: User): Option<bool> {
    HasAnyRole(u, AdminRoles)
  }

  /** Admin roles are matched exactly: a user whose only role is `"ADMIN"` is not an administrator. */
  lemma AdminRolesMatchedExactly(u: User)
    requires u.roles == JArr([JStr("ADMIN")])
    ensures CheckAdminAccess(u) == Some(false)
  {
    HasAnyRoleOfList(u, AdminRoles);
    assert forall i :: 0 <= i < |AdminRoles| ==> AdminRoles[i] != "ADMIN";
  }

  /** Any one of the four admin spellings grants admin access. */
  lemma AdminRoleGrants(u: User, i: nat)
    requires i < |AdminRoles| && u.roles.JArr? && JStr(AdminRoles[i]) in u.roles.items
    ensures CheckAdminAccess(u) == Some(true)
  {
    HasAnyRoleOfList(u, AdminRoles);
  }

  /** An error the role dependencies raise when `any(...)` itself fails. */
  const RoleCheckFailed: HttpError := Fail(InternalServerError, "Internal Server Error")

  /** `require_admin`: the user if an admin role is held, else 403. */
  function RequireAdmin(u: User): (r: Result<User, HttpError>)
    ensures r.Ok? <==> CheckAdminAccess(u) == Some(true)
    ensures CheckAdminAccess(u) == Some(false) ==> r == Err(Fail(Forbidden, "Administrator privileges required"))
  {
    match CheckAdminAccess(u)
    case Some(true) => Ok(u)
    case Some(false) => Err(Fail(Forbidden, "Administrator privileges required"))
    case None => Err(RoleCheckFailed)
  }

  /** `str(list_of_strings)` */
  function ListRepr(xs: seq<string>): string {
    "[" + Join(", ", seq(|xs|, i requires 0 <= i < |xs| => "'" + xs[i] + "'")) + "]"
  }

  /** The dependency `require_roles(required)` builds: the user if any listed role is held, else 403. */
  function RequireRoles(required: seq<string>, u: User): (r: Result<User, HttpError>)
    ensures r.Ok? <==> HasAnyRole(u, required) == Some(true)
    ensures required == [] ==> r.Err? && r.error.status == Forbidden
  {
    match HasAnyRole(u, required)
    case Some(true) => Ok(u)
    case Some(false) => Err(Fail(Forbidden, "Insufficient privileges. Required roles: " + ListRepr(required)))
    case None => Err(RoleCheckFailed)
  }

  // ----- authentication outcomes -----
  // `credentials` is the bearer token, if the request carried one; `verified`
  // is what `verify_jwt_token` gave for it.

  /** `require_authentication`: 401 with a Bearer challenge unless a token is present and verifies. */
  function RequireAuthentication(credentials: Option<string>, verified: Result<Payload, string>): (r: Result<User, HttpError>)
    ensures r.Ok? <==> credentials.Some? && verified.Ok?
    ensures r.Ok? ==> r.value == UserOf(verified.value)
    ensures r.Err? ==> r.error.status == Unauthorized && r.error.bearerChallenge
    ensures credentials.Some? && verified.Err? ==> r.error.detail == verified.error
  {
    if credentials.None? then Err(HttpError(Unauthorized, "Authentication required", true))
    else
      match verified
      case Err(m) => Err(HttpError(Unauthorized, m, true))
      case Ok(p) => Ok(UserOf(p))
  }

  /** `get_current_user`: the user, or `None` instead of an error. */
  function GetCurrentUser(credentials: Option<string>, verified: Result<Payload, string>): (r: Option<User>)
  {
    if credentials.None? then None
    else
      match verified
      case Err(_) => None
      case Ok(p) => Some(UserOf(p))
  }

  /** `optional_authentication`: the same outcome as `get_current_user`. */
  function OptionalAuthentication(credentials: Option<string>, verified: Result<Payload, string>): (r: Option<User>)
  {
    if credentials.Some? && verified.Ok? then Some(UserOf(verified.value)) else None
  }

  /**
   * The optional forms give a user exactly when `require_authentication`
   * would, and nothing where it raises.
   */
  lemma OptionalMatchesRequired(credentials: Option<string>, verified: Result<Payload, string>)
    ensures GetCurrentUser(credentials, verified) == OptionalAuthentication(credentials, verified)
    ensures var req := RequireAuthentication(credentials, verified);
      GetCurrentUser(credentials, verified) == if req.Ok? then Some(req.value) else None
  {
  }

  /** `create_auth_response_headers`: each claim, or `""` when it is missing or empty. */
  function AuthResponseHeaders(u: User): (h: map<string, Json>)
    ensures h.Keys == {"X-User-ID", "X-User-Name", "X-User-Email"}
    ensures Truthy(u.id) ==> h["X-User-ID"] == u.id
    ensures !Truthy(u.id) ==> h["X-User-ID"] == JStr("")
    ensures Truthy(u.name) ==> h["X-User-Name"] == u.name
    ensures !Truthy(u.name) ==> h["X-User-Name"] == JStr("")
    ensures Truthy(u.email) ==> h["X-User-Email"] == u.email
    ensures !Truthy(u.email) ==> h["X-User-Email"] == JStr("")
  {
    map["X-User-ID" := Or(u.id, JStr("")), "X-User-Name" := Or(u.name, JStr("")), "X-User-Email" := Or(u.email, JStr(""))]
  }

  // ----- rate limiting -----

  const DefaultLimit: int := 100
  const DefaultWindow: int := 3600

  /** The instants recorded for a key, none if it has none yet. */
  function History<K>(requests: map<K, seq<Instant>>, key: K): seq<Instant> {
    if key in requests then requests[key] else []
  }

  /** The middleware's limiter: the instants of each user's recent requests. */
  class RateLimiter {
    var requests: map<Json, seq<Instant>>

    constructor()
      ensures requests == map[]
    {
      requests := map[];
    }

    /** Every user has at most `limit` recorded requests. */
    predicate Bounded(limit: int)
      reads this
    {
      forall u :: u in requests ==> |requests[u]| <= limit
    }

    /**
     * `is_allowed`: prune the user's history to the window, refuse without
     * recording when `limit` requests remain, otherwise record `now`.
     */
    method IsAllowed(userId: Json, now: Instant, limit: int, window: int) returns (allowed: bool)
      modifies this
      ensures var kept := Prune(History(old(requests), userId), now, window);
        allowed == (|kept| < limit)
        && requests == old(requests)[userId := if allowed then kept + [now] else kept]
      ensures old(Bounded(limit)) && limit >= 0 ==> Bounded(limit)
    {
      if userId !in requests {
        requests := requests[userId := []];
      }
      requests := requests[userId := Prune(requests[userId], now, window)];
      if |requests[userId]| >= limit {
        return false;
      }
      requests := requests[userId := requests[userId] + [now]];
      allowed := true;
    }
  }

  /**
   * `check_rate_limit`: the user, or 429 once the limit is reached; the
   * user's history is pruned to the hour and records this request only when
   * it is let through.
   */
  method CheckRateLimit(limiter: RateLimiter, u: User, now: Instant, limit: int) returns (r: Result<User, HttpError>)
    modifies limiter
    ensures var kept := Prune(History(old(limiter.requests), u.id), now, DefaultWindow);
      r == (if |kept| < limit then Ok(u) else Err(Fail(TooManyRequests, "Rate limit exceeded")))
      && limiter.requests == old(limiter.requests)[u.id := if r.Ok? then kept + [now] else kept]
    ensures old(limiter.Bounded(limit)) && limit >= 0 ==> limiter.Bounded(limit)
  {
    var allowed := limiter.IsAllowed(u.id, now, limit, DefaultWindow);
    if !allowed {
      return Err(Fail(TooManyRequests, "Rate limit exceeded"));
    }
    r := Ok(u);
  }
}
