/**
 * The authentication and workspace-authorisation rules: parsing the bearer
 * header, reading workspace memberships embedded in the token's claims,
 * merging them with memberships fetched from the identity provider, the
 * default-workspace fallback, the platform-admin rule and the workspace-role
 * gate.
 *
 * Decoding and verifying the JWT and the HTTP lookup of memberships are
 * parameters: `decode` yields the claims of a token (or nothing when the
 * token is rejected) and `remote` is what the membership lookup returned or
 * the error it raised.
 */
module Auth {
  import opened Values

  /** An `AuthError` (an HTTP error with a status code), or an exception the code does not catch. */
  datatype AuthFailure =
    | Http(status: nat, detail: string)
    | Crash(exception: string)

  const Unauthorized: nat := 401
  const Forbidden: nat := 403
  const ServiceUnavailable: nat := 503

  /** The settings the rules consult; the JWT secret is folded into `decode`. */
  datatype Settings = Settings(
    supabaseUrl: Option<string>,
    serviceRoleKey: Option<string>,
    defaultWorkspaceId: string,
    defaultWorkspaceGroupId: Option<string>,
    defaultWorkspaceRole: string,
    disableAuth: bool)

  /** `has_supabase_sync`: both the provider URL and the service key are set and non-empty. */
  predicate HasSupabaseSync(settings: Settings) {
    && settings.supabaseUrl.Some? && settings.supabaseUrl.value != ""
    && settings.serviceRoleKey.Some? && settings.serviceRoleKey.value != ""
  }

  datatype Membership = Membership(workspaceId: string, groupId: Option<string>, role: string)

  datatype User = User(userId: string, email: Value, memberships: map<string, Membership>, isPlatformAdmin: bool)

  /** The decoded claims of a token. */
  type Claims = map<string, Value>

  // ---------------------------------------------------------------------------
  // The bearer header

  /** `s.partition(" ")`: the text before the first space and the text after it ("" when there is none). */
  function Partition(s: string): (parts: (string, string))
    ensures ' ' !in parts.0
    ensures ' ' in s ==> s == parts.0 + " " + parts.1
    ensures ' ' !in s ==> parts == (s, "")
  {
    if s == [] then ("", "")
    else if s[0] == ' ' then ("", s[1..])
    else
      var rest := Partition(s[1..]);
      assert s == [s[0]] + s[1..];
      ([s[0]] + rest.0, rest.1)
  }

  /**
   * `_extract_token`: an empty header is refused as missing; otherwise the
   * part before the first space must be "bearer" in any letter case and the
   * part after it non-empty, and that part is the token.
   *
   * Python lowers the scheme with full Unicode case mapping; lowering ASCII
   * letters only gives the same verdict, because no other character lowers
   * to one of the letters of "bearer".
   */
  function ExtractToken(authorization: string): (r: Result<string, AuthFailure>)
    ensures authorization == "" ==> r == Err(Http(Unauthorized, "Authorization header required"))
    ensures authorization != "" && r.Err? ==> r == Err(Http(Unauthorized, "Bearer token required"))
    ensures r.Ok? <==> |authorization| > 7 && AsciiLower(authorization[..6]) == "bearer" && authorization[6] == ' '
    ensures r.Ok? ==> r.value == authorization[7..] && r.value != ""
  {
    if authorization == "" then Err(Http(Unauthorized, "Authorization header required"))
    else
      var parts := Partition(authorization);
      if AsciiLower(parts.0) != "bearer" || parts.1 == "" then Err(Http(Unauthorized, "Bearer token required"))
      else
        assert ' ' in authorization;
        SchemeSplit(authorization, parts.0, parts.1);
        Ok(parts.1)
  }

  /** Where a six-letter scheme ends the header. */
  lemma SchemeSplit(s: string, scheme: string, token: string)
    requires s == scheme + " " + token && ' ' !in scheme
    ensures |scheme| == 6 ==> |s| == 7 + |token| && s[..6] == scheme && s[6] == ' ' && s[7..] == token
  {
  }

  // ---------------------------------------------------------------------------
  // Memberships in the claims

  /** `payload.get("app_metadata", {}).get(key)`; calling `.get` on a non-dict raises AttributeError. */
  function AppMetadataGet(payload: Claims, key: string): (r: Result<Value, AuthFailure>)
    ensures "app_metadata" !in payload ==> r == Ok(VNone)
    ensures r.Err? <==> "app_metadata" in payload && !payload["app_metadata"].VDict?
  {
    if "app_metadata" !in payload then Ok(VNone)
    else match payload["app_metadata"]
      case VDict(entries) => Ok(Get(entries, key, VNone))
      case _ => Err(Crash("AttributeError"))
  }

  /**
   * The `workspace_roles` claim the memberships are read from: the top-level
   * one when it is truthy, the one under `app_metadata` otherwise.
   */
  function EmbeddedRoles(payload: Claims): (r: Result<Value, AuthFailure>)
    ensures "workspace_roles" in payload && Truthy(payload["workspace_roles"]) ==> r == Ok(payload["workspace_roles"])
    ensures !("workspace_roles" in payload && Truthy(payload["workspace_roles"])) ==>
      r == (match AppMetadataGet(payload, "workspace_roles")
            case Err(e) => Err(e)
            case Ok(v) => Ok(Or(Get(payload, "workspace_roles", VNone), v)))
  {
    var top := Get(payload, "workspace_roles", VNone);
    if Truthy(top) then Ok(top)
    else match AppMetadataGet(payload, "workspace_roles")
      case Err(e) => Err(e)
      case Ok(v) => Ok(Or(top, v))
  }

  /**
   * `WorkspaceMembership(**entry)`: the entry must be a dict whose
   * `workspace_id` and `role` are strings and whose `group_id`, if present, is
   * a string or None; anything else fails validation.
   */
  function ParseMembership(entry: Value): (m: Option<Membership>)
    ensures m.Some? ==> entry.VDict? && "workspace_id" in entry.entries && "role" in entry.entries
    ensures m.Some? ==> entry.entries["workspace_id"] == VStr(m.value.workspaceId)
    ensures m.Some? ==> entry.entries["role"] == VStr(m.value.role)
  {
    match entry
    case VDict(e) =>
      if "workspace_id" in e && e["workspace_id"].VStr? && "role" in e && e["role"].VStr? then
        var group := Get(e, "group_id", VNone);
        if group.VNone? then Some(Membership(e["workspace_id"].s, None, e["role"].s))
        else if group.VStr? then Some(Membership(e["workspace_id"].s, Some(group.s), e["role"].s))
        else None
      else None
    case _ => None
  }

  /** The memberships of the valid entries, in the order of the entries. */
  function ValidMemberships(entries: seq<Value>): (ms: seq<Membership>)
    ensures |ms| <= |entries|
  {
    if entries == [] then []
    else
      var rest := ValidMemberships(entries[1..]);
      match ParseMembership(entries[0])
      case Some(m) => [m] + rest
      case None => rest
  }

  /** Skipping invalid entries works entry by entry: the valid ones are kept in their order. */
  lemma {:induction false} ValidMembershipsAppend(a: seq<Value>, b: seq<Value>)
    ensures ValidMemberships(a + b) == ValidMemberships(a) + ValidMemberships(b)
  {
    if a == [] {
      assert a + b == b;
    } else {
      assert (a + b)[0] == a[0] && (a + b)[1..] == a[1..] + b;
      ValidMembershipsAppend(a[1..], b);
    }
  }

  /** A membership is kept exactly when some entry parses to it. */
  lemma {:induction false} ValidMembershipsMembers(entries: seq<Value>, m: Membership)
    ensures m in ValidMemberships(entries) <==> exists i :: 0 <= i < |entries| && ParseMembership(entries[i]) == Some(m)
  {
    if entries != [] {
      ValidMembershipsMembers(entries[1..], m);
      if exists i :: 0 <= i < |entries[1..]| && ParseMembership(entries[1..][i]) == Some(m) {
        var i :| 0 <= i < |entries[1..]| && ParseMembership(entries[1..][i]) == Some(m);
        assert ParseMembership(entries[i + 1]) == Some(m);
      }
      if exists i :: 0 <= i < |entries| && ParseMembership(entries[i]) == Some(m) {
        var i :| 0 <= i < |entries| && ParseMembership(entries[i]) == Some(m);
        if i > 0 {
          assert entries[1..][i - 1] == entries[i];
        }
      }
    }
  }

  /** The memberships embedded in the claims, or the exception reading them raises. */
  function ClaimedMemberships(lib: Lib, payload: Claims): Result<seq<Membership>, AuthFailure> {
    match EmbeddedRoles(payload)
    case Err(e) => Err(e)
    case Ok(v) =>
      if !Truthy(v) then Ok([])
      else match Iterate(lib, v)
        case None => Err(Crash("TypeError"))
        case Some(entries) => Ok(ValidMemberships(entries))
  }

  /**
   * `_load_memberships_from_claims`: the memberships of the valid entries of
   * the embedded `workspace_roles` claim, in claim order; none when the claim
   * is absent or falsy. Iterating a value that is not iterable raises.
   */
  method LoadMembershipsFromClaims(lib: Lib, payload: Claims) returns (r: Result<seq<Membership>, AuthFailure>)
    ensures EmbeddedRoles(payload).Err? ==> r == Err(EmbeddedRoles(payload).error)
    ensures EmbeddedRoles(payload).Ok? && !Truthy(EmbeddedRoles(payload).value) ==> r == Ok([])
    ensures EmbeddedRoles(payload).Ok? && Truthy(EmbeddedRoles(payload).value) ==>
      match Iterate(lib, EmbeddedRoles(payload).value)
      case None => r == Err(Crash("TypeError"))
      case Some(entries) => r == Ok(ValidMemberships(entries))
    ensures r == ClaimedMemberships(lib, payload)
  {
    var embedded := EmbeddedRoles(payload);
    if embedded.Err? {
      return Err(embedded.error);
    }
    if !Truthy(embedded.value) {
      return Ok([]);
    }
    var items := Iterate(lib, embedded.value);
    if items.None? {
      return Err(Crash("TypeError"));
    }
    var entries := items.value;
    var memberships: seq<Membership> := [];
    var i := 0;
    while i < |entries|
      invariant 0 <= i <= |entries|
      invariant memberships == ValidMemberships(entries[..i])
    {
      var parsed := ParseMembership(entries[i]);
      ValidMembershipsAppend(entries[..i], [entries[i]]);
      assert entries[..i + 1] == entries[..i] + [entries[i]];
      if parsed.Some? {
        memberships := memberships + [parsed.value];
      }
      i := i + 1;
    }
    assert entries[..i] == entries;
    r := Ok(memberships);
  }

  // ---------------------------------------------------------------------------
  // Memberships keyed by workspace

  /** `{m.workspace_id: m for m in ms}`: each workspace mapped to its last membership in `ms`. */
  function Keyed(ms: seq<Membership>): map<string, Membership> {
    if ms == [] then map[]
    else Keyed(ms[..|ms| - 1])[ms[|ms| - 1].workspaceId := ms[|ms| - 1]]
  }

  /** Keying a concatenation lets the later part win. */
  lemma {:induction false} KeyedAppend(a: seq<Membership>, b: seq<Membership>)
    ensures Keyed(a + b) == Keyed(a) + Keyed(b)
  {
    if b == [] {
      assert a + b == a;
    } else {
      var b' := b[..|b| - 1];
      var last := b[|b| - 1];
      assert (a + b)[..|a + b| - 1] == a + b';
      KeyedAppend(a, b');
    }
  }

  /**
   * A workspace is keyed exactly when some membership names it, and it is
   * keyed to the last membership that does.
   */
  lemma {:induction false} KeyedLast(ms: seq<Membership>, w: string)
    ensures w in Keyed(ms) <==> exists i :: 0 <= i < |ms| && ms[i].workspaceId == w
    ensures w in Keyed(ms) ==> exists j :: (0 <= j < |ms| && ms[j] == Keyed(ms)[w] && ms[j].workspaceId == w
      && forall k :: j < k < |ms| ==> ms[k].workspaceId != w)
  {
    if ms != [] {
      var p := ms[..|ms| - 1];
      var last := ms[|ms| - 1];
      KeyedLast(p, w);
      if last.workspaceId != w {
        if exists i :: 0 <= i < |ms| && ms[i].workspaceId == w {
          var i :| 0 <= i < |ms| && ms[i].workspaceId == w;
          assert p[i] == ms[i];
        }
        if w in Keyed(ms) {
          var j :| 0 <= j < |p| && p[j] == Keyed(p)[w] && p[j].workspaceId == w
            && forall k :: j < k < |p| ==> p[k].workspaceId != w;
          assert ms[j] == p[j];
          forall k | j < k < |ms| ensures ms[k].workspaceId != w {
            if k < |p| { assert ms[k] == p[k]; }
          }
        }
      }
    }
  }

  /**
   * The loop `for m in ms: merged[m.workspace_id] = m` (and the dict
   * comprehension it starts from): every membership written over what
   * `base` held for its workspace.
   */
  method Overlay(base: map<string, Membership>, ms: seq<Membership>) returns (merged: map<string, Membership>)
    ensures merged == base + Keyed(ms)
  {
    merged := base;
    var i := 0;
    while i < |ms|
      invariant 0 <= i <= |ms|
      invariant merged == base + Keyed(ms[..i])
    {
      assert ms[..i + 1][..i] == ms[..i];
      merged := merged[ms[i].workspaceId := ms[i]];
      i := i + 1;
    }
    assert ms[..i] == ms;
  }

  /** The membership granted to a user with none, in the default workspace. */
  function DefaultMembership(settings: Settings): Membership {
    Membership(settings.defaultWorkspaceId, settings.defaultWorkspaceGroupId, settings.defaultWorkspaceRole)
  }

  /**
   * The memberships `_resolve_memberships` settles on. With provider sync the
   * fetched memberships are laid over the embedded ones and nothing else is
   * added; a failed fetch surfaces its HTTP error as it is, and any other
   * exception becomes a 503. Without it the embedded
   * memberships are keyed by workspace, and a user left with none who is not
   * a platform admin is given the default workspace, when one is configured.
   */
  function Resolved(lib: Lib, payload: Claims, settings: Settings, isPlatformAdmin: bool,
                    remote: Result<seq<Membership>, AuthFailure>): Result<map<string, Membership>, AuthFailure>
  {
    match ClaimedMemberships(lib, payload)
    case Err(e) => Err(e)
    case Ok(embedded) =>
      if HasSupabaseSync(settings) then
        match remote
        case Err(Http(status, message)) => Err(Http(status, message))
        case Err(Crash(_)) => Err(LookupUnavailable)
        case Ok(fetched) => Ok(Keyed(embedded) + Keyed(fetched))
      else
        var resolved := Keyed(embedded);
        if resolved == map[] && !isPlatformAdmin && settings.defaultWorkspaceId != "" then
          Ok(map[settings.defaultWorkspaceId := DefaultMembership(settings)])
        else Ok(resolved)
  }

  /** What an unexpected failure of the provider lookup is reported as. */
  const LookupUnavailable := Http(ServiceUnavailable, "Unable to validate workspace membership")

  /** `_resolve_memberships`, which builds the dictionaries step by step. */
  method ResolveMemberships(lib: Lib, payload: Claims, settings: Settings, isPlatformAdmin: bool,
                            remote: Result<seq<Membership>, AuthFailure>)
    returns (r: Result<map<string, Membership>, AuthFailure>)
    ensures r == Resolved(lib, payload, settings, isPlatformAdmin, remote)
  {
    var loaded := LoadMembershipsFromClaims(lib, payload);
    if loaded.Err? {
      return Err(loaded.error);
    }
    var embedded := loaded.value;
    if HasSupabaseSync(settings) {
      if remote.Err? {
        if remote.error.Crash? {
          return Err(LookupUnavailable);
        }
        return Err(remote.error);
      }
      var merged := Overlay(map[], embedded);
      merged := Overlay(merged, remote.value);
      assert merged == Keyed(embedded) + Keyed(remote.value);
      return Ok(merged);
    }
    var resolved := Overlay(map[], embedded);
    assert resolved == Keyed(embedded);
    if resolved == map[] && !isPlatformAdmin && settings.defaultWorkspaceId != "" {
      resolved := resolved[settings.defaultWorkspaceId := DefaultMembership(settings)];
    }
    r := Ok(resolved);
  }

  /** Some membership in `ms` names workspace `w`. */
  predicate Names(ms: seq<Membership>, w: string) {
    exists i :: 0 <= i < |ms| && ms[i].workspaceId == w
  }

  /**
   * With provider sync, a user belongs to exactly the workspaces the claims
   * or the provider name; for a workspace the provider names, the provider's
   * (last) membership is the one kept, and the default workspace is never
   * added on its own. A lookup that fails with an HTTP error fails the
   * resolution with that same error; one that fails any other way fails it
   * with a 503.
   */
  lemma SyncedMemberships(lib: Lib, payload: Claims, settings: Settings, isPlatformAdmin: bool,
                          remote: Result<seq<Membership>, AuthFailure>, w: string)
    requires HasSupabaseSync(settings)
    requires ClaimedMemberships(lib, payload).Ok?
    ensures var r := Resolved(lib, payload, settings, isPlatformAdmin, remote);
      && (remote.Err? && remote.error.Http? ==> r == Err(remote.error))
      && (remote.Err? && remote.error.Crash? ==> r == Err(Http(503, "Unable to validate workspace membership")))
      && (remote.Ok? ==>
            && r.Ok?
            && (w in r.value <==> Names(ClaimedMemberships(lib, payload).value, w) || Names(remote.value, w))
            && (Names(remote.value, w) ==>
                  w in Keyed(remote.value) && r.value[w] == Keyed(remote.value)[w] && r.value[w].workspaceId == w))
  {
    if remote.Ok? {
      KeyedLast(ClaimedMemberships(lib, payload).value, w);
      KeyedLast(remote.value, w);
    }
  }

  /**
   * Without provider sync, a user belongs to the workspaces the valid claims
   * name; a user with none, who is not a platform admin, belongs to the
   * configured default workspace (when there is one) and to nothing else.
   */
  lemma UnsyncedMemberships(lib: Lib, payload: Claims, settings: Settings, isPlatformAdmin: bool,
                            remote: Result<seq<Membership>, AuthFailure>, w: string)
    requires !HasSupabaseSync(settings)
    requires ClaimedMemberships(lib, payload).Ok?
    ensures var claimed := ClaimedMemberships(lib, payload).value;
      var r := Resolved(lib, payload, settings, isPlatformAdmin, remote);
      && r.Ok?
      && (w in r.value <==>
            Names(claimed, w)
            || (claimed == [] && !isPlatformAdmin && w == settings.defaultWorkspaceId && w != ""))
      && (w in r.value && !Names(claimed, w) ==> r.value[w] == DefaultMembership(settings))
  {
    var claimed := ClaimedMemberships(lib, payload).value;
    KeyedLast(claimed, w);
    KeyedEmpty(claimed);
  }

  /** Keying yields no workspace exactly when there are no memberships. */
  lemma KeyedEmpty(ms: seq<Membership>)
    ensures Keyed(ms) == map[] <==> ms == []
  {
    if ms != [] {
      KeyedLast(ms, ms[0].workspaceId);
      assert ms[0].workspaceId in Keyed(ms);
    }
  }

  // ---------------------------------------------------------------------------
  // The authenticated user

  /**
   * The platform-admin rule: the `role` claim is "service_role", or the
   * `is_platform_admin` claim is truthy, or `app_metadata.platform_admin` is
   * truthy. The claims are consulted in that order, so a malformed
   * `app_metadata` only matters when the first two do not decide.
   */
  function IsPlatformAdmin(payload: Claims): (r: Result<bool, AuthFailure>)
    ensures r == Ok(true) <==>
      || Get(payload, "role", VNone) == VStr("service_role")
      || Truthy(Get(payload, "is_platform_admin", VNone))
      || (AppMetadataGet(payload, "platform_admin").Ok? && Truthy(AppMetadataGet(payload, "platform_admin").value))
    ensures r.Err? <==>
      && Get(payload, "role", VNone) != VStr("service_role")
      && !Truthy(Get(payload, "is_platform_admin", VNone))
      && "app_metadata" in payload && !payload["app_metadata"].VDict?
  {
    if Get(payload, "role", VNone) == VStr("service_role") then Ok(true)
    else if Truthy(Get(payload, "is_platform_admin", VNone)) then Ok(true)
    else match AppMetadataGet(payload, "platform_admin")
      case Err(e) => Err(e)
      case Ok(v) => Ok(Truthy(v))
  }

  /** The user every request is served as when authentication is disabled. */
  const DevUser := User("dev-user", VStr("dev@example.com"),
                        map["default-workspace" := Membership("default-workspace", None, "admin")], true)

  /**
   * `_build_auth_context`. With authentication disabled the development user
   * is returned without looking at the header. Otherwise the header must hold
   * a bearer token whose claims `decode` accepts and name a subject; the user
   * carries that subject, the `email` claim, the admin verdict and the
   * resolved memberships. A failure of the admin rule or of the membership
   * resolution is passed on, and a subject that is not a string, or an email
   * that is neither a string nor missing, fails the user's validation.
   * `fetch` stands for the provider lookup of a user's memberships.
   */
  method BuildAuthContext(lib: Lib, authorization: Option<string>, settings: Settings,
                          decode: string -> Option<Claims>,
                          fetch: Value -> Result<seq<Membership>, AuthFailure>)
    returns (r: Result<User, AuthFailure>)
    ensures settings.disableAuth ==> r == Ok(DevUser)
    ensures !settings.disableAuth && (authorization.None? || authorization.value == "") ==>
      r == Err(Http(Unauthorized, "Authorization header required"))
    ensures !settings.disableAuth && authorization.Some? && ExtractToken(authorization.value).Err? ==>
      r == Err(ExtractToken(authorization.value).error)
    ensures (!settings.disableAuth && authorization.Some? && ExtractToken(authorization.value).Ok?
             && decode(ExtractToken(authorization.value).value).None?) ==>
      r == Err(Http(Unauthorized, "Invalid access token"))
    ensures !settings.disableAuth && r.Ok? ==>
      && authorization.Some?
      && ExtractToken(authorization.value).Ok?
      && var claims := decode(ExtractToken(authorization.value).value);
      && claims.Some?
      && Get(claims.value, "sub", VNone) == VStr(r.value.userId)
      && r.value.userId != ""
      && IsPlatformAdmin(claims.value) == Ok(r.value.isPlatformAdmin)
      && Resolved(lib, claims.value, settings, r.value.isPlatformAdmin, fetch(VStr(r.value.userId)))
         == Ok(r.value.memberships)
    ensures (!settings.disableAuth && authorization.Some? && ExtractToken(authorization.value).Ok?
             && decode(ExtractToken(authorization.value).value).Some?
             && !Truthy(Get(decode(ExtractToken(authorization.value).value).value, "sub", VNone))) ==>
      r == Err(Http(Unauthorized, "Token missing subject (sub)"))
    ensures (!settings.disableAuth && authorization.Some? && ExtractToken(authorization.value).Ok?
             && decode(ExtractToken(authorization.value).value).Some?
             && Truthy(Get(decode(ExtractToken(authorization.value).value).value, "sub", VNone))) ==>
      var claims := decode(ExtractToken(authorization.value).value).value;
      var sub := Get(claims, "sub", VNone);
      var email := Get(claims, "email", VNone);
      match IsPlatformAdmin(claims)
      case Err(e) => r == Err(e)
      case Ok(admin) =>
        match Resolved(lib, claims, settings, admin, fetch(sub))
        case Err(e) => r == Err(e)
        case Ok(memberships) =>
          if sub.VStr? && (email.VStr? || email.VNone?) then r == Ok(User(sub.s, email, memberships, admin))
          else r == Err(Crash("ValidationError"))
  {
    if settings.disableAuth {
      return Ok(DevUser);
    }
    if authorization.None? || authorization.value == "" {
      return Err(Http(Unauthorized, "Authorization header required"));
    }
    var token := ExtractToken(authorization.value);
    if token.Err? {
      return Err(token.error);
    }
    var claims := decode(token.value);
    if claims.None? {
      return Err(Http(Unauthorized, "Invalid access token"));
    }
    var payload := claims.value;
    var sub := Get(payload, "sub", VNone);
    if !Truthy(sub) {
      return Err(Http(Unauthorized, "Token missing subject (sub)"));
    }
    var admin := IsPlatformAdmin(payload);
    if admin.Err? {
      return Err(admin.error);
    }
    var memberships := ResolveMemberships(lib, payload, settings, admin.value, fetch(sub));
    if memberships.Err? {
      return Err(memberships.error);
    }
    // pydantic accepts only a string subject and a string or missing email
    var email := Get(payload, "email", VNone);
    if !sub.VStr? || !(email.VStr? || email.VNone?) {
      return Err(Crash("ValidationError"));
    }
    r := Ok(User(sub.s, email, memberships.value, admin.value));
  }

  /**
   * The `require_workspace_role` gate: platform admins always pass; anyone
   * else needs a membership in the workspace and, when a non-empty list of
   * roles is given, a membership role from that list. The user passes
   * through unchanged.
   */
  function RequireWorkspaceRole(allowedRoles: Option<seq<string>>, workspaceId: string, user: User): (r: Result<User, AuthFailure>)
    ensures r.Ok? <==>
      || user.isPlatformAdmin
      || (&& workspaceId in user.memberships
          && (allowedRoles.None? || allowedRoles.value == [] || user.memberships[workspaceId].role in allowedRoles.value))
    ensures r.Ok? ==> r.value == user
    ensures r.Err? && workspaceId !in user.memberships ==> r == Err(Http(Forbidden, "User not a member of this workspace"))
    ensures r.Err? && workspaceId in user.memberships ==> r == Err(Http(Forbidden, "Insufficient role for workspace"))
  {
    if workspaceId !in user.memberships && !user.isPlatformAdmin then
      Err(Http(Forbidden, "User not a member of this workspace"))
    else if allowedRoles.Some? && allowedRoles.value != [] && !user.isPlatformAdmin
            && (workspaceId !in user.memberships || user.memberships[workspaceId].role !in allowedRoles.value) then
      Err(Http(Forbidden, "Insufficient role for workspace"))
    else Ok(user)
  }

  /**
   * A token with an empty `workspace_roles` claim, for a user who is not a
   * platform admin, resolves without provider sync to the default workspace
   * alone, and that user passes the gate of the default workspace.
   */
  lemma NewUserGetsDefaultWorkspace(lib: Lib, payload: Claims, settings: Settings, allowedRoles: Option<seq<string>>,
                                    userId: string, remote: Result<seq<Membership>, AuthFailure>)
    requires !HasSupabaseSync(settings)
    requires settings.defaultWorkspaceId != ""
    requires Get(payload, "workspace_roles", VNone) == VList([])
    requires "app_metadata" !in payload
    requires allowedRoles.None? || settings.defaultWorkspaceRole in allowedRoles.value
    ensures var r := Resolved(lib, payload, settings, false, remote);
      && r == Ok(map[settings.defaultWorkspaceId := DefaultMembership(settings)])
      && RequireWorkspaceRole(allowedRoles, settings.defaultWorkspaceId, User(userId, VNone, r.value, false)).Ok?
  {
    assert EmbeddedRoles(payload) == Ok(VNone);
    assert ClaimedMemberships(lib, payload) == Ok([]);
  }
}
