/**
 * The Office 365 authorization request (`_makeAuthURI`) and the header set sent with
 * every calendar API call. The query string is modelled as the map of its
 * parameters; successive `setQuery` calls become map unions.
 */
module AuthUri {
  import opened Wrappers
  import opened Text

  /** The static OAuth configuration of the strategy (`oa2`). */
  datatype OAuthConfig = OAuthConfig(
    clientId: string,
    base: string,
    authPath: string,
    tokenPath: string,
    scopes: seq<string>,
    clientSecret: Option<string>)

  /** The configuration the strategy ships with: no client secret is configured. */
  const Office365: OAuthConfig := OAuthConfig(
    "b5f61636-8c63-4a7c-b4a3-6af6df33ad15",
    "https://login.microsoftonline.com/common",
    "/oauth2/v2.0/authorize",
    "/oauth2/v2.0/token",
    ["openid", "https://outlook.office.com/Calendars.read", "profile"],
    None)

  const RedirectUri := "https://redirect.butter"

  /** The query parameters an authorization request can carry. */
  datatype Param =
    | RedirectUriParam | ScopeParam | ClientIdParam
    | ResponseType | ResponseMode | State | Nonce
    | Prompt | LoginHint | DomainHint

  /** The name of a parameter on the wire. */
  function Name(p: Param): string {
    match p
    case RedirectUriParam => "redirect_uri"
    case ScopeParam => "scope"
    case ClientIdParam => "client_id"
    case ResponseType => "response_type"
    case ResponseMode => "response_mode"
    case State => "state"
    case Nonce => "nonce"
    case Prompt => "prompt"
    case LoginHint => "login_hint"
    case DomainHint => "domain_hint"
  }

  /** No two parameters share a wire name, so the query keeps each one apart. */
  lemma ParameterNamesAreDistinct(p: Param, q: Param)
    ensures Name(p) == Name(q) <==> p == q
  {
  }

  /** An authorization request: the endpoint and its query parameters. */
  datatype AuthRequest = AuthRequest(endpoint: string, query: map<Param, string>)

  /** The authorization-code grant (section 4.1 of RFC 6749) is used iff a secret is configured. */
  predicate UsesCodeGrant(cfg: OAuthConfig) {
    Truthy(cfg.clientSecret)
  }

  /** The parameters every request carries. */
  function BaseQuery(cfg: OAuthConfig): map<Param, string> {
    map[RedirectUriParam := RedirectUri,
        ScopeParam := JoinWithSpaces(cfg.scopes),
        ClientIdParam := cfg.clientId]
  }

  /** The grant-specific parameters: code grant, or implicit grant (section 4.2 of RFC 6749). */
  function GrantQuery(cfg: OAuthConfig): map<Param, string> {
    if UsesCodeGrant(cfg) then
      map[ResponseType := "code"]
    else
      map[ResponseType := "id_token token",
          ResponseMode := "fragment",
          State := "12345",
          Nonce := "678910"]
  }

  /** The silent re-authentication hints, present only for an existing user. */
  function SilentQuery(existingUser: Option<string>): map<Param, string> {
    if Truthy(existingUser) then
      map[Prompt := "none",
          LoginHint := existingUser.value,
          DomainHint := "organizations"]
    else
      map[]
  }

  /** Whether the request for `existingUser` carries parameter `p`. */
  predicate Carries(cfg: OAuthConfig, existingUser: Option<string>, p: Param) {
    match p
    case RedirectUriParam | ScopeParam | ClientIdParam | ResponseType => true
    case ResponseMode | State | Nonce => !UsesCodeGrant(cfg)
    case Prompt | LoginHint | DomainHint => Truthy(existingUser)
  }

  /** The value parameter `p` carries, when it is carried. */
  function Value(cfg: OAuthConfig, existingUser: Option<string>, p: Param): string {
    match p
    case RedirectUriParam => RedirectUri
    case ScopeParam => JoinWithSpaces(cfg.scopes)
    case ClientIdParam => cfg.clientId
    case ResponseType => if UsesCodeGrant(cfg) then "code" else "id_token token"
    case ResponseMode => "fragment"
    case State => "12345"
    case Nonce => "678910"
    case Prompt => "none"
    case LoginHint => if existingUser.Some? then existingUser.value else ""
    case DomainHint => "organizations"
  }

  /**
   * `_makeAuthURI(existingUser)`: the three `setQuery` calls merged in order. The
   * result carries exactly the parameters `Carries` names, with the values `Value` gives.
   */
  function MakeAuthRequest(cfg: OAuthConfig, existingUser: Option<string>): (r: AuthRequest)
    ensures r.endpoint == cfg.base + cfg.authPath
    ensures forall p :: p in r.query <==> Carries(cfg, existingUser, p)
    ensures forall p :: p in r.query ==> r.query[p] == Value(cfg, existingUser, p)
  {
    MergedQueryMatchesReference(cfg, existingUser);
    AuthRequest(cfg.base + cfg.authPath, BaseQuery(cfg) + GrantQuery(cfg) + SilentQuery(existingUser))
  }

  lemma MergedQueryMatchesReference(cfg: OAuthConfig, existingUser: Option<string>)
    ensures var q := BaseQuery(cfg) + GrantQuery(cfg) + SilentQuery(existingUser);
      forall p :: (p in q <==> Carries(cfg, existingUser, p)) && (p in q ==> q[p] == Value(cfg, existingUser, p))
  {
    var base, grant, silent := BaseQuery(cfg), GrantQuery(cfg), SilentQuery(existingUser);
    var q := base + grant + silent;
    forall p
      ensures p in q <==> Carries(cfg, existingUser, p)
      ensures p in q ==> q[p] == Value(cfg, existingUser, p)
    {
      if p.RedirectUriParam? || p.ScopeParam? || p.ClientIdParam? {
        assert p in base && p !in grant && p !in silent;
      } else if p.ResponseType? {
        assert p in grant && p !in silent;
      } else if p.ResponseMode? || p.State? || p.Nonce? {
        assert p !in base && p !in silent;
      } else {
        assert p !in base && p !in grant;
      }
    }
  }

  /**
   * The parameters spelled out: the three fixed ones always; `response_type` is
   * `code` exactly under the code grant, otherwise the implicit grant's four; the
   * three silent hints exactly for a truthy existing user.
   */
  lemma AuthRequestParameters(cfg: OAuthConfig, existingUser: Option<string>)
    ensures var q := MakeAuthRequest(cfg, existingUser).query;
      && RedirectUriParam in q && q[RedirectUriParam] == RedirectUri
      && ClientIdParam in q && q[ClientIdParam] == cfg.clientId
      && ScopeParam in q && q[ScopeParam] == JoinWithSpaces(cfg.scopes)
      && ResponseType in q
      && (q[ResponseType] == "code" <==> UsesCodeGrant(cfg))
      && (ResponseMode in q <==> !UsesCodeGrant(cfg))
      && (State in q <==> !UsesCodeGrant(cfg))
      && (Nonce in q <==> !UsesCodeGrant(cfg))
      && (Prompt in q <==> Truthy(existingUser))
      && (LoginHint in q <==> Truthy(existingUser))
      && (DomainHint in q <==> Truthy(existingUser))
    ensures var q := MakeAuthRequest(cfg, existingUser).query;
      !UsesCodeGrant(cfg) ==>
        && q[ResponseType] == "id_token token" && q[ResponseMode] == "fragment"
        && q[State] == "12345" && q[Nonce] == "678910"
    ensures var q := MakeAuthRequest(cfg, existingUser).query;
      Truthy(existingUser) ==>
        && q[Prompt] == "none" && q[LoginHint] == existingUser.value && q[DomainHint] == "organizations"
  {
    var q := MakeAuthRequest(cfg, existingUser).query;
    assert Carries(cfg, existingUser, RedirectUriParam) && Carries(cfg, existingUser, ClientIdParam);
    assert Carries(cfg, existingUser, ScopeParam) && Carries(cfg, existingUser, ResponseType);
    assert Carries(cfg, existingUser, ResponseMode) <==> !UsesCodeGrant(cfg);
    assert Carries(cfg, existingUser, State) <==> !UsesCodeGrant(cfg);
    assert Carries(cfg, existingUser, Nonce) <==> !UsesCodeGrant(cfg);
    assert Carries(cfg, existingUser, Prompt) <==> Truthy(existingUser);
    assert Carries(cfg, existingUser, LoginHint) <==> Truthy(existingUser);
    assert Carries(cfg, existingUser, DomainHint) <==> Truthy(existingUser);
  }

  /** The provider can read the requested scopes back from the `scope` parameter. */
  lemma ScopeParameterListsScopes(cfg: OAuthConfig, existingUser: Option<string>)
    requires |cfg.scopes| >= 1
    requires forall i :: 0 <= i < |cfg.scopes| ==> ' ' !in cfg.scopes[i]
    ensures SplitOnSpaces(MakeAuthRequest(cfg, existingUser).query[ScopeParam]) == cfg.scopes
  {
    SplitJoinRoundTrip(cfg.scopes);
  }

  /** With the shipped configuration the strategy asks for the implicit grant. */
  lemma ShippedConfigUsesImplicitGrant(existingUser: Option<string>)
    ensures MakeAuthRequest(Office365, existingUser).query[ResponseType] == "id_token token"
    ensures SplitOnSpaces(MakeAuthRequest(Office365, existingUser).query[ScopeParam]) == Office365.scopes
  {
    assert ' ' !in Office365.scopes[0];
    assert ' ' !in Office365.scopes[1];
    assert ' ' !in Office365.scopes[2];
    ScopeParameterListsScopes(Office365, existingUser);
  }

  /** The page-size preference every calendar call carries. */
  const PageSizeHint := "odata.maxpagesize=200"

  /** The `Prefer` header: change tracking on request, pages of at most 200 items always. */
  function PreferHeader(trackChanges: bool): string {
    if trackChanges then "odata.track-changes, " + PageSizeHint else PageSizeHint
  }

  /** The header fields of a calendar API call. */
  datatype Header = Authorization | Accept | UserAgent | Prefer

  /** The name of a header field on the wire. */
  function HeaderName(h: Header): string {
    match h
    case Authorization => "Authorization"
    case Accept => "Accept"
    case UserAgent => "User-Agent"
    case Prefer => "Prefer"
  }

  /** No two header fields share a wire name. */
  lemma HeaderNamesAreDistinct(f: Header, g: Header)
    ensures HeaderName(f) == HeaderName(g) <==> f == g
  {
  }

  /** The fixed header fields of every call. */
  function FixedHeaders(token: string): map<Header, string> {
    map[Authorization := "Bearer " + token,
        Accept := "application/json",
        UserAgent := "butter/dev"]
  }

  /** The headers of a calendar API call: the fixed set merged with the `Prefer` extra. */
  function RequestHeaders(token: string, trackChanges: bool): (h: map<Header, string>)
    ensures forall f :: f in h
    ensures h[Authorization] == "Bearer " + token
    ensures h[Accept] == "application/json"
    ensures h[UserAgent] == "butter/dev"
    ensures OccursAt(h[Prefer], "odata.track-changes", 0) <==> trackChanges
    ensures |h[Prefer]| >= |PageSizeHint| && h[Prefer][|h[Prefer]| - |PageSizeHint|..] == PageSizeHint
  {
    EveryHeaderIsSet(token, trackChanges);
    assert !OccursAt(PreferHeader(false), "odata.track-changes", 0) by {
      assert PreferHeader(false)[..19][6] != "odata.track-changes"[6];
    }
    FixedHeaders(token) + map[Prefer := PreferHeader(trackChanges)]
  }

  lemma EveryHeaderIsSet(token: string, trackChanges: bool)
    ensures forall f :: f in FixedHeaders(token) + map[Prefer := PreferHeader(trackChanges)]
  {
    var h := FixedHeaders(token) + map[Prefer := PreferHeader(trackChanges)];
    forall f
      ensures f in h
    {
      match f
      case Authorization =>
      case Accept =>
      case UserAgent =>
      case Prefer =>
    }
  }
}
