/**
 * The browser client's token store: one key of the page's local storage,
 * read, written and cleared, and the authorization header built from it.
 * Local storage is a map from keys to strings.
 */
module TokenStore {
  import opened Values
  import opened Strings
  import Auth

  type Storage = map<string, string>

  const TokenKey := "auth_token"

  /** `getToken`: the stored token, `null` when none. */
  function GetToken(ls: Storage): (t: Option<string>)
    ensures t.Some? <==> TokenKey in ls
    ensures t.Some? ==> t.value == ls[TokenKey]
  {
    if TokenKey in ls then Some(ls[TokenKey]) else None
  }

  /** `setToken`: stores the token under the one key. */
  function SetToken(ls: Storage, token: string): (r: Storage)
    ensures r.Keys == ls.Keys + {TokenKey}
    ensures forall k :: k in ls && k != TokenKey ==> r[k] == ls[k]
  {
    ls[TokenKey := token]
  }

  /** `clearToken`: removes the one key. */
  function ClearToken(ls: Storage): (r: Storage)
    ensures r.Keys == ls.Keys - {TokenKey}
    ensures forall k :: k in r ==> r[k] == ls[k]
  {
    ls - {TokenKey}
  }

  /** `isAuthenticated`: a token is stored and it is not empty. */
  predicate IsAuthenticated(ls: Storage)
  {
    GetToken(ls).Some? && GetToken(ls).value != ""
  }

  const AuthorizationHeader := "Authorization"

  /** `getAuthHeaders`: an `Authorization` bearer header when the token is truthy, no header otherwise. */
  function GetAuthHeaders(ls: Storage): (h: map<string, string>)
    ensures IsAuthenticated(ls) ==> h == map[AuthorizationHeader := Auth.BearerPrefix + GetToken(ls).value]
    ensures !IsAuthenticated(ls) ==> h == map[]
  {
    var t := GetToken(ls);
    if t.Some? && t.value != "" then map[AuthorizationHeader := Auth.BearerPrefix + t.value] else map[]
  }

  /** The `Authorization` header the server reads from the headers the client sends. */
  function SentAuthorization(h: map<string, string>): Option<string>
  {
    if AuthorizationHeader in h then Some(h[AuthorizationHeader]) else None
  }

  /**
   * What the client guard answers for the headers the client builds from
   * its storage: 401 when no truthy token is stored; for a stored
   * space-free token, 403 when it does not verify and otherwise its
   * priority ceiling.
   */
  lemma ClientAuthOfStoredToken(ls: Storage, verify: string -> Option<Auth.TokenData>)
    ensures !IsAuthenticated(ls) ==>
      Auth.ClientAuth(SentAuthorization(GetAuthHeaders(ls)), verify) == Auth.Reject(401, Auth.BadFormatMessage)
    ensures IsAuthenticated(ls) && ' ' !in GetToken(ls).value ==>
      var t := GetToken(ls).value;
      Auth.ClientAuth(SentAuthorization(GetAuthHeaders(ls)), verify)
        == if verify(t).None? then Auth.Reject(403, Auth.BadTokenMessage) else Auth.Admit(verify(t).value.maxPriority)
  {
    if IsAuthenticated(ls) && ' ' !in GetToken(ls).value {
      Auth.BearerTokenRoundTrip(GetToken(ls).value);
    }
  }

  /** Setting a token and reading it back gives that token; authentication follows its emptiness. */
  lemma SetThenGet(ls: Storage, token: string)
    ensures GetToken(SetToken(ls, token)) == Some(token)
    ensures IsAuthenticated(SetToken(ls, token)) <==> token != ""
  {
  }

  /** After clearing there is no token and the client is not authenticated. */
  lemma ClearThenGet(ls: Storage)
    ensures GetToken(ClearToken(ls)) == None
    ensures !IsAuthenticated(ClearToken(ls))
    ensures GetAuthHeaders(ClearToken(ls)) == map[]
  {
  }

  /** Clearing twice is clearing once. */
  lemma ClearIdempotent(ls: Storage)
    ensures ClearToken(ClearToken(ls)) == ClearToken(ls)
  {
  }

  /**
   * A stored token without spaces reaches the server intact: the header
   * the client sends passes the bearer check, and the server's
   * `split(' ')[1]` recovers the token.
   */
  lemma HeaderCarriesToken(ls: Storage, token: string)
    requires token != "" && ' ' !in token
    ensures var h := GetAuthHeaders(SetToken(ls, token));
      && AuthorizationHeader in h
      && Auth.IsBearer(Some(h[AuthorizationHeader]))
      && Auth.BearerToken(h[AuthorizationHeader]) == token
  {
    Auth.BearerTokenRoundTrip(token);
  }
}
