/**
 * The authentication provider: the signed-in user, the loading flag and the
 * login, logout and reload operations over the token cookies. The `/user/me`
 * request is awaited inside each operation; its reply is a parameter.
 */
module AuthContext {
  import opened Wrappers
  import opened Browser

  datatype User = User(id: string, name: string, email: string, role: string)

  /** What the `/user/me` request came back with: an error, or a body whose `data` may be absent. */
  datatype MeReply = RequestFailed | Replied(data: Option<User>)

  const AccessTokenDays := 1
  const RefreshTokenDays := 30
  const LoginPath := "/"
  const OutsideProviderMessage := "useAuth must be used within an AuthProvider"

  /** A token counts only when present and non-empty (`if (!token)`). */
  predicate HasToken(token: Option<string>) {
    token.Some? && token.value != ""
  }

  /**
   * The user `fetchCurrentUser` resolves to, given the access-token cookie and
   * the reply the request would get.
   */
  function FetchedUser(token: Option<string>, reply: MeReply): (u: Option<User>)
    ensures !HasToken(token) ==> u.None?
    ensures reply.RequestFailed? ==> u.None?
    ensures u.Some? ==> HasToken(token) && reply == Replied(u)
  {
    if !HasToken(token) then None
    else match reply
      case RequestFailed => None
      case Replied(data) => data
  }

  /** The context value handed to the components. */
  datatype AuthValue = AuthValue(user: Option<User>, loading: bool, isAuthenticated: bool, isAdmin: bool)

  function ValueOf(user: Option<User>, loading: bool): (v: AuthValue)
    ensures v.user == user && v.loading == loading
    ensures v.isAuthenticated <==> user.Some?
    ensures v.isAdmin <==> user.Some? && user.value.role == "admin"
  {
    AuthValue(user, loading, user.Some?, user.Some? && user.value.role == "admin")
  }

  /** Every admin is authenticated. */
  lemma AdminIsAuthenticated(user: Option<User>, loading: bool)
    ensures ValueOf(user, loading).isAdmin ==> ValueOf(user, loading).isAuthenticated
  {
  }

  /** `useAuth()`: the context value, or the error thrown outside a provider. */
  function UseAuth(context: Option<AuthValue>): (r: Result<AuthValue, string>)
    ensures context.None? <==> r.Failure?
    ensures r.Failure? ==> r.error == OutsideProviderMessage
    ensures r.Success? ==> r.value == context.value
  {
    match context
    case None => Failure(OutsideProviderMessage)
    case Some(v) => Success(v)
  }

  class AuthProvider {
    var user: Option<User>
    var loading: bool
    /** How many `/user/me` requests were sent. */
    var meRequests: nat
    const window: Window
    /** `secure` cookie option: set in production builds only. */
    const production: bool

    constructor (window: Window, production: bool)
      ensures this.window == window && this.production == production
      ensures user.None? && loading && meRequests == 0
    {
      this.window := window;
      this.production := production;
      user := None;
      loading := true;
      meRequests := 0;
    }

    function Value(): (v: AuthValue)
      reads this
    {
      ValueOf(user, loading)
    }

    /** `fetchCurrentUser`: no request without an access token; null on an error or an empty reply. */
    method FetchCurrentUser(reply: MeReply) returns (u: Option<User>)
      modifies this
      ensures u == FetchedUser(CookieValue(window.cookies, AccessTokenKey), reply)
      ensures meRequests == old(meRequests) + (if HasToken(CookieValue(window.cookies, AccessTokenKey)) then 1 else 0)
      ensures user == old(user) && loading == old(loading)
    {
      var token := CookieValue(window.cookies, AccessTokenKey);
      if !HasToken(token) {
        return None;
      }
      meRequests := meRequests + 1;
      match reply
      case RequestFailed => u := None;
      case Replied(data) => u := data;
    }

    /** The effect that runs once on mount. */
    method InitAuth(reply: MeReply)
      modifies this
      ensures user == FetchedUser(CookieValue(window.cookies, AccessTokenKey), reply)
      ensures !loading
      ensures window.cookies == old(window.cookies) && window.href == old(window.href)
    {
      loading := true;
      var u := FetchCurrentUser(reply);
      user := u;
      loading := false;
    }

    /**
     * `login`: stores the access token for one day and the refresh token for
     * thirty, both same-site strict, then loads the user with the new token.
     */
    method Login(accessToken: string, refreshToken: string, reply: MeReply)
      modifies this, window
      ensures window.cookies == old(window.cookies)
        [AccessTokenKey := Cookie(accessToken, AccessTokenDays, production, true)]
        [RefreshTokenKey := Cookie(refreshToken, RefreshTokenDays, production, true)]
      ensures window.href == old(window.href)
      ensures user == FetchedUser(Some(accessToken), reply)
      ensures loading == old(loading)
    {
      window.SetCookie(AccessTokenKey, accessToken, AccessTokenDays, production);
      window.SetCookie(RefreshTokenKey, refreshToken, RefreshTokenDays, production);
      assert CookieValue(window.cookies, AccessTokenKey) == Some(accessToken);
      var u := FetchCurrentUser(reply);
      user := u;
    }

    /** `logout`: both cookies go, the user is cleared and the page returns to the login route. */
    method Logout()
      modifies this, window
      ensures window.cookies == old(window.cookies) - {AccessTokenKey, RefreshTokenKey}
      ensures window.href == LoginPath
      ensures user.None? && loading == old(loading) && meRequests == old(meRequests)
    {
      window.RemoveCookie(AccessTokenKey);
      window.RemoveCookie(RefreshTokenKey);
      user := None;
      window.Navigate(LoginPath);
    }

    /** `refreshUser`: reloads the user with the current cookies. */
    method RefreshUser(reply: MeReply)
      modifies this
      ensures user == FetchedUser(CookieValue(window.cookies, AccessTokenKey), reply)
      ensures loading == old(loading)
    {
      var u := FetchCurrentUser(reply);
      user := u;
    }
  }

  /** After a logout no access token is left, so a reload sends nothing and finds nobody. */
  lemma NoUserAfterLogout(cookies: map<string, Cookie>, reply: MeReply)
    ensures var after := cookies - {AccessTokenKey, RefreshTokenKey};
      !HasToken(CookieValue(after, AccessTokenKey))
      && FetchedUser(CookieValue(after, AccessTokenKey), reply).None?
  {
  }

  /** A login with a real token and a reply that carries a user signs that user in. */
  lemma LoginSignsIn(accessToken: string, u: User)
    requires accessToken != ""
    ensures ValueOf(FetchedUser(Some(accessToken), Replied(Some(u))), false).isAuthenticated
    ensures ValueOf(FetchedUser(Some(accessToken), Replied(Some(u))), false).isAdmin <==> u.role == "admin"
  {
  }
}
