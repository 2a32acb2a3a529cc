/**
 * The browser state the client code touches: the cookie store (js-cookie) and
 * the page location (`window.location.href`). A cookie is kept with the options
 * it was written with; expiry is a number of days and never elapses in the model.
 */
module Browser {
  import opened Wrappers

  datatype Cookie = Cookie(value: string, expiresDays: nat, secure: bool, sameSiteStrict: bool)

  const AccessTokenKey := "accessToken"
  const RefreshTokenKey := "refreshToken"

  /** `Cookies.get(name)` for a cookie map. */
  function CookieValue(cookies: map<string, Cookie>, name: string): (v: Option<string>)
    ensures v.Some? <==> name in cookies
    ensures v.Some? ==> v.value == cookies[name].value
  {
    if name in cookies then Some(cookies[name].value) else None
  }

  class Window {
    var cookies: map<string, Cookie>
    var href: string

    constructor (cookies0: map<string, Cookie>, href0: string)
      ensures cookies == cookies0 && href == href0
    {
      cookies := cookies0;
      href := href0;
    }

    /** `Cookies.set(name, value, options)`. */
    method SetCookie(name: string, value: string, expiresDays: nat, secure: bool)
      modifies this
      ensures cookies == old(cookies)[name := Cookie(value, expiresDays, secure, true)]
      ensures href == old(href)
    {
      cookies := cookies[name := Cookie(value, expiresDays, secure, true)];
    }

    /** `Cookies.remove(name)`. */
    method RemoveCookie(name: string)
      modifies this
      ensures cookies == old(cookies) - {name}
      ensures href == old(href)
    {
      cookies := cookies - {name};
    }

    /** `window.location.href = target`. */
    method Navigate(target: string)
      modifies this
      ensures href == target && cookies == old(cookies)
    {
      href := target;
    }
  }
}
