/**
 * The authentication state: the current user, the in-memory token, the token
 * cookie and the counter that forces the public token to be re-read. The public
 * token is derived: the in-memory value when it is set, the cookie otherwise.
 */
module UserAtom {
  import opened Util
  import opened Api

  datatype Role = Admin | Customer

  /** A verified account as the backend returns it (display fields reduced to the ones the model reads). */
  datatype User = User(id: string, fullname: string, email: string, phone: string, role: Role)

  /** The token cookie: its value and the lifetime, in days, it was written with. */
  datatype Cookie = Cookie(value: string, days: int)

  /** Lifetime of a token cookie written by the storefront. */
  const TokenCookieDays := 360

  /** `Boolean(user && token)`: a user object is always truthy, a token only when it is non-empty. */
  predicate IsAuthenticated(user: Option<User>, token: Option<string>)
  {
    user.Some? && Truthy(token)
  }

  /**
   * A backend call an action makes only behind `if (user && token)`: the
   * request when both are present, nothing otherwise.
   */
  function SessionCall(user: Option<User>, token: Option<string>, r: Request): (sent: seq<Request>)
    ensures |sent| <= 1 && (sent != [] ==> sent[0] == r)
  {
    if IsAuthenticated(user, token) then [r] else []
  }

  /** `user?.id`. */
  function UserIdOf(user: Option<User>): (id: Option<string>)
    ensures id.Some? <==> user.Some?
  {
    match user
    case Some(u) => Some(u.id)
    case None => None
  }

  /** What `getCookie("token")` yields for a cookie jar. */
  function CookieToken(cookie: Option<Cookie>): Option<string>
  {
    match cookie
    case Some(c) => Some(c.value)
    case None => None
  }

  /**
   * The getter of the public token: the in-memory token if it is truthy; else
   * the cookie's value if it is truthy and differs from the in-memory token;
   * else null.
   */
  function ReadToken(internal: Option<string>, cookie: Option<Cookie>): Option<string>
  {
    if Truthy(internal) then internal
    else if Truthy(CookieToken(cookie)) && CookieToken(cookie) != internal then CookieToken(cookie)
    else None
  }

  /**
   * The token read is the in-memory value when that is truthy, otherwise the
   * cookie value when that is truthy, otherwise null: the getter's test that
   * the cookie differs from the in-memory value never decides anything.
   */
  lemma ReadTokenPrefersInternal(internal: Option<string>, cookie: Option<Cookie>)
    ensures Truthy(internal) ==> ReadToken(internal, cookie) == internal
    ensures !Truthy(internal) && Truthy(CookieToken(cookie)) ==> ReadToken(internal, cookie) == CookieToken(cookie)
    ensures !Truthy(internal) && !Truthy(CookieToken(cookie)) ==> ReadToken(internal, cookie) == None
    ensures ReadToken(internal, cookie) == None || Truthy(ReadToken(internal, cookie))
  {
  }

  class AuthStore {
    var user: Option<User>
    var internalToken: Option<string>
    var cookie: Option<Cookie>
    var syncCount: nat
    var requests: seq<Request>

    /** The atoms at page load: no user, no in-memory token, whatever cookie the browser holds. */
    constructor (jar: Option<Cookie>)
      ensures user == None && internalToken == None && cookie == jar
      ensures syncCount == 0 && requests == []
    {
      user := None;
      internalToken := None;
      cookie := jar;
      syncCount := 0;
      requests := [];
    }

    /** The public token as the getter computes it now. */
    function Token(): Option<string>
      reads this
    {
      ReadToken(internalToken, cookie)
    }

    /** `isAuthenticatedAtom`. */
    predicate Authenticated()
      reads this
    {
      IsAuthenticated(user, Token())
    }

    /**
     * The setter of the public token: the in-memory token becomes `newToken`; a
     * truthy token is written to a 360-day cookie, any other value deletes it.
     */
    method SetToken(newToken: Option<string>)
      modifies this
      ensures internalToken == newToken
      ensures cookie == if Truthy(newToken) then Some(Cookie(newToken.value, TokenCookieDays)) else None
      ensures syncCount == old(syncCount) + 1
      ensures user == old(user) && requests == old(requests)
      ensures Token() == if Truthy(newToken) then newToken else None
    {
      internalToken := newToken;
      if Truthy(newToken) {
        cookie := Some(Cookie(newToken.value, TokenCookieDays));
      } else {
        cookie := None;
      }
      syncCount := syncCount + 1;
    }

    /**
     * `verifyUserAtom`: without a token the user is cleared and no request is
     * made; otherwise `/api/verify-me` is called with the token, and a success
     * stores the returned user while a failure clears both user and token.
     * `outcome` is the user the backend returned, or None when the call failed.
     */
    method Verify(outcome: Option<User>) returns (verified: Option<User>)
      modifies this
      ensures !Truthy(old(Token())) ==>
        && verified == None && user == None
        && requests == old(requests)
        && internalToken == old(internalToken) && cookie == old(cookie) && syncCount == old(syncCount)
      ensures Truthy(old(Token())) ==>
        requests == old(requests) + [Request(GET, VerifyMePath, old(Token()), NoBody)]
      ensures Truthy(old(Token())) && outcome.Some? ==>
        && verified == outcome && user == outcome
        && internalToken == old(internalToken) && cookie == old(cookie) && syncCount == old(syncCount)
      ensures Truthy(old(Token())) && outcome.None? ==>
        && verified == None && user == None
        && internalToken == None && cookie == None && Token() == None
        && syncCount == old(syncCount) + 1
      ensures verified.Some? <==> Authenticated()
    {
      var token := Token();
      if !Truthy(token) {
        user := None;
        verified := None;
        return;
      }
      requests := requests + [Request(GET, VerifyMePath, token, NoBody)];
      if outcome.Some? {
        user := outcome;
        verified := outcome;
      } else {
        user := None;
        SetToken(None);
        verified := None;
      }
    }

    /**
     * `loginUserAtom`: the token is stored (cookie included) before the user is
     * verified with it; the verified user is returned.
     */
    method Login(token: string, outcome: Option<User>) returns (verified: Option<User>)
      modifies this
      ensures token != "" ==> requests == old(requests) + [Request(GET, VerifyMePath, Some(token), NoBody)]
      ensures token == "" ==> requests == old(requests) && verified == None && user == None
      ensures token != "" && outcome.Some? ==>
        verified == outcome && user == outcome && Token() == Some(token)
        && cookie == Some(Cookie(token, TokenCookieDays))
      ensures token != "" && outcome.None? ==> verified == None && user == None && Token() == None && cookie == None
      ensures verified.Some? <==> Authenticated()
    {
      SetToken(Some(token));
      verified := Verify(outcome);
    }

    /** `logoutUserAtom`: user and token (cookie included) are cleared. */
    method Logout()
      modifies this
      ensures user == None && internalToken == None && cookie == None && Token() == None
      ensures !Authenticated()
      ensures requests == old(requests) && syncCount == old(syncCount) + 1
    {
      user := None;
      SetToken(None);
    }

    /** `initAuthAtom`: a truthy cookie token is copied into the in-memory token. */
    method Init()
      modifies this
      ensures Truthy(CookieToken(old(cookie))) ==>
        internalToken == CookieToken(old(cookie)) && syncCount == old(syncCount) + 1
      ensures !Truthy(CookieToken(old(cookie))) ==>
        internalToken == old(internalToken) && syncCount == old(syncCount)
      ensures cookie == old(cookie) && user == old(user) && requests == old(requests)
      ensures Token() == if Truthy(CookieToken(old(cookie))) then CookieToken(old(cookie)) else old(Token())
    {
      var cookieToken := CookieToken(cookie);
      if Truthy(cookieToken) {
        internalToken := cookieToken;
        syncCount := syncCount + 1;
      }
    }
  }
}
