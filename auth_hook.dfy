/**
 * The `useAuth` hook: the user atom and the client-side token cookie, seen
 * together as one session. The hook reads the token from the cookie on every
 * render, so the cookie is the token.
 */
module AuthHook {
  import opened Util
  import opened Api
  import opened UserAtom

  class Session {
    var user: Option<User>
    var token: Option<string>
    var requests: seq<Request>

    constructor (user0: Option<User>, token0: Option<string>)
      ensures user == user0 && token == token0 && requests == []
    {
      user := user0;
      token := token0;
      requests := [];
    }

    /** `login`: the cookie takes the token, then the user atom takes the user. */
    method Login(newUser: Option<User>, newToken: string)
      modifies this
      ensures user == newUser && token == Some(newToken) && requests == old(requests)
    {
      token := Some(newToken);
      user := newUser;
    }

    /** `logout`: the user atom is cleared and the cookie removed. */
    method Logout()
      modifies this
      ensures user == None && token == None && requests == old(requests)
      ensures !IsAuthenticated(user, token)
    {
      user := None;
      token := None;
    }
  }
}
