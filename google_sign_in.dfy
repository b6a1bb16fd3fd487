/**
 * The Google sign-in button: it opens the backend's Google login in a popup,
 * and a message the popup posts back logs the user in.
 */
module GoogleSignIn {
  import opened Util
  import opened AuthHook

  /** The origin messages are checked against when no base URL is configured. */
  const DefaultOrigin := "http://localhost:3100"

  /** The message text of a successful popup login. */
  const LoginSuccessful := "Login successful"

  /** `NEXT_PUBLIC_BASE_URL || "http://localhost:3100"`. */
  function AllowedOrigin(baseUrl: Option<string>): (r: string)
    ensures r != ""
    ensures Truthy(baseUrl) ==> r == baseUrl.value
  {
    if Truthy(baseUrl) then baseUrl.value else DefaultOrigin
  }

  /**
   * The origin test as the message handler writes it: a message passes when
   * its origin equals the allowed origin or occurs anywhere inside it.
   */
  predicate OriginAcceptedAsWritten(allowed: string, origin: string)
  {
    origin == allowed || Includes(allowed, origin)
  }

  /** The origin test the handler evidently intends: the allowed origin itself and nothing else. */
  predicate OriginAllowed(allowed: string, origin: string)
  {
    origin == allowed
  }

  /** `needle` occurs in `hay` starting at position `i`. */
  predicate OccursAt(hay: string, needle: string, i: nat)
  {
    i + |needle| <= |hay| && hay[i..i + |needle|] == needle
  }

  /** An occurrence of `needle` in `hay` that `Includes` reports, as a position. */
  lemma {:induction false} IncludesWitness(hay: string, needle: string)
    requires Includes(hay, needle)
    ensures exists i: nat :: OccursAt(hay, needle, i)
    decreases |hay|
  {
    if StartsWith(hay, needle) {
      assert OccursAt(hay, needle, 0);
    } else {
      IncludesWitness(hay[1..], needle);
      var i: nat :| OccursAt(hay[1..], needle, i);
      assert hay[i + 1..i + 1 + |needle|] == hay[1..][i..i + |needle|];
      assert OccursAt(hay, needle, i + 1);
    }
  }

  /** The written test accepts exactly the origins that occur somewhere in the allowed origin. */
  lemma AcceptedAsWrittenIsSubstring(allowed: string, origin: string)
    ensures OriginAcceptedAsWritten(allowed, origin) <==> exists i: nat :: OccursAt(allowed, origin, i)
  {
    if OriginAcceptedAsWritten(allowed, origin) {
      if origin == allowed {
        assert OccursAt(allowed, origin, 0);
      } else {
        IncludesWitness(allowed, origin);
      }
    }
    if exists i: nat :: OccursAt(allowed, origin, i) {
      var i: nat :| OccursAt(allowed, origin, i);
      IncludesAt(allowed, origin, i);
    }
  }

  /**
   * With the default allowed origin, a message from "http://localhost:3" (a
   * different port) passes the written test, though it is not the allowed origin.
   */
  lemma ShorterOriginAccepted()
    ensures OriginAcceptedAsWritten(DefaultOrigin, "http://localhost:3")
    ensures !OriginAllowed(DefaultOrigin, "http://localhost:3")
  {
    IncludesPrefix(DefaultOrigin, "http://localhost:3");
  }

  /**
   * The intended test accepts only the allowed origin, and whatever it accepts
   * the written test accepts too: it is the written test without the substring case.
   */
  lemma OriginAllowedExact(allowed: string, origin: string)
    ensures OriginAllowed(allowed, origin) ==> OriginAcceptedAsWritten(allowed, origin)
    ensures OriginAllowed(allowed, origin) <==> OriginAcceptedAsWritten(allowed, origin) && |origin| == |allowed|
  {
    if OriginAcceptedAsWritten(allowed, origin) && |origin| == |allowed| && origin != allowed {
      IncludesWitness(allowed, origin);
      assert false;
    }
  }

  /** The data of a posted message; each field is absent when the message does not carry it. */
  datatype MessageData = MessageData(message: Option<string>, token: Option<string>)

  /** `event.data && event.data.message === "Login successful" && event.data.token`. */
  predicate LoginPayload(data: Option<MessageData>)
  {
    data.Some? && data.value.message == Some(LoginSuccessful) && Truthy(data.value.token)
  }

  class GoogleSignInButton {
    var isLoading: bool

    constructor ()
      ensures !isLoading
    {
      isLoading := false;
    }

    /**
     * The message handler: a message from the allowed origin carrying a
     * successful login and a token clears the loading flag and logs in with
     * that token and no user; any other message changes nothing.
     */
    method HandleMessage(session: Session, baseUrl: Option<string>, origin: string, data: Option<MessageData>)
      modifies this, session
      ensures OriginAllowed(AllowedOrigin(baseUrl), origin) && LoginPayload(data) ==>
        && !isLoading
        && session.user == None && session.token == data.value.token
        && session.requests == old(session.requests)
      ensures !(OriginAllowed(AllowedOrigin(baseUrl), origin) && LoginPayload(data)) ==>
        && isLoading == old(isLoading)
        && session.user == old(session.user) && session.token == old(session.token)
        && session.requests == old(session.requests)
    {
      var allowedOrigin := AllowedOrigin(baseUrl);
      if !OriginAllowed(allowedOrigin, origin) {
        return;
      }
      if LoginPayload(data) {
        isLoading := false;
        session.Login(None, data.value.token.value);
      }
    }

    /**
     * `signInWithGoogle`: loading starts; when the browser blocks the popup,
     * loading stops again at once. `popupOpened` is whether `window.open`
     * returned a window.
     */
    method SignIn(popupOpened: bool)
      modifies this
      ensures isLoading == popupOpened
    {
      isLoading := true;
      if !popupOpened {
        isLoading := false;
      }
    }
  }
}
