/**
 * The navigation bar: the mobile menu flag, the language switch, which
 * rewrites the current path to the chosen locale, and the logout button.
 */
module Navbar {
  import opened AuthHook

  /** The locales the router supports. */
  datatype Locale = En | Ar
  {
    /** The locale's path segment. */
    function Code(): string
    {
      match this
      case En => "en"
      case Ar => "ar"
    }
  }

  /** A character the pattern `[a-z]` matches. */
  predicate Lower(c: char)
  {
    'a' <= c <= 'z'
  }

  /** The path starts with what `/^\/[a-z]{2}/` matches: a slash and two lower-case letters. */
  predicate LocalePrefixed(path: string)
  {
    |path| >= 3 && path[0] == '/' && Lower(path[1]) && Lower(path[2])
  }

  /** `path.replace(/^\/[a-z]{2}/, "") || "/"`. */
  function StripLocale(path: string): (r: string)
    ensures r != ""
  {
    var rest := if LocalePrefixed(path) then path[3..] else path;
    if rest == "" then "/" else rest
  }

  /** The target of a switch to `locale` from `path`. */
  function LocaleTarget(locale: Locale, path: string): string
  {
    "/" + locale.Code() + StripLocale(path)
  }

  /**
   * One leading "/xx" is removed, whatever the two letters are and whether or
   * not they name a supported locale; a bare prefix leaves "/".
   */
  lemma StripPrefixed(first: char, second: char, rest: string)
    requires Lower(first) && Lower(second)
    ensures StripLocale(['/', first, second] + rest) == if rest == "" then "/" else rest
  {
    var path := ['/', first, second] + rest;
    assert path[3..] == rest;
  }

  /** A path that does not start with a slash and two lower-case letters is kept, and "" becomes "/". */
  lemma StripUnprefixed(path: string)
    requires !LocalePrefixed(path)
    ensures StripLocale(path) == if path == "" then "/" else path
  {
  }

  /**
   * The target starts with the chosen locale and keeps the stripped path: the
   * target's own stripped path is the one it was built from, so a second
   * switch from the target lands where a single switch from the original
   * path would.
   */
  lemma LocaleTargetFacts(locale: Locale, other: Locale, path: string)
    ensures LocalePrefixed(LocaleTarget(locale, path))
    ensures LocaleTarget(locale, path)[..3] == "/" + locale.Code()
    ensures StripLocale(LocaleTarget(locale, path)) == StripLocale(path)
    ensures LocaleTarget(other, LocaleTarget(locale, path)) == LocaleTarget(other, path)
  {
    var code := locale.Code();
    var stripped := StripLocale(path);
    var target := LocaleTarget(locale, path);
    assert target == ['/', code[0], code[1]] + stripped;
    StripPrefixed(code[0], code[1], stripped);
  }

  class NavbarState {
    var isMenuOpen: bool
    /** The locale of the page. */
    var locale: Locale
    /** The current path, locale prefix included. */
    var path: string
    /** The paths handed to `router.push`, oldest first. */
    var pushed: seq<string>

    constructor (locale0: Locale, path0: string)
      ensures !isMenuOpen && locale == locale0 && path == path0 && pushed == []
    {
      isMenuOpen := false;
      locale := locale0;
      path := path0;
      pushed := [];
    }

    /** `toggleMenu`. */
    method ToggleMenu()
      modifies this
      ensures isMenuOpen == !old(isMenuOpen)
      ensures locale == old(locale) && path == old(path) && pushed == old(pushed)
    {
      isMenuOpen := !isMenuOpen;
    }

    /** `closeMenu`. */
    method CloseMenu()
      modifies this
      ensures !isMenuOpen
      ensures locale == old(locale) && path == old(path) && pushed == old(pushed)
    {
      isMenuOpen := false;
    }

    /**
     * `handleLanguageChange`: choosing the current locale navigates nowhere;
     * any other locale navigates to the current path under that locale. The
     * menu is closed either way.
     */
    method HandleLanguageChange(newLocale: Locale)
      modifies this
      ensures !isMenuOpen
      ensures locale == old(locale) && path == old(path)
      ensures pushed == if newLocale == old(locale) then old(pushed) else old(pushed) + [LocaleTarget(newLocale, old(path))]
    {
      if locale == newLocale {
        CloseMenu();
        return;
      }
      var pathWithoutLocale := StripLocale(path);
      pushed := pushed + ["/" + newLocale.Code() + pathWithoutLocale];
      CloseMenu();
    }

    /** `handleLogout`: the session is cleared and the menu closed. */
    method HandleLogout(session: Session)
      modifies this, session
      ensures session.user.None? && session.token.None? && session.requests == old(session.requests)
      ensures !isMenuOpen
      ensures locale == old(locale) && path == old(path) && pushed == old(pushed)
    {
      session.Logout();
      CloseMenu();
    }
  }
}
