/** The cookie check that gates the viewer endpoints (`isAuthorized`). There is no session
    store: the "session" is one fixed cookie pair. */
module Auth {
  import opened Common

  const COOKIE_NAME: string := "cameraview_auth"
  const SESSION_VAL: string := "authenticated_session"

  /** The text `isAuthorized` searches the Cookie header for. */
  const SESSION_PAIR: string := COOKIE_NAME + "=" + SESSION_VAL

  /** `needle` occurs in `s` starting at position `i`. */
  ghost predicate OccursAt(s: string, needle: string, i: int)
  {
    0 <= i && i + |needle| <= |s| && s[i..i + |needle|] == needle
  }

  /** `needle` occurs somewhere in `s`. */
  ghost predicate Occurs(s: string, needle: string)
  {
    exists i :: OccursAt(s, needle, i)
  }

  /** `String.prototype.includes`, scanning from position `from`. */
  function IncludesFrom(s: string, needle: string, from: nat): (r: bool)
    ensures r <==> exists i :: from <= i && OccursAt(s, needle, i)
    decreases |s| - from
  {
    if from + |needle| > |s| then false
    else if s[from..from + |needle|] == needle then assert OccursAt(s, needle, from); true
    else IncludesFrom(s, needle, from + 1)
  }

  /** `s.includes(needle)`. */
  function Includes(s: string, needle: string): (r: bool)
    ensures r <==> Occurs(s, needle)
  {
    IncludesFrom(s, needle, 0)
  }

  /** `isAuthorized(request)`: the Cookie header is present (and, being a JavaScript
      string, non-empty) and contains the session pair anywhere in it. */
  function IsAuthorized(cookie: Option<string>): (r: bool)
    ensures r <==> cookie.Some? && Occurs(cookie.value, SESSION_PAIR)
  {
    cookie.Some? && cookie.value != "" && Includes(cookie.value, SESSION_PAIR)
  }

  /** Any Cookie header that carries the session pair is accepted, whatever surrounds it,
      including text that makes it part of another cookie's name or value. */
  lemma PairAnywhereAuthorizes(before: string, after: string)
    ensures IsAuthorized(Some(before + SESSION_PAIR + after))
  {
    var s := before + SESSION_PAIR + after;
    assert s[|before|..|before| + |SESSION_PAIR|] == SESSION_PAIR;
    assert OccursAt(s, SESSION_PAIR, |before|);
  }

  /** A header shorter than the session pair, for instance the cookie name with another
      value, is refused. */
  lemma ShortHeaderRefused(cookie: string)
    requires |cookie| < |SESSION_PAIR|
    ensures !IsAuthorized(Some(cookie))
  {
  }
}
