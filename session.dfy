/** The Steam Community session: a client whose cookie jar carries the
    `sessionid` cookie, and the search that derives the session id from it. */
module Session {
  import opened Errors
  import opened Http
  import opened Encoding

  const SteamCommunityURL: string := "https://steamcommunity.com"

  /** The name of the cookie the session id is read from. */
  const SessionCookie: string := "sessionid"

  /** The cookie jar shared by every copy of a `Client` (Go's `http.CookieJar`
      is an interface value, so copies of the client see one jar). Its
      contents are the cookies `Cookies(steamCommunityURL)` lists, in order. */
  class CookieJar {
    var cookies: seq<Cookie>

    constructor ()
      ensures cookies == []
    {
      cookies := [];
    }
  }

  /** `geothermal.Client`: an HTTP client (reduced to its jar, which is nil
      until someone creates it) and the session id last derived from it. */
  class Client {
    var Jar: CookieJar?
    var SessionID: string

    constructor ()
      ensures Jar == null && SessionID == ""
    {
      Jar := null;
      SessionID := "";
    }

    /** `Client.sessionID`: scan the jar for the first `sessionid` cookie and
        return its unescaped value; after a failed scan issue a GET to the
        community page (whose only effect here is on the jar, given by
        `refresh`) and scan again; give up with `NoSID` after two scans. The
        receiver is a copy, so `SessionID` is left to the caller. */
    method FindSessionID(refresh: seq<Cookie> -> seq<Cookie>) returns (sid: string, err: Option<Error>)
      requires Jar != null
      modifies Jar
      ensures unchanged(this)
      ensures var o := Lookup(old(Jar.cookies), refresh, 2);
              sid == o.sid && err == o.err && Jar.cookies == o.jar
    {
      var i := 0;
      while i < 2
        invariant 0 <= i <= 2
        invariant Lookup(old(Jar.cookies), refresh, 2) == Lookup(Jar.cookies, refresh, 2 - i)
      {
        var cs := Jar.cookies;
        var j := 0;
        while j < |cs|
          invariant 0 <= j <= |cs|
          invariant forall k :: 0 <= k < j ==> cs[k].Name != SessionCookie
        {
          if cs[j].Name == SessionCookie {
            FirstCookieIndex(cs, j);
            var r := Unescaped(cs[j].Value);
            sid, err := r.0, r.1;
            return;
          }
          j := j + 1;
        }
        NoCookieIndex(cs);
        Jar.cookies := refresh(Jar.cookies);   // c.Get(SteamCommunityURL)
        i := i + 1;
      }
      sid, err := "", Some(NoSID);
    }
  }

  /** The position of the first cookie named `sessionid`, if any. */
  function IndexOfSessionCookie(cs: seq<Cookie>): (r: Option<nat>)
    ensures r.Some? ==> r.value < |cs| && cs[r.value].Name == SessionCookie
    ensures r.Some? ==> forall k :: 0 <= k < r.value ==> cs[k].Name != SessionCookie
    ensures r.None? <==> forall k :: 0 <= k < |cs| ==> cs[k].Name != SessionCookie
  {
    if cs == [] then None
    else if cs[0].Name == SessionCookie then Some(0)
    else match IndexOfSessionCookie(cs[1..])
      case None => None
      case Some(k) => Some(k + 1)
  }

  lemma FirstCookieIndex(cs: seq<Cookie>, j: nat)
    requires j < |cs| && cs[j].Name == SessionCookie
    requires forall k :: 0 <= k < j ==> cs[k].Name != SessionCookie
    ensures IndexOfSessionCookie(cs) == Some(j)
  {
  }

  lemma NoCookieIndex(cs: seq<Cookie>)
    requires forall k :: 0 <= k < |cs| ==> cs[k].Name != SessionCookie
    ensures IndexOfSessionCookie(cs) == None
  {
  }

  /** The two results of `url.QueryUnescape(v.Value)`: on failure Go returns
      the empty string beside the error. */
  function Unescaped(value: string): (r: (string, Option<Error>))
    ensures r.1.None? <==> QueryUnescape(value).Ok?
    ensures r.1.None? ==> r.0 == QueryUnescape(value).value
    ensures r.1.Some? ==> r.0 == "" && r.1.value.Escape?
  {
    match QueryUnescape(value)
    case Ok(v) => (v, None)
    case Fail(e) => ("", Some(e))
  }

  /** What a session-id lookup returns and the jar it leaves behind. */
  datatype Outcome = Outcome(sid: string, err: Option<Error>, jar: seq<Cookie>)

  /** The lookup with `passes` scans left: a scan that finds the cookie
      returns its value; one that does not refreshes the jar and goes on. */
  function Lookup(jar: seq<Cookie>, refresh: seq<Cookie> -> seq<Cookie>, passes: nat): (o: Outcome)
    ensures o.err.Some? ==> o.sid == ""
    ensures o.err.None? ==>
              IndexOfSessionCookie(o.jar).Some? &&
              QueryUnescape(o.jar[IndexOfSessionCookie(o.jar).value].Value) == Ok(o.sid)
    decreases passes
  {
    if passes == 0 then Outcome("", Some(NoSID), jar)
    else match IndexOfSessionCookie(jar)
      case Some(k) =>
        var (v, e) := Unescaped(jar[k].Value);
        Outcome(v, e, jar)
      case None => Lookup(refresh(jar), refresh, passes - 1)
  }

  /** A `sessionid` cookie already in the jar is found on the first scan and no
      GET is issued: the jar is left as it was. */
  lemma FoundWithoutRefresh(jar: seq<Cookie>, refresh: seq<Cookie> -> seq<Cookie>)
    requires IndexOfSessionCookie(jar).Some?
    ensures var o := Lookup(jar, refresh, 2);
            var k := IndexOfSessionCookie(jar).value;
            o.jar == jar && (o.sid, o.err) == Unescaped(jar[k].Value)
  {
  }

  /** The lookup fails with `NoSID` exactly when neither the jar nor the jar
      after one GET holds the cookie, and then two GETs have been issued. */
  lemma NoSIDExactly(jar: seq<Cookie>, refresh: seq<Cookie> -> seq<Cookie>)
    ensures var o := Lookup(jar, refresh, 2);
            (o.err == Some(NoSID)) <==>
              (IndexOfSessionCookie(jar).None? && IndexOfSessionCookie(refresh(jar)).None?)
    ensures var o := Lookup(jar, refresh, 2);
            o.err == Some(NoSID) ==> o.sid == "" && o.jar == refresh(refresh(jar))
  {
    var o := Lookup(jar, refresh, 2);
    match IndexOfSessionCookie(jar) {
      case Some(k) =>
        EscapeIsNotNoSID(jar[k].Value);
      case None =>
        match IndexOfSessionCookie(refresh(jar)) {
          case Some(k) => EscapeIsNotNoSID(refresh(jar)[k].Value);
          case None =>
        }
    }
  }

  /** The lookup fails only with `NoSID` or with an escape error. */
  lemma LookupErrors(jar: seq<Cookie>, refresh: seq<Cookie> -> seq<Cookie>, passes: nat)
    ensures var o := Lookup(jar, refresh, passes);
            o.err.Some? ==> o.err.value == NoSID || o.err.value.Escape?
    decreases passes
  {
    if passes > 0 && IndexOfSessionCookie(jar).None? {
      LookupErrors(refresh(jar), refresh, passes - 1);
    }
  }

  lemma EscapeIsNotNoSID(v: string)
    ensures Unescaped(v).1 != Some(NoSID)
  {
  }

  /** At most two GETs: the jar the lookup leaves is the original, or that
      after one or after two refreshes. */
  lemma AtMostTwoRefreshes(jar: seq<Cookie>, refresh: seq<Cookie> -> seq<Cookie>)
    ensures var o := Lookup(jar, refresh, 2);
            o.jar == jar || o.jar == refresh(jar) || o.jar == refresh(refresh(jar))
  {
  }

  /** A successful lookup returns the unescaped value of the first
      `sessionid` cookie of the jar that was scanned. */
  lemma FoundIsFirstSessionCookie(jar: seq<Cookie>, refresh: seq<Cookie> -> seq<Cookie>)
    ensures var o := Lookup(jar, refresh, 2);
            o.err.None? ==>
              var k := IndexOfSessionCookie(o.jar);
              k.Some? && QueryUnescape(o.jar[k.value].Value) == Ok(o.sid)
  {
  }
}
