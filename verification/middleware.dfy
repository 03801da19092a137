/**
  `updateSession`: refresh the session, decide the route, compose the response.

  The middleware starts with a pass-through response built from the request.
  While the session provider looks up the user it may call `setAll` (zero or
  more times). Each call writes the cookies into the request and REPLACES the
  pass-through response with a fresh one that sets them. Only the pass-through
  branches return that response. The three redirect branches build new
  responses that set no cookies at all.
 */
module Middleware {
  import opened Wrappers
  import opened Cookies
  import opened RouteGuard

  /** A pass-through response forwards the request's cookies (as they were
      when the response was built) upstream and sets `cookies` on the browser;
      a redirect response sends the browser to `location`. */
  datatype Response =
    | Next(forwarded: RequestCookies, cookies: ResponseCookies)
    | Redirect(location: string, cookies: ResponseCookies)

  /** The request's cookie jar and the current pass-through response, the two
      things the `setAll` callback changes. */
  datatype Session = Session(request: RequestCookies, response: Response)

  /** Before the provider runs: the pass-through response is built from the
      untouched request and sets no cookies. */
  function Start(requestCookies: RequestCookies): Session {
    Session(requestCookies, Next(requestCookies, map[]))
  }

  /** One call of the `setAll` callback. */
  function SetAll(s: Session, cs: seq<CookieToSet>): (s': Session)
    ensures forall n :: n in s'.request <==> n in s.request || Mentions(cs, n)
    ensures forall i :: IsLastFor(cs, i) ==>
              cs[i].name in s'.request && s'.request[cs[i].name] == cs[i].value
    ensures forall n :: n in s.request && !Mentions(cs, n) ==> s'.request[n] == s.request[n]
    ensures s'.response.Next? && s'.response.forwarded == s'.request
    ensures forall n :: n in s'.response.cookies <==> Mentions(cs, n)
    ensures forall i :: IsLastFor(cs, i) ==>
              cs[i].name in s'.response.cookies &&
              s'.response.cookies[cs[i].name] == SetCookie(cs[i].value, cs[i].options)
  {
    SetOnRequestMeaning(s.request, cs);
    SetOnFreshResponseMeaning(cs);
    var request := SetOnRequest(s.request, cs);
    Session(request, Next(request, SetOnResponse(map[], cs)))
  }

  /** The provider's calls of `setAll`, in order. */
  function Refresh(s: Session, calls: seq<seq<CookieToSet>>): Session
    decreases |calls|
  {
    if |calls| == 0 then s else Refresh(SetAll(s, calls[0]), calls[1..])
  }

  /** All the entries of all the calls, in order. */
  function Flatten(calls: seq<seq<CookieToSet>>): seq<CookieToSet>
    decreases |calls|
  {
    if |calls| == 0 then [] else calls[0] + Flatten(calls[1..])
  }

  function UpdateSession(
    requestCookies: RequestCookies,
    path: string,
    user: Option<User>,
    calls: seq<seq<CookieToSet>>
  ): Response
  {
    var session := Refresh(Start(requestCookies), calls);
    match Decide(path, user)
    case PassThrough => session.response
    case RedirectTo(target) => Redirect(target, map[])
  }

  /** Request cookies accumulate across calls: after all of them the request
      holds what one pass over all their entries would have written. */
  lemma {:induction false} RefreshAccumulatesRequest(s: Session, calls: seq<seq<CookieToSet>>)
    ensures Refresh(s, calls).request == SetOnRequest(s.request, Flatten(calls))
    decreases |calls|
  {
    if |calls| > 0 {
      RefreshAccumulatesRequest(SetAll(s, calls[0]), calls[1..]);
      OverwriteAppend(s.request, calls[0], Flatten(calls[1..]), ValueOf);
    }
  }

  /** The response, by contrast, is replaced by every call: after at least one
      call it sets exactly the cookies of the LAST call and forwards the
      refreshed request; with no call it is the initial response. */
  lemma {:induction false} RefreshKeepsLastResponse(s: Session, calls: seq<seq<CookieToSet>>)
    ensures |calls| == 0 ==> Refresh(s, calls) == s
    ensures |calls| > 0 ==>
              Refresh(s, calls).response ==
              Next(Refresh(s, calls).request, SetOnResponse(map[], calls[|calls| - 1]))
    decreases |calls|
  {
    if |calls| > 0 {
      var s' := SetAll(s, calls[0]);
      RefreshKeepsLastResponse(s', calls[1..]);
      if |calls| > 1 {
        assert calls[1..][|calls[1..]| - 1] == calls[|calls| - 1];
      }
    }
  }

  /** A pass-through decision returns the response of the last `setAll` call:
      it forwards the request with every refreshed cookie, and sets exactly the
      cookies of that last call, each to the value and options of its last entry. */
  lemma PassThroughCarriesRefresh(
    requestCookies: RequestCookies,
    path: string,
    user: Option<User>,
    earlier: seq<seq<CookieToSet>>,
    last: seq<CookieToSet>
  )
    requires Decide(path, user) == PassThrough
    ensures UpdateSession(requestCookies, path, user, earlier + [last]).Next?
    ensures UpdateSession(requestCookies, path, user, earlier + [last]).forwarded ==
              SetOnRequest(requestCookies, Flatten(earlier + [last]))
    ensures forall n :: n in UpdateSession(requestCookies, path, user, earlier + [last]).cookies <==>
              Mentions(last, n)
    ensures forall i :: IsLastFor(last, i) ==>
              last[i].name in UpdateSession(requestCookies, path, user, earlier + [last]).cookies &&
              UpdateSession(requestCookies, path, user, earlier + [last]).cookies[last[i].name] ==
              SetCookie(last[i].value, last[i].options)
  {
    var calls := earlier + [last];
    var s := Start(requestCookies);
    RefreshKeepsLastResponse(s, calls);
    RefreshAccumulatesRequest(s, calls);
    assert calls[|calls| - 1] == last;
    SetOnFreshResponseMeaning(last);
  }

  /** With no refresh, a pass-through decision returns the initial response:
      the untouched request and no cookies. */
  lemma PassThroughWithoutRefresh(requestCookies: RequestCookies, path: string, user: Option<User>)
    requires Decide(path, user) == PassThrough
    ensures UpdateSession(requestCookies, path, user, []) == Next(requestCookies, map[])
  {
  }

  /** A redirect decision answers with a redirect to its target that sets no
      cookie, whatever the provider refreshed; conversely every redirect
      response comes from a redirect decision. */
  lemma RedirectDropsRefresh(
    requestCookies: RequestCookies,
    path: string,
    user: Option<User>,
    calls: seq<seq<CookieToSet>>
  )
    ensures UpdateSession(requestCookies, path, user, calls).Redirect? <==> Decide(path, user).RedirectTo?
    ensures Decide(path, user).RedirectTo? ==>
              UpdateSession(requestCookies, path, user, calls) == Redirect(Decide(path, user).target, map[])
  {
    RefreshKeepsLastResponse(Start(requestCookies), calls);
  }

  /** So a response that sets any cookie is a pass-through response, and
      webhook traffic always gets the refreshed pass-through response. */
  lemma OnlyPassThroughSetsCookies(
    requestCookies: RequestCookies,
    path: string,
    user: Option<User>,
    calls: seq<seq<CookieToSet>>
  )
    ensures UpdateSession(requestCookies, path, user, calls).cookies != map[] ==>
              Decide(path, user) == PassThrough
    ensures IsWebhook(path) ==>
              UpdateSession(requestCookies, path, user, calls) == Refresh(Start(requestCookies), calls).response
  {
  }
}
