/** The Graph API wrappers of app/lib/facebook.ts, seen only through what
    their callers observe: the request made and how the returned promise
    settles. The network itself is an input. */
module GraphApi {
  import opened Js

  /** How one `fetch` (and the `json()` of its body) ends: a 2xx response
      with a parsed body, a non-2xx response, or a rejection. */
  datatype Http<+T> = Ok(body: T) | NotOk | FetchFailed(fault: Fault)

  /** The collections the dashboard reads from a Page. */
  datatype Resource = Posts | Videos | Insights

  /** One outbound Graph API request, with the token it carries. */
  datatype Call =
    | Fetch(resource: Resource, pageId: string, token: string)
    | Refresh(token: string)

  /** What every view reports when its page id or token is missing. */
  const CredentialsError := "Facebook credentials not configured"

  const VideosError := "Failed to fetch Facebook videos"
  const InsightsError := "Failed to fetch Facebook insights data"
  const RefreshError := "Failed to refresh access token"

  /** A wrapper that throws `new Error(message)` on a non-2xx response and
      lets a rejected `fetch` propagate unchanged. */
  function Checked<T>(r: Http<T>, message: string): (o: Outcome<T>)
    ensures o.Resolved? <==> r.Ok?
    ensures r.Ok? ==> o.value == r.body
    ensures r.NotOk? ==> o == Rejected(ErrorObject(message))
    ensures r.FetchFailed? ==> o == Rejected(r.fault)
  {
    match r
    case Ok(b) => Resolved(b)
    case NotOk => Rejected(ErrorObject(message))
    case FetchFailed(f) => Rejected(f)
  }

  /** `getFacebookVideos`: throws its fixed message on a non-2xx response. */
  function VideosOutcome<T>(r: Http<T>): (o: Outcome<T>)
    ensures o.Resolved? <==> r.Ok?
    ensures r.Ok? ==> o.value == r.body
    ensures r.NotOk? ==> o == Rejected(ErrorObject(VideosError))
    ensures r.FetchFailed? ==> o == Rejected(r.fault)
  {
    Checked(r, VideosError)
  }

  /** `getPageInsights`: throws its fixed message on a non-2xx response. */
  function InsightsOutcome<T>(r: Http<T>): (o: Outcome<T>)
    ensures o.Resolved? <==> r.Ok?
    ensures r.Ok? ==> o.value == r.body
    ensures r.NotOk? ==> o == Rejected(ErrorObject(InsightsError))
    ensures r.FetchFailed? ==> o == Rejected(r.fault)
  {
    Checked(r, InsightsError)
  }

  /** `refreshAccessToken`: throws its fixed message on a non-2xx response. */
  function RefreshOutcome(r: Http<string>): (o: Outcome<string>)
    ensures o.Resolved? <==> r.Ok?
    ensures r.Ok? ==> o.value == r.body
    ensures r.NotOk? ==> o == Rejected(ErrorObject(RefreshError))
    ensures r.FetchFailed? ==> o == Rejected(r.fault)
  {
    Checked(r, RefreshError)
  }
}

/** The refresh-once protocol that the videos and insights views both run
    around their Graph API call: try once; if the failure's message mentions
    an invalid token, refresh the token once and retry once with it. */
module TokenRefresh {
  import opened Js
  import opened GraphApi

  const ExpiredTokenMarker := "Error validating access token"

  /** `err.message?.includes('Error validating access token')`. */
  predicate IsExpiredToken(f: Fault) {
    f.ErrorObject? && Includes(f.message, ExpiredTokenMarker)
  }

  /** The requests made, in order, and how the whole attempt settles. */
  datatype Run<+T> = Run(calls: seq<Call>, result: Outcome<T>)

  /** The attempt for `resource`, given how the first call, the refresh and
      the retry would settle. */
  function WithRefresh<T>(resource: Resource, pageId: string, token: string,
                          first: Outcome<T>, refresh: Outcome<string>, retry: Outcome<T>): (run: Run<T>)
    ensures 1 <= |run.calls| <= 3 && run.calls[0] == Fetch(resource, pageId, token)
    // the refresh is requested at most once, only as the second request,
    // with the original token, and only after an invalid-token failure
    ensures forall k :: 0 <= k < |run.calls| && run.calls[k].Refresh? ==> k == 1
    ensures |run.calls| > 1 <==> first.Rejected? && IsExpiredToken(first.fault)
    ensures |run.calls| > 1 ==> run.calls[1] == Refresh(token)
    // a retry happens exactly when the refresh yielded a new token, and uses it
    ensures |run.calls| == 3 <==> |run.calls| > 1 && refresh.Resolved?
    ensures |run.calls| == 3 ==> run.calls[2] == Fetch(resource, pageId, refresh.value) && run.result == retry
    ensures |run.calls| == 2 ==> refresh.Rejected? && run.result == Rejected(refresh.fault)
    ensures |run.calls| == 1 ==> run.result == first
  {
    var initial := Fetch(resource, pageId, token);
    match first
    case Resolved(_) => Run([initial], first)
    case Rejected(f) =>
      if !IsExpiredToken(f) then Run([initial], first)
      else
        match refresh
        case Rejected(g) => Run([initial, Refresh(token)], Rejected(g))
        case Resolved(newToken) => Run([initial, Refresh(token), Fetch(resource, pageId, newToken)], retry)
  }

  /** None of the fixed texts the wrappers throw mentions an invalid token. */
  lemma WrapperMessageLacksMarker(message: string)
    requires message == VideosError || message == InsightsError || message == RefreshError
    ensures !Includes(message, ExpiredTokenMarker)
  {
    assert 'E' !in message;
    ExcludesByFirstChar(message, ExpiredTokenMarker);
  }

  /** For a wrapper whose own message does not mention an invalid token, the
      refresh is requested exactly when `fetch` itself rejected with one. */
  lemma RefreshOnlyAfterFetchRejectsWith<T>(message: string, resource: Resource, pageId: string, token: string,
                                            http: Http<T>, refresh: Outcome<string>, retry: Outcome<T>)
    requires !Includes(message, ExpiredTokenMarker)
    ensures Refresh(token) in WithRefresh(resource, pageId, token, Checked(http, message), refresh, retry).calls
            <==> http.FetchFailed? && IsExpiredToken(http.fault)
  {
    var run := WithRefresh(resource, pageId, token, Checked(http, message), refresh, retry);
    if Refresh(token) in run.calls {
      var k :| 0 <= k < |run.calls| && run.calls[k] == Refresh(token);
      assert |run.calls| > 1;
    }
  }

  /** With the wrappers as written, the refresh branch is reachable only when
      `fetch` itself rejects with an invalid-token message: the fixed texts the
      wrappers throw on a non-2xx response never contain it. */
  lemma RefreshOnlyAfterFetchRejects<T>(resource: Resource, pageId: string, token: string,
                                        http: Http<T>, refresh: Outcome<string>, retry: Outcome<T>)
    requires resource == Videos || resource == Insights
    ensures var first := if resource == Videos then VideosOutcome(http) else InsightsOutcome(http);
            Refresh(token) in WithRefresh(resource, pageId, token, first, refresh, retry).calls
            <==> http.FetchFailed? && IsExpiredToken(http.fault)
  {
    if resource == Videos {
      WrapperMessageLacksMarker(VideosError);
      RefreshOnlyAfterFetchRejectsWith(VideosError, resource, pageId, token, http, refresh, retry);
    } else {
      WrapperMessageLacksMarker(InsightsError);
      RefreshOnlyAfterFetchRejectsWith(InsightsError, resource, pageId, token, http, refresh, retry);
    }
  }
}
