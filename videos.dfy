/** The video list of components/facebook-videos.tsx: the duration text, the
    engagement score against the per-video targets, its colour band, and the
    fetch with its refresh-once retry. */
module Videos {
  import opened Js
  import opened GraphApi
  import opened TokenRefresh

  // ----- Duration -----

  /** The three fields `formatDuration` prints. */
  datatype Duration = Duration(hours: int, minutes: int, seconds: int)

  /** The fields as `formatDuration` computes them from a length in seconds
      (`Math.floor(s / 3600)`, `Math.floor((s % 3600) / 60)`,
      `Math.round(s % 60)`, with JavaScript's truncating `%`). The seconds are
      rounded after the minutes are split off, so a length in the last half
      second of a minute shows 60 seconds. */
  function Parts(s: real): (d: Duration)
    ensures s >= 0.0 ==> d.hours >= 0 && d.hours as real * 3600.0 <= s < (d.hours + 1) as real * 3600.0
    ensures s >= 0.0 ==> 0 <= d.minutes < 60 && 0 <= d.seconds <= 60
    // hours and minutes are the whole minutes of the length
    ensures s >= 0.0 ==> (d.hours * 3600 + d.minutes * 60) as real <= s < (d.hours * 3600 + d.minutes * 60 + 60) as real
    // the three fields together are the length rounded to whole seconds
    ensures s >= 0.0 ==> d.hours * 3600 + d.minutes * 60 + d.seconds == Round(s)
  {
    var h := (s / 3600.0).Floor;
    var m := (JsRem(s, 3600.0) / 60.0).Floor;
    if s >= 0.0 then SplitTotal(s, h, m); Duration(h, m, Round(JsRem(s, 60.0)))
    else Duration(h, m, Round(JsRem(s, 60.0)))
  }

  /** The arithmetic behind `Parts`: the whole minutes of a non-negative
      length are `60 * h + m`, and the rounded remainder adds up to the
      rounded length. */
  lemma SplitTotal(s: real, h: int, m: int)
    requires s >= 0.0 && h == (s / 3600.0).Floor && m == (JsRem(s, 3600.0) / 60.0).Floor
    ensures (h * 3600 + m * 60) as real <= s < (h * 3600 + m * 60 + 60) as real
    ensures h * 3600 + m * 60 + Round(JsRem(s, 60.0)) == Round(s)
  {
    var x := JsRem(s, 3600.0);
    assert x == s - 3600.0 * h as real;
    assert m as real <= x / 60.0 < m as real + 1.0;
    assert 60.0 * m as real <= x < 60.0 * m as real + 60.0;
    var k := h * 3600 + m * 60;
    assert k as real == 3600.0 * h as real + 60.0 * m as real;
    var q := h * 60 + m;
    assert q as real <= s / 60.0 < q as real + 1.0;
    assert (s / 60.0).Floor == q;
    var y := JsRem(s, 60.0);
    assert y == s - 60.0 * q as real;
    assert y == s - k as real;
    var r := Round(y);
    assert (r + k) as real - 0.5 <= s < (r + k) as real + 0.5;
  }

  /** `formatDuration`: `h:mm:ss` when there is at least an hour, else `m:ss`.
      The text reads back as the fields of `Parts`, the seconds field
      included when it is 60, and so as the length rounded to whole seconds:
      `1:60` is a malformed display of the right number. */
  function FormatDuration(s: real): (t: string)
    ensures s >= 0.0 ==> ParseDuration(t) == Some(Parts(s).hours * 3600 + Parts(s).minutes * 60 + Parts(s).seconds)
    ensures s >= 0.0 ==> ParseDuration(t) == Some(Round(s))
  {
    if s >= 0.0 then DurationTextRoundTrip(Parts(s)); DurationText(Parts(s))
    else DurationText(Parts(s))
  }

  function DurationText(d: Duration): string {
    if d.hours > 0 then IntText(d.hours) + ":" + PadStart2(IntText(d.minutes)) + ":" + PadStart2(IntText(d.seconds))
    else IntText(d.minutes) + ":" + PadStart2(IntText(d.seconds))
  }

  /** The split of a whole number of seconds into hours, minutes and seconds. */
  function WholeParts(n: int): (d: Duration)
    ensures n >= 0 ==> && d.hours >= 0 && 0 <= d.minutes < 60 && 0 <= d.seconds < 60
                       && d.hours * 3600 + d.minutes * 60 + d.seconds == n
  {
    Duration(n / 3600, n % 3600 / 60, n % 60)
  }

  /** A whole number of seconds, printed. */
  function FormatSeconds(n: int): string {
    DurationText(WholeParts(n))
  }

  /** `formatDuration` as evidently intended: round the length to whole
      seconds first, then split it. */
  function FormatDurationRounded(s: real): (t: string)
    ensures s >= 0.0 ==> ParseDuration(t) == Some(Round(s))
  {
    if s >= 0.0 then FormatSecondsRoundTrip(Round(s)); FormatSeconds(Round(s))
    else FormatSeconds(Round(s))
  }

  lemma FloorOfQuotient(n: int, d: int)
    requires n >= 0 && d > 0
    ensures (n as real / d as real).Floor == n / d
  {
    var q := n / d;
    var r := n % d;
    assert n as real == q as real * d as real + r as real;
    assert n as real / d as real == q as real + r as real / d as real;
    assert 0.0 <= r as real / d as real < 1.0;
  }

  lemma RemOfWhole(n: int, d: int)
    requires n >= 0 && d > 0
    ensures JsRem(n as real, d as real) == (n % d) as real
  {
    FloorOfQuotient(n, d);
    assert n as real == (n / d) as real * d as real + (n % d) as real;
  }

  /** On a whole number of seconds the fields are the plain split. */
  lemma PartsOfWholeSeconds(n: int)
    requires n >= 0
    ensures Parts(n as real) == WholeParts(n)
  {
    FloorOfQuotient(n, 3600);
    RemOfWhole(n, 3600);
    FloorOfQuotient(n % 3600, 60);
    RemOfWhole(n, 60);
  }

  /** For whole seconds, the duration as written and the rounded one agree. */
  lemma FormatWholeSeconds(n: int)
    requires n >= 0
    ensures FormatDuration(n as real) == FormatSeconds(n) == FormatDurationRounded(n as real)
  {
    PartsOfWholeSeconds(n);
    assert FormatDuration(n as real) == DurationText(WholeParts(n));
    assert Round(n as real) == n;
  }

  /** The colon-separated fields of a text. */
  function Fields(t: string): (fs: seq<string>)
    ensures |fs| > 0
    decreases |t|
  {
    if t == [] then [""]
    else
      var fs := Fields(t[..|t| - 1]);
      var c := t[|t| - 1];
      if c == ':' then fs + [""] else fs[..|fs| - 1] + [fs[|fs| - 1] + [c]]
  }

  predicate AllDigits(t: string) {
    forall k :: 0 <= k < |t| ==> IsDigit(t[k])
  }

  /** The value of a non-empty run of digits. */
  function FieldValue(t: string): Option<int> {
    if t != [] && AllDigits(t) then Some(DigitsValue(t)) else None
  }

  /** The number of seconds in the fields of `m:ss` or `h:mm:ss`. */
  function FieldsSeconds(fs: seq<string>): Option<int> {
    if |fs| == 2 && FieldValue(fs[0]).Some? && FieldValue(fs[1]).Some? then
      Some(FieldValue(fs[0]).value * 60 + FieldValue(fs[1]).value)
    else if |fs| == 3 && FieldValue(fs[0]).Some? && FieldValue(fs[1]).Some? && FieldValue(fs[2]).Some? then
      Some(FieldValue(fs[0]).value * 3600 + FieldValue(fs[1]).value * 60 + FieldValue(fs[2]).value)
    else None
  }

  /** Reading `m:ss` or `h:mm:ss` back as a number of seconds. */
  function ParseDuration(t: string): Option<int> {
    FieldsSeconds(Fields(t))
  }

  lemma {:induction false} FieldsOfDigits(t: string)
    requires AllDigits(t)
    ensures Fields(t) == [t]
    decreases |t|
  {
    if t != [] {
      FieldsOfDigits(t[..|t| - 1]);
      assert t[..|t| - 1] + [t[|t| - 1]] == t;
    }
  }

  lemma {:induction false} FieldsAppend(t: string, u: string)
    requires AllDigits(u)
    ensures Fields(t + ":" + u) == Fields(t) + [u]
    decreases |u|
  {
    if u == [] {
      assert (t + ":" + u)[..|t + ":" + u| - 1] == t;
    } else {
      var w := t + ":" + u;
      assert w[..|w| - 1] == t + ":" + u[..|u| - 1];
      FieldsAppend(t, u[..|u| - 1]);
      assert u[..|u| - 1] + [u[|u| - 1]] == u;
    }
  }

  /** The decimal text of a number below 100, padded to two digits. */
  lemma PaddedValue(n: int)
    requires 0 <= n < 100
    ensures PadStart2(IntText(n)) != [] && AllDigits(PadStart2(IntText(n)))
    ensures DigitsValue(PadStart2(IntText(n))) == n
    ensures |PadStart2(IntText(n))| == 2
  {
    NatTextValue(n);
    NatTextShort(n);
    if n < 10 {
      LeadingZeroValue(NatText(n));
    }
  }

  lemma NumberValue(n: int)
    requires n >= 0
    ensures IntText(n) != [] && AllDigits(IntText(n)) && DigitsValue(IntText(n)) == n
  {
    NatTextValue(n);
  }

  lemma MinutesFields(m: string, sec: string)
    requires m != [] && AllDigits(m) && sec != [] && AllDigits(sec)
    ensures FieldsSeconds([m, sec]) == Some(DigitsValue(m) * 60 + DigitsValue(sec))
  {
  }

  lemma HoursFields(h: string, m: string, sec: string)
    requires h != [] && AllDigits(h) && m != [] && AllDigits(m) && sec != [] && AllDigits(sec)
    ensures FieldsSeconds([h, m, sec]) == Some(DigitsValue(h) * 3600 + DigitsValue(m) * 60 + DigitsValue(sec))
  {
  }

  lemma ParseMinutes(m: string, sec: string, t: string, d: Duration)
    requires m != [] && AllDigits(m) && sec != [] && AllDigits(sec)
    requires d.hours == 0 && DigitsValue(m) == d.minutes && DigitsValue(sec) == d.seconds
    requires t == m + ":" + sec
    ensures ParseDuration(t) == Some(d.hours * 3600 + d.minutes * 60 + d.seconds)
  {
    FieldsOfDigits(m);
    FieldsAppend(m, sec);
    assert Fields(m + ":" + sec) == [m, sec];
    MinutesFields(m, sec);
  }

  lemma ParseHours(h: string, m: string, sec: string, t: string, d: Duration)
    requires h != [] && AllDigits(h) && m != [] && AllDigits(m) && sec != [] && AllDigits(sec)
    requires DigitsValue(h) == d.hours && DigitsValue(m) == d.minutes && DigitsValue(sec) == d.seconds
    requires t == h + ":" + m + ":" + sec
    ensures ParseDuration(t) == Some(d.hours * 3600 + d.minutes * 60 + d.seconds)
  {
    FieldsOfDigits(h);
    FieldsAppend(h, m);
    FieldsAppend(h + ":" + m, sec);
    assert Fields(h + ":" + m + ":" + sec) == [h, m, sec];
    HoursFields(h, m, sec);
  }

  /** The fields of a duration read back. */
  lemma DurationTextRoundTrip(d: Duration)
    requires d.hours >= 0 && 0 <= d.minutes < 60 && 0 <= d.seconds <= 60
    ensures ParseDuration(DurationText(d)) == Some(d.hours * 3600 + d.minutes * 60 + d.seconds)
  {
    var ss := PadStart2(IntText(d.seconds));
    PaddedValue(d.seconds);
    if d.hours > 0 {
      NumberValue(d.hours);
      PaddedValue(d.minutes);
      ParseHours(IntText(d.hours), PadStart2(IntText(d.minutes)), ss, DurationText(d), d);
    } else {
      NumberValue(d.minutes);
      ParseMinutes(IntText(d.minutes), ss, DurationText(d), d);
    }
  }

  /** Reading a printed whole number of seconds back gives the number. */
  lemma FormatSecondsRoundTrip(n: int)
    requires n >= 0
    ensures ParseDuration(FormatSeconds(n)) == Some(n)
  {
    var d := WholeParts(n);
    assert d.hours * 3600 + d.minutes * 60 + d.seconds == n;
    DurationTextRoundTrip(d);
  }

  /** The fields of a duration's text: the hours (when there are any) and
      minutes as printed, the lower fields padded. */
  lemma DurationFields(d: Duration)
    requires d.hours >= 0 && 0 <= d.minutes < 60 && 0 <= d.seconds < 60
    ensures Fields(DurationText(d)) ==
              if d.hours > 0 then [IntText(d.hours), PadStart2(IntText(d.minutes)), PadStart2(IntText(d.seconds))]
              else [IntText(d.minutes), PadStart2(IntText(d.seconds))]
  {
    var ss := PadStart2(IntText(d.seconds));
    PaddedValue(d.seconds);
    if d.hours > 0 {
      var mm := PadStart2(IntText(d.minutes));
      NumberValue(d.hours);
      PaddedValue(d.minutes);
      FieldsOfDigits(IntText(d.hours));
      FieldsAppend(IntText(d.hours), mm);
      FieldsAppend(IntText(d.hours) + ":" + mm, ss);
      assert DurationText(d) == (IntText(d.hours) + ":" + mm) + ":" + ss;
    } else {
      NumberValue(d.minutes);
      FieldsOfDigits(IntText(d.minutes));
      FieldsAppend(IntText(d.minutes), ss);
    }
  }

  /** A duration's text has three fields exactly when it has hours, and the
      fields after the first have two characters each. */
  lemma DurationShape(d: Duration)
    requires d.hours >= 0 && 0 <= d.minutes < 60 && 0 <= d.seconds < 60
    ensures |Fields(DurationText(d))| == if d.hours > 0 then 3 else 2
    ensures forall k :: 1 <= k < |Fields(DurationText(d))| ==> |Fields(DurationText(d))[k]| == 2
  {
    DurationFields(d);
    PaddedValue(d.seconds);
    PaddedValue(d.minutes);
  }

  /** The printed duration has an hours field exactly from one hour on, and
      every field after the first is padded to two digits. */
  lemma FormatSecondsShape(n: int)
    requires n >= 0
    ensures |Fields(FormatSeconds(n))| == if n >= 3600 then 3 else 2
    ensures forall k :: 1 <= k < |Fields(FormatSeconds(n))| ==> |Fields(FormatSeconds(n))[k]| == 2
  {
    var d := WholeParts(n);
    assert d.hours > 0 <==> n >= 3600;
    DurationShape(d);
  }

  /** As written, a length of 119.5 seconds is shown as `1:60`: the seconds
      `59.5` round up to 60 after the minute was split off. */
  lemma SixtySecondsAsWritten()
    ensures Parts(119.5) == Duration(0, 1, 60)
    ensures FormatDuration(119.5) == "1:60"
  {
    assert JsRem(119.5, 60.0) == 59.5;
    assert Parts(119.5) == Duration(0, 1, 60);
    assert IntText(60) == "60";
  }

  /** Rounded first, every non-negative length is shown with minutes and
      seconds below 60, and reads back as the rounded length. */
  lemma FormatDurationRoundedFields(s: real)
    requires s >= 0.0
    ensures 0 <= WholeParts(Round(s)).minutes < 60 && 0 <= WholeParts(Round(s)).seconds < 60
    ensures ParseDuration(FormatDurationRounded(s)) == Some(Round(s))
  {
    FormatSecondsRoundTrip(Round(s));
  }

  /** Rounded first, 119.5 seconds is shown as `2:00`. */
  lemma TwoMinutesRounded()
    ensures FormatDurationRounded(119.5) == "2:00"
  {
    assert Round(119.5) == 120;
    assert WholeParts(120) == Duration(0, 2, 0);
    assert IntText(2) == "2";
    assert PadStart2(IntText(0)) == "00";
  }

  // ----- Score -----

  const LikesTarget := 50
  const CommentsTarget := 50

  /** `calculatePerformanceScore`: the mean of likes and comments as
      percentages of their targets, rounded. With both targets at 50 it is
      the sum of the two counts. */
  function PerformanceScore(likes: int, comments: int): (score: int)
    ensures score == likes + comments
  {
    var likeScore := (likes as real / LikesTarget as real) * 100.0;
    var commentScore := (comments as real / CommentsTarget as real) * 100.0;
    var averageScore := (likeScore + commentScore) / 2.0;
    Round(averageScore)
  }

  /** The three bands of the video score. */
  datatype ScoreBand = Green | Yellow | Red

  /** `getPerformanceColor(score)`. */
  function ScoreColor(score: int): (b: ScoreBand)
    ensures b == Green <==> score >= 100
    ensures b == Yellow <==> 75 <= score < 100
    ensures b == Red <==> score < 75
  {
    if score >= 100 then Green
    else if score >= 75 then Yellow
    else Red
  }

  /** A video's colour from its counts: green from 100 likes and comments
      together, yellow from 75 (50 likes and 25 comments, say), red below. */
  lemma VideoColor(likes: int, comments: int)
    ensures ScoreColor(PerformanceScore(likes, comments)) == Green <==> likes + comments >= 100
    ensures ScoreColor(PerformanceScore(likes, comments)) == Yellow <==> 75 <= likes + comments < 100
    ensures ScoreColor(PerformanceScore(50, 25)) == Yellow
  {
  }

  // ----- The view -----

  /** The fields of a video the list shows. */
  datatype Video = Video(id: string, title: string, length: real, likes: int, comments: int)

  /** The state of the video list that `fetchVideos` updates. */
  class VideosView {
    var loading: bool
    var error: Option<string>
    var videos: seq<Video>

    constructor ()
      ensures !loading && error == None && videos == []
    {
      loading := false;
      error := None;
      videos := [];
    }

    /** `fetchVideos`. `first`, `refresh` and `retry` are how the videos
        request, the token refresh and the second videos request would
        settle; returns the Graph API requests made, in order. */
    method FetchVideos(pageId: Option<string>, token: Option<string>,
                       first: Http<seq<Video>>, refresh: Http<string>, retry: Http<seq<Video>>)
      returns (calls: seq<Call>)
      modifies this
      ensures !loading
      ensures !Truthy(pageId) || !Truthy(token) ==>
                calls == [] && error == Some(CredentialsError) && videos == old(videos)
      ensures Truthy(pageId) && Truthy(token) ==>
                var run := WithRefresh(Videos, pageId.value, token.value,
                                       VideosOutcome(first), RefreshOutcome(refresh), VideosOutcome(retry));
                && calls == run.calls
                && (run.result.Resolved? ==> error == None && videos == run.result.value)
                && (run.result.Rejected? ==> error == Some(ErrorText(run.result.fault)) && videos == old(videos))
    {
      loading := true;
      error := None;
      if !Truthy(pageId) || !Truthy(token) {
        error := Some(ErrorText(ErrorObject(CredentialsError)));
        loading := false;
        return [];
      }
      var accessToken := token.value;
      calls := [Fetch(Videos, pageId.value, accessToken)];
      var fetched := VideosOutcome(first);
      if fetched.Resolved? {
        videos := fetched.value;
      } else if IsExpiredToken(fetched.fault) {
        calls := calls + [Refresh(accessToken)];
        var refreshed := RefreshOutcome(refresh);
        if refreshed.Rejected? {
          error := Some(ErrorText(refreshed.fault));
        } else {
          accessToken := refreshed.value;
          calls := calls + [Fetch(Videos, pageId.value, accessToken)];
          var refetched := VideosOutcome(retry);
          if refetched.Resolved? {
            videos := refetched.value;
          } else {
            error := Some(ErrorText(refetched.fault));
          }
        }
      } else {
        error := Some(ErrorText(fetched.fault));
      }
      loading := false;
    }
  }
}
