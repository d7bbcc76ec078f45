# xhanalytics core, modelled in Dafny

xhanalytics is a Facebook Page dashboard with a webhook receiver. This project models the parts of it that compute or decide something:

- **The webhook receiver** (`POST /api/webhook`, module `Webhook`). It parses the event and checks its two secrets. It relays the event's JSON text to Slack. It then posts a fixed promotional comment on the post of every `feed` change whose `item` is `post`, whatever its `verb` (an edited or removed post is commented on too), in entry-then-change order. Any rejected request, and any TypeError raised while walking the event, ends in a generic 500.
- **The post analytics view** (modules `Analytics` and `Ranking`). This covers:
  - the three top-5 rankings by likes, comments and shares;
  - the grouping of the fetched posts, sorted by time, into daily buckets with per-day sums;
  - the chart rows;
  - the period performance: totals, targets, ratios and their mean;
  - the three-band colour;
  - the `fetchData` state updates.
- **The video view** (module `Videos`). This covers:
  - the duration text, both as written and with the rounding done first;
  - the engagement score against the per-video targets and its colour band;
  - `fetchVideos`, with its one token refresh and one retry.
- **The insights view** (module `Followers`). This covers:
  - `fetchInsights`, which runs the same refresh-once protocol;
  - the pivot of the metric series into one row per time index, summing object-valued points;
  - the effect guard that decides whether the pivot runs.
- **The Graph API wrappers** (module `GraphApi`). Each is seen only through how its promise settles and which fixed message it throws. The refresh-once protocol they share is module `TokenRefresh`.
- **JavaScript semantics the above rely on** (module `Js`):
  - truthiness of an optional string;
  - `String.prototype.includes`;
  - the truncating `%`;
  - `Math.round`;
  - `padStart(2, '0')`;
  - decimal text;
  - `err instanceof Error ? err.message : 'An error occurred'`;
  - division producing infinities or NaN.

Inputs the model does not compute are parameters:

- the network's answers (one outcome per outbound call);
- `JSON.stringify` of the event, carried with the parsed body as its own text, so fields the handler never reads still reach Slack;
- the day key `format(date, 'MMM dd')` (it has no year, so posts on the same month and day of different years share a bucket);
- the period's `differenceInDays`;
- `toLocaleDateString`;
- the environment variables.

Integers are unbounded. Ratios are exact reals. A JavaScript number that can be infinite or NaN is the `Js.Number` datatype.

State that the source updates in place is a Dafny class per view. The `loading`, `error` and data fields are updated by methods that state the whole new state. The bucketing accumulator is a `map` that a loop updates. The webhook's loops are `while` loops over the entries and their changes. They append to the outbound trace and are proved against a reference walk of the event.

## Model

| member | source | states |
|---|---|---|
| `Webhook.HandlePost` | app/api/webhook/route.ts:3-61 | A malformed body gives 500 with no requests, even when a secret is missing. A missing or empty secret gives 400 `Missing Slack webhook URL or access token` with no requests. A `null` event gives 500 with no requests. Otherwise the requests sent are the planned ones up to and including the first that rejects: exactly one Slack message first, and after it only comments made with the page token. The reply is 200 only when nothing rejected and the walk did not throw. Without `object === 'page'` and a truthy `entry`, the only request is the Slack message. |
| `Webhook.PlannedAt` | app/api/webhook/route.ts:23-47 | The plan is the Slack message with the event's JSON text, then one comment per post the walk finds, in the order found, each with the page token. |
| `Webhook.PlannedReference` | app/api/webhook/route.ts:32-50 | For a page event the walk throws exactly when some entry has no `changes` or has a `feed` change without `value`. Otherwise the plan is the Slack message followed by one comment per `feed`/`post` change, in entry then change order, with no de-duplication by post id. |
| `Webhook.ChangesWalk` | app/api/webhook/route.ts:34-35 | The loop over one entry's changes throws exactly when a `feed` change lacks `value`. Otherwise it collects the post ids of the `feed`/`post` changes, front to back, ignoring every other change. |
| `Webhook.EntriesWalk` | app/api/webhook/route.ts:33-35 | The loop over the entries throws exactly when an entry is unreadable. Otherwise it collects, in order, the post ids of every entry's `feed` changes whose `item` is `post`, whatever their `verb`. |
| `Webhook.Comments` | app/api/webhook/route.ts:36-47 | One comment request per post id. |
| `Webhook.Planned` | app/api/webhook/route.ts:23-29 | The plan always starts with the Slack message, so it is never empty. |
| `Webhook.Url` | app/api/webhook/route.ts:23-37 | The Slack message goes to the configured webhook URL. A comment goes to the Graph API `comments` edge: the text between the fixed `v19.0` prefix and `/comments` is the post id as a template literal prints it, `undefined` when the id is missing. |
| `Webhook.CommentUrlsDistinct` | app/api/webhook/route.ts:37 | Two comments on present post ids go to the same endpoint exactly when the ids are equal. |
| `Webhook.PayloadOf` | app/api/webhook/route.ts:26-41 | The Slack body is the fixed label `Received event: ` followed by the event's JSON text. A comment body is the fixed promotional message with the page token, the same for every post. |
| `Webhook.CommentOnChange` | app/api/webhook/route.ts:35-47 | One iteration of the inner loop sends what the reference walk plans for that change. It stops at the request that rejects or at a change that throws. |
| `Webhook.CommentOnChanges` | app/api/webhook/route.ts:34-49 | The inner loop sends the reference walk's requests for the entry's changes, up to the first rejection or TypeError. |
| `Webhook.CommentOnEntries` | app/api/webhook/route.ts:33-50 | The outer loop sends the reference walk's requests for all entries. An entry without `changes` stops it. |
| `GraphApi.Checked` | app/lib/facebook.ts:132-138 | A wrapper resolves exactly on a 2xx response, with its body. On a non-2xx response it rejects with an Error carrying its fixed message. A rejected `fetch` propagates unchanged. |
| `GraphApi.VideosOutcome` | app/lib/facebook.ts:133-135 | `getFacebookVideos` resolves exactly on a 2xx response, with its data. A non-2xx response rejects with `Failed to fetch Facebook videos`, and a rejected `fetch` passes through unchanged. |
| `GraphApi.InsightsOutcome` | app/lib/facebook.ts:61-63 | `getPageInsights` resolves exactly on a 2xx response, with its body. A non-2xx response rejects with `Failed to fetch Facebook insights data`, and a rejected `fetch` passes through unchanged. |
| `GraphApi.RefreshOutcome` | app/lib/facebook.ts:24-26 | `refreshAccessToken` resolves exactly on a 2xx response, with the new token. A non-2xx response rejects with `Failed to refresh access token`, and a rejected `fetch` passes through unchanged. |
| `TokenRefresh.WithRefresh` | components/facebook-videos.tsx:73-85 | One to three requests, the first being the resource with the original token. A refresh is requested only as the second request, with the original token, and exactly when the first failure is an Error whose message contains `Error validating access token`. A retry follows exactly when the refresh yields a token, and uses it. The outcome is the retry's, the refresh's failure, or the first outcome. |
| `TokenRefresh.WrapperMessageLacksMarker` | app/lib/facebook.ts:61-63 | None of the wrappers' fixed messages contains `Error validating access token`. This covers the insights, videos and refresh messages at lines 62, 134 and 25. |
| `TokenRefresh.RefreshOnlyAfterFetchRejectsWith` | components/facebook-followers.tsx:59-61 | For a wrapper whose fixed message lacks the marker, the refresh is requested exactly when `fetch` itself rejected with an Error mentioning it. |
| `TokenRefresh.RefreshOnlyAfterFetchRejects` | components/facebook-videos.tsx:76-79 | With the videos and insights wrappers as written, the refresh branch is reachable only through a rejected `fetch` whose message carries the marker, never through a non-2xx response. |
| `Ranking.Insert` | components/facebook-analytics.tsx:72-78 | Inserting keeps the elements and adds one. |
| `Ranking.SortDesc` | components/facebook-analytics.tsx:72-78 | The descending sort by a count is sorted, and is a permutation of its input. |
| `Ranking.SortKeepsTies` | components/facebook-analytics.tsx:72-78 | The sort is stable: posts with equal counts keep their original order. |
| `Ranking.Top` | components/facebook-analytics.tsx:72-78 | `.slice(0, 5)` of the sorted copy has `min(5, n)` elements, is non-increasing, and is drawn from the input. |
| `Ranking.TopIsBest` | components/facebook-analytics.tsx:72-78 | A post left out of a top list ranks no higher than any post in it. Something is left out only when the list is full. |
| `Ranking.TopKeepsTies` | components/facebook-analytics.tsx:72-78 | Within a top list, posts of equal count are a prefix, in original order, of the input's posts of that count. |
| `Analytics.TopPosts` | components/facebook-analytics.tsx:69-97 | No posts give three empty lists. Each list is the top five by likes, comments or shares, with a missing count read as 0: sorted, drawn from the posts, ties in order, nothing better left out. The posts themselves are untouched. |
| `Analytics.GroupByDay` | components/facebook-analytics.tsx:166-181 | The accumulator's keys are the day keys of the posts, listed in order of first occurrence. Each day's bucket holds that day's posts in order, and the sums of their likes, comments and shares. |
| `Analytics.ChartData` | components/facebook-analytics.tsx:183-189 | The chart has one row per day, in first-occurrence order, with the post count and the sums of that day's bucket. |
| `Analytics.DaysAreTheKeys` | components/facebook-analytics.tsx:166-176 | Every day appears once in the chart. The chart's days are exactly the day keys of the posts. |
| `Analytics.ChartConserves` | components/facebook-analytics.tsx:166-189 | Summed over the rows, each measure gives its total over the posts, and the post counts add up to the number of posts. So every post lands in exactly one bucket. |
| `Analytics.SortByCreated` | components/facebook-analytics.tsx:160-164 | The posts sorted oldest first are a permutation of the fetched posts. |
| `Analytics.TotalOfPermutation` | components/facebook-analytics.tsx:160-164 | Reordering the posts does not change any total. |
| `Analytics.CalculatePerformance` | components/facebook-analytics.tsx:99-117 | The totals are the sums of the chart rows. Each period target is the daily target (600 likes, 300 comments, 100 shares, 15 posts) times `dayDiff + 1`. |
| `Analytics.PerformanceScores` | components/facebook-analytics.tsx:119-128 | For any period other than an empty one, each score is total divided by target, and the overall score is the mean of the four scores. |
| `Analytics.PerformanceOfEmptyPeriod` | components/facebook-analytics.tsx:100-124 | When `to` is the day before `from`, every target is 0. No score is then a finite number, and neither is the overall score. |
| `Analytics.PerformanceOnTarget` | components/facebook-analytics.tsx:112-128 | Meeting every target exactly gives an overall score of exactly 1. |
| `Analytics.PerformanceOfPosts` | components/facebook-analytics.tsx:151-192 | The performance of the fetched posts counts each post once: its totals are the posts' totals, whatever their order and days. |
| `Analytics.PerformanceColor` | components/facebook-analytics.tsx:51-56 | For a positive target the band depends on the ratio: at least 1 is success, from 0.8 up to 1 is warning, below 0.8 is error. An infinite value gives success or error by its sign, flipped for a negative target. A zero target gives success only for a positive value. A negative target (a range whose end is two or more days before its start) flips the comparisons: success exactly at or below the target, warning up to 0.8 of it, and error above that, so any non-negative value is an error. NaN gives error. |
| `Analytics.OverallColor` | components/facebook-analytics.tsx:321 | The overall score's colour is green exactly when the overall score is at least 1, including +Infinity. It is orange exactly from 0.8 up to 1. NaN and -Infinity are red. |
| `Analytics.AnalyticsView.constructor` | components/facebook-analytics.tsx:63-67 | The view starts idle, with no error, no posts, no chart and no performance. |
| `Analytics.AnalyticsView.FetchData` | components/facebook-analytics.tsx:138-199 | Missing credentials give the credentials error with no request. Otherwise one posts request is made. On rejection, the error is the fault's message (or the generic text) and the data fields are unchanged. On success: the posts are stored, the chart is the grouping of the posts sorted by time, and the performance is computed from that chart. The error is cleared, and `loading` ends false on every path. |
| `Videos.WholeParts` | components/facebook-videos.tsx:36-39 | For a whole, non-negative number of seconds, hours, minutes below 60 and seconds below 60 add back up to the length. |
| `Videos.Parts` | components/facebook-videos.tsx:37-39 | As written, for a non-negative length, `hours` is the number of whole hours in it. `hours * 3600 + minutes * 60` is the number of whole minutes in it, times 60, and minutes are below 60. The three fields add up to the length rounded to whole seconds, but the seconds field can reach 60 because it is rounded after the split. |
| `Videos.SplitTotal` | components/facebook-videos.tsx:37-39 | For a non-negative length, the floor of `s / 3600` and the floor of `(s % 3600) / 60` give its whole minutes. Adding `Math.round(s % 60)` gives `Math.round(s)`. |
| `Videos.FormatDuration` | components/facebook-videos.tsx:36-47 | As written, for a non-negative length, the text reads back as `hours * 3600 + minutes * 60 + seconds` of the as-written fields, even when the seconds field is 60. That value is the length rounded to whole seconds, so `1:60` is a malformed display of the right number. |
| `Videos.FormatDurationRounded` | components/facebook-videos.tsx:36-47 | As intended, for a non-negative length, the text reads back as the length rounded to whole seconds. |
| `Videos.PartsOfWholeSeconds` | components/facebook-videos.tsx:36-39 | On whole seconds, the fields `formatDuration` computes with floors, JavaScript `%` and `Math.round` are the plain split. |
| `Videos.FormatWholeSeconds` | components/facebook-videos.tsx:36-47 | On whole seconds, the duration text as written equals the text of the plain split and of the rounded-first version. |
| `Videos.FormatSecondsRoundTrip` | components/facebook-videos.tsx:41-46 | Reading the `m:ss` or `h:mm:ss` text back gives the number of seconds. |
| `Videos.FormatSecondsShape` | components/facebook-videos.tsx:41-46 | The text has an hours field exactly from one hour on, and every field after the first has exactly two characters (`padStart(2, '0')`). |
| `Videos.SixtySecondsAsWritten` | components/facebook-videos.tsx:37-39 | As written, 119.5 seconds is shown as `1:60`. |
| `Videos.FormatDurationRoundedFields` | components/facebook-videos.tsx:36-47 | Rounded first, every non-negative length shows minutes and seconds below 60, and reads back as the rounded length. |
| `Videos.TwoMinutesRounded` | components/facebook-videos.tsx:36-47 | Rounded first, 119.5 seconds is shown as `2:00`. |
| `Videos.PerformanceScore` | components/facebook-videos.tsx:49-54 | With both targets at 50, the rounded mean of the two percentages is `likes + comments`. |
| `Videos.ScoreColor` | components/facebook-videos.tsx:56-60 | Green exactly from 100, yellow exactly from 75 to 99, red exactly below 75. |
| `Videos.VideoColor` | components/facebook-videos.tsx:49-60 | A video is green exactly when its likes and comments add up to at least 100, and yellow from 75 (50 likes and 25 comments, for example). |
| `Videos.VideosView.constructor` | components/facebook-videos.tsx:32-34 | The view starts idle, with no error and no videos. |
| `Videos.VideosView.FetchVideos` | components/facebook-videos.tsx:62-92 | Missing credentials give the credentials error with no request and leave the videos unchanged. Otherwise the requests are those of the refresh-once protocol. On success, the videos are those of the request that succeeded and the error is cleared. On failure, the error is that failure's message and the videos are unchanged. `loading` ends false. |
| `Followers.SumPermutation` | components/facebook-followers.tsx:86 | The sum of an object-valued point does not depend on the order `Object.values` lists the members in. |
| `Followers.CellAt` | components/facebook-followers.tsx:83-87 | A point past the end of a series reads as undefined. A scalar passes through. An object becomes the sum of its members. |
| `Followers.RowKeys` | components/facebook-followers.tsx:79-88 | A row has a `date` property and one property per metric name, and no others. |
| `Followers.RowValue` | components/facebook-followers.tsx:82-88 | A metric's property holds that metric's value at the row's index, unless a later metric of the same name overwrote it. |
| `Followers.RowDate` | components/facebook-followers.tsx:79-81 | The `date` property holds the formatted date, unless a metric is itself named `date`. |
| `Followers.BuildRow` | components/facebook-followers.tsx:79-89 | The `forEach` loop assigning one property per metric builds the reference row. |
| `Followers.Pivot` | components/facebook-followers.tsx:78-90 | There is one row per point of the first series. Row `i` is the reference row for index `i`, dated by that point's `end_time`. |
| `Followers.InsightsView.constructor` | components/facebook-followers.tsx:36-39 | The view starts idle, with no error, no series and no rows. |
| `Followers.InsightsView.FetchInsights` | components/facebook-followers.tsx:45-74 | Missing credentials give the credentials error with no request. Otherwise the requests are those of the refresh-once protocol. On success, `data` is the response's `data` from whichever request succeeded. On failure, the error is the failure's message and `data` is unchanged. `loading` ends false and the rows are untouched. |
| `Followers.InsightsView.FormatDataAsWritten` | components/facebook-followers.tsx:76-93 | As written, the effect never recomputes the rows, because the guard `data?.data` reads a property the array of series does not have. |
| `Followers.InsightsView.FormatData` | components/facebook-followers.tsx:76-93 | As intended, when there is at least one series, the rows become the pivot of the series. The rest of the view is unchanged. |
| `Followers.PivotSkippedAsWritten` | components/facebook-followers.tsx:77 | After a successful fetch of one metric with one point, the effect as written leaves `formattedData` empty. The intended pivot makes it hold one row with the metric's value. |

## Left out

- Logging, `console` output, React's scheduling of effects and renders, and all JSX, chart and icon rendering.
- `process.env`: each secret or credential is an optional string, tested for truthiness.
- The network: each outbound request's outcome is an input. Response bodies are given already parsed.
- The query strings of the Graph API requests (fields, metrics, `since`/`until`, `limit`): a request is identified by resource, page and token.
- `refreshAccessToken`'s body: it yields `data.access_token` (possibly undefined), modelled as an arbitrary string.
- The posts wrapper's non-2xx path. `getFacebookPosts` does not throw there (app/lib/facebook.ts:109-112) and returns the error body's missing `data`. The model takes the posts request as settled with a list of posts or a rejection. The later TypeError from spreading `undefined` is not modelled.
- Date formatting (`format`, `toLocaleDateString`, `differenceInDays`) and the date-range picker: opaque inputs.
- IEEE floating point: ratios, means and percentages are exact reals. `Math.round` is modelled exactly on those reals.
- Analytics counts of a kind other than an integer or a missing value: a missing count reads as 0, as both `|| 0` and `?? 0` give for integers.
- Insight points whose `value` is `null`. `typeof null` is `'object'` and `Object.values(null)` throws. Point values are modelled as integers or objects of integers.
- Object-valued points whose members are not numbers (string concatenation in the `reduce`).
- Followers.PointValue, Followers.SumPermutation: fractional point values (a metric such as `post_video_ad_break_earnings` can be one) are not modelled. For them the `reduce` sum is an IEEE sum that can depend on member order, so `SumPermutation` is promised for integer members only.
- The order of a pivoted row's properties: a row is a `map`.
- The colour values themselves: the hex codes `getPerformanceColor` returns in the analytics view and the Tailwind class names in the videos view. Each is a fixed string per band, so the model returns the band.
- Ordering of the bucketing accumulator's keys. The model lists keys in first-set order, which is what `Object.entries` gives for keys that are not array indices. A day key that looks like an array index (`format` never yields one) would be listed first in JavaScript.
- Fields of the webhook event the handler never reads, and a non-array `event.entry`. Unread fields reach Slack only inside the event's JSON text.
- A feed change's `verb` (`add`, `edited`, `remove`): the handler never reads it, so it is not represented, and every `feed` change whose `item` is `post` gets the comment.

## Findings

| source | as written | input that shows it | evidently intended | confidence | as-written member | corrected member |
|---|---|---|---|---|---|---|
| components/facebook-followers.tsx:77 | The pivot effect runs only when `data?.data` is truthy, but `data` holds `insightData.data`, the array of series, which has no `data` property. So `formattedData` is never computed. The view renders `data` (line 104), not `formattedData`, so the defect cannot be seen in the UI: `formattedData` is unused state. | A successful insights response with one metric `page_follows` and one point of value 12 | Pivot the series held in `data` whenever there is at least one | high (not executed) | `Followers.InsightsView.FormatDataAsWritten`, `Followers.PivotSkippedAsWritten` | `Followers.InsightsView.FormatData` |
| components/facebook-videos.tsx:37-39 | The seconds field is `Math.round(seconds % 60)`, rounded after the minutes were split off, so a fractional length in the last half second of a minute shows a seconds field of 60. The fields still add up to the rounded length (`Videos.Parts`), so the defect is in the display only. | A video `length` of 119.5 is shown as `1:60` | Round to whole seconds first: `2:00`, with minutes and seconds always below 60 | high (not executed) | `Videos.SixtySecondsAsWritten` | `Videos.FormatDurationRoundedFields`, `Videos.TwoMinutesRounded` |
