/** The post analytics of components/facebook-analytics.tsx: the three top-5
    rankings, the grouping of the fetched posts into one chart row per day,
    the performance summary against the daily targets, and the three-band
    colour used for the summary and the chart. */
module Analytics {
  import opened Js
  import opened Ranking
  import opened GraphApi

  /** The fields of a post the analytics read. `created` is the instant of
      `created_time` in milliseconds; a count is None when the post lacks it. */
  datatype Post = Post(id: string, created: int, likes: Option<int>, comments: Option<int>, shares: Option<int>)

  /** What is counted: posts themselves, or one of the three engagement counts. */
  datatype Measure = PostCount | Likes | Comments | Shares

  /** `count ?? 0`, and `count || 0`, which agrees with it on integers. */
  function OrZero(o: Option<int>): int {
    if o.Some? then o.value else 0
  }

  /** What one post contributes to a measure; a missing count reads as 0. */
  function Count(p: Post, m: Measure): int {
    match m
    case PostCount => 1
    case Likes => OrZero(p.likes)
    case Comments => OrZero(p.comments)
    case Shares => OrZero(p.shares)
  }

  function KeyOf(m: Measure): Post -> int {
    p => Count(p, m)
  }

  // ----- Top posts -----

  datatype TopLists = TopLists(byLikes: seq<Post>, byComments: seq<Post>, byShares: seq<Post>)

  /** `l` is what ranking `posts` by `m` should give: the first five (or all,
      when fewer), largest count first, drawn from `posts`, with tied posts
      in their original order, and nothing left out ranking above anything
      kept. */
  ghost predicate IsTopList(l: seq<Post>, posts: seq<Post>, m: Measure) {
    && |l| == (if |posts| < TopCount then |posts| else TopCount)
    && SortedDesc(l, KeyOf(m))
    && multiset(l) <= multiset(posts)
    && (forall k :: Ties(l, KeyOf(m), k) <= Ties(posts, KeyOf(m), k))
    && (forall y, i :: y in multiset(posts) - multiset(l) && 0 <= i < |l| ==> Count(y, m) <= Count(l[i], m))
  }

  lemma TopFacts(posts: seq<Post>, m: Measure)
    ensures IsTopList(Top(posts, KeyOf(m)), posts, m)
  {
    TopTies(posts, m);
    TopBest(posts, m);
  }

  lemma TopTies(posts: seq<Post>, m: Measure)
    ensures forall k :: Ties(Top(posts, KeyOf(m)), KeyOf(m), k) <= Ties(posts, KeyOf(m), k)
  {
    forall k
      ensures Ties(Top(posts, KeyOf(m)), KeyOf(m), k) <= Ties(posts, KeyOf(m), k)
    {
      TopKeepsTies(posts, KeyOf(m), k);
    }
  }

  lemma TopBest(posts: seq<Post>, m: Measure)
    ensures var l := Top(posts, KeyOf(m));
            forall y, i :: y in multiset(posts) - multiset(l) && 0 <= i < |l| ==> Count(y, m) <= Count(l[i], m)
  {
    var l := Top(posts, KeyOf(m));
    forall y, i | y in multiset(posts) - multiset(l) && 0 <= i < |l|
      ensures Count(y, m) <= Count(l[i], m)
    {
      TopIsBest(posts, KeyOf(m), y);
    }
  }

  /** The `topPosts` memo: sorted copies of `posts`, so `posts` itself keeps its order. */
  function TopPosts(posts: seq<Post>): (t: TopLists)
    ensures posts == [] ==> t == TopLists([], [], [])
    ensures IsTopList(t.byLikes, posts, Likes)
    ensures IsTopList(t.byComments, posts, Comments)
    ensures IsTopList(t.byShares, posts, Shares)
  {
    if |posts| == 0 then TopLists([], [], [])
    else
      TopFacts(posts, Likes);
      TopFacts(posts, Comments);
      TopFacts(posts, Shares);
      TopLists(Top(posts, KeyOf(Likes)), Top(posts, KeyOf(Comments)), Top(posts, KeyOf(Shares)))
  }

  // ----- Daily buckets -----

  /** An accumulator entry of the grouping: the day's posts and running sums. */
  datatype Bucket = Bucket(posts: seq<Post>, likes: int, comments: int, shares: int)

  /** One point of the chart. */
  datatype ChartRow = ChartRow(date: string, postCount: int, likes: int, comments: int, shares: int)

  /** Sum of a measure over posts. */
  function Total(ps: seq<Post>, m: Measure): int
    decreases |ps|
  {
    if ps == [] then 0 else Total(ps[..|ps| - 1], m) + Count(ps[|ps| - 1], m)
  }

  /** The posts whose day key is `d`, in order. */
  function OnDay(ps: seq<Post>, dayKey: int -> string, d: string): seq<Post>
    decreases |ps|
  {
    if ps == [] then []
    else OnDay(ps[..|ps| - 1], dayKey, d) + (if dayKey(ps[|ps| - 1].created) == d then [ps[|ps| - 1]] else [])
  }

  /** The day keys of `ps`, each once, in order of first occurrence. */
  function Days(ps: seq<Post>, dayKey: int -> string): seq<string>
    decreases |ps|
  {
    if ps == [] then []
    else
      var ds := Days(ps[..|ps| - 1], dayKey);
      var d := dayKey(ps[|ps| - 1].created);
      if d in ds then ds else ds + [d]
  }

  /** The bucket the grouping should hold for day `d`. */
  function BucketOf(ps: seq<Post>, dayKey: int -> string, d: string): Bucket {
    var on := OnDay(ps, dayKey, d);
    Bucket(on, Total(on, Likes), Total(on, Comments), Total(on, Shares))
  }

  /** The chart row of a bucket (the `Object.entries(...).map` step). */
  function RowOf(d: string, b: Bucket): ChartRow {
    ChartRow(d, |b.posts|, b.likes, b.comments, b.shares)
  }

  function Rows(ds: seq<string>, ps: seq<Post>, dayKey: int -> string): seq<ChartRow> {
    seq(|ds|, i requires 0 <= i < |ds| => RowOf(ds[i], BucketOf(ps, dayKey, ds[i])))
  }

  /** The chart the grouping should give: one row per day, in order of first occurrence. */
  function Chart(ps: seq<Post>, dayKey: int -> string): seq<ChartRow> {
    Rows(Days(ps, dayKey), ps, dayKey)
  }

  lemma LastOf(ps: seq<Post>, x: Post)
    ensures (ps + [x])[..|ps|] == ps && (ps + [x])[|ps|] == x
  {
  }

  lemma BucketStep(ps: seq<Post>, x: Post, dayKey: int -> string, d: string)
    ensures var b := BucketOf(ps, dayKey, d);
            BucketOf(ps + [x], dayKey, d)
            == if dayKey(x.created) == d
               then Bucket(b.posts + [x], b.likes + Count(x, Likes), b.comments + Count(x, Comments), b.shares + Count(x, Shares))
               else b
  {
    LastOf(ps, x);
    var on := OnDay(ps, dayKey, d);
    if dayKey(x.created) == d {
      LastOf(on, x);
    } else {
      assert on + [] == on;
    }
  }

  /** A day that is not among the keys has an empty bucket. */
  lemma {:induction false} OnDayAbsent(ps: seq<Post>, dayKey: int -> string, d: string)
    requires d !in Days(ps, dayKey)
    ensures OnDay(ps, dayKey, d) == []
    decreases |ps|
  {
    if ps != [] {
      OnDayAbsent(ps[..|ps| - 1], dayKey, d);
    }
  }

  /** The reduce of `fetchData` over the posts sorted by time, and the
      chart rows built from its entries. The accumulator's keys are listed
      in `order`, the order in which they were first set, which is the
      order `Object.entries` yields for keys that are not array indices. */
  method GroupByDay(sorted: seq<Post>, dayKey: int -> string) returns (order: seq<string>, acc: map<string, Bucket>)
    ensures order == Days(sorted, dayKey)
    ensures forall d :: d in acc <==> d in order
    ensures forall d :: d in acc ==> acc[d] == BucketOf(sorted, dayKey, d)
  {
    order := [];
    acc := map[];
    var i := 0;
    while i < |sorted|
      invariant 0 <= i <= |sorted|
      invariant order == Days(sorted[..i], dayKey)
      invariant forall d :: d in acc <==> d in order
      invariant forall d :: d in acc ==> acc[d] == BucketOf(sorted[..i], dayKey, d)
    {
      var post := sorted[i];
      var date := dayKey(post.created);
      assert sorted[..i + 1] == sorted[..i] + [post];
      LastOf(sorted[..i], post);
      if date !in acc {
        OnDayAbsent(sorted[..i], dayKey, date);
        acc := acc[date := Bucket([], 0, 0, 0)];
        order := order + [date];
      }
      var b := acc[date];
      acc := acc[date := Bucket(b.posts + [post], b.likes + Count(post, Likes),
                                b.comments + Count(post, Comments), b.shares + Count(post, Shares))];
      forall d | d in acc
        ensures acc[d] == BucketOf(sorted[..i + 1], dayKey, d)
      {
        BucketStep(sorted[..i], post, dayKey, d);
      }
      i := i + 1;
    }
    assert sorted[..i] == sorted;
  }

  /** `chartData`: the rows of the grouping, one per day in first-occurrence order. */
  method ChartData(sorted: seq<Post>, dayKey: int -> string) returns (chart: seq<ChartRow>)
    ensures chart == Chart(sorted, dayKey)
  {
    var order, acc := GroupByDay(sorted, dayKey);
    chart := seq(|order|, i requires 0 <= i < |order| => RowOf(order[i], acc[order[i]]));
  }

  predicate Distinct(ds: seq<string>) {
    forall i, j :: 0 <= i < j < |ds| ==> ds[i] != ds[j]
  }

  /** Some post of `ps` has day key `d`. */
  predicate HasDay(ps: seq<Post>, dayKey: int -> string, d: string) {
    exists i :: 0 <= i < |ps| && dayKey(ps[i].created) == d
  }

  /** Every day appears once in the chart, and the chart's days are exactly
      the day keys of the posts. */
  lemma {:induction false} DaysAreTheKeys(ps: seq<Post>, dayKey: int -> string)
    ensures Distinct(Days(ps, dayKey))
    ensures forall d :: d in Days(ps, dayKey) <==> HasDay(ps, dayKey, d)
    decreases |ps|
  {
    if ps != [] {
      var init := ps[..|ps| - 1];
      DaysAreTheKeys(init, dayKey);
      forall d
        ensures HasDay(ps, dayKey, d) <==> HasDay(init, dayKey, d) || d == dayKey(ps[|ps| - 1].created)
      {
        if HasDay(ps, dayKey, d) {
          var i :| 0 <= i < |ps| && dayKey(ps[i].created) == d;
          if i < |init| {
            assert dayKey(init[i].created) == d;
          }
        }
        if HasDay(init, dayKey, d) {
          var i :| 0 <= i < |init| && dayKey(init[i].created) == d;
          assert dayKey(ps[i].created) == d;
        }
      }
    }
  }

  /** A post is in the bucket of day `d` exactly when its day key is `d`:
      every post lands in exactly one bucket. */
  lemma {:induction false} OnDayMembers(ps: seq<Post>, dayKey: int -> string, d: string, x: Post)
    ensures x in OnDay(ps, dayKey, d) <==> x in ps && dayKey(x.created) == d
    decreases |ps|
  {
    if ps != [] {
      var init := ps[..|ps| - 1];
      OnDayMembers(init, dayKey, d, x);
      assert ps == init + [ps[|ps| - 1]];
    }
  }

  /** A chart row's value for a measure. */
  function RowValue(r: ChartRow, m: Measure): int {
    match m
    case PostCount => r.postCount
    case Likes => r.likes
    case Comments => r.comments
    case Shares => r.shares
  }

  /** Sum of a measure over chart rows. */
  function SumRows(rows: seq<ChartRow>, m: Measure): int
    decreases |rows|
  {
    if rows == [] then 0 else SumRows(rows[..|rows| - 1], m) + RowValue(rows[|rows| - 1], m)
  }

  /** Sum over days `ds` of the measure's total on each day. */
  function SumDays(ds: seq<string>, ps: seq<Post>, dayKey: int -> string, m: Measure): int
    decreases |ds|
  {
    if ds == [] then 0 else SumDays(ds[..|ds| - 1], ps, dayKey, m) + Total(OnDay(ps, dayKey, ds[|ds| - 1]), m)
  }

  lemma {:induction false} PostCountTotal(ps: seq<Post>)
    ensures Total(ps, PostCount) == |ps|
    decreases |ps|
  {
    if ps != [] {
      PostCountTotal(ps[..|ps| - 1]);
    }
  }

  lemma {:induction false} RowsSum(ds: seq<string>, ps: seq<Post>, dayKey: int -> string, m: Measure)
    ensures SumRows(Rows(ds, ps, dayKey), m) == SumDays(ds, ps, dayKey, m)
    decreases |ds|
  {
    if ds != [] {
      var rows := Rows(ds, ps, dayKey);
      var init := ds[..|ds| - 1];
      assert rows[..|rows| - 1] == Rows(init, ps, dayKey);
      RowsSum(init, ps, dayKey, m);
      PostCountTotal(OnDay(ps, dayKey, ds[|ds| - 1]));
    }
  }

  lemma {:induction false} SumDaysOfNoPosts(ds: seq<string>, dayKey: int -> string, m: Measure)
    ensures SumDays(ds, [], dayKey, m) == 0
    decreases |ds|
  {
    if ds != [] {
      SumDaysOfNoPosts(ds[..|ds| - 1], dayKey, m);
    }
  }

  /** One more post adds its count to the sum over the days, once, when its day is among them. */
  lemma {:induction false} SumDaysStep(ds: seq<string>, ps: seq<Post>, x: Post, dayKey: int -> string, m: Measure)
    requires Distinct(ds)
    ensures SumDays(ds, ps + [x], dayKey, m)
            == SumDays(ds, ps, dayKey, m) + (if dayKey(x.created) in ds then Count(x, m) else 0)
    decreases |ds|
  {
    if ds != [] {
      var init := ds[..|ds| - 1];
      var d := ds[|ds| - 1];
      assert Distinct(init);
      SumDaysStep(init, ps, x, dayKey, m);
      LastOf(ps, x);
      var on := OnDay(ps, dayKey, d);
      if dayKey(x.created) == d {
        LastOf(on, x);
        assert d !in init;
      } else {
        assert on + [] == on;
      }
      assert dayKey(x.created) in ds <==> dayKey(x.created) in init || dayKey(x.created) == d;
    }
  }

  lemma {:induction false} SumDaysCovers(ds: seq<string>, ps: seq<Post>, dayKey: int -> string, m: Measure)
    requires Distinct(ds)
    requires forall i :: 0 <= i < |ps| ==> dayKey(ps[i].created) in ds
    ensures SumDays(ds, ps, dayKey, m) == Total(ps, m)
    decreases |ps|
  {
    if ps == [] {
      SumDaysOfNoPosts(ds, dayKey, m);
    } else {
      var init := ps[..|ps| - 1];
      var x := ps[|ps| - 1];
      assert ps == init + [x];
      SumDaysCovers(ds, init, dayKey, m);
      SumDaysStep(ds, init, x, dayKey, m);
    }
  }

  /** Conservation: summed over the chart's rows, every measure gives its
      total over the posts; with `PostCount` the row counts add up to the
      number of posts. */
  lemma ChartConserves(ps: seq<Post>, dayKey: int -> string, m: Measure)
    ensures SumRows(Chart(ps, dayKey), m) == Total(ps, m)
    ensures SumRows(Chart(ps, dayKey), PostCount) == |ps|
  {
    var ds := Days(ps, dayKey);
    DaysAreTheKeys(ps, dayKey);
    RowsSum(ds, ps, dayKey, m);
    SumDaysCovers(ds, ps, dayKey, m);
    RowsSum(ds, ps, dayKey, PostCount);
    SumDaysCovers(ds, ps, dayKey, PostCount);
    PostCountTotal(ps);
  }

  // ----- Sorting by time -----

  /** `[...posts].sort((a, b) => time(a) - time(b))`, stable, oldest first. */
  function SortByCreated(ps: seq<Post>): (r: seq<Post>)
    ensures |r| == |ps| && multiset(r) == multiset(ps)
    ensures forall i, j :: 0 <= i < j < |r| ==> r[i].created <= r[j].created
  {
    var r := SortDesc(ps, (p: Post) => -p.created);
    assert forall i, j :: 0 <= i < j < |r| ==> -r[i].created >= -r[j].created;
    r
  }

  lemma {:induction false} TotalAppend(a: seq<Post>, b: seq<Post>, m: Measure)
    ensures Total(a + b, m) == Total(a, m) + Total(b, m)
    decreases |b|
  {
    if b == [] {
      assert a + b == a;
    } else {
      assert (a + b)[..|a + b| - 1] == a + b[..|b| - 1];
      TotalAppend(a, b[..|b| - 1], m);
    }
  }

  /** Taking one post out of a sequence takes its count out of the total. */
  lemma TotalWithout(t: seq<Post>, j: nat, m: Measure)
    requires j < |t|
    ensures Total(t, m) == Total(t[..j] + t[j + 1..], m) + Count(t[j], m)
  {
    assert t == (t[..j] + [t[j]]) + t[j + 1..];
    TotalAppend(t[..j] + [t[j]], t[j + 1..], m);
    TotalAppend(t[..j], t[j + 1..], m);
    TotalAppend(t[..j], [t[j]], m);
    assert Total([t[j]], m) == Count(t[j], m) by {
      assert [t[j]][..0] == [];
    }
  }

  lemma MultisetWithout(t: seq<Post>, j: nat)
    requires j < |t|
    ensures multiset(t[..j] + t[j + 1..]) == multiset(t) - multiset{t[j]}
  {
    assert t == t[..j] + [t[j]] + t[j + 1..];
    assert multiset(t) == multiset(t[..j]) + multiset{t[j]} + multiset(t[j + 1..]);
  }

  /** Totals do not depend on the order of the posts. */
  lemma {:induction false} TotalOfPermutation(s: seq<Post>, t: seq<Post>, m: Measure)
    requires multiset(s) == multiset(t)
    ensures Total(s, m) == Total(t, m)
    decreases |s|
  {
    if s != [] {
      var x := s[|s| - 1];
      var init := s[..|s| - 1];
      var j := IndexOf(t, x, s);
      var rest := t[..j] + t[j + 1..];
      assert multiset(init) == multiset(rest) by {
        assert s == init + [x];
        MultisetWithout(t, j);
      }
      TotalOfPermutation(init, rest, m);
      TotalWithout(t, j, m);
    }
  }

  /** A position of `x` in `t`, which holds the same posts as `s`, of which `x` is the last. */
  lemma IndexOf(t: seq<Post>, x: Post, s: seq<Post>) returns (j: nat)
    requires s != [] && x == s[|s| - 1] && multiset(s) == multiset(t)
    ensures j < |t| && t[j] == x
  {
    assert x in multiset(s);
    j :| 0 <= j < |t| && t[j] == x;
  }

  // ----- Performance -----

  /** Values per measure, as in the `totals` and `periodTargets` records. */
  datatype Counts = Counts(likes: int, comments: int, shares: int, posts: int)

  /** Ratios per measure, as in the `scores` record. */
  datatype Scores = Scores(likes: Number, comments: Number, shares: Number, posts: Number)

  datatype Performance = Performance(totals: Counts, targets: Counts, scores: Scores, overall: Number)

  const DailyTargets := Counts(600, 300, 100, 15)

  function CountOf(c: Counts, m: Measure): int {
    match m
    case PostCount => c.posts
    case Likes => c.likes
    case Comments => c.comments
    case Shares => c.shares
  }

  function ScoreOf(s: Scores, m: Measure): Number {
    match m
    case PostCount => s.posts
    case Likes => s.likes
    case Comments => s.comments
    case Shares => s.shares
  }

  /** `calculatePerformance`. `dayDiff` is `differenceInDays(to, from)`, so
      the period has `dayDiff + 1` days. */
  function CalculatePerformance(chart: seq<ChartRow>, dayDiff: int): (p: Performance)
    // the totals are the sums of the chart rows
    ensures forall m :: CountOf(p.totals, m) == SumRows(chart, m)
    // a period target is the daily target times the number of days
    ensures forall m :: CountOf(p.targets, m) == CountOf(DailyTargets, m) * (dayDiff + 1)
  {
    var totals := Counts(SumRows(chart, Likes), SumRows(chart, Comments), SumRows(chart, Shares), SumRows(chart, PostCount));
    var days := dayDiff + 1;
    var targets := Counts(DailyTargets.likes * days, DailyTargets.comments * days,
                          DailyTargets.shares * days, DailyTargets.posts * days);
    var scores := Scores(Quotient(totals.likes as real, targets.likes as real),
                         Quotient(totals.comments as real, targets.comments as real),
                         Quotient(totals.shares as real, targets.shares as real),
                         Quotient(totals.posts as real, targets.posts as real));
    var sum := Plus(Plus(Plus(Plus(Finite(0.0), scores.likes), scores.comments), scores.shares), scores.posts);
    Performance(totals, targets, scores, Over(sum, 4.0))
  }

  /** Over a period of at least one day (or a negative one), every score is
      its total divided by its target, and the overall score is the mean of
      the four scores. */
  lemma PerformanceScores(chart: seq<ChartRow>, dayDiff: int)
    requires dayDiff != -1
    ensures var p := CalculatePerformance(chart, dayDiff);
            && (forall m :: ScoreOf(p.scores, m) == Finite(CountOf(p.totals, m) as real / CountOf(p.targets, m) as real))
            && p.overall == Finite((p.scores.likes.r + p.scores.comments.r + p.scores.shares.r + p.scores.posts.r) / 4.0)
  {
  }

  /** An empty period (`to` the day before `from`) divides every total by
      zero: no score, and so no overall score, is a finite number. */
  lemma PerformanceOfEmptyPeriod(chart: seq<ChartRow>)
    ensures var p := CalculatePerformance(chart, -1);
            (forall m :: !ScoreOf(p.scores, m).Finite?) && !p.overall.Finite?
  {
  }

  /** Meeting every target exactly gives an overall score of exactly 1. */
  lemma PerformanceOnTarget(chart: seq<ChartRow>, dayDiff: int)
    requires dayDiff != -1
    requires forall m :: SumRows(chart, m) == CountOf(DailyTargets, m) * (dayDiff + 1)
    ensures CalculatePerformance(chart, dayDiff).overall == Finite(1.0)
  {
    var p := CalculatePerformance(chart, dayDiff);
    PerformanceScores(chart, dayDiff);
    forall m
      ensures ScoreOf(p.scores, m) == Finite(1.0)
    {
      DivSelf(CountOf(p.targets, m) as real);
    }
  }

  lemma DivSelf(t: real)
    requires t != 0.0
    ensures t / t == 1.0
  {
  }

  /** The performance of the fetched posts counts each post once: its totals
      are the posts' totals, whatever their order and days. */
  lemma PerformanceOfPosts(posts: seq<Post>, dayKey: int -> string, dayDiff: int)
    ensures var p := CalculatePerformance(Chart(SortByCreated(posts), dayKey), dayDiff);
            forall m :: CountOf(p.totals, m) == Total(posts, m)
  {
    var sorted := SortByCreated(posts);
    forall m
      ensures SumRows(Chart(sorted, dayKey), m) == Total(posts, m)
    {
      ChartConserves(sorted, dayKey, m);
      TotalOfPermutation(sorted, posts, m);
    }
  }

  /** The three colour bands of `getPerformanceColor`. */
  datatype Band = Success | Warning | Error

  /** `getPerformanceColor(value, target)`: the band of `value / target`. */
  function PerformanceColor(value: Number, target: real): (b: Band)
    // for a positive target: at least the target, at least 80% of it, or less
    ensures target > 0.0 && value.Finite? ==>
              && (b == Success <==> value.r >= target)
              && (b == Warning <==> 0.8 * target <= value.r < target)
              && (b == Error <==> value.r < 0.8 * target)
    // a zero target divides by zero: only a positive value reaches success
    ensures target == 0.0 ==> b != Warning && (b == Success <==> value.PosInf? || (value.Finite? && value.r > 0.0))
    // a negative target (a range ending two or more days before it starts)
    // flips the comparisons, so a non-negative value is always an error
    ensures target < 0.0 && value.Finite? ==>
              && (b == Success <==> value.r <= target)
              && (b == Warning <==> target < value.r <= 0.8 * target)
              && (b == Error <==> value.r > 0.8 * target)
    ensures target < 0.0 && value.Finite? && value.r >= 0.0 ==> b == Error
    // an infinite value: its sign, flipped by a negative target, decides
    ensures target > 0.0 ==> (value.PosInf? ==> b == Success) && (value.NegInf? ==> b == Error)
    ensures target < 0.0 ==> (value.PosInf? ==> b == Error) && (value.NegInf? ==> b == Success)
    ensures value.NaN? ==> b == Error
  {
    var ratio := Over(value, target);
    RatioBound(value, target, 1.0);
    RatioBound(value, target, 0.8);
    if AtLeast(ratio, 1.0) then Success
    else if AtLeast(ratio, 0.8) then Warning
    else Error
  }

  /** For a positive target, the ratio reaches `c` exactly when the value reaches `c` times the target. */
  lemma RatioBound(value: Number, target: real, c: real)
    ensures target > 0.0 && value.Finite? ==> (AtLeast(Over(value, target), c) <==> value.r >= c * target)
    ensures target < 0.0 && value.Finite? ==> (AtLeast(Over(value, target), c) <==> value.r <= c * target)
  {
    if target != 0.0 && value.Finite? {
      var q := value.r / target;
      assert q * target == value.r;
      if target > 0.0 {
        assert q >= c ==> q * target >= c * target;
        assert q < c ==> q * target < c * target;
      } else {
        assert q >= c ==> q * target <= c * target;
        assert q < c ==> q * target > c * target;
      }
    }
  }

  /** The overall score's colour, `getPerformanceColor(overallScore * 100, 100)`,
      is green exactly when the overall score is at least 1, an infinite one
      included, and orange exactly from 0.8 up to 1; NaN is red. */
  lemma OverallColor(p: Performance)
    ensures PerformanceColor(Times(p.overall, 100.0), 100.0) == Success <==> AtLeast(p.overall, 1.0)
    ensures PerformanceColor(Times(p.overall, 100.0), 100.0) == Warning <==> AtLeast(p.overall, 0.8) && !AtLeast(p.overall, 1.0)
    ensures p.overall.Finite? ==>
              && (PerformanceColor(Times(p.overall, 100.0), 100.0) == Success <==> p.overall.r >= 1.0)
              && (PerformanceColor(Times(p.overall, 100.0), 100.0) == Warning <==> 0.8 <= p.overall.r < 1.0)
  {
  }

  // ----- The view -----

  /** The state of the analytics view that `fetchData` updates. */
  class AnalyticsView {
    var loading: bool
    var error: Option<string>
    var posts: seq<Post>
    var data: seq<ChartRow>
    var performance: Option<Performance>

    constructor ()
      ensures !loading && error == None && posts == [] && data == [] && performance == None
    {
      loading := false;
      error := None;
      posts := [];
      data := [];
      performance := None;
    }

    /** `fetchData`. `fetched` is how the posts request settles, `dayKey` is
        `format(date, 'MMM dd')` and `dayDiff` the period's `differenceInDays`.
        Returns the Graph API requests made. */
    method FetchData(pageId: Option<string>, token: Option<string>, fetched: Outcome<seq<Post>>,
                     dayKey: int -> string, dayDiff: int) returns (calls: seq<Call>)
      modifies this
      ensures !loading
      ensures !Truthy(pageId) || !Truthy(token) ==>
                && calls == [] && error == Some(CredentialsError)
                && posts == old(posts) && data == old(data) && performance == old(performance)
      ensures Truthy(pageId) && Truthy(token) ==> calls == [Fetch(Posts, pageId.value, token.value)]
      ensures Truthy(pageId) && Truthy(token) && fetched.Rejected? ==>
                && error == Some(ErrorText(fetched.fault))
                && posts == old(posts) && data == old(data) && performance == old(performance)
      ensures Truthy(pageId) && Truthy(token) && fetched.Resolved? ==>
                && error == None && posts == fetched.value
                && data == Chart(SortByCreated(fetched.value), dayKey)
                && performance == Some(CalculatePerformance(data, dayDiff))
    {
      loading := true;
      error := None;
      if !Truthy(pageId) || !Truthy(token) {
        error := Some(ErrorText(ErrorObject(CredentialsError)));
        loading := false;
        return [];
      }
      calls := [Fetch(Posts, pageId.value, token.value)];
      match fetched {
        case Rejected(f) =>
          error := Some(ErrorText(f));
        case Resolved(fetchedPosts) =>
          posts := fetchedPosts;
          var sortedPosts := SortByCreated(fetchedPosts);
          var chart := ChartData(sortedPosts, dayKey);
          data := chart;
          performance := Some(CalculatePerformance(chart, dayDiff));
      }
      loading := false;
    }
  }
}
