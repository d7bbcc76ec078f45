/** The insights view of components/facebook-followers.tsx: the fetch of the
    Page's insight series with its refresh-once retry, and the pivot that
    turns the series into one row per time index. */
module Followers {
  import opened Js
  import opened GraphApi
  import opened TokenRefresh

  /** The `value` of one insight point: an integer, or an object whose member
      values are integers (a breakdown by country, say). */
  datatype PointValue = Scalar(n: int) | Members(values: seq<int>)

  datatype Sample = Sample(endTime: string, value: PointValue)

  /** One metric of the insights response. */
  datatype Series = Series(name: string, values: seq<Sample>)

  /** The JSON body of the insights request; the view keeps its `data`. */
  datatype InsightsBody = InsightsBody(data: seq<Series>)

  /** A property value of a pivoted row. */
  datatype Cell = Text(s: string) | NumberCell(n: int) | Undefined

  /** A pivoted row: property name to value. */
  type Row = map<string, Cell>

  // ----- Summing an object's values -----

  /** `Object.values(value).reduce((a, b) => a + b, 0)`. */
  function Sum(vs: seq<int>): int {
    if vs == [] then 0 else Sum(vs[..|vs| - 1]) + vs[|vs| - 1]
  }

  lemma {:induction false} SumAppend(a: seq<int>, b: seq<int>)
    ensures Sum(a + b) == Sum(a) + Sum(b)
    decreases |b|
  {
    if b == [] {
      assert a + b == a;
    } else {
      assert (a + b)[..|a + b| - 1] == a + b[..|b| - 1];
      SumAppend(a, b[..|b| - 1]);
    }
  }

  /** The sum does not depend on the order in which the members come. */
  lemma {:induction false} SumPermutation(a: seq<int>, b: seq<int>)
    requires multiset(a) == multiset(b)
    ensures Sum(a) == Sum(b)
    decreases |a|
  {
    if a == [] {
      assert |b| == |multiset(b)| == 0;
    } else {
      var x := a[|a| - 1];
      assert a == a[..|a| - 1] + [x];
      assert x in multiset(b);
      var j :| 0 <= j < |b| && b[j] == x;
      var rest := b[..j] + b[j + 1..];
      assert b == b[..j] + [x] + b[j + 1..];
      assert multiset(b) == multiset(rest) + multiset{x} by {
        assert multiset(b) == multiset(b[..j]) + multiset{x} + multiset(b[j + 1..]);
      }
      assert multiset(a) == multiset(a[..|a| - 1]) + multiset{x};
      assert multiset(rest) == multiset(b) - multiset{x};
      assert multiset(a[..|a| - 1]) == multiset(a) - multiset{x};
      SumPermutation(a[..|a| - 1], rest);
      SumAppend(b[..j], [x]);
      SumAppend(b[..j] + [x], b[j + 1..]);
      SumAppend(b[..j], b[j + 1..]);
    }
  }

  // ----- The pivot -----

  /** `metric.values[index]?.value`, with an object replaced by the sum of
      its members: a point past the end of the series reads as undefined. */
  function CellAt(m: Series, index: nat): (c: Cell)
    ensures c.Undefined? <==> index >= |m.values|
    ensures index < |m.values| && m.values[index].value.Scalar? ==> c == NumberCell(m.values[index].value.n)
    ensures index < |m.values| && m.values[index].value.Members? ==> c == NumberCell(Sum(m.values[index].value.values))
  {
    if index >= |m.values| then Undefined
    else match m.values[index].value
      case Scalar(n) => NumberCell(n)
      case Members(vs) => NumberCell(Sum(vs))
  }

  /** The row for time index `index`: `date` first, then one property per
      metric in order, so a later metric overwrites an earlier one of the
      same name. */
  function RowSpec(ms: seq<Series>, index: nat, date: string): Row
    decreases |ms|
  {
    if ms == [] then map["date" := Text(date)]
    else RowSpec(ms[..|ms| - 1], index, date)[ms[|ms| - 1].name := CellAt(ms[|ms| - 1], index)]
  }

  function Names(ms: seq<Series>): set<string> {
    set k | 0 <= k < |ms| :: ms[k].name
  }

  /** A row has the `date` property and one property per metric name. */
  lemma {:induction false} RowKeys(ms: seq<Series>, index: nat, date: string)
    ensures RowSpec(ms, index, date).Keys == {"date"} + Names(ms)
    decreases |ms|
  {
    if ms != [] {
      var init := ms[..|ms| - 1];
      RowKeys(init, index, date);
      assert Names(ms) == Names(init) + {ms[|ms| - 1].name} by {
        forall n | n in Names(ms) ensures n in Names(init) + {ms[|ms| - 1].name} {
          var k :| 0 <= k < |ms| && ms[k].name == n;
          if k < |ms| - 1 {
            assert init[k] == ms[k];
          }
        }
        forall n | n in Names(init) ensures n in Names(ms) {
          var k :| 0 <= k < |init| && init[k].name == n;
          assert ms[k] == init[k];
        }
      }
    }
  }

  /** A metric's property holds its value at the row's index, unless a later
      metric of the same name overwrote it. */
  lemma {:induction false} RowValue(ms: seq<Series>, index: nat, date: string, j: int)
    requires 0 <= j < |ms|
    requires forall k :: j < k < |ms| ==> ms[k].name != ms[j].name
    ensures ms[j].name in RowSpec(ms, index, date)
    ensures RowSpec(ms, index, date)[ms[j].name] == CellAt(ms[j], index)
    decreases |ms|
  {
    if j < |ms| - 1 {
      var init := ms[..|ms| - 1];
      assert init[j] == ms[j];
      RowValue(init, index, date, j);
    }
  }

  /** The `date` property keeps the formatted date unless a metric is itself
      named `date`. */
  lemma {:induction false} RowDate(ms: seq<Series>, index: nat, date: string)
    requires forall k :: 0 <= k < |ms| ==> ms[k].name != "date"
    ensures "date" in RowSpec(ms, index, date) && RowSpec(ms, index, date)["date"] == Text(date)
    decreases |ms|
  {
    if ms != [] {
      RowDate(ms[..|ms| - 1], index, date);
    }
  }

  /** The body of the `map` callback: build `dataPoint` by assigning one
      property per metric. */
  method BuildRow(ms: seq<Series>, index: nat, date: string) returns (row: Row)
    ensures row == RowSpec(ms, index, date)
  {
    row := map["date" := Text(date)];
    for k := 0 to |ms|
      invariant row == RowSpec(ms[..k], index, date)
    {
      assert ms[..k + 1][..k] == ms[..k];
      row := row[ms[k].name := CellAt(ms[k], index)];
    }
    assert ms[..|ms|] == ms;
  }

  /** `data.data[0].values.map(...)`: one row per point of the first series,
      dated by that point's `end_time` through `localeDate`
      (`toLocaleDateString`). */
  method Pivot(ms: seq<Series>, localeDate: string -> string) returns (rows: seq<Row>)
    requires |ms| > 0
    ensures |rows| == |ms[0].values|
    ensures forall i :: 0 <= i < |rows| ==> rows[i] == RowSpec(ms, i, localeDate(ms[0].values[i].endTime))
  {
    rows := [];
    for i := 0 to |ms[0].values|
      invariant |rows| == i
      invariant forall k :: 0 <= k < i ==> rows[k] == RowSpec(ms, k, localeDate(ms[0].values[k].endTime))
    {
      var row := BuildRow(ms, i, localeDate(ms[0].values[i].endTime));
      rows := rows + [row];
    }
  }

  // ----- The view -----

  /** The state of the insights view. */
  class InsightsView {
    var loading: bool
    var error: Option<string>
    var data: seq<Series>
    var formattedData: seq<Row>

    constructor ()
      ensures !loading && error == None && data == [] && formattedData == []
    {
      loading := false;
      error := None;
      data := [];
      formattedData := [];
    }

    /** `fetchInsights`. `first`, `refresh` and `retry` are how the insights
        request, the token refresh and the second insights request would
        settle; returns the Graph API requests made, in order. */
    method FetchInsights(pageId: Option<string>, token: Option<string>,
                         first: Http<InsightsBody>, refresh: Http<string>, retry: Http<InsightsBody>)
      returns (calls: seq<Call>)
      modifies this
      ensures !loading && formattedData == old(formattedData)
      ensures !Truthy(pageId) || !Truthy(token) ==>
                calls == [] && error == Some(CredentialsError) && data == old(data)
      ensures Truthy(pageId) && Truthy(token) ==>
                var run := WithRefresh(Insights, pageId.value, token.value,
                                       InsightsOutcome(first), RefreshOutcome(refresh), InsightsOutcome(retry));
                && calls == run.calls
                && (run.result.Resolved? ==> error == None && data == run.result.value.data)
                && (run.result.Rejected? ==> error == Some(ErrorText(run.result.fault)) && data == old(data))
    {
      loading := true;
      error := None;
      if !Truthy(pageId) || !Truthy(token) {
        error := Some(ErrorText(ErrorObject(CredentialsError)));
        loading := false;
        return [];
      }
      var accessToken := token.value;
      calls := [Fetch(Insights, pageId.value, accessToken)];
      var fetched := InsightsOutcome(first);
      if fetched.Resolved? {
        data := fetched.value.data;
      } else if IsExpiredToken(fetched.fault) {
        calls := calls + [Refresh(accessToken)];
        var refreshed := RefreshOutcome(refresh);
        if refreshed.Rejected? {
          error := Some(ErrorText(refreshed.fault));
        } else {
          accessToken := refreshed.value;
          calls := calls + [Fetch(Insights, pageId.value, accessToken)];
          var refetched := InsightsOutcome(retry);
          if refetched.Resolved? {
            data := refetched.value.data;
          } else {
            error := Some(ErrorText(refetched.fault));
          }
        }
      } else {
        error := Some(ErrorText(fetched.fault));
      }
      loading := false;
    }

    /** The effect on `data` as written: it pivots only when `data?.data` is
        truthy, but `data` holds the array of series (the response's `data`),
        and an array has no `data` property, so the guard never holds and
        `formattedData` is never recomputed. */
    method FormatDataAsWritten()
      modifies this
      ensures formattedData == old(formattedData)
      ensures loading == old(loading) && error == old(error) && data == old(data)
    {
    }

    /** The effect as evidently intended: pivot the series the view holds,
        when there is at least one. */
    method FormatData(localeDate: string -> string)
      modifies this
      ensures |data| == 0 ==> formattedData == old(formattedData)
      ensures |data| > 0 ==>
                && |formattedData| == |data[0].values|
                && forall i :: 0 <= i < |formattedData| ==>
                     formattedData[i] == RowSpec(data, i, localeDate(data[0].values[i].endTime))
      ensures loading == old(loading) && error == old(error) && data == old(data)
    {
      if |data| > 0 {
        formattedData := Pivot(data, localeDate);
      }
    }
  }

  /** One metric with one point, fetched successfully: as written the view's
      `formattedData` stays empty, while the intended pivot makes it hold one
      row with the metric's value. The view renders `data`, not
      `formattedData`, so the difference is in state only. */
  method PivotSkippedAsWritten() returns (asWritten: seq<Row>, intended: seq<Row>)
    ensures asWritten == []
    ensures |intended| == 1 && "page_follows" in intended[0] && intended[0]["page_follows"] == NumberCell(12)
  {
    var view := new InsightsView();
    var series := [Series("page_follows", [Sample("2024-01-01T08:00:00+0000", Scalar(12))])];
    var calls := view.FetchInsights(Some("page"), Some("token"), Ok(InsightsBody(series)), NotOk, NotOk);
    view.FormatDataAsWritten();
    asWritten := view.formattedData;
    view.FormatData((t: string) => "1/1/2024");
    intended := view.formattedData;
    RowValue(series, 0, "1/1/2024", 0);
  }
}
