/** Python's ordering of strings (lexicographic by code point), and the sorted keys of a dict. */
module StringOrder {
  /** Python `a <= b` on strings. */
  predicate StrLe(a: string, b: string) {
    a == [] || (b != [] && (a[0] < b[0] || (a[0] == b[0] && StrLe(a[1..], b[1..]))))
  }

  lemma {:induction false} StrLeTotal(a: string, b: string)
    ensures StrLe(a, b) || StrLe(b, a)
    decreases |a|
  {
    if a != [] && b != [] && a[0] == b[0] {
      StrLeTotal(a[1..], b[1..]);
    }
  }

  lemma {:induction false} StrLeTrans(a: string, b: string, c: string)
    requires StrLe(a, b) && StrLe(b, c)
    ensures StrLe(a, c)
    decreases |a|
  {
    if a != [] && a[0] == b[0] && b[0] == c[0] {
      StrLeTrans(a[1..], b[1..], c[1..]);
    }
  }

  lemma {:induction false} StrLeAntisym(a: string, b: string)
    requires StrLe(a, b) && StrLe(b, a)
    ensures a == b
    decreases |a|
  {
    if a != [] {
      StrLeAntisym(a[1..], b[1..]);
      assert a == [a[0]] + a[1..] && b == [b[0]] + b[1..];
    }
  }

  /** Every non-empty finite set of strings has a least element. */
  lemma {:induction false} LeastExists(s: set<string>)
    requires s != {}
    ensures exists m :: m in s && forall k :: k in s ==> StrLe(m, k)
    decreases |s|
  {
    var x :| x in s;
    var rest := s - {x};
    if rest == {} {
      forall k | k in s ensures k == x {
        assert k !in rest;
      }
      assert StrLe(x, x) by { StrLeTotal(x, x); }
    } else {
      LeastExists(rest);
      var m :| m in rest && forall k :: k in rest ==> StrLe(m, k);
      StrLeTotal(x, m);
      if StrLe(x, m) {
        forall k | k in s ensures StrLe(x, k) {
          if k != x {
            StrLeTrans(x, m, k);
          } else {
            StrLeTotal(x, x);
          }
        }
      } else {
        assert forall k :: k in s ==> StrLe(m, k);
      }
    }
  }

  /** `sorted(keys)`: the keys in ascending order. */
  ghost function SortedKeys(s: set<string>): (r: seq<string>)
    ensures |r| == |s|
    ensures forall k :: k in r <==> k in s
    ensures forall i, j :: 0 <= i < j < |r| ==> StrLe(r[i], r[j]) && r[i] != r[j]
    decreases |s|
  {
    if s == {} then []
    else
      LeastExists(s);
      var m :| m in s && forall k :: k in s ==> StrLe(m, k);
      [m] + SortedKeys(s - {m})
  }
}

/**
 * The post-processing of the Adzuna responses in
 * backend/app/services/external_data_service.py: the salary from the stats
 * endpoint, the fallback salary from job listings, and the history trend.
 * The HTTP responses, `statistics.quantiles` and `statistics.median` are inputs.
 */
module AdzunaData {
  import opened Wrappers
  import opened Text
  import opened Json
  import opened Rounding
  import opened SalaryRange
  import opened GrowthText
  import opened ExternalConfig
  import opened OnetData
  import opened StringOrder

  const NotNumber := "TypeError: unsupported operand type"

  // ---------------------------------------------------------------
  // adzuna_salary_stats: the stats endpoint
  // ---------------------------------------------------------------

  /** `payload.get(key) or fallback` where the fallback is a number that may be missing. */
  function OrNumber(fields: map<string, Json>, key: string, fallback: Option<real>): Option<real> {
    var v := GetField(fields, key);
    if Truthy(v) then NumericValue(v) else fallback
  }

  /**
   * The stats branch: None when neither mean nor median is set (the caller
   * then searches job listings), otherwise base = median or mean,
   * min = p25 or 0.8 * base, max = p75 or 1.25 * base, each rounded; a 500
   * when a value used is not a number.
   */
  function StatsSalary(payload: Json): (r: Result<Option<Salary>>)
    ensures payload.JObj? && !Truthy(GetField(payload.fields, "mean")) && !Truthy(GetField(payload.fields, "median"))
      ==> r == Ok(None)
    ensures r.Ok? && r.value.Some? ==>
      && r.value.value.min.Some? && r.value.value.max.Some? && r.value.value.median.Some?
      && Truthy(r.value.value.currency)
  {
    if !payload.JObj? then Err(ServerError(NoGet))
    else
      var f := payload.fields;
      var mean := GetField(f, "mean");
      var median := GetField(f, "median");
      if !Truthy(mean) && !Truthy(median) then Ok(None)
      else
        var base := NumericValue(Or(median, mean));
        var low := OrNumber(f, "p25", if base.Some? then Some(0.8 * base.value) else None);
        var high := OrNumber(f, "p75", if base.Some? then Some(1.25 * base.value) else None);
        if base.None? || low.None? || high.None? then Err(ServerError(NotNumber))
        else
          Ok(Some(Salary(Some(RoundHalfEven(low.value)), Some(RoundHalfEven(high.value)),
                         Some(RoundHalfEven(base.value)), Or(GetField(f, "currency"), JStr("USD")))))
  }

  /** Without quartiles in the response, a non-negative base gives min <= median <= max. */
  lemma StatsOrdered(f: map<string, Json>)
    requires Truthy(GetField(f, "median")) || Truthy(GetField(f, "mean"))
    requires NumericValue(Or(GetField(f, "median"), GetField(f, "mean"))).Some?
    requires NumericValue(Or(GetField(f, "median"), GetField(f, "mean"))).value >= 0.0
    requires !Truthy(GetField(f, "p25")) && !Truthy(GetField(f, "p75"))
    ensures var r := StatsSalary(JObj(f));
      r.Ok? && r.value.Some? && r.value.value.min.value <= r.value.value.median.value <= r.value.value.max.value
  {
    var b := NumericValue(Or(GetField(f, "median"), GetField(f, "mean"))).value;
    RoundMonotone(0.8 * b, b);
    RoundMonotone(b, 1.25 * b);
  }

  // ---------------------------------------------------------------
  // adzuna_salary_stats: the job-search fallback
  // ---------------------------------------------------------------

  /** `(float(salary_min), float(salary_max), currency)` of a kept job. */
  datatype Row = Row(lo: real, hi: real, currency: Json)

  /**
   * One job of the listing: kept only when it is a dict whose numeric
   * `salary_max` is positive; a missing or non-positive minimum becomes
   * 0.7 * max, and the two are swapped when the minimum is the larger.
   */
  function RowOf(job: Json): (r: Option<Row>)
    ensures r.Some? <==> (job.JObj? && NumericValue(GetField(job.fields, "salary_max")).Some?
      && NumericValue(GetField(job.fields, "salary_max")).value > 0.0)
    ensures r.Some? ==> 0.0 < r.value.lo <= r.value.hi && Truthy(r.value.currency)
    ensures r.Some? ==> NumericValue(GetField(job.fields, "salary_max")).value in {r.value.lo, r.value.hi}
  {
    if !job.JObj? then None
    else
      var f := job.fields;
      var top := NumericValue(GetField(f, "salary_max"));
      if top.None? || top.value <= 0.0 then None
      else
        var given := NumericValue(GetField(f, "salary_min"));
        var low := if given.None? || given.value <= 0.0 then top.value * 0.7 else given.value;
        var currency := Or(GetField(f, "salary_currency"), Or(GetField(f, "currency"), JStr("USD")));
        if low > top.value then Some(Row(top.value, low, currency)) else Some(Row(low, top.value, currency))
  }

  /** The rows the loop keeps, in listing order. */
  function SalaryRows(results: seq<Json>): (rows: seq<Row>)
    ensures |rows| <= |results|
    ensures forall row :: row in rows ==> 0.0 < row.lo <= row.hi && Truthy(row.currency)
  {
    if results == [] then []
    else
      var row := RowOf(results[0]);
      (if row.Some? then [row.value] else []) + SalaryRows(results[1..])
  }

  /** The `for job in results` loop appending the kept rows. */
  method CollectRows(results: seq<Json>) returns (rows: seq<Row>)
    ensures rows == SalaryRows(results)
  {
    rows := [];
    var i := 0;
    while i < |results|
      invariant 0 <= i <= |results|
      invariant rows + SalaryRows(results[i..]) == SalaryRows(results)
    {
      assert results[i..][1..] == results[i + 1..];
      var row := RowOf(results[i]);
      if row.Some? {
        rows := rows + [row.value];
      }
      i := i + 1;
    }
    assert results[i..] == [];
  }

  function Midpoints(rows: seq<Row>): (r: seq<real>)
    ensures |r| == |rows|
    ensures forall i :: 0 <= i < |rows| ==> r[i] == (rows[i].lo + rows[i].hi) / 2.0
  {
    if rows == [] then [] else [(rows[0].lo + rows[0].hi) / 2.0] + Midpoints(rows[1..])
  }

  function Least(xs: seq<real>): (m: real)
    requires xs != []
    ensures m in xs && forall i :: 0 <= i < |xs| ==> m <= xs[i]
  {
    if |xs| == 1 then xs[0]
    else
      var r := Least(xs[1..]);
      assert forall i :: 1 <= i < |xs| ==> xs[i] == xs[1..][i - 1];
      if xs[0] <= r then xs[0] else r
  }

  function Greatest(xs: seq<real>): (m: real)
    requires xs != []
    ensures m in xs && forall i :: 0 <= i < |xs| ==> xs[i] <= m
  {
    if |xs| == 1 then xs[0]
    else
      var r := Greatest(xs[1..]);
      assert forall i :: 1 <= i < |xs| ==> xs[i] == xs[1..][i - 1];
      if xs[0] >= r then xs[0] else r
  }

  /**
   * The salary from the kept rows.  `quartiles` stands for
   * `statistics.quantiles(midpoints, n=4)` (None when it raises, and the
   * first and third quartile otherwise) and `median` for `statistics.median`;
   * when the quartiles fail they fall back to the least and greatest
   * midpoint.  The currency is the first row's.
   */
  function ListingSalary(rows: seq<Row>, quartiles: seq<real> -> Option<(real, real)>, median: seq<real> -> real)
    : (r: Option<Salary>)
    ensures r.Some? <==> rows != []
    ensures r.Some? ==> r.value.currency == rows[0].currency && r.value.median == Some(RoundHalfEven(median(Midpoints(rows))))
    ensures r.Some? && quartiles(Midpoints(rows)).None? ==>
      && r.value.min == Some(RoundHalfEven(Least(Midpoints(rows))))
      && r.value.max == Some(RoundHalfEven(Greatest(Midpoints(rows))))
  {
    if rows == [] then None
    else
      var mids := Midpoints(rows);
      var q := quartiles(mids);
      var q1 := if q.Some? then q.value.0 else Least(mids);
      var q3 := if q.Some? then q.value.1 else Greatest(mids);
      Some(Salary(Some(RoundHalfEven(q1)), Some(RoundHalfEven(q3)), Some(RoundHalfEven(median(mids))), rows[0].currency))
  }

  /** When the quartiles fail, the fallback range is ordered and positive midpoints stay non-negative. */
  lemma ListingFallbackOrdered(rows: seq<Row>, quartiles: seq<real> -> Option<(real, real)>, median: seq<real> -> real)
    requires rows != [] && forall row :: row in rows ==> 0.0 < row.lo <= row.hi
    requires quartiles(Midpoints(rows)).None?
    ensures var r := ListingSalary(rows, quartiles, median);
      r.Some? && 0 <= r.value.min.value <= r.value.max.value
  {
    var mids := Midpoints(rows);
    assert rows[0] in rows;
    assert 0.0 < mids[0];
    RoundMonotone(Least(mids), Greatest(mids));
    RoundMonotone(0.0, Least(mids));
  }

  /** The job-search branch given the decoded listing. */
  function SearchSalary(payload: Json, quartiles: seq<real> -> Option<(real, real)>, median: seq<real> -> real)
    : (r: Option<Salary>)
    ensures r.Some? ==> (payload.JObj? && GetField(payload.fields, "results").JList?
      && SalaryRows(GetField(payload.fields, "results").items) != [])
  {
    var results := if payload.JObj? then GetField(payload.fields, "results") else JNull;
    if !results.JList? then None
    else ListingSalary(SalaryRows(results.items), quartiles, median)
  }

  /**
   * `adzuna_salary_stats(role_title)`: `stats` is the stats response, None
   * when the request failed with an HTTP error; `search` is the listing
   * response.
   */
  function AdzunaSalaryStats(c: Config, stats: Option<Json>, search: Json,
                             quartiles: seq<real> -> Option<(real, real)>, median: seq<real> -> real)
    : (r: Result<Option<Salary>>)
    ensures EnsureAdzunaReady(c).Err? ==> r == Err(EnsureAdzunaReady(c).error)
    ensures EnsureAdzunaReady(c).Ok? && stats.Some? && StatsSalary(stats.value).Ok? && StatsSalary(stats.value).value.Some?
      ==> r == StatsSalary(stats.value)
    ensures EnsureAdzunaReady(c).Ok? && stats.None? ==> r == Ok(SearchSalary(search, quartiles, median))
    ensures EnsureAdzunaReady(c).Ok? && stats.Some? && StatsSalary(stats.value) == Ok(None)
      ==> r == Ok(SearchSalary(search, quartiles, median))
    ensures EnsureAdzunaReady(c).Ok? && stats.Some? && StatsSalary(stats.value).Err?
      ==> r == Err(StatsSalary(stats.value).error)
  {
    var ready := EnsureAdzunaReady(c);
    if ready.Err? then Err(ready.error)
    else
      var fromStats := if stats.Some? then StatsSalary(stats.value) else Ok(None);
      if fromStats.Err? then fromStats
      else if fromStats.value.Some? then fromStats
      else Ok(SearchSalary(search, quartiles, median))
  }

  // ---------------------------------------------------------------
  // adzuna_history_trend
  // ---------------------------------------------------------------

  /** Python `xs[-months:]` */
  function TailSlice<T>(xs: seq<T>, months: int): (r: seq<T>)
    ensures |r| <= |xs|
    ensures months > 0 ==> |r| == if months < |xs| then months else |xs|
    ensures months == 0 ==> r == xs
    ensures r == xs[|xs| - |r|..]
  {
    if months > 0 then (if months < |xs| then xs[|xs| - months..] else xs)
    else if months == 0 then xs
    else if -months < |xs| then xs[-months..] else []
  }

  /** The numeric values among the given keys' values, in key order. */
  function NumericValues(keys: seq<string>, fields: map<string, Json>): (r: seq<real>)
    requires forall k :: k in keys ==> k in fields
    ensures |r| <= |keys|
  {
    if keys == [] then []
    else
      var v := NumericValue(fields[keys[0]]);
      (if v.Some? then [v.value] else []) + NumericValues(keys[1..], fields)
  }

  /** `sum(values)`, by prefixes. */
  function SumY(v: seq<real>): real {
    if v == [] then 0.0 else SumY(v[..|v| - 1]) + v[|v| - 1]
  }

  /** `sum(x * y for x, y in zip(range(n), values))` */
  function SumXY(v: seq<real>): real {
    if v == [] then 0.0 else SumXY(v[..|v| - 1]) + (|v| - 1) as real * v[|v| - 1]
  }

  /** `sum(range(n))` */
  function SumX(n: nat): real {
    if n == 0 then 0.0 else SumX(n - 1) + (n - 1) as real
  }

  /** `sum(x * x for x in range(n))` */
  function SumXX(n: nat): real {
    if n == 0 then 0.0 else SumXX(n - 1) + ((n - 1) * (n - 1)) as real
  }

  /** The least-squares slope of the values against their positions, 0 when the denominator is. */
  function Slope(v: seq<real>): real {
    var n := |v| as real;
    var denom := n * SumXX(|v|) - SumX(|v|) * SumX(|v|);
    if denom == 0.0 then 0.0 else (n * SumXY(v) - SumX(|v|) * SumY(v)) / denom
  }

  /** The arrow of a slope: up above 0.5, down below -0.5, flat otherwise. */
  function TrendArrow(slope: real): (a: char)
    ensures a == '↑' <==> slope > 0.5
    ensures a == '↓' <==> slope < -0.5
    ensures a == '→' <==> -0.5 <= slope <= 0.5
  {
    if slope > 0.5 then '↑' else if slope < -0.5 then '↓' else '→'
  }

  /** The first-to-last change in percent, 0 when the first value is 0. */
  function ChangePercent(v: seq<real>): real
    requires v != []
  {
    var first, last := v[0], v[|v| - 1];
    if first == 0.0 then 0.0 else (last - first) / first * 100.0
  }

  /** `f"{pct:.1f}".rstrip("0").rstrip(".")` */
  function PercentText(pct: real): (s: string)
    ensures s != [] && s[|s| - 1] != '.'
    ensures pct < 0.0 <==> s[0] == '-'
  {
    var body := FormatPercent(Abs(pct));
    assert body[0] != '-' by {
      var k := RoundHalfEven(Abs(pct) * 10.0);
      assert k >= 0;
      var a: nat := k;
      assert body == NatToString(a / 10) + (if a % 10 == 0 then "" else "." + NatToString(a % 10));
      assert body[0] == NatToString(a / 10)[0];
    }
    assert body[|body| - 1] != '.' by {
      var k := RoundHalfEven(Abs(pct) * 10.0);
      var a: nat := k;
      var last := NatToString(a % 10);
      assert body == NatToString(a / 10) + (if a % 10 == 0 then "" else "." + last);
    }
    (if pct < 0.0 then "-" else "") + body
  }

  /** The series' values in key order, restricted to the last `months` keys. */
  ghost function SeriesValues(series: map<string, Json>, months: int): seq<real> {
    var points := TailSlice(SortedKeys(series.Keys), months);
    assert forall k :: k in points ==> k in SortedKeys(series.Keys);
    NumericValues(points, series)
  }

  /** The trend text for at least three values. */
  function TrendText(values: seq<real>): (s: string)
    requires |values| >= 3
    ensures |s| >= 4 && s[0] == TrendArrow(Slope(values)) && s[1] == ' ' && s[|s| - 1] == '%'
  {
    [TrendArrow(Slope(values))] + " " + PercentText(ChangePercent(values)) + "%"
  }

  /**
   * `adzuna_history_trend(role_title, months)` given the decoded response:
   * None unless the series is a dict of at least three entries with at least
   * three numeric values among its last `months` entries in key order.
   */
  ghost function HistoryTrend(c: Config, payload: Json, months: int): (r: Result<Option<string>>)
    ensures EnsureAdzunaReady(c).Err? ==> r == Err(EnsureAdzunaReady(c).error)
    ensures r.Ok? && r.value.Some? ==> payload.JObj?
    ensures EnsureAdzunaReady(c).Ok? && payload.JObj? ==> r.Ok?
    ensures r.Ok? && r.value.Some? ==>
      var series := Or(GetField(payload.fields, "history"), Or(GetField(payload.fields, "month"), payload));
      && series.JObj? && |SeriesValues(series.fields, months)| >= 3
      && r.value.value == TrendText(SeriesValues(series.fields, months))
  {
    var ready := EnsureAdzunaReady(c);
    if ready.Err? then Err(ready.error)
    else if !payload.JObj? then Err(ServerError(NoGet))
    else
      var series := Or(GetField(payload.fields, "history"), Or(GetField(payload.fields, "month"), payload));
      if !series.JObj? || |series.fields| < 3 then Ok(None)
      else
        var values := SeriesValues(series.fields, months);
        if |values| < 3 then Ok(None) else Ok(Some(TrendText(values)))
  }

  /** The trend is reported exactly when the series and its numeric values are long enough. */
  lemma TrendReported(c: Config, payload: Json, months: int)
    requires EnsureAdzunaReady(c).Ok? && payload.JObj?
    ensures var series := Or(GetField(payload.fields, "history"), Or(GetField(payload.fields, "month"), payload));
      HistoryTrend(c, payload, months).value.Some? <==>
        (series.JObj? && |series.fields| >= 3 && |SeriesValues(series.fields, months)| >= 3)
  {
  }

  lemma {:induction false} SumYConstant(v: seq<real>, c: real)
    requires forall i :: 0 <= i < |v| ==> v[i] == c
    ensures SumY(v) == |v| as real * c
    decreases |v|
  {
    if v != [] {
      SumYConstant(v[..|v| - 1], c);
    }
  }

  lemma {:induction false} SumXYConstant(v: seq<real>, c: real)
    requires forall i :: 0 <= i < |v| ==> v[i] == c
    ensures SumXY(v) == c * SumX(|v|)
    decreases |v|
  {
    if v != [] {
      SumXYConstant(v[..|v| - 1], c);
    }
  }

  /** A flat series has slope 0, so its arrow is flat; its change is 0% unless its first value is 0, where it is 0 too. */
  lemma FlatSeries(v: seq<real>, c: real)
    requires |v| >= 3 && forall i :: 0 <= i < |v| ==> v[i] == c
    ensures Slope(v) == 0.0
    ensures TrendText(v) == "→ 0%"
  {
    SumYConstant(v, c);
    SumXYConstant(v, c);
    var n := |v| as real;
    assert n * SumXY(v) - SumX(|v|) * SumY(v) == n * (c * SumX(|v|)) - SumX(|v|) * (n * c);
    assert ChangePercent(v) == 0.0;
    assert PercentText(0.0) == "0";
  }

  /** A series starting at 0 reports a 0% change whatever follows. */
  lemma FirstZero(v: seq<real>)
    requires |v| >= 3 && v[0] == 0.0
    ensures PercentText(ChangePercent(v)) == "0"
  {
  }
}
