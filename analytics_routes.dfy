/**
 * The analytics routes: call counts for a date range, the overall sentiment
 * verdict, and call counts per period of a fixed length. The query parameters
 * arrive as optional strings; the database query becomes a filter over the
 * call table; `new Date(...)` is the `parse` argument (milliseconds, or None
 * for an Invalid Date).
 */
module AnalyticsRoutes {
  import opened Wrappers
  import opened Errors
  import opened Seqs
  import opened Calls
  import opened JsObject

  const DatesRequired: string := "Start date and end date are required"

  /** A date parameter counts as given when it is present and not empty. */
  predicate Given(p: Option<string>)
  {
    p.Some? && p.value != ""
  }

  /** The message of the error the database client throws when a filter
      bound is an Invalid Date (its exact text is the client's own). */
  const InvalidDateFilter: string := "Invalid Date in createdAt filter"

  /** The two dates of a query: a missing or empty one is a bad request; one
      that does not parse reaches the database query as an Invalid Date,
      which the client rejects, so the handler passes that error on. */
  function QueryRange(startDate: Option<string>, endDate: Option<string>, parse: string -> Option<int>): (r: Result<(int, int)>)
    ensures r.Ok? <==> Given(startDate) && Given(endDate) && parse(startDate.value).Some? && parse(endDate.value).Some?
    ensures r.Ok? ==> r.value == (parse(startDate.value).value, parse(endDate.value).value)
    ensures !Given(startDate) || !Given(endDate) ==> r == Err(App(BadRequestError(DatesRequired)))
    ensures Given(startDate) && Given(endDate) && r.Err? ==> r == Err(Other(InvalidDateFilter))
  {
    if !Given(startDate) || !Given(endDate) then Err(App(BadRequestError(DatesRequired)))
    else
      var start := parse(startDate.value);
      var end := parse(endDate.value);
      if start.None? || end.None? then Err(Other(InvalidDateFilter)) else Ok((start.value, end.value))
  }

  /** The sentiments of some calls, in order. */
  function Sentiments(calls: seq<Call>): (r: seq<Option<string>>)
    ensures |r| == |calls| && forall i :: 0 <= i < |calls| ==> r[i] == calls[i].sentiment
  {
    seq(|calls|, i requires 0 <= i < |calls| => calls[i].sentiment)
  }

  datatype SentimentCounts = SentimentCounts(positive: nat, neutral: nat, negative: nat)

  /** The `sentimentDistribution` / `sentimentCounts` object. */
  function SentimentCountsOf(calls: seq<Call>): SentimentCounts
  {
    var s := Sentiments(calls);
    SentimentCounts(Count(s, Some("positive")), Count(s, Some("neutral")), Count(s, Some("negative")))
  }

  /** Each call has at most one sentiment, so the three counts add up to at
      most the number of calls. */
  lemma SentimentCountsBound(calls: seq<Call>)
    ensures var c := SentimentCountsOf(calls);
      c.positive + c.neutral + c.negative <= |calls|
  {
    var keys := [Some("positive"), Some("neutral"), Some("negative")];
    var s := Sentiments(calls);
    SumCountsBound(keys, s);
    var k1 := keys[1..];
    var k2 := k1[1..];
    assert k2[1..] == [];
    assert SumCounts(k2, s) == Count(s, keys[2]);
    assert SumCounts(k1, s) == Count(s, keys[1]) + SumCounts(k2, s);
  }

  /** The statistics `/calls` reports (the average duration, a floating
      quotient, is not part of the model). */
  datatype CallStats = CallStats(
    totalCalls: nat,
    totalDuration: int,
    completedCalls: nat,
    failedCalls: nat,
    sentimentDistribution: SentimentCounts)

  function StatsOf(calls: seq<Call>): CallStats
  {
    var st := Statuses(calls);
    CallStats(|calls|, TotalDuration(calls), Count(st, "completed"), Count(st, "failed"), SentimentCountsOf(calls))
  }

  /** The counts are bounded by the number of calls: a call is at most one
      of completed and failed, and has at most one sentiment. */
  lemma StatsOfBounds(calls: seq<Call>)
    ensures StatsOf(calls).totalCalls == |calls|
    ensures StatsOf(calls).completedCalls + StatsOf(calls).failedCalls <= |calls|
    ensures var d := StatsOf(calls).sentimentDistribution;
      d.positive + d.neutral + d.negative <= |calls|
  {
    var keys := ["completed", "failed"];
    var st := Statuses(calls);
    SumCountsBound(keys, st);
    var k1 := keys[1..];
    assert k1[1..] == [];
    assert SumCounts(k1, st) == Count(st, keys[1]);
    SentimentCountsBound(calls);
  }

  /** `GET /calls`: both dates are required and must parse; the statistics
      are those of the user's calls created in the closed range. */
  function CallsRoute(table: seq<Call>, userId: string, startDate: Option<string>, endDate: Option<string>,
                      parse: string -> Option<int>): (r: Result<CallStats>)
    ensures r.Err? <==> QueryRange(startDate, endDate, parse).Err?
    ensures r.Err? ==> r.error == QueryRange(startDate, endDate, parse).error
    ensures !Given(startDate) || !Given(endDate) ==> r == Err(App(BadRequestError(DatesRequired)))
    ensures r.Ok? ==>
      var (start, end) := QueryRange(startDate, endDate, parse).value;
      var calls := CallsInRange(table, userId, start, end);
      && r.value.totalCalls == |calls|
      && r.value.totalDuration == TotalDuration(calls)
      && r.value.completedCalls == Count(Statuses(calls), "completed")
      && r.value.failedCalls == Count(Statuses(calls), "failed")
      && r.value.sentimentDistribution == SentimentCountsOf(calls)
      && r.value.completedCalls + r.value.failedCalls <= r.value.totalCalls
      && r.value.sentimentDistribution.positive + r.value.sentimentDistribution.neutral
           + r.value.sentimentDistribution.negative <= r.value.totalCalls
  {
    match QueryRange(startDate, endDate, parse)
    case Err(e) => Err(e)
    case Ok((start, end)) =>
      var calls := CallsInRange(table, userId, start, end);
      StatsOfBounds(calls);
      Ok(StatsOf(calls))
  }

  // ---------------------------------------------------------------------------
  // GET /sentiment
  // ---------------------------------------------------------------------------

  /** The calls that have a sentiment. */
  function WithSentiment(calls: seq<Call>): (r: seq<Call>)
    ensures forall c :: c in r <==> c in calls && c.sentiment.Some?
    ensures |r| <= |calls|
  {
    if calls == [] then []
    else
      var rest := WithSentiment(calls[..|calls| - 1]);
      var c := calls[|calls| - 1];
      assert calls == calls[..|calls| - 1] + [c];
      if c.sentiment.Some? then rest + [c] else rest
  }

  /** The `overall` rule. */
  function Verdict(counts: SentimentCounts, total: nat): string
  {
    if total == 0 then "neutral"
    else if counts.positive > counts.negative then "positive"
    else if counts.negative > counts.positive then "negative"
    else "neutral"
  }

  /** Over the calls' own counts the verdict is positive exactly when
      positives outnumber negatives, negative exactly when negatives outnumber
      positives, and neutral otherwise (with no calls among them). */
  lemma VerdictSpec(calls: seq<Call>)
    ensures var c := SentimentCountsOf(calls);
      && (Verdict(c, |calls|) == "positive" <==> c.positive > c.negative)
      && (Verdict(c, |calls|) == "negative" <==> c.negative > c.positive)
      && (Verdict(c, |calls|) == "neutral" <==> c.positive == c.negative)
  {
    SentimentCountsBound(calls);
  }

  /** The analysis `/sentiment` reports (the score, a floating quotient, is
      not part of the model). */
  datatype SentimentAnalysis = SentimentAnalysis(overall: string, details: SentimentCounts)

  /** `GET /sentiment`: both dates are required and must parse; the verdict
      is over the user's calls in the range that have a sentiment. */
  function SentimentRoute(table: seq<Call>, userId: string, startDate: Option<string>, endDate: Option<string>,
                          parse: string -> Option<int>): (r: Result<SentimentAnalysis>)
    ensures r.Err? <==> QueryRange(startDate, endDate, parse).Err?
    ensures r.Err? ==> r.error == QueryRange(startDate, endDate, parse).error
    ensures !Given(startDate) || !Given(endDate) ==> r == Err(App(BadRequestError(DatesRequired)))
    ensures r.Ok? ==>
      var (start, end) := QueryRange(startDate, endDate, parse).value;
      var calls := WithSentiment(CallsInRange(table, userId, start, end));
      && r.value.details == SentimentCountsOf(calls)
      && (r.value.overall == "positive" <==> r.value.details.positive > r.value.details.negative)
      && (r.value.overall == "negative" <==> r.value.details.negative > r.value.details.positive)
      && (r.value.overall == "neutral" <==> r.value.details.positive == r.value.details.negative)
  {
    match QueryRange(startDate, endDate, parse)
    case Err(e) => Err(e)
    case Ok((start, end)) =>
      var calls := WithSentiment(CallsInRange(table, userId, start, end));
      VerdictSpec(calls);
      Ok(SentimentAnalysis(Verdict(SentimentCountsOf(calls), |calls|), SentimentCountsOf(calls)))
  }

  // ---------------------------------------------------------------------------
  // GET /trends
  // ---------------------------------------------------------------------------

  const HourMs: nat := 3600000
  const DayMs: nat := 86400000
  const WeekMs: nat := 604800000
  const MonthMs: nat := 2592000000

  /** The period length for the `interval` parameter (`'day'` when absent);
      an unrecognised name falls back to one day, and a name every object
      inherits from `Object.prototype` finds a function or an object rather
      than a number (None). */
  function IntervalMs(interval: Option<string>): (ms: Option<nat>)
    ensures ms.None? <==> interval.Some? && interval.value in InheritedNames
    ensures ms.Some? ==> ms.value > 0
    ensures ms == Some(HourMs) <==> interval == Some("hour")
    ensures ms == Some(WeekMs) <==> interval == Some("week")
    ensures ms == Some(MonthMs) <==> interval == Some("month")
    ensures ms == Some(DayMs) <==>
      interval !in {Some("hour"), Some("week"), Some("month")} && !(interval.Some? && interval.value in InheritedNames)
  {
    match interval
    case Some("hour") => Some(HourMs)
    case Some("week") => Some(WeekMs)
    case Some("month") => Some(MonthMs)
    case Some(name) => if name in InheritedNames then None else Some(DayMs)
    case None => Some(DayMs)
  }

  /** A point of the series: the period's start, its number of calls and the
      sum of their durations (the numerator of its average). */
  datatype TrendPoint = TrendPoint(timestamp: int, count: nat, durationSum: int)

  /** The calls created in the half-open period [lo, hi). */
  function InPeriod(calls: seq<Call>, lo: int, hi: int): (r: seq<Call>)
    ensures forall c :: c in r <==> c in calls && lo <= c.createdAt < hi
    ensures |r| <= |calls|
  {
    if calls == [] then []
    else
      var rest := InPeriod(calls[..|calls| - 1], lo, hi);
      var c := calls[|calls| - 1];
      assert calls == calls[..|calls| - 1] + [c];
      if lo <= c.createdAt < hi then rest + [c] else rest
  }

  /** Adjacent periods split the calls of their union between them. */
  lemma {:induction false} InPeriodSplit(calls: seq<Call>, lo: int, mid: int, hi: int)
    requires lo <= mid <= hi
    ensures |InPeriod(calls, lo, hi)| == |InPeriod(calls, lo, mid)| + |InPeriod(calls, mid, hi)|
    ensures TotalDuration(InPeriod(calls, lo, hi)) ==
      TotalDuration(InPeriod(calls, lo, mid)) + TotalDuration(InPeriod(calls, mid, hi))
  {
    if calls != [] {
      var init := calls[..|calls| - 1];
      var c := calls[|calls| - 1];
      InPeriodSplit(init, lo, mid, hi);
      TotalDurationAppend(InPeriod(init, lo, hi), [c]);
      TotalDurationAppend(InPeriod(init, lo, mid), [c]);
      TotalDurationAppend(InPeriod(init, mid, hi), [c]);
    }
  }

  /** A period of no length holds no call. */
  lemma {:induction false} InPeriodEmpty(calls: seq<Call>, t: int)
    ensures InPeriod(calls, t, t) == []
  {
    if calls != [] {
      InPeriodEmpty(calls[..|calls| - 1], t);
    }
  }

  /** A period covering every call holds all of them. */
  lemma {:induction false} InPeriodAll(calls: seq<Call>, lo: int, hi: int)
    requires forall c :: c in calls ==> lo <= c.createdAt < hi
    ensures InPeriod(calls, lo, hi) == calls
  {
    if calls != [] {
      var init := calls[..|calls| - 1];
      assert calls == init + [calls[|calls| - 1]];
      InPeriodAll(init, lo, hi);
    }
  }

  /** The start of the i-th period. */
  function PeriodStart(start: int, ms: nat, i: nat): int
  {
    start + i * ms
  }

  /** The point for the period starting at t. */
  function Period(calls: seq<Call>, t: int, ms: nat): TrendPoint
  {
    var p := InPeriod(calls, t, t + ms);
    TrendPoint(t, |p|, TotalDuration(p))
  }

  /** The points of the first n periods. */
  function Periods(calls: seq<Call>, start: int, ms: nat, n: nat): (r: seq<TrendPoint>)
  {
    if n == 0 then [] else Periods(calls, start, ms, n - 1) + [Period(calls, PeriodStart(start, ms, n - 1), ms)]
  }

  lemma {:induction false} PeriodsSpec(calls: seq<Call>, start: int, ms: nat, n: nat)
    ensures |Periods(calls, start, ms, n)| == n
    ensures forall i :: 0 <= i < n ==> Periods(calls, start, ms, n)[i] == Period(calls, PeriodStart(start, ms, i), ms)
  {
    if n > 0 {
      PeriodsSpec(calls, start, ms, n - 1);
    }
  }

  /** The total number of calls over a series. */
  function TrendCount(trends: seq<TrendPoint>): nat
  {
    if trends == [] then 0 else TrendCount(trends[..|trends| - 1]) + trends[|trends| - 1].count
  }

  /** The total duration over a series. */
  function TrendDuration(trends: seq<TrendPoint>): int
  {
    if trends == [] then 0 else TrendDuration(trends[..|trends| - 1]) + trends[|trends| - 1].durationSum
  }

  /** The periods' counts and durations add up to those of the range they
      cover together: no call is counted twice or lost between periods. */
  lemma {:induction false} PeriodsTotal(calls: seq<Call>, start: int, ms: nat, n: nat)
    ensures var p := Periods(calls, start, ms, n);
      && TrendCount(p) == |InPeriod(calls, start, PeriodStart(start, ms, n))|
      && TrendDuration(p) == TotalDuration(InPeriod(calls, start, PeriodStart(start, ms, n)))
  {
    if n == 0 {
      InPeriodEmpty(calls, start);
    } else {
      PeriodsTotal(calls, start, ms, n - 1);
      var p := Periods(calls, start, ms, n);
      assert p[..|p| - 1] == Periods(calls, start, ms, n - 1);
      assert PeriodStart(start, ms, n) == PeriodStart(start, ms, n - 1) + ms;
      InPeriodSplit(calls, start, PeriodStart(start, ms, n - 1), PeriodStart(start, ms, n));
    }
  }

  /** Periods are half-open and do not overlap: a time lies in at most one. */
  lemma OnePeriod(start: int, ms: nat, i: nat, j: nat, t: int)
    requires ms > 0
    requires PeriodStart(start, ms, i) <= t < PeriodStart(start, ms, i) + ms
    requires PeriodStart(start, ms, j) <= t < PeriodStart(start, ms, j) + ms
    ensures i == j
  {
    MulGap(i, j, ms);
    MulGap(j, i, ms);
  }

  /** Multiples of m taken at a < b lie at least m apart. */
  lemma MulGap(a: int, b: int, m: nat)
    ensures a < b ==> a * m + m <= b * m
  {
    if a < b {
      MulAtLeast(b - a, m);
      assert (b - a) * m == b * m - a * m;
    }
  }

  /** x·m >= m for every x >= 1. */
  lemma {:induction false} MulAtLeast(x: int, m: nat)
    requires x >= 1
    ensures x * m >= m
  {
    if m > 0 {
      MulAtLeast(x, m - 1);
      assert x * m == x * (m - 1) + x;
    }
  }

  /** The while loop of `/trends`: one point per period from `start`, as long
      as the period start is not after `end`. */
  method Trends(calls: seq<Call>, start: int, end: int, ms: nat) returns (trends: seq<TrendPoint>)
    requires ms > 0
    ensures trends == Periods(calls, start, ms, |trends|)
    ensures |trends| == 0 <==> start > end
    ensures |trends| > 0 ==> PeriodStart(start, ms, |trends| - 1) <= end
    ensures end < PeriodStart(start, ms, |trends|)
  {
    trends := [];
    var current := start;
    while current <= end
      invariant current == PeriodStart(start, ms, |trends|)
      invariant trends == Periods(calls, start, ms, |trends|)
      invariant |trends| > 0 ==> start <= end && PeriodStart(start, ms, |trends| - 1) <= end
      decreases end - current
    {
      var next := current + ms;
      var period := InPeriod(calls, current, next);
      trends := trends + [TrendPoint(current, |period|, TotalDuration(period))];
      current := next;
    }
  }

  /** The number of periods the loop produces is ⌊(end − start)/ms⌋ + 1 when
      start ≤ end. */
  lemma PeriodCount(start: int, end: int, ms: nat, n: nat)
    requires ms > 0 && start <= end && n > 0
    requires PeriodStart(start, ms, n - 1) <= end < PeriodStart(start, ms, n)
    ensures n == (end - start) / ms + 1
  {
    var q := (end - start) / ms;
    var d := end - start;
    assert d == q * ms + d % ms && 0 <= d % ms < ms;
    assert (n - 1) * ms <= d < n * ms;
    assert n * ms == (n - 1) * ms + ms;
    MulGap(q, n - 1, ms);
    MulGap(n - 1, q, ms);
  }

  /** `GET /trends`: both dates are required and must parse. With a numeric
      interval the series covers the range in periods of that length,
      ⌊(end − start)/ms⌋ + 1 of them, and counts every call fetched exactly
      once. With an inherited name, `getTime() + intervalMs` concatenates
      text, so the next period start is an Invalid Date: the first period
      matches no call and the loop stops after it. */
  method TrendsRoute(table: seq<Call>, userId: string, startDate: Option<string>, endDate: Option<string>,
                     interval: Option<string>, parse: string -> Option<int>) returns (r: Result<seq<TrendPoint>>)
    ensures r.Err? <==> QueryRange(startDate, endDate, parse).Err?
    ensures r.Err? ==> r.error == QueryRange(startDate, endDate, parse).error
    ensures !Given(startDate) || !Given(endDate) ==> r == Err(App(BadRequestError(DatesRequired)))
    ensures r.Ok? && IntervalMs(interval).Some? ==>
      var (start, end) := QueryRange(startDate, endDate, parse).value;
      var ms := IntervalMs(interval).value;
      var calls := CallsInRange(table, userId, start, end);
      && r.value == Periods(calls, start, ms, |r.value|)
      && |r.value| == (if start <= end then (end - start) / ms + 1 else 0)
      && TrendCount(r.value) == |calls|
      && TrendDuration(r.value) == TotalDuration(calls)
    ensures r.Ok? && IntervalMs(interval).None? ==>
      var (start, end) := QueryRange(startDate, endDate, parse).value;
      r.value == if start <= end then [TrendPoint(start, 0, 0)] else []
  {
    var range := QueryRange(startDate, endDate, parse);
    if range.Err? {
      return Err(range.error);
    }
    var (start, end) := range.value;
    var calls := CallsInRange(table, userId, start, end);
    var step := IntervalMs(interval);
    if step.None? {
      r := Ok(if start <= end then [TrendPoint(start, 0, 0)] else []);
      return;
    }
    var trends := Series(calls, start, end, step.value);
    r := Ok(trends);
  }

  /** The series of a numeric interval over calls created in [start, end]. */
  method Series(calls: seq<Call>, start: int, end: int, ms: nat) returns (trends: seq<TrendPoint>)
    requires ms > 0
    requires forall c :: c in calls ==> start <= c.createdAt <= end
    ensures trends == Periods(calls, start, ms, |trends|)
    ensures |trends| == (if start <= end then (end - start) / ms + 1 else 0)
    ensures TrendCount(trends) == |calls|
    ensures TrendDuration(trends) == TotalDuration(calls)
  {
    trends := Trends(calls, start, end, ms);
    if start <= end {
      PeriodCount(start, end, ms, |trends|);
    }
    PeriodsTotal(calls, start, ms, |trends|);
    InPeriodAll(calls, start, PeriodStart(start, ms, |trends|));
  }
}
