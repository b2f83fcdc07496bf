/**
 * The analytics service: call statistics with a per-status distribution, the
 * sentiment summary of the language-model analyses, and call trends grouped
 * by a prefix of each call's ISO timestamp. The analyses and the ISO texts
 * are inputs. The counting reductions accumulate into a plain JavaScript
 * object, with the key rules of `JsObject`; the trends accumulator is a list
 * of (key, value) pairs in insertion order, which is how an object lists
 * keys that are not array indices (no ISO prefix is one).
 */
module AnalyticsService {
  import opened Wrappers
  import opened Text
  import opened Seqs
  import opened Calls
  import opened JsObject

  /** The counting `reduce` into `{}`, one `acc[k] = (acc[k] || 0) + 1` per
      key: the own properties it leaves, in creation order. */
  method CountByKey(s: seq<string>) returns (acc: Props)
    ensures acc == CountObject(s)
  {
    acc := [];
    var i := 0;
    assert CountObject(s[..0]) == [];
    while i < |s|
      invariant 0 <= i <= |s|
      invariant acc == CountObject(s[..i])
    {
      var x := s[i];
      acc := CountInto(acc, x);
      assert s[..i + 1] == s[..i] + [x];
      CountObjectSnoc(s[..i], x);
      i := i + 1;
    }
    assert s[..i] == s;
  }

  // ---------------------------------------------------------------------------
  // getCallStats
  // ---------------------------------------------------------------------------

  /** The statistics (the average duration, a floating quotient, is not part
      of the model). */
  datatype CallStats = CallStats(
    totalCalls: nat,
    completedCalls: nat,
    totalDuration: int,
    statusDistribution: Props)

  /** `getCallStats` over the user's calls in the closed range. The status
      distribution holds one property per status other than `__proto__`,
      valued by its number of calls (as text for an inherited name), array
      indices first; its numbers add up to the calls whose status is not an
      inherited name, and with ordinary statuses it is the plain count. */
  method GetCallStats(table: seq<Call>, userId: string, start: int, end: int) returns (stats: CallStats)
    ensures var calls := CallsInRange(table, userId, start, end);
      && stats.totalCalls == |calls|
      && stats.completedCalls == Count(Statuses(calls), "completed")
      && stats.totalDuration == TotalDuration(calls)
      && stats.statusDistribution == CountedObject(Statuses(calls))
    ensures var st := Statuses(CallsInRange(table, userId, start, end));
      forall k, v :: (k, v) in stats.statusDistribution <==>
        k in st && k != "__proto__" && v == Counted(k, Count(st, k))
    ensures NoDup(Keys(stats.statusDistribution))
    ensures var d := stats.statusDistribution;
      forall i, j :: 0 <= i < j < |d| && IsArrayIndex(d[j].0) ==>
        IsArrayIndex(d[i].0) && IndexValue(d[i].0) < IndexValue(d[j].0)
    ensures KeyedBy(stats.statusDistribution, false) ==
      KeyedBy(CountObject(Statuses(CallsInRange(table, userId, start, end))), false)
    ensures NumberSum(stats.statusDistribution)
      + InheritedCount(Statuses(CallsInRange(table, userId, start, end))) == stats.totalCalls
    ensures stats.completedCalls > 0 ==> ("completed", NumberValue(stats.completedCalls)) in stats.statusDistribution
    ensures stats.completedCalls == 0 ==> "completed" !in Keys(stats.statusDistribution)
    ensures var st := Statuses(CallsInRange(table, userId, start, end));
      (forall x :: x in st ==> x !in InheritedNames && !IsArrayIndex(x)) ==>
        stats.statusDistribution == Numbers(Tally(st)) && SumSecond(Tally(st)) == stats.totalCalls
  {
    var calls := CallsInRange(table, userId, start, end);
    var st := Statuses(calls);
    var own := CountByKey(st);
    var distribution := Enumerated(own);
    stats := CallStats(|calls|, Count(st, "completed"), TotalDuration(calls), distribution);
    StatusDistribution(st);
  }

  /** What the status distribution of `getCallStats` holds, for statuses `st`. */
  lemma StatusDistribution(st: seq<string>)
    ensures forall k, v :: (k, v) in CountedObject(st) <==>
      k in st && k != "__proto__" && v == Counted(k, Count(st, k))
    ensures NoDup(Keys(CountedObject(st)))
    ensures var d := CountedObject(st);
      forall i, j :: 0 <= i < j < |d| && IsArrayIndex(d[j].0) ==>
        IsArrayIndex(d[i].0) && IndexValue(d[i].0) < IndexValue(d[j].0)
    ensures KeyedBy(CountedObject(st), false) == KeyedBy(CountObject(st), false)
    ensures NumberSum(CountedObject(st)) + InheritedCount(st) == |st|
    ensures Count(st, "completed") > 0 ==> ("completed", NumberValue(Count(st, "completed"))) in CountedObject(st)
    ensures Count(st, "completed") == 0 ==> "completed" !in Keys(CountedObject(st))
    ensures (forall x :: x in st ==> x !in InheritedNames && !IsArrayIndex(x)) ==>
      CountedObject(st) == Numbers(Tally(st)) && SumSecond(Tally(st)) == |st|
  {
    CountedObjectSpec(st);
    PlainCount(st);
    CompletedEntry(st);
  }

  lemma CompletedEntry(st: seq<string>)
    ensures Count(st, "completed") > 0 ==> ("completed", NumberValue(Count(st, "completed"))) in CountedObject(st)
    ensures Count(st, "completed") == 0 ==> "completed" !in Keys(CountedObject(st))
  {
    assert "completed" !in InheritedNames;
    assert Counted("completed", Count(st, "completed")) == NumberValue(Count(st, "completed"));
    CountedObjectLookup(st, "completed");
  }

  // ---------------------------------------------------------------------------
  // getSentimentAnalysis
  // ---------------------------------------------------------------------------

  /** A parsed analysis of one transcript; each field may be missing. */
  datatype Analysis = Analysis(
    overallSentiment: Option<string>,
    keyPoints: Option<seq<string>>,
    emotions: Option<seq<string>>)

  /** The distribution key of an analysis: a missing sentiment is keyed by
      the text `undefined`, as a JavaScript property name would be. */
  function SentimentKey(a: Analysis): string
  {
    a.overallSentiment.GetOr("undefined")
  }

  /** The analyses that came back (a failed one is null). */
  function Present(analyses: seq<Option<Analysis>>): (r: seq<Analysis>)
    ensures |r| <= |analyses|
    ensures forall a :: a in r <==> Some(a) in analyses
  {
    if analyses == [] then []
    else
      var rest := Present(analyses[..|analyses| - 1]);
      var last := analyses[|analyses| - 1];
      assert analyses == analyses[..|analyses| - 1] + [last];
      if last.Some? then rest + [last.value] else rest
  }

  function SentimentKeys(analyses: seq<Analysis>): (r: seq<string>)
    ensures |r| == |analyses| && forall i :: 0 <= i < |r| ==> r[i] == SentimentKey(analyses[i])
  {
    seq(|analyses|, i requires 0 <= i < |analyses| => SentimentKey(analyses[i]))
  }

  /** The concatenation of some lists, in order. */
  function Flatten(xss: seq<seq<string>>): (r: seq<string>)
    ensures forall x :: x in r <==> exists i :: 0 <= i < |xss| && x in xss[i]
  {
    if xss == [] then []
    else
      var init := xss[..|xss| - 1];
      var r := Flatten(init) + xss[|xss| - 1];
      assert forall i :: 0 <= i < |init| ==> init[i] == xss[i];
      r
  }

  /** The key-point lists of the analyses, a missing one counting as empty. */
  function KeyPointLists(analyses: seq<Analysis>): (r: seq<seq<string>>)
    ensures |r| == |analyses| && forall i :: 0 <= i < |r| ==> r[i] == analyses[i].keyPoints.GetOr([])
  {
    seq(|analyses|, i requires 0 <= i < |analyses| => analyses[i].keyPoints.GetOr([]))
  }

  /** The emotion lists of the analyses, a missing one counting as empty. */
  function EmotionLists(analyses: seq<Analysis>): (r: seq<seq<string>>)
    ensures |r| == |analyses| && forall i :: 0 <= i < |r| ==> r[i] == analyses[i].emotions.GetOr([])
  {
    seq(|analyses|, i requires 0 <= i < |analyses| => analyses[i].emotions.GetOr([]))
  }

  /** The key points are listed without repeats, and a key point is listed
      exactly when some analysis that came back has it. */
  lemma KeyPointsMembers(analyses: seq<Option<Analysis>>)
    ensures NoDup(Dedup(Flatten(KeyPointLists(Present(analyses)))))
    ensures forall x :: x in Dedup(Flatten(KeyPointLists(Present(analyses)))) <==>
      exists a :: Some(a) in analyses && x in a.keyPoints.GetOr([])
  {
    var present := Present(analyses);
    DedupSpec(Flatten(KeyPointLists(present)));
    forall x
      ensures x in Flatten(KeyPointLists(present)) <==> exists a :: Some(a) in analyses && x in a.keyPoints.GetOr([])
    {
      if x in Flatten(KeyPointLists(present)) {
        var i :| 0 <= i < |present| && x in KeyPointLists(present)[i];
        assert present[i] in present;
      }
      if exists a :: Some(a) in analyses && x in a.keyPoints.GetOr([]) {
        var a :| Some(a) in analyses && x in a.keyPoints.GetOr([]);
        var i :| 0 <= i < |present| && present[i] == a;
        assert x in KeyPointLists(present)[i];
      }
    }
  }

  /** The emotions are listed without repeats, and an emotion is listed
      exactly when some analysis that came back has it. */
  lemma EmotionsMembers(analyses: seq<Option<Analysis>>)
    ensures NoDup(Dedup(Flatten(EmotionLists(Present(analyses)))))
    ensures forall x :: x in Dedup(Flatten(EmotionLists(Present(analyses)))) <==>
      exists a :: Some(a) in analyses && x in a.emotions.GetOr([])
  {
    var present := Present(analyses);
    DedupSpec(Flatten(EmotionLists(present)));
    forall x
      ensures x in Flatten(EmotionLists(present)) <==> exists a :: Some(a) in analyses && x in a.emotions.GetOr([])
    {
      if x in Flatten(EmotionLists(present)) {
        var i :| 0 <= i < |present| && x in EmotionLists(present)[i];
        assert present[i] in present;
      }
      if exists a :: Some(a) in analyses && x in a.emotions.GetOr([]) {
        var a :| Some(a) in analyses && x in a.emotions.GetOr([]);
        var i :| 0 <= i < |present| && present[i] == a;
        assert x in EmotionLists(present)[i];
      }
    }
  }

  /** The summary (the average sentiment, a floating quotient, is not part of
      the model). */
  datatype SentimentSummary = SentimentSummary(
    totalCalls: nat,
    sentimentDistribution: Props,
    keyPoints: seq<string>,
    emotions: seq<string>)

  /** The user's calls in the range that have a transcript. */
  function WithTranscript(calls: seq<Call>): (r: seq<Call>)
    ensures |r| <= |calls|
    ensures forall c :: c in r <==> c in calls && c.transcript.Some?
  {
    if calls == [] then []
    else
      var rest := WithTranscript(calls[..|calls| - 1]);
      var c := calls[|calls| - 1];
      assert calls == calls[..|calls| - 1] + [c];
      if c.transcript.Some? then rest + [c] else rest
  }

  /** `getSentimentAnalysis`, given one analysis (or null) per call with a
      transcript: the distribution counts only the analyses that came back,
      so it adds up to at most the number of calls; key points and emotions
      are the distinct entries of those analyses, each once. */
  method GetSentimentAnalysis(table: seq<Call>, userId: string, start: int, end: int,
                              analyses: seq<Option<Analysis>>) returns (r: SentimentSummary)
    requires |analyses| == |WithTranscript(CallsInRange(table, userId, start, end))|
    ensures r.totalCalls == |WithTranscript(CallsInRange(table, userId, start, end))|
    ensures r.sentimentDistribution == CountedObject(SentimentKeys(Present(analyses)))
    ensures var keys := SentimentKeys(Present(analyses));
      forall k, v :: (k, v) in r.sentimentDistribution <==>
        k in keys && k != "__proto__" && v == Counted(k, Count(keys, k))
    ensures NoDup(Keys(r.sentimentDistribution))
    ensures NumberSum(r.sentimentDistribution) + InheritedCount(SentimentKeys(Present(analyses)))
      == |Present(analyses)| <= r.totalCalls
    ensures var keys := SentimentKeys(Present(analyses));
      (forall x :: x in keys ==> x !in InheritedNames && !IsArrayIndex(x)) ==>
        r.sentimentDistribution == Numbers(Tally(keys)) && SumSecond(Tally(keys)) == |Present(analyses)|
    ensures r.keyPoints == Dedup(Flatten(KeyPointLists(Present(analyses))))
    ensures r.emotions == Dedup(Flatten(EmotionLists(Present(analyses))))
    ensures NoDup(r.keyPoints) && NoDup(r.emotions)
    ensures forall x :: x in r.keyPoints <==> exists a :: Some(a) in analyses && x in a.keyPoints.GetOr([])
    ensures forall x :: x in r.emotions <==> exists a :: Some(a) in analyses && x in a.emotions.GetOr([])
  {
    var present := Present(analyses);
    var keys := SentimentKeys(present);
    var own := CountByKey(keys);
    var distribution := Enumerated(own);
    CountedObjectSpec(keys);
    PlainCount(keys);
    KeyPointsMembers(analyses);
    EmotionsMembers(analyses);
    r := SentimentSummary(|analyses|, distribution, Dedup(Flatten(KeyPointLists(present))),
      Dedup(Flatten(EmotionLists(present))));
  }

  // ---------------------------------------------------------------------------
  // getCallTrends
  // ---------------------------------------------------------------------------

  datatype Interval = Hour | Day | Week | Month

  /** The grouping key of a call: the first 13, 10 or 7 characters of its ISO
      timestamp for hours, days and months; for weeks, the day of the start
      of its week (whose ISO text is an input). */
  function GroupKey(interval: Interval, iso: string, weekStartIso: string): string
  {
    match interval
    case Hour => Prefix(iso, 13)
    case Day => Prefix(iso, 10)
    case Week => Prefix(weekStartIso, 10)
    case Month => Prefix(iso, 7)
  }

  /** The keys nest: calls in the same hour are in the same day, and calls in
      the same day are in the same month. */
  lemma GroupKeyNesting(i1: string, w1: string, i2: string, w2: string)
    ensures GroupKey(Hour, i1, w1) == GroupKey(Hour, i2, w2) ==> GroupKey(Day, i1, w1) == GroupKey(Day, i2, w2)
    ensures GroupKey(Day, i1, w1) == GroupKey(Day, i2, w2) ==> GroupKey(Month, i1, w1) == GroupKey(Month, i2, w2)
  {
    if GroupKey(Hour, i1, w1) == GroupKey(Hour, i2, w2) {
      PrefixOfPrefix(i1, 10, 13);
      PrefixOfPrefix(i2, 10, 13);
    }
    if GroupKey(Day, i1, w1) == GroupKey(Day, i2, w2) {
      PrefixOfPrefix(i1, 7, 10);
      PrefixOfPrefix(i2, 7, 10);
    }
  }

  lemma PrefixOfPrefix(s: string, m: nat, n: nat)
    requires m <= n
    ensures Prefix(s, m) == Prefix(Prefix(s, n), m)
  {
  }

  /** The grouping keys of some calls, from their creation times. */
  function CallKeys(calls: seq<Call>, interval: Interval, isoOf: int -> string, weekStartIsoOf: int -> string): (r: seq<string>)
    ensures |r| == |calls|
    ensures forall i :: 0 <= i < |calls| ==>
      r[i] == GroupKey(interval, isoOf(calls[i].createdAt), weekStartIsoOf(calls[i].createdAt))
  {
    seq(|calls|, i requires 0 <= i < |calls| =>
      GroupKey(interval, isoOf(calls[i].createdAt), weekStartIsoOf(calls[i].createdAt)))
  }

  /** The figures of one group (the average, a floating quotient, is not
      part of the model). */
  datatype Bucket = Bucket(totalCalls: nat, completedCalls: nat, totalDuration: int)

  /** The figures of a set of calls. */
  function BucketOf(calls: seq<Call>): (b: Bucket)
    ensures b.completedCalls <= b.totalCalls == |calls|
  {
    Bucket(|calls|, Count(Statuses(calls), "completed"), TotalDuration(calls))
  }

  /** One more call counted into a bucket. */
  function Record(b: Bucket, c: Call): Bucket
  {
    Bucket(b.totalCalls + 1, b.completedCalls + (if c.status == "completed" then 1 else 0), b.totalDuration + DurationOf(c))
  }

  lemma BucketOfSnoc(calls: seq<Call>, c: Call)
    ensures BucketOf(calls + [c]) == Record(BucketOf(calls), c)
  {
    assert Statuses(calls + [c]) == Statuses(calls) + [c.status];
    CountSnoc(Statuses(calls), c.status, "completed");
    assert (calls + [c])[..|calls|] == calls;
  }

  /** The calls whose key is k. */
  function WithKey(calls: seq<Call>, keys: seq<string>, k: string): (r: seq<Call>)
    requires |keys| == |calls|
    ensures |r| == Count(keys, k)
  {
    if calls == [] then []
    else
      var rest := WithKey(calls[..|calls| - 1], keys[..|keys| - 1], k);
      if keys[|keys| - 1] == k then rest + [calls[|calls| - 1]] else rest
  }

  /** One (key, bucket) pair per given key. */
  function GroupsOf(calls: seq<Call>, keys: seq<string>, ks: seq<string>): (r: seq<(string, Bucket)>)
    requires |keys| == |calls|
    ensures |r| == |ks|
    ensures forall i :: 0 <= i < |r| ==> r[i] == (ks[i], BucketOf(WithKey(calls, keys, ks[i])))
  {
    if ks == [] then [] else [(ks[0], BucketOf(WithKey(calls, keys, ks[0])))] + GroupsOf(calls, keys, ks[1..])
  }

  /** The grouped trends: one bucket per distinct key, in first-seen order. */
  function Grouped(calls: seq<Call>, keys: seq<string>): seq<(string, Bucket)>
    requires |keys| == |calls|
  {
    GroupsOf(calls, keys, Dedup(keys))
  }

  /** The sum of the buckets' call counts. */
  function SumTotals(groups: seq<(string, Bucket)>): nat
  {
    if groups == [] then 0 else groups[0].1.totalCalls + SumTotals(groups[1..])
  }

  lemma {:induction false} SumTotalsGroups(calls: seq<Call>, keys: seq<string>, ks: seq<string>)
    requires |keys| == |calls|
    ensures SumTotals(GroupsOf(calls, keys, ks)) == SumCounts(ks, keys)
  {
    if ks != [] {
      assert GroupsOf(calls, keys, ks)[1..] == GroupsOf(calls, keys, ks[1..]);
      SumTotalsGroups(calls, keys, ks[1..]);
    }
  }

  /** The grouping lists every key that occurs exactly once, in first-seen
      order; each bucket holds the figures of the calls with its key, so no
      bucket counts more completed calls than calls; and the call counts add
      up to the number of calls. */
  lemma GroupedSpec(calls: seq<Call>, keys: seq<string>)
    requires |keys| == |calls|
    ensures Keys(Grouped(calls, keys)) == Dedup(keys)
    ensures NoDup(Keys(Grouped(calls, keys)))
    ensures forall k :: k in Keys(Grouped(calls, keys)) <==> k in keys
    ensures forall i :: 0 <= i < |Grouped(calls, keys)| ==>
      var g := Grouped(calls, keys)[i];
      g.1 == BucketOf(WithKey(calls, keys, g.0)) && g.1.completedCalls <= g.1.totalCalls
    ensures SumTotals(Grouped(calls, keys)) == |calls|
  {
    DedupSpec(keys);
    assert Keys(Grouped(calls, keys)) == Dedup(keys);
    SumTotalsGroups(calls, keys, Dedup(keys));
    DistinctCountsTotal(keys);
  }

  /** The accumulator step of the grouping `reduce` for a call with key k. */
  function Step(acc: seq<(string, Bucket)>, k: string, c: Call): seq<(string, Bucket)>
  {
    if k in Keys(acc) then
      var j := FirstIndex(Keys(acc), k);
      acc[j := (k, Record(acc[j].1, c))]
    else acc + [(k, Record(Bucket(0, 0, 0), c))]
  }

  lemma WithKeySnoc(calls: seq<Call>, keys: seq<string>, c: Call, k: string, k': string)
    requires |keys| == |calls|
    ensures WithKey(calls + [c], keys + [k], k') == WithKey(calls, keys, k') + (if k == k' then [c] else [])
  {
    assert (calls + [c])[..|calls|] == calls;
    assert (keys + [k])[..|keys|] == keys;
  }

  lemma {:induction false} WithKeyAbsent(calls: seq<Call>, keys: seq<string>, k: string)
    requires |keys| == |calls| && k !in keys
    ensures WithKey(calls, keys, k) == []
  {
    CountAbsent(keys, k);
  }

  /** Grouping grows one call at a time: grouping one more call is one
      accumulator step. */
  lemma GroupedSnoc(calls: seq<Call>, keys: seq<string>, c: Call, k: string)
    requires |keys| == |calls|
    ensures Grouped(calls + [c], keys + [k]) == Step(Grouped(calls, keys), k, c)
  {
    var ks := keys + [k];
    assert ks[..|ks| - 1] == keys;
    var d := Dedup(keys);
    DedupSpec(keys);
    assert Keys(Grouped(calls, keys)) == d;
    if k in d {
      GroupedSnocSeen(calls, keys, c, k);
    } else {
      GroupedSnocNew(calls, keys, c, k);
    }
  }

  lemma GroupedSnocSeen(calls: seq<Call>, keys: seq<string>, c: Call, k: string)
    requires |keys| == |calls|
    requires k in Dedup(keys) && NoDup(Dedup(keys))
    requires Dedup(keys + [k]) == Dedup(keys)
    ensures var g := Grouped(calls, keys);
      var j := FirstIndex(Dedup(keys), k);
      Grouped(calls + [c], keys + [k]) == g[j := (k, Record(g[j].1, c))]
  {
    var d := Dedup(keys);
    var j := FirstIndex(d, k);
    var g := Grouped(calls, keys);
    forall i | 0 <= i < |d|
      ensures Grouped(calls + [c], keys + [k])[i] == g[j := (k, Record(g[j].1, c))][i]
    {
      WithKeySnoc(calls, keys, c, k, d[i]);
      if i != j {
        assert d[i] != d[j];
      } else {
        BucketOfSnoc(WithKey(calls, keys, k), c);
      }
    }
  }

  lemma GroupedSnocNew(calls: seq<Call>, keys: seq<string>, c: Call, k: string)
    requires |keys| == |calls|
    requires k !in keys && k !in Dedup(keys)
    requires Dedup(keys + [k]) == Dedup(keys) + [k]
    ensures Grouped(calls + [c], keys + [k]) == Grouped(calls, keys) + [(k, Record(Bucket(0, 0, 0), c))]
  {
    var d := Dedup(keys);
    forall i | 0 <= i < |d| + 1
      ensures Grouped(calls + [c], keys + [k])[i] == (Grouped(calls, keys) + [(k, Record(Bucket(0, 0, 0), c))])[i]
    {
      if i < |d| {
        WithKeySnoc(calls, keys, c, k, d[i]);
      } else {
        WithKeySnoc(calls, keys, c, k, k);
        WithKeyAbsent(calls, keys, k);
        assert WithKey(calls + [c], keys + [k], k) == [c];
        BucketOfSnoc([], c);
      }
    }
  }

  lemma GroupedPrefix(calls: seq<Call>, keys: seq<string>, i: nat)
    requires |keys| == |calls| && i < |calls|
    ensures Grouped(calls[..i + 1], keys[..i + 1]) == Step(Grouped(calls[..i], keys[..i]), keys[i], calls[i])
  {
    assert calls[..i + 1] == calls[..i] + [calls[i]];
    assert keys[..i + 1] == keys[..i] + [keys[i]];
    GroupedSnoc(calls[..i], keys[..i], calls[i], keys[i]);
  }

  /** The grouping `reduce`: each call is counted into its key's bucket,
      which is opened when the key is new. */
  method GroupByKey(calls: seq<Call>, keys: seq<string>) returns (acc: seq<(string, Bucket)>)
    requires |keys| == |calls|
    ensures acc == Grouped(calls, keys)
  {
    acc := [];
    var i := 0;
    while i < |calls|
      invariant 0 <= i <= |calls|
      invariant acc == Grouped(calls[..i], keys[..i])
    {
      GroupedPrefix(calls, keys, i);
      acc := Step(acc, keys[i], calls[i]);
      i := i + 1;
    }
    assert calls[..i] == calls && keys[..i] == keys;
  }

  /** `getCallTrends` over the user's calls in the closed range, fetched in
      ascending creation order: one bucket per key that occurs, each key once
      and in the order it first occurs among the ordered calls, bucket call
      counts adding up to the number of calls. */
  method GetCallTrends(table: seq<Call>, userId: string, start: int, end: int, interval: Interval,
                       isoOf: int -> string, weekStartIsoOf: int -> string) returns (trends: seq<(string, Bucket)>)
    ensures var calls := ByCreation(CallsInRange(table, userId, start, end));
      var keys := CallKeys(calls, interval, isoOf, weekStartIsoOf);
      && SortedByCreation(calls)
      && multiset(calls) == multiset(CallsInRange(table, userId, start, end))
      && trends == Grouped(calls, keys)
      && Keys(trends) == Dedup(keys)
      && NoDup(Keys(trends))
      && (forall k :: k in Keys(trends) <==> k in keys)
      && SumTotals(trends) == |calls|
  {
    var calls := ByCreation(CallsInRange(table, userId, start, end));
    ByCreationSpec(CallsInRange(table, userId, start, end));
    var keys := CallKeys(calls, interval, isoOf, weekStartIsoOf);
    trends := GroupByKey(calls, keys);
    GroupedSpec(calls, keys);
  }
}
