/**
 * The records shared by the call services: the `Call` table row, the call
 * table itself, and a Bull-style job queue (jobs keyed by the decimal text of
 * an incrementing counter, each waiting or delayed until its worker runs).
 */
module Calls {
  import opened Wrappers
  import opened Text

  /** A row of the `call` table. `createdAt` is in milliseconds. */
  datatype Call = Call(
    id: nat,
    userId: string,
    phoneNumber: string,
    status: string,
    templateId: Option<nat>,
    contactId: Option<string>,
    duration: Option<int>,
    sentiment: Option<string>,
    transcript: Option<string>,
    createdAt: int)

  /** The `call` table; row ids are their positions. */
  class CallTable {
    var calls: seq<Call>

    ghost predicate Valid()
      reads this
    {
      forall i :: 0 <= i < |calls| ==> calls[i].id == i
    }

    constructor()
      ensures Valid() && calls == []
    {
      calls := [];
    }

    /** `prisma.call.create`: a new row with no duration, sentiment or
        transcript yet, stamped with the current time. */
    method Create(userId: string, phoneNumber: string, status: string,
                  templateId: Option<nat>, contactId: Option<string>, now: int)
      returns (c: Call)
      requires Valid()
      modifies this
      ensures Valid()
      ensures c == Call(|old(calls)|, userId, phoneNumber, status, templateId, contactId, None, None, None, now)
      ensures calls == old(calls) + [c]
    {
      c := Call(|calls|, userId, phoneNumber, status, templateId, contactId, None, None, None, now);
      calls := calls + [c];
    }

    /** `prisma.call.update` of the status and, when given, the duration. */
    method Update(id: nat, status: string, duration: Option<int>)
      requires Valid() && id < |calls|
      modifies this
      ensures Valid()
      ensures calls == old(calls)[id := old(calls)[id].(status := status,
        duration := if duration.Some? then duration else old(calls)[id].duration)]
    {
      var c := calls[id];
      calls := calls[id := c.(status := status, duration := if duration.Some? then duration else c.duration)];
    }
  }

  /** Bull's job states. A worker runs to completion in one step here, so no
      job is ever seen `active`. */
  datatype JobState = Waiting | Delayed | Completed | Failed
  {
    /** The text `job.getState()` resolves to. */
    function Name(): string
    {
      match this
      case Waiting => "waiting"
      case Delayed => "delayed"
      case Completed => "completed"
      case Failed => "failed"
    }

  }

  /** A queued job: its payload, the delay it was added with, and what its
      worker produced. */
  datatype Job<D, R> = Job(
    id: string,
    data: D,
    delay: int,
    state: JobState,
    progress: int,
    returnValue: Option<R>,
    failedReason: Option<string>)

  /** A freshly added job waits exactly when its delay is zero; any other
      delay, a negative one included, puts it in the delayed set until it is
      promoted. */
  function NewJob<D, R>(id: string, data: D, delay: int): (j: Job<D, R>)
    ensures j.state == Waiting <==> delay == 0
    ensures j.state == Delayed <==> delay != 0
    ensures j.id == id && j.data == data && j.delay == delay
    ensures j.progress == 0 && j.returnValue.None? && j.failedReason.None?
  {
    Job(id, data, delay, if delay != 0 then Delayed else Waiting, 0, None, None)
  }

  /** A Bull queue: jobs keyed by their id, ids drawn from a counter. */
  class Queue<D, R> {
    var jobs: map<string, Job<D, R>>
    var lastId: nat

    ghost predicate Valid()
      reads this
    {
      && jobs.Keys <= IssuedIds(lastId)
      && forall k :: k in jobs ==> jobs[k].id == k
    }

    constructor()
      ensures Valid() && jobs == map[] && lastId == 0
    {
      jobs := map[];
      lastId := 0;
    }

    /** `queue.add(data, { delay })`: a new job under the next counter value,
        which no job in the queue has. */
    method Add(data: D, delay: int) returns (job: Job<D, R>)
      requires Valid()
      modifies this
      ensures Valid()
      ensures lastId == old(lastId) + 1
      ensures job == NewJob(NatToString(lastId), data, delay)
      ensures job.id !in old(jobs)
      ensures jobs == old(jobs)[job.id := job]
    {
      IssuedIdsFresh(lastId, lastId + 1);
      lastId := lastId + 1;
      var id := NatToString(lastId);
      job := NewJob(id, data, delay);
      jobs := jobs[id := job];
    }

    /** The queue moves a delayed job whose time has come to the waiting
        list, where a worker picks it up; nothing else changes. */
    method Promote(id: string)
      requires Valid() && id in jobs && jobs[id].state == Delayed
      modifies this
      ensures Valid()
      ensures jobs == old(jobs)[id := old(jobs)[id].(state := Waiting)]
      ensures lastId == old(lastId)
    {
      jobs := jobs[id := jobs[id].(state := Waiting)];
    }

    /** `job.remove()` */
    method Remove(id: string)
      requires Valid() && id in jobs
      modifies this
      ensures Valid()
      ensures jobs == old(jobs) - {id} && lastId == old(lastId)
    {
      jobs := jobs - {id};
    }

    /** The worker returned a value: the job is completed with it. */
    method Complete(id: string, value: R)
      requires Valid() && id in jobs
      modifies this
      ensures Valid()
      ensures jobs == old(jobs)[id := old(jobs)[id].(state := Completed, returnValue := Some(value))]
      ensures lastId == old(lastId)
    {
      jobs := jobs[id := jobs[id].(state := Completed, returnValue := Some(value))];
    }

    /** The worker threw: the job is failed with the error's message. */
    method Fail(id: string, reason: string)
      requires Valid() && id in jobs
      modifies this
      ensures Valid()
      ensures jobs == old(jobs)[id := old(jobs)[id].(state := Failed, failedReason := Some(reason))]
      ensures lastId == old(lastId)
    {
      jobs := jobs[id := jobs[id].(state := Failed, failedReason := Some(reason))];
    }
  }

  /** The ids a queue hands out while its counter climbs to n. */
  function IssuedIds(n: nat): set<string>
  {
    if n == 0 then {} else IssuedIds(n - 1) + {NatToString(n)}
  }

  /** The job ids the queue hands out are pairwise distinct. */
  lemma JobIdsDistinct(m: nat, n: nat)
    ensures NatToString(m) == NatToString(n) ==> m == n
  {
    ParseNatToString(m);
    ParseNatToString(n);
  }

  /** Every id issued up to n reads as a number from 1 to n. */
  lemma {:induction false} IssuedIdsRange(n: nat, k: string)
    requires k in IssuedIds(n)
    ensures AllDigits(k) && 1 <= ParseNat(k) <= n
  {
    if k == NatToString(n) {
      ParseNatToString(n);
    } else {
      IssuedIdsRange(n - 1, k);
    }
  }

  /** An id issued after the counter stood at n is not among those issued
      before. */
  lemma IssuedIdsFresh(n: nat, m: nat)
    requires n < m
    ensures NatToString(m) !in IssuedIds(n)
  {
    if NatToString(m) in IssuedIds(n) {
      IssuedIdsRange(n, NatToString(m));
      ParseNatToString(m);
    }
  }

  /** Later counter values issue more ids. */
  lemma {:induction false} IssuedIdsGrow(n: nat, m: nat)
    requires n <= m
    ensures IssuedIds(n) <= IssuedIds(m)
    decreases m
  {
    if n < m {
      IssuedIdsGrow(n, m - 1);
    }
  }

  /** The id a queue hands out as its counter moves from first + i to
      first + i + 1. */
  function BatchId(first: nat, i: nat): string
  {
    NatToString(first + i + 1)
  }

  /** The jobs of a queue after the first n of vals were added to `start`,
      one per counter step from `first`. */
  function AddedJobs<V>(start: map<string, V>, first: nat, vals: seq<V>, n: nat): map<string, V>
    requires n <= |vals|
  {
    if n == 0 then start
    else AddedJobs(start, first, vals, n - 1)[BatchId(first, n - 1) := vals[n - 1]]
  }

  /** When every queued id was issued by the time the counter stood at
      `first`, adding n jobs adds n entries, all under ids issued by
      first + n. */
  lemma {:induction false} AddedJobsSize<V>(start: map<string, V>, first: nat, vals: seq<V>, n: nat)
    requires n <= |vals|
    requires start.Keys <= IssuedIds(first)
    ensures |AddedJobs(start, first, vals, n)| == |start| + n
    ensures AddedJobs(start, first, vals, n).Keys <= IssuedIds(first + n)
  {
    if n > 0 {
      var m: nat := first + (n - 1);
      AddedJobsSize(start, first, vals, n - 1);
      var id := BatchId(first, n - 1);
      assert id == NatToString(m + 1);
      IssuedIdsFresh(m, m + 1);
      assert IssuedIds(first + n) == IssuedIds(m) + {id};
      AddFresh(AddedJobs(start, first, vals, n - 1), IssuedIds(m), id, vals[n - 1]);
    }
  }

  /** Adding a key outside a map's key set grows the map by one. */
  lemma AddFresh<K, V>(m: map<K, V>, keys: set<K>, k: K, v: V)
    requires m.Keys <= keys && k !in keys
    ensures |m[k := v]| == |m| + 1 && m[k := v].Keys <= keys + {k}
  {
    assert m[k := v].Keys == m.Keys + {k};
  }

  /** The ids of added jobs are fresh, so every job already queued stays. */
  lemma {:induction false} AddedJobsKeep<V>(start: map<string, V>, first: nat, vals: seq<V>, n: nat, k: string)
    requires n <= |vals|
    requires start.Keys <= IssuedIds(first)
    requires k in start
    ensures forall i :: 0 <= i < n ==> BatchId(first, i) != k
    ensures k in AddedJobs(start, first, vals, n) && AddedJobs(start, first, vals, n)[k] == start[k]
  {
    forall i | 0 <= i < n
      ensures BatchId(first, i) != k
    {
      IssuedIdsFresh(first, first + i + 1);
    }
    if n > 0 {
      AddedJobsKeep(start, first, vals, n - 1, k);
    }
  }

  /** The i-th added job sits under the i-th id. */
  lemma {:induction false} AddedJobsEntry<V>(start: map<string, V>, first: nat, vals: seq<V>, n: nat, i: nat)
    requires i < n <= |vals|
    ensures BatchId(first, i) in AddedJobs(start, first, vals, n)
    ensures AddedJobs(start, first, vals, n)[BatchId(first, i)] == vals[i]
  {
    if i < n - 1 {
      AddedJobsEntry(start, first, vals, n - 1, i);
      JobIdsDistinct(first + i + 1, first + n);
    }
  }

  /** The calls of a user created at or after a time. */
  function CreatedSince(calls: seq<Call>, userId: string, since: int): (r: seq<Call>)
    ensures forall c :: c in r <==> c in calls && c.userId == userId && c.createdAt >= since
    ensures |r| <= |calls|
  {
    if calls == [] then []
    else
      var rest := CreatedSince(calls[..|calls| - 1], userId, since);
      var c := calls[|calls| - 1];
      assert calls == calls[..|calls| - 1] + [c];
      if c.userId == userId && c.createdAt >= since then rest + [c] else rest
  }

  /** The calls of a user created in the closed range [start, end] (the
      `findMany` of the analytics routes and service). */
  function CallsInRange(table: seq<Call>, userId: string, start: int, end: int): (r: seq<Call>)
    ensures forall c :: c in r <==> c in table && c.userId == userId && start <= c.createdAt <= end
    ensures |r| <= |table|
  {
    if table == [] then []
    else
      var rest := CallsInRange(table[..|table| - 1], userId, start, end);
      var c := table[|table| - 1];
      assert table == table[..|table| - 1] + [c];
      if c.userId == userId && start <= c.createdAt <= end then rest + [c] else rest
  }

  /** The calls are in ascending `createdAt` order. */
  predicate SortedByCreation(s: seq<Call>)
  {
    forall i, j :: 0 <= i < j < |s| ==> s[i].createdAt <= s[j].createdAt
  }

  /** Inserts a call before the first one created no earlier. */
  function InsertByCreation(c: Call, s: seq<Call>): (r: seq<Call>)
    ensures |r| == |s| + 1
    ensures r[0] == c || (s != [] && r[0] == s[0])
  {
    if s == [] || c.createdAt <= s[0].createdAt then [c] + s
    else [s[0]] + InsertByCreation(c, s[1..])
  }

  lemma {:induction false} InsertByCreationSorted(c: Call, s: seq<Call>)
    requires SortedByCreation(s)
    ensures SortedByCreation(InsertByCreation(c, s))
  {
    if s != [] && c.createdAt > s[0].createdAt {
      var t := s[1..];
      InsertByCreationSorted(c, t);
      var r := InsertByCreation(c, t);
      assert s[0].createdAt <= r[0].createdAt;
      var q := InsertByCreation(c, s);
      assert q == [s[0]] + r;
      forall i, j | 0 <= i < j < |q|
        ensures q[i].createdAt <= q[j].createdAt
      {
        if i > 0 {
          assert q[i] == r[i - 1] && q[j] == r[j - 1];
        } else {
          assert q[j] == r[j - 1];
        }
      }
    }
  }

  lemma {:induction false} InsertByCreationRows(c: Call, s: seq<Call>)
    ensures multiset(InsertByCreation(c, s)) == multiset(s) + multiset{c}
  {
    if s != [] && c.createdAt > s[0].createdAt {
      InsertByCreationRows(c, s[1..]);
      assert s == [s[0]] + s[1..];
    }
  }

  /** `orderBy: { createdAt: 'asc' }`, as an insertion sort; calls created at
      the same time keep their table order. */
  function ByCreation(s: seq<Call>): seq<Call>
  {
    if s == [] then [] else InsertByCreation(s[0], ByCreation(s[1..]))
  }

  /** The ordering sorts by creation time and keeps exactly the calls it was
      given. */
  lemma {:induction false} ByCreationSpec(s: seq<Call>)
    ensures SortedByCreation(ByCreation(s))
    ensures multiset(ByCreation(s)) == multiset(s)
  {
    if s != [] {
      ByCreationSpec(s[1..]);
      InsertByCreationSorted(s[0], ByCreation(s[1..]));
      InsertByCreationRows(s[0], ByCreation(s[1..]));
      assert s == [s[0]] + s[1..];
    }
  }

  /** A call's duration; a missing one counts as 0. */
  function DurationOf(c: Call): int
  {
    c.duration.GetOr(0)
  }

  /** The sum of the calls' durations. */
  function TotalDuration(calls: seq<Call>): int
  {
    if calls == [] then 0 else TotalDuration(calls[..|calls| - 1]) + DurationOf(calls[|calls| - 1])
  }

  /** The duration total of two runs of calls is the sum of their totals. */
  lemma {:induction false} TotalDurationAppend(a: seq<Call>, b: seq<Call>)
    ensures TotalDuration(a + b) == TotalDuration(a) + TotalDuration(b)
  {
    if b != [] {
      assert (a + b)[..|a + b| - 1] == a + b[..|b| - 1];
      TotalDurationAppend(a, b[..|b| - 1]);
    } else {
      assert a + b == a;
    }
  }

  /** The statuses of some calls, in order. */
  function Statuses(calls: seq<Call>): (r: seq<string>)
    ensures |r| == |calls| && forall i :: 0 <= i < |calls| ==> r[i] == calls[i].status
  {
    seq(|calls|, i requires 0 <= i < |calls| => calls[i].status)
  }
}
