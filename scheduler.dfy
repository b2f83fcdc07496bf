/**
 * `CallScheduler`: scheduled-call records, one delayed job per record, the
 * worker that turns a due record into a call, cancellation by the owner, and
 * the per-user listing in time order behind a cache.
 */
module Scheduler {
  import opened Wrappers
  import opened Text
  import opened Errors
  import opened Calls

  /** A row of the `scheduledCall` table. `scheduledAt` is in milliseconds. */
  datatype ScheduledCall = ScheduledCall(
    id: nat,
    userId: string,
    phoneNumber: string,
    scheduledAt: int,
    templateId: Option<nat>,
    contactId: Option<string>,
    status: string)

  const CallNotFound: string := "Scheduled call not found"
  const NotFoundOrUnauthorized: string := "Scheduled call not found or unauthorized"

  /** The cache key of a user's listing. */
  function CacheKey(userId: string): string
  {
    "scheduled-calls:" + userId
  }

  /** Different users have different cache keys. */
  lemma CacheKeyInjective(u: string, v: string)
    ensures CacheKey(u) == CacheKey(v) ==> u == v
  {
    if CacheKey(u) == CacheKey(v) {
      assert u == CacheKey(u)[16..];
      assert v == CacheKey(v)[16..];
    }
  }

  // ---------------------------------------------------------------------------
  // The listing: a user's rows in ascending `scheduledAt` order
  // ---------------------------------------------------------------------------

  predicate SortedByTime(s: seq<ScheduledCall>)
  {
    forall i, j :: 0 <= i < j < |s| ==> s[i].scheduledAt <= s[j].scheduledAt
  }

  /** Places x before the first row scheduled no earlier than x. */
  function InsertByTime(x: ScheduledCall, s: seq<ScheduledCall>): (r: seq<ScheduledCall>)
    ensures |r| == |s| + 1
    ensures r[0] == x || (s != [] && r[0] == s[0])
  {
    if s == [] || x.scheduledAt <= s[0].scheduledAt then [x] + s
    else [s[0]] + InsertByTime(x, s[1..])
  }

  /** Inserting into a sorted listing keeps it sorted. */
  lemma {:induction false} InsertByTimeSorted(x: ScheduledCall, s: seq<ScheduledCall>)
    requires SortedByTime(s)
    ensures SortedByTime(InsertByTime(x, s))
  {
    if s != [] && x.scheduledAt > s[0].scheduledAt {
      var t := s[1..];
      InsertByTimeSorted(x, t);
      var r := InsertByTime(x, t);
      assert s[0].scheduledAt <= r[0].scheduledAt;
      var q := InsertByTime(x, s);
      assert q == [s[0]] + r;
      forall i, j | 0 <= i < j < |q|
        ensures q[i].scheduledAt <= q[j].scheduledAt
      {
        if i > 0 {
          assert q[i] == r[i - 1] && q[j] == r[j - 1];
        } else {
          assert q[j] == r[j - 1];
        }
      }
    }
  }

  /** Inserting adds exactly the one row. */
  lemma {:induction false} InsertByTimeRows(x: ScheduledCall, s: seq<ScheduledCall>)
    ensures multiset(InsertByTime(x, s)) == multiset(s) + multiset{x}
  {
    if s != [] && x.scheduledAt > s[0].scheduledAt {
      InsertByTimeRows(x, s[1..]);
      assert s == [s[0]] + s[1..];
    }
  }

  /** Insertion sort by `scheduledAt`. */
  function SortByTime(s: seq<ScheduledCall>): seq<ScheduledCall>
  {
    if s == [] then [] else InsertByTime(s[0], SortByTime(s[1..]))
  }

  /** The sort orders by time and keeps exactly the rows it was given. */
  lemma {:induction false} SortByTimeSpec(s: seq<ScheduledCall>)
    ensures SortedByTime(SortByTime(s))
    ensures multiset(SortByTime(s)) == multiset(s)
  {
    if s != [] {
      SortByTimeSpec(s[1..]);
      InsertByTimeSorted(s[0], SortByTime(s[1..]));
      InsertByTimeRows(s[0], SortByTime(s[1..]));
      assert s == [s[0]] + s[1..];
    }
  }

  /** The rows of a user, in table order. */
  function OwnedBy(rows: seq<ScheduledCall>, userId: string): (r: seq<ScheduledCall>)
    ensures forall x :: x in r <==> x in rows && x.userId == userId
  {
    if rows == [] then []
    else
      var rest := OwnedBy(rows[..|rows| - 1], userId);
      var x := rows[|rows| - 1];
      assert rows == rows[..|rows| - 1] + [x];
      if x.userId == userId then rest + [x] else rest
  }

  /** `findMany({ where: { userId }, orderBy: { scheduledAt: 'asc' } })` */
  function Listing(rows: seq<ScheduledCall>, userId: string): seq<ScheduledCall>
  {
    SortByTime(OwnedBy(rows, userId))
  }

  /** The listing holds exactly the user's rows, each as often as it occurs,
      in ascending `scheduledAt` order. */
  lemma ListingSpec(rows: seq<ScheduledCall>, userId: string)
    ensures SortedByTime(Listing(rows, userId))
    ensures multiset(Listing(rows, userId)) == multiset(OwnedBy(rows, userId))
    ensures forall x :: x in Listing(rows, userId) <==> x in rows && x.userId == userId
  {
    SortByTimeSpec(OwnedBy(rows, userId));
    forall x
      ensures x in Listing(rows, userId) <==> x in OwnedBy(rows, userId)
    {
      assert x in multiset(Listing(rows, userId)) <==> x in multiset(OwnedBy(rows, userId));
    }
  }

  /** Appending a row of another user leaves a user's rows alone. */
  lemma {:induction false} OwnedByAppendOther(rows: seq<ScheduledCall>, x: ScheduledCall, userId: string)
    requires x.userId != userId
    ensures OwnedBy(rows + [x], userId) == OwnedBy(rows, userId)
  {
    assert (rows + [x])[..|rows|] == rows;
  }

  /** Changing a row of another user leaves a user's rows alone. */
  lemma {:induction false} OwnedByUpdateOther(rows: seq<ScheduledCall>, i: nat, x: ScheduledCall, userId: string)
    requires i < |rows| && rows[i].userId != userId && x.userId != userId
    ensures OwnedBy(rows[i := x], userId) == OwnedBy(rows, userId)
  {
    var n := |rows| - 1;
    if i < n {
      assert rows[i := x][..n] == rows[..n][i := x];
      OwnedByUpdateOther(rows[..n], i, x, userId);
    } else {
      assert rows[i := x][..n] == rows[..n];
    }
  }

  // ---------------------------------------------------------------------------
  // The scheduler
  // ---------------------------------------------------------------------------

  /** `findUnique({ where: { id } })`: the position of the row with the id. */
  function FindRow(rows: seq<ScheduledCall>, id: nat): (r: Option<nat>)
    ensures r.Some? ==> r.value < |rows| && rows[r.value].id == id
    ensures r.None? <==> forall i :: 0 <= i < |rows| ==> rows[i].id != id
  {
    if rows == [] then None
    else if rows[|rows| - 1].id == id then Some(|rows| - 1)
    else FindRow(rows[..|rows| - 1], id)
  }

  predicate DistinctIds(rows: seq<ScheduledCall>)
  {
    forall i, j :: 0 <= i < j < |rows| ==> rows[i].id != rows[j].id
  }

  /** Row ids are distinct and below the next id to hand out. */
  ghost predicate RowsValid(rows: seq<ScheduledCall>, nextId: nat)
  {
    && (forall i :: 0 <= i < |rows| ==> rows[i].id < nextId)
    && DistinctIds(rows)
  }

  /** With distinct ids, the lookup finds exactly the row carrying it. */
  lemma {:induction false} FindRowUnique(rows: seq<ScheduledCall>, i: nat)
    requires DistinctIds(rows) && i < |rows|
    ensures FindRow(rows, rows[i].id) == Some(i)
  {
    var n := |rows| - 1;
    if i < n {
      var init := rows[..n];
      assert init[i] == rows[i];
      FindRowUnique(init, i);
    }
  }

  /** The caller owns an existing row. */
  predicate Owns(rows: seq<ScheduledCall>, id: nat, userId: string)
  {
    var i := FindRow(rows, id);
    i.Some? && rows[i.value].userId == userId
  }

  /** A delayed job carrying the id. */
  predicate DelayedFor(job: Job<nat, Call>, id: nat)
  {
    job.state == Delayed && job.data == id
  }

  /** Every job carries an id already handed out, and no two jobs carry the
      same one. */
  ghost predicate JobsValid(jobs: map<string, Job<nat, Call>>, nextId: nat)
  {
    && (forall k :: k in jobs ==> jobs[k].data < nextId)
    && (forall k, k' :: k in jobs && k' in jobs && jobs[k].data == jobs[k'].data ==> k == k')
  }

  /** Every cached listing is the current listing of its user. */
  ghost predicate CacheCoherent(cache: map<string, seq<ScheduledCall>>, rows: seq<ScheduledCall>)
  {
    forall u :: CacheKey(u) in cache ==> cache[CacheKey(u)] == Listing(rows, u)
  }

  /** The scheduled-calls queue (payload: the scheduled call's id), the
      scheduled-call table, the call table and the listing cache. */
  class CallScheduler {
    const queue: Queue<nat, Call>
    const table: CallTable
    var scheduled: seq<ScheduledCall>
    var nextId: nat
    var cache: map<string, seq<ScheduledCall>>

    ghost predicate Valid()
      reads this, queue, table
    {
      && queue.Valid() && table.Valid()
      && RowsValid(scheduled, nextId)
      && JobsValid(queue.jobs, nextId)
      && CacheCoherent(cache, scheduled)
    }

    /** The call table is the one shared `call` table, which the bulk-call
        worker also writes; the queue is this service's own. */
    constructor(table: CallTable)
      requires table.Valid()
      ensures Valid() && fresh(queue) && this.table == table
      ensures queue.jobs == map[] && table.calls == old(table.calls) && scheduled == [] && cache == map[]
    {
      queue := new Queue();
      this.table := table;
      scheduled := [];
      nextId := 0;
      cache := map[];
    }

    /** `scheduleCall`: a new row under a fresh id, and one job carrying that
        id, delayed until `scheduledAt` (a negative delay when that lies in the
        past); the user's listing is dropped from the cache. The create sets no
        status, so the row takes the column default of the database schema,
        which is not part of this model: it is `statusDefault` here. */
    method ScheduleCall(userId: string, phoneNumber: string, scheduledAt: int,
                        templateId: Option<nat>, contactId: Option<string>, now: int,
                        statusDefault: string)
      returns (sc: ScheduledCall)
      requires Valid()
      modifies this, queue
      ensures Valid()
      ensures sc == ScheduledCall(old(nextId), userId, phoneNumber, scheduledAt, templateId, contactId, statusDefault)
      ensures FindRow(old(scheduled), sc.id).None?
      ensures scheduled == old(scheduled) + [sc] && nextId == old(nextId) + 1
      ensures queue.lastId == old(queue.lastId) + 1
      ensures NatToString(queue.lastId) !in old(queue.jobs)
      ensures queue.jobs == old(queue.jobs)[NatToString(queue.lastId) := NewJob(NatToString(queue.lastId), sc.id, scheduledAt - now)]
      ensures cache == old(cache) - {CacheKey(userId)}
    {
      sc := ScheduledCall(nextId, userId, phoneNumber, scheduledAt, templateId, contactId, statusDefault);
      ghost var oldRows := scheduled;
      ghost var oldCache := cache;
      ghost var oldJobs := queue.jobs;
      scheduled := scheduled + [sc];
      nextId := nextId + 1;
      var job := queue.Add(sc.id, scheduledAt - now);
      cache := cache - {CacheKey(userId)};
      JobsValidAdd(oldJobs, sc.id, job.id, job);
      CoherentAfterAppend(oldCache, oldRows, sc);
    }

    /** `getScheduledCalls`: the cached listing when there is one, otherwise
        the listing from the table, which is then cached. Either way it is the
        user's rows in ascending time order. */
    method GetScheduledCalls(userId: string) returns (r: seq<ScheduledCall>)
      requires Valid()
      modifies this
      ensures Valid()
      ensures r == Listing(scheduled, userId)
      ensures scheduled == old(scheduled) && nextId == old(nextId)
      ensures cache == old(cache)[CacheKey(userId) := r]
    {
      var key := CacheKey(userId);
      if key in cache {
        r := cache[key];
        assert cache == cache[key := r];
      } else {
        r := Listing(scheduled, userId);
        cache := cache[key := r];
        assert CacheCoherent(cache, scheduled) by {
          forall u | CacheKey(u) in cache
            ensures cache[CacheKey(u)] == Listing(scheduled, u)
          {
            CacheKeyInjective(u, userId);
          }
        }
      }
    }

    /** `cancelScheduledCall`: only the owner may cancel. The delayed job
        carrying the id, if there is one, is removed; the row is marked
        `cancelled` whatever its status and whether or not a job was found. */
    method CancelScheduledCall(scheduledCallId: nat, userId: string) returns (r: Result<bool>)
      requires Valid()
      modifies this, queue
      ensures Valid()
      ensures queue.lastId == old(queue.lastId) && nextId == old(nextId)
      ensures !Owns(old(scheduled), scheduledCallId, userId) ==>
        && r == Err(Other(NotFoundOrUnauthorized))
        && scheduled == old(scheduled) && cache == old(cache) && queue.jobs == old(queue.jobs)
      ensures Owns(old(scheduled), scheduledCallId, userId) ==>
        var i := FindRow(old(scheduled), scheduledCallId).value;
        && r == Ok(true)
        && scheduled == old(scheduled)[i := old(scheduled)[i].(status := "cancelled")]
        && cache == old(cache) - {CacheKey(userId)}
      ensures Owns(old(scheduled), scheduledCallId, userId) ==>
        forall k :: k in old(queue.jobs) && DelayedFor(old(queue.jobs)[k], scheduledCallId) ==>
          queue.jobs == old(queue.jobs) - {k}
      ensures (forall k :: k in old(queue.jobs) ==> !DelayedFor(old(queue.jobs)[k], scheduledCallId)) ==>
        queue.jobs == old(queue.jobs)
      ensures forall k :: (k in old(queue.jobs) && old(queue.jobs)[k].data == scheduledCallId
                            && old(queue.jobs)[k].state != Delayed) ==>
        k in queue.jobs && queue.jobs[k] == old(queue.jobs)[k]
    {
      var found := FindRow(scheduled, scheduledCallId);
      if found.None? || scheduled[found.value].userId != userId {
        return Err(Other(NotFoundOrUnauthorized));
      }
      if k :| k in queue.jobs && DelayedFor(queue.jobs[k], scheduledCallId) {
        ghost var oldJobs := queue.jobs;
        queue.Remove(k);
        JobsValidRemove(oldJobs, nextId, k);
      }
      var i := found.value;
      ghost var oldRows := scheduled;
      ghost var oldCache := cache;
      scheduled := scheduled[i := scheduled[i].(status := "cancelled")];
      cache := cache - {CacheKey(userId)};
      CoherentAfterUpdate(oldCache, oldRows, i, scheduled[i]);
      r := Ok(true);
    }

    /** The queue promotes a delayed job once its time has come: only the
        job's state changes, to waiting. A cancel after this finds no delayed
        job for the row, so the job stays and its worker still runs. */
    method PromoteDue(jobId: string)
      requires Valid() && jobId in queue.jobs && queue.jobs[jobId].state == Delayed
      modifies queue
      ensures Valid()
      ensures queue.jobs == old(queue.jobs)[jobId := old(queue.jobs)[jobId].(state := Waiting)]
      ensures queue.lastId == old(queue.lastId)
    {
      ghost var oldJobs := queue.jobs;
      queue.Promote(jobId);
      JobsValidSet(oldJobs, nextId, jobId, queue.jobs[jobId]);
    }

    /** The worker: a job whose row is gone fails with "Scheduled call not
        found" and creates nothing; otherwise one `pending` call is created
        from the row, the row becomes `completed` (a cancelled row too) and
        its owner's listing is dropped from the cache. */
    method ProcessJob(jobId: string, now: int) returns (r: Result<Call>)
      requires Valid()
      requires jobId in queue.jobs && queue.jobs[jobId].state == Waiting
      modifies this, queue, table
      ensures Valid()
      ensures queue.lastId == old(queue.lastId) && nextId == old(nextId)
      ensures FindRow(old(scheduled), old(queue.jobs)[jobId].data).None? ==>
        && r == Err(Other(CallNotFound))
        && table.calls == old(table.calls) && scheduled == old(scheduled) && cache == old(cache)
        && queue.jobs == old(queue.jobs)[jobId := old(queue.jobs)[jobId].(state := Failed, failedReason := Some(CallNotFound))]
      ensures FindRow(old(scheduled), old(queue.jobs)[jobId].data).Some? ==>
        var i := FindRow(old(scheduled), old(queue.jobs)[jobId].data).value;
        var sc := old(scheduled)[i];
        var call := Call(|old(table.calls)|, sc.userId, sc.phoneNumber, "pending", sc.templateId,
                         sc.contactId, None, None, None, now);
        && r == Ok(call)
        && table.calls == old(table.calls) + [call]
        && scheduled == old(scheduled)[i := sc.(status := "completed")]
        && cache == old(cache) - {CacheKey(sc.userId)}
        && queue.jobs == old(queue.jobs)[jobId := old(queue.jobs)[jobId].(state := Completed, returnValue := Some(call))]
    {
      var id := queue.jobs[jobId].data;
      ghost var oldJobs := queue.jobs;
      var found := FindRow(scheduled, id);
      if found.None? {
        queue.Fail(jobId, CallNotFound);
        JobsValidSet(oldJobs, nextId, jobId, queue.jobs[jobId]);
        return Err(Other(CallNotFound));
      }
      var i := found.value;
      var sc := scheduled[i];
      var call := table.Create(sc.userId, sc.phoneNumber, "pending", sc.templateId, sc.contactId, now);
      ghost var oldRows := scheduled;
      ghost var oldCache := cache;
      scheduled := scheduled[i := sc.(status := "completed")];
      cache := cache - {CacheKey(sc.userId)};
      CoherentAfterUpdate(oldCache, oldRows, i, scheduled[i]);
      queue.Complete(jobId, call);
      JobsValidSet(oldJobs, nextId, jobId, queue.jobs[jobId]);
      r := Ok(call);
    }
  }

  /** At most one job ever carries a given id, so "the first delayed job with
      this id" is the only one. */
  lemma OneJobPerRow(jobs: map<string, Job<nat, Call>>, nextId: nat, k: string, k': string, id: nat)
    requires JobsValid(jobs, nextId)
    requires k in jobs && k' in jobs && DelayedFor(jobs[k], id) && DelayedFor(jobs[k'], id)
    ensures k == k'
  {
  }

  lemma JobsValidAdd(jobs: map<string, Job<nat, Call>>, nextId: nat, k: string, job: Job<nat, Call>)
    requires JobsValid(jobs, nextId) && job.data == nextId
    ensures JobsValid(jobs[k := job], nextId + 1)
  {
  }

  lemma JobsValidRemove(jobs: map<string, Job<nat, Call>>, nextId: nat, k: string)
    requires JobsValid(jobs, nextId)
    ensures JobsValid(jobs - {k}, nextId)
  {
  }

  lemma JobsValidSet(jobs: map<string, Job<nat, Call>>, nextId: nat, k: string, job: Job<nat, Call>)
    requires JobsValid(jobs, nextId) && k in jobs && job.data == jobs[k].data
    ensures JobsValid(jobs[k := job], nextId)
  {
  }

  /** Appending a row and dropping its owner's cached listing keeps the
      cache coherent. */
  lemma CoherentAfterAppend(cache: map<string, seq<ScheduledCall>>, rows: seq<ScheduledCall>, x: ScheduledCall)
    requires CacheCoherent(cache, rows)
    ensures CacheCoherent(cache - {CacheKey(x.userId)}, rows + [x])
  {
    forall u | CacheKey(u) in cache - {CacheKey(x.userId)}
      ensures (cache - {CacheKey(x.userId)})[CacheKey(u)] == Listing(rows + [x], u)
    {
      OwnedByAppendOther(rows, x, u);
    }
  }

  /** Changing a row without changing its owner, and dropping the owner's
      cached listing, keeps the cache coherent. */
  lemma CoherentAfterUpdate(cache: map<string, seq<ScheduledCall>>, rows: seq<ScheduledCall>, i: nat, x: ScheduledCall)
    requires CacheCoherent(cache, rows)
    requires i < |rows| && x.userId == rows[i].userId
    ensures CacheCoherent(cache - {CacheKey(x.userId)}, rows[i := x])
  {
    forall u | CacheKey(u) in cache - {CacheKey(x.userId)}
      ensures (cache - {CacheKey(x.userId)})[CacheKey(u)] == Listing(rows[i := x], u)
    {
      OwnedByUpdateOther(rows, i, x, u);
    }
  }
}
