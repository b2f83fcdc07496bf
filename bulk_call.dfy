/**
 * `BulkCallService`: queues one job per contact with linearly growing
 * delays, reports and cancels jobs id by id, and the worker that turns a job
 * into a call record.
 */
module BulkCall {
  import opened Wrappers
  import opened Text
  import opened Errors
  import opened Seqs
  import opened Templates
  import opened Calls

  /** The payload of a bulk-call job. */
  datatype BulkJobData = BulkJobData(
    userId: string,
    phoneNumber: string,
    templateId: Option<nat>,
    variables: Option<Variables>)

  /** A contact of a bulk-call request. */
  datatype Contact = Contact(phoneNumber: string, variables: Option<Variables>)

  /** An entry of the list `startBulkCall` returns. */
  datatype QueuedCall = QueuedCall(jobId: string, phoneNumber: string, status: string)

  /** An entry of the list `getBulkCallStatus` returns. */
  datatype JobStatus =
    | NotFound(jobId: string)
    | Found(jobId: string, status: string, progress: int, result: Option<Call>, error: Option<string>)

  /** An entry of the list `cancelBulkCall` returns. */
  datatype CancelResult = CancelResult(jobId: string, success: bool, error: Option<string>)

  type BulkJob = Job<BulkJobData, Call>

  const JobNotFound: string := "Job not found"

  /** A payload whose variables, when a template renders them, the renderer
      can take literally. */
  predicate PlainData(d: BulkJobData)
  {
    d.templateId.Some? && d.variables.Some? ==> PlainVariables(d.variables.value)
  }

  /** `delayBetweenCalls || 0` */
  function Spacing(delayBetweenCalls: Option<int>): int
  {
    delayBetweenCalls.GetOr(0)
  }

  /** The job the i-th contact of a request is queued as. */
  function ContactJob(id: string, i: nat, userId: string, contact: Contact,
                      templateId: Option<nat>, delayBetweenCalls: Option<int>): BulkJob
  {
    NewJob(id, BulkJobData(userId, contact.phoneNumber, templateId, contact.variables),
           i * Spacing(delayBetweenCalls))
  }

  /** The jobs a request queues, the i-th under the i-th id after `first`. */
  function BatchJobs(first: nat, userId: string, contacts: seq<Contact>,
                     templateId: Option<nat>, delayBetweenCalls: Option<int>): (r: seq<BulkJob>)
    ensures |r| == |contacts|
  {
    seq(|contacts|, i requires 0 <= i < |contacts| =>
      ContactJob(BatchId(first, i), i, userId, contacts[i], templateId, delayBetweenCalls))
  }

  /** The i-th job of a batch is delayed by i times the spacing. With a
      non-negative spacing later contacts never get a shorter delay, and a
      negative spacing gives strictly shrinking delays. Only a zero delay
      queues a job waiting: the first contact's always, every contact's when
      the spacing is zero, and a negative delay goes to the delayed set too. */
  lemma BatchDelays(first: nat, userId: string, contacts: seq<Contact>,
                    templateId: Option<nat>, delayBetweenCalls: Option<int>, i: nat, j: nat)
    requires i <= j < |contacts|
    ensures var r := BatchJobs(first, userId, contacts, templateId, delayBetweenCalls);
      var d := Spacing(delayBetweenCalls);
      && r[i].delay == i * d
      && (d >= 0 ==> r[i].delay <= r[j].delay)
      && (d < 0 && i < j ==> r[i].delay > r[j].delay)
      && (r[i].state == Waiting <==> i == 0 || d == 0)
      && (r[i].state == Delayed <==> i > 0 && d != 0)
  {
    var d := Spacing(delayBetweenCalls);
    assert j * d == i * d + (j - i) * d;
    if i < j {
      MulSign(j - i, d);
    }
    if i > 0 {
      MulSign(i, d);
    }
  }

  /** The sign of x·d for x >= 1 is that of d. */
  lemma MulSign(x: int, d: int)
    requires x >= 1
    ensures d > 0 ==> x * d > 0
    ensures d < 0 ==> x * d < 0
    ensures d >= 0 ==> x * d >= 0
  {
  }

  /** The i-th contact of a request is queued under a fresh id, with its
      payload and a delay of i times the spacing (the size of the batch and
      the jobs it keeps are `Calls.AddedJobsSize` and `Calls.AddedJobsKeep`). */
  lemma BatchEntry(start: map<string, BulkJob>, first: nat, userId: string, contacts: seq<Contact>,
                   templateId: Option<nat>, delayBetweenCalls: Option<int>, i: nat)
    requires start.Keys <= IssuedIds(first)
    requires i < |contacts|
    ensures var jobs := AddedJobs(start, first, BatchJobs(first, userId, contacts, templateId, delayBetweenCalls), |contacts|);
      && BatchId(first, i) !in start
      && BatchId(first, i) in jobs
      && jobs[BatchId(first, i)] == ContactJob(BatchId(first, i), i, userId, contacts[i], templateId, delayBetweenCalls)
  {
    IssuedIdsFresh(first, first + i + 1);
    AddedJobsEntry(start, first, BatchJobs(first, userId, contacts, templateId, delayBetweenCalls), |contacts|, i);
  }

  /** The entries `startBulkCall` returns for the first n contacts. */
  function QueuedCalls(first: nat, contacts: seq<Contact>, n: nat): (r: seq<QueuedCall>)
    requires n <= |contacts|
  {
    if n == 0 then []
    else QueuedCalls(first, contacts, n - 1) + [QueuedCall(BatchId(first, n - 1), contacts[n - 1].phoneNumber, "queued")]
  }

  /** One entry per contact, in contact order, each `queued` under its
      contact's job id. */
  lemma {:induction false} QueuedCallsSpec(first: nat, contacts: seq<Contact>, n: nat)
    requires n <= |contacts|
    ensures |QueuedCalls(first, contacts, n)| == n
    ensures forall i :: 0 <= i < n ==>
      QueuedCalls(first, contacts, n)[i] == QueuedCall(BatchId(first, i), contacts[i].phoneNumber, "queued")
  {
    if n > 0 {
      QueuedCallsSpec(first, contacts, n - 1);
    }
  }

  /** What `getBulkCallStatus` reports for one id. */
  function StatusOf(jobs: map<string, BulkJob>, jobId: string): (s: JobStatus)
    ensures s.jobId == jobId
    ensures s.NotFound? <==> jobId !in jobs
    ensures s.Found? ==> s.status == jobs[jobId].state.Name()
  {
    if jobId !in jobs then JobStatus.NotFound(jobId)
    else
      var j := jobs[jobId];
      Found(jobId, j.state.Name(), j.progress, j.returnValue, j.failedReason)
  }

  /** What `cancelBulkCall` reports for one id, against the jobs present when
      the request arrived. */
  function CancelOutcome(jobs: map<string, BulkJob>, jobId: string): (c: CancelResult)
    ensures c.jobId == jobId
    ensures c.success <==> jobId in jobs
    ensures !c.success <==> c.error == Some(JobNotFound)
  {
    if jobId in jobs then CancelResult(jobId, true, None)
    else CancelResult(jobId, false, Some(JobNotFound))
  }

  /** The set of ids in a request. */
  function IdSet(jobIds: seq<string>): (s: set<string>)
    ensures forall id :: id in s <==> id in jobIds
  {
    set id | id in jobIds
  }

  /** The user's calls created in the 24 hours up to `now`. */
  function LastDay(calls: seq<Call>, userId: string, now: int): seq<Call>
  {
    CreatedSince(calls, userId, now - 24 * 60 * 60 * 1000)
  }

  /** The message a thrown error carries, which Bull stores as the job's
      `failedReason`. */
  function MessageOf(t: Thrown): string
  {
    match t
    case App(e) => e.message
    case Other(m) => m
  }

  /** `BulkCallService` over the bulk-call queue, the call table and the
      template store. */
  class BulkCallService {
    const queue: Queue<BulkJobData, Call>
    const table: CallTable
    const templates: TemplateService

    ghost predicate Valid()
      reads this, queue, table
    {
      queue.Valid() && table.Valid()
    }

    /** The call table is the one shared `call` table, which the scheduler's
        worker also writes; the queue is this service's own. */
    constructor(templates: TemplateService, table: CallTable)
      requires table.Valid()
      ensures Valid() && fresh(queue) && this.templates == templates && this.table == table
      ensures queue.jobs == map[] && table.calls == old(table.calls)
    {
      queue := new Queue();
      this.table := table;
      this.templates := templates;
    }

    /** `bulkCallsQueue.add` of the i-th contact's job. */
    method Enqueue(first: nat, userId: string, contacts: seq<Contact>,
                   templateId: Option<nat>, delayBetweenCalls: Option<int>, i: nat)
      returns (entry: QueuedCall, ghost job: BulkJob)
      requires Valid() && i < |contacts|
      requires queue.lastId == first + i
      modifies queue
      ensures Valid()
      ensures queue.lastId == first + i + 1
      ensures job == ContactJob(BatchId(first, i), i, userId, contacts[i], templateId, delayBetweenCalls)
      ensures queue.jobs == old(queue.jobs)[job.id := job]
      ensures entry == QueuedCall(BatchId(first, i), contacts[i].phoneNumber, "queued")
    {
      var contact := contacts[i];
      var delay := i * Spacing(delayBetweenCalls);
      var added := queue.Add(BulkJobData(userId, contact.phoneNumber, templateId, contact.variables), delay);
      job := added;
      entry := QueuedCall(added.id, contact.phoneNumber, "queued");
    }

    /** `startBulkCall`: one job per contact, the i-th delayed by i times the
        spacing, and one `queued` entry per contact in contact order. */
    method StartBulkCall(userId: string, contacts: seq<Contact>, templateId: Option<nat>,
                         delayBetweenCalls: Option<int>)
      returns (calls: seq<QueuedCall>)
      requires Valid()
      requires |contacts| > 0
      modifies queue
      ensures Valid()
      ensures queue.lastId == old(queue.lastId) + |contacts|
      ensures queue.jobs ==
        AddedJobs(old(queue.jobs), old(queue.lastId),
                  BatchJobs(old(queue.lastId), userId, contacts, templateId, delayBetweenCalls), |contacts|)
      ensures |calls| == |contacts|
      ensures forall i :: 0 <= i < |contacts| ==>
        calls[i] == QueuedCall(BatchId(old(queue.lastId), i), contacts[i].phoneNumber, "queued")
    {
      calls := [];
      var first := queue.lastId;
      ghost var vals := BatchJobs(first, userId, contacts, templateId, delayBetweenCalls);
      var i := 0;
      while i < |contacts|
        invariant 0 <= i <= |contacts|
        invariant Valid()
        invariant queue.lastId == first + i
        invariant queue.jobs == AddedJobs(old(queue.jobs), first, vals, i)
        invariant calls == QueuedCalls(first, contacts, i)
      {
        var entry, job := Enqueue(first, userId, contacts, templateId, delayBetweenCalls, i);
        calls := calls + [entry];
        i := i + 1;
      }
      QueuedCallsSpec(first, contacts, |contacts|);
    }

    /** `getBulkCallStatus`: one entry per requested id, in request order,
        each resolved on its own. */
    function BulkCallStatus(jobIds: seq<string>): (r: seq<JobStatus>)
      reads this, queue
      ensures |r| == |jobIds|
      ensures forall i :: 0 <= i < |jobIds| ==> r[i] == StatusOf(queue.jobs, jobIds[i])
    {
      var jobs := queue.jobs;
      seq(|jobIds|, i requires 0 <= i < |jobIds| => StatusOf(jobs, jobIds[i]))
    }

    /** `cancelBulkCall`: every requested job that exists is removed and
        reported as cancelled; unknown ids are reported as not found; no
        other job is touched. The lookups all see the queue as it was when the
        request arrived. */
    method CancelBulkCall(jobIds: seq<string>) returns (r: seq<CancelResult>)
      requires Valid()
      modifies queue
      ensures Valid()
      ensures |r| == |jobIds|
      ensures forall i :: 0 <= i < |jobIds| ==> r[i] == CancelOutcome(old(queue.jobs), jobIds[i])
      ensures queue.jobs == old(queue.jobs) - IdSet(jobIds)
      ensures queue.lastId == old(queue.lastId)
    {
      var snapshot := queue.jobs;
      r := [];
      for i := 0 to |jobIds|
        invariant Valid()
        invariant |r| == i
        invariant forall k :: 0 <= k < i ==> r[k] == CancelOutcome(snapshot, jobIds[k])
        invariant queue.jobs == snapshot - IdSet(jobIds[..i])
        invariant queue.lastId == old(queue.lastId)
      {
        var id := jobIds[i];
        assert IdSet(jobIds[..i + 1]) == IdSet(jobIds[..i]) + {id} by {
          assert jobIds[..i + 1] == jobIds[..i] + [id];
        }
        if id !in snapshot {
          r := r + [CancelResult(id, false, Some(JobNotFound))];
        } else {
          if id in queue.jobs {
            queue.Remove(id);
          }
          r := r + [CancelResult(id, true, None)];
        }
      }
      assert jobIds[..|jobIds|] == jobIds;
    }

    /** Whether the worker's template step throws for a payload. */
    predicate TemplateFails(d: BulkJobData)
      reads this, templates
    {
      d.templateId.Some? && (d.templateId.value !in templates.templates || d.variables.None?)
    }

    /** The worker body: render the template when a template id is given
        (and fail the job when that throws), create a `pending` call, mark it
        `completed` with a duration below 300, and return the call as created. */
    method ProcessJob(jobId: string, now: int) returns (r: Result<Call>)
      requires Valid()
      requires jobId in queue.jobs && queue.jobs[jobId].state == Waiting
      requires PlainData(queue.jobs[jobId].data)
      modifies queue, table
      ensures Valid()
      ensures queue.lastId == old(queue.lastId)
      ensures TemplateFails(old(queue.jobs)[jobId].data) ==>
        && r.Err?
        && table.calls == old(table.calls)
        && queue.jobs == old(queue.jobs)[jobId := old(queue.jobs)[jobId].(
             state := Failed, failedReason := Some(MessageOf(r.error)))]
        && r.error == Other(if old(queue.jobs)[jobId].data.templateId.value !in templates.templates
                            then TemplateNotFound else NotAnObject)
      ensures !TemplateFails(old(queue.jobs)[jobId].data) ==>
        var d := old(queue.jobs)[jobId].data;
        var pending := Call(|old(table.calls)|, d.userId, d.phoneNumber, "pending", d.templateId,
                            None, None, None, None, now);
        && r == Ok(pending)
        && queue.jobs == old(queue.jobs)[jobId := old(queue.jobs)[jobId].(
             state := Completed, returnValue := Some(pending))]
        && |table.calls| == |old(table.calls)| + 1
        && table.calls[..|old(table.calls)|] == old(table.calls)
        && table.calls[|old(table.calls)|].status == "completed"
        && table.calls[|old(table.calls)|] == pending.(status := "completed",
             duration := table.calls[|old(table.calls)|].duration)
        && table.calls[|old(table.calls)|].duration.Some?
        && 0 <= table.calls[|old(table.calls)|].duration.value < 300
    {
      var data := queue.jobs[jobId].data;
      if data.templateId.Some? {
        var content := templates.ProcessTemplate(data.templateId.value, data.variables);
        if content.Err? {
          queue.Fail(jobId, MessageOf(content.error));
          return Err(content.error);
        }
      }
      var call := table.Create(data.userId, data.phoneNumber, "pending", data.templateId, None, now);
      var duration :| 0 <= duration < 300;
      table.Update(call.id, "completed", Some(duration));
      queue.Complete(jobId, call);
      r := Ok(call);
    }

    /** `getBulkCallStats`: the user's calls of the last 24 hours grouped by
        status, each status once with the number of those calls in it. */
    function BulkCallStats(userId: string, now: int): (r: seq<(string, nat)>)
      reads this, table
      ensures forall i, j :: 0 <= i < j < |r| ==> r[i].0 != r[j].0
      ensures forall i :: 0 <= i < |r| ==>
        r[i].1 == Count(Statuses(LastDay(table.calls, userId, now)), r[i].0) > 0
      ensures forall s :: s in Statuses(LastDay(table.calls, userId, now)) <==>
        exists i :: 0 <= i < |r| && r[i].0 == s
      ensures SumSecond(r) == |LastDay(table.calls, userId, now)|
    {
      var statuses := Statuses(LastDay(table.calls, userId, now));
      TallySpec(statuses);
      Tally(statuses)
    }
  }
}
