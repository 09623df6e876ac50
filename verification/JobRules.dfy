/** What each stored function of the queue decides and writes, on the columns of its rows and without the helpers of
    `JobQueue`. */
module JobRules {
  import opened Wrappers
  import opened JobQueue

  /* ---------- defer ---------- */

  /** A batch that is accepted is inserted in order under the next identifiers, each row waiting and untried with
      the columns it was deferred with; a batch that is refused inserts nothing. */
  lemma DeferredRows(db: Db, batch: seq<NewJob>)
    requires Sound(db)
    ensures var done := Defer(db, batch);
            && (done.result.Failure? ==> done.db == db && done.result.error == ConstraintViolated)
            && (done.result.Success? ==>
                  && done.result.value == None
                  && done.db.nextId == db.nextId + |batch|
                  && (forall id :: id in done.db.jobs <==> id in db.jobs || db.nextId <= id < db.nextId + |batch|)
                  && (forall id :: id in db.jobs ==> done.db.jobs[id] == db.jobs[id])
                  && (forall k :: 0 <= k < |batch| ==>
                        && db.nextId + k in done.db.jobs
                        && var row := done.db.jobs[db.nextId + k];
                           && row.queue == batch[k].queue && row.task == batch[k].task
                           && row.priority == batch[k].priority && row.lock == batch[k].lock
                           && row.queueingLock == batch[k].queueingLock && row.scheduledAt == batch[k].scheduledAt
                           && row.status == Todo && row.attempts == 0 && !row.abortRequested && row.worker == None))
  {
    InsertFresh(db, batch);
  }

  /* ---------- fetch ---------- */

  /** The job waits, its queue is targeted and it is due; and no other job with its lock runs, or waits with a
      higher priority, or with the same priority and a lower identifier. */
  ghost predicate Fetchable(jobs: map<JobId, Job>, id: JobId, queues: Option<set<string>>, now: int) {
    && id in jobs && jobs[id].status == Todo
    && (queues.Some? ==> jobs[id].queue in queues.value)
    && (jobs[id].scheduledAt.Some? ==> jobs[id].scheduledAt.value <= now)
    && (jobs[id].lock.Some? ==>
          forall other :: other in jobs && jobs[other].lock == jobs[id].lock ==>
            && jobs[other].status != Doing
            && (jobs[other].status == Todo && other != id ==>
                  jobs[other].priority < jobs[id].priority || (jobs[other].priority == jobs[id].priority && id < other)))
  }

  lemma FetchableIsEligible(jobs: map<JobId, Job>, id: JobId, queues: Option<set<string>>, now: int)
    ensures Fetchable(jobs, id, queues, now) <==> Eligible(jobs, id, queues, now)
  {
    if Eligible(jobs, id, queues, now) {
      forall other | other in jobs && jobs[id].lock.Some? && jobs[other].lock == jobs[id].lock
        ensures jobs[other].status != Doing
        ensures jobs[other].status == Todo && other != id ==>
                  jobs[other].priority < jobs[id].priority || (jobs[other].priority == jobs[id].priority && id < other)
      {
        assert !Blocks(jobs, other, id);
      }
    }
  }

  /** Which job a fetch takes, if and only if: the fetchable one, among those no other transaction holds, that has
      the highest priority and then the lowest identifier. */
  ghost predicate Taken(jobs: map<JobId, Job>, id: JobId, queues: Option<set<string>>, now: int, skipped: set<JobId>) {
    && id !in skipped && Fetchable(jobs, id, queues, now)
    && forall other :: other !in skipped && Fetchable(jobs, other, queues, now) && other != id ==>
         jobs[other].priority < jobs[id].priority || (jobs[other].priority == jobs[id].priority && id < other)
  }

  /** A fetch never raises. It takes a job exactly when that job is the one above, marks it as running for the
      worker and changes nothing else; with no such job it answers nothing and changes nothing. */
  lemma FetchTakesIff(db: Db, queues: Option<set<string>>, now: int, skipped: set<JobId>, worker: nat)
    requires Sound(db)
    ensures var done := Fetch(db, queues, now, skipped, worker);
            && done.result.Success?
            && (forall id: JobId :: done.result.value == Some(id) <==> Taken(db.jobs, id, queues, now, skipped))
            && (done.result.value == None ==> done.db == db)
            && (forall id: JobId :: done.result.value == Some(id) ==>
                  && id in db.jobs
                  && done.db == db.(jobs := db.jobs[id := db.jobs[id].(status := Doing, worker := Some(worker))]))
  {
    FetchTakesTheTop(db, queues, now, skipped, worker);
    forall id ensures Fetchable(db.jobs, id, queues, now) <==> Eligible(db.jobs, id, queues, now) {
      FetchableIsEligible(db.jobs, id, queues, now);
    }
    var answer := Fetch(db, queues, now, skipped, worker).result.value;
    if answer.Some? {
      assert Taken(db.jobs, answer.value, queues, now, skipped);
    }
  }

  /* ---------- finish and cancel ---------- */

  predicate Live(jobs: map<JobId, Job>, id: JobId) {
    id in jobs && jobs[id].status in {Todo, Doing}
  }

  /** A finish that is accepted deletes the job, or gives it the end status, clears its abort request and counts
      the run it was in; the refusals are a status that is no end, and a job that is neither waiting nor running. */
  lemma FinishWrites(db: Db, id: JobId, end: Status, delete: bool)
    requires Sound(db)
    ensures var done := Finish(db, id, end, delete);
            var isEnd := end in {Succeeded, Failed, Aborted};
            && (done.result.Success? <==> isEnd && Live(db.jobs, id))
            && (done.result.Failure? ==>
                  done.db == db && done.result.error == if isEnd then NotFound else BadEndStatus)
            && (done.result.Success? ==>
                  && done.result.value == None
                  && done.db == if delete then db.(jobs := db.jobs - {id})
                                else db.(jobs := db.jobs[id := db.jobs[id].(
                                       status := end, abortRequested := false,
                                       attempts := db.jobs[id].attempts + if db.jobs[id].status == Doing then 1 else 0)]))
  {
    FinishRaisesIff(db, id, end, delete);
  }

  /** What a cancel does to each kind of job: a waiting one is deleted, or cancelled with its abort request set as
      asked; a running one only ever gets an abort request; any other stays and is not answered. */
  lemma CancelWrites(db: Db, id: JobId, abort: bool, delete: bool)
    requires Sound(db)
    ensures var done := Cancel(db, id, abort, delete);
            var waits := id in db.jobs && db.jobs[id].status == Todo;
            var runs := id in db.jobs && db.jobs[id].status == Doing;
            && done.result == Success(if waits || (runs && abort) then Some(id) else None)
            && done.db == if waits && delete then db.(jobs := db.jobs - {id})
                          else if waits then
                            db.(jobs := db.jobs[id := db.jobs[id].(status := Cancelled, abortRequested := abort)])
                          else if runs && abort then db.(jobs := db.jobs[id := db.jobs[id].(abortRequested := true)])
                          else db
  {
    CancelNeverRaises(db, id, abort, delete);
    if id in db.jobs && db.jobs[id].status == Todo && !abort && !delete {
      assert IsTodo(db.jobs, id) && !db.jobs[id].abortRequested;
    }
  }

  /* ---------- retry ---------- */

  /** Another waiting job holds the job's queueing lock. */
  ghost predicate LockTaken(jobs: map<JobId, Job>, id: JobId)
    requires id in jobs
  {
    exists other :: other in jobs && other != id && jobs[other].status == Todo
                    && jobs[id].queueingLock.Some? && jobs[other].queueingLock == jobs[id].queueingLock
  }

  lemma LockTakenIff(jobs: map<JobId, Job>, id: JobId)
    requires id in jobs
    ensures LockTaken(jobs, id) <==> QueueingTaken(jobs, id)
  {
    if LockTaken(jobs, id) {
      var other :| other in jobs && other != id && jobs[other].status == Todo
        && jobs[id].queueingLock.Some? && jobs[other].queueingLock == jobs[id].queueingLock;
      assert IsTodo(jobs, other);
    }
  }

  /** The row waits again: one more attempt, the time of the retry, and the given priority, queue and lock or the
      old ones; its task, queueing lock, abort request and worker are kept. */
  predicate PutBack(before: Job, after: Job, retry: Retry) {
    && after.status == Todo && after.attempts == before.attempts + 1 && after.scheduledAt == retry.retryAt
    && after.priority == (match retry.priority case Some(priority) => priority case None => before.priority)
    && after.queue == (match retry.queue case Some(queue) => queue case None => before.queue)
    && after.lock == (match retry.lock case Some(lock) => Some(lock) case None => before.lock)
    && after.task == before.task && after.queueingLock == before.queueingLock
    && after.abortRequested == before.abortRequested && after.worker == before.worker
  }

  ghost predicate OthersKept(db: Db, t: Db, id: JobId) {
    && t.nextId == db.nextId && t.jobs.Keys == db.jobs.Keys
    && forall other :: other in db.jobs && other != id ==> t.jobs[other] == db.jobs[other]
  }

  /** The account of a retry of a job that may be put back from the given state. */
  ghost predicate RetryAccount(db: Db, id: JobId, retry: Retry, retryable: bool, done: Outcome) {
    var ended := id in db.jobs && db.jobs[id].status == Doing && db.jobs[id].abortRequested;
    && (done.result.Failure? ==>
          done.db == db && done.result.error == if retryable then ConstraintViolated else NotFound)
    && (done.result.Success? ==>
          && done.result.value == None && id in db.jobs && id in done.db.jobs && OthersKept(db, done.db, id)
          && if ended then done.db.jobs[id] == db.jobs[id].(status := Failed)
             else PutBack(db.jobs[id], done.db.jobs[id], retry))
  }

  /** The first retry takes running jobs only. One whose abort was requested fails instead; any other is put back,
      unless a waiting job holds its queueing lock. No other row changes. */
  lemma RetryV1PutsBack(db: Db, id: JobId, retry: Retry)
    requires Sound(db)
    ensures var done := RetryV1(db, id, retry);
            var running := id in db.jobs && db.jobs[id].status == Doing;
            && (done.result.Success? <==> running && (db.jobs[id].abortRequested || !LockTaken(db.jobs, id)))
            && RetryAccount(db, id, retry, running, done)
  {
    RetryV1RaisesIff(db, id, retry);
    if id in db.jobs {
      LockTakenIff(db.jobs, id);
    }
  }

  /** The second retry takes failed jobs as well, but for those that still carry their abort request. */
  lemma RetryV2PutsBack(db: Db, id: JobId, retry: Retry)
    requires Sound(db)
    ensures var done := RetryV2(db, id, retry);
            var running := id in db.jobs && db.jobs[id].status == Doing;
            var failed := id in db.jobs && db.jobs[id].status == Failed;
            && (done.result.Success? <==>
                  || (running && (db.jobs[id].abortRequested || !LockTaken(db.jobs, id)))
                  || (failed && !db.jobs[id].abortRequested && !LockTaken(db.jobs, id)))
            && RetryAccount(db, id, retry, running || failed, done)
  {
    RetryV2RaisesIff(db, id, retry);
    if id in db.jobs {
      LockTakenIff(db.jobs, id);
    }
  }

  /* ---------- scheduled jobs ---------- */

  /** The call is about another job, and comes before the given time if it is a fetch. */
  predicate LeavesAlone(call: Call, id: JobId, time: int) {
    match call
    case DeferJobs(_) => true
    case FetchJob(_, now, _, _) => now < time
    case FinishJob(other, _, _) => other != id
    case CancelJob(other, _, _) => other != id
    case RetryJobV1(other, _) => other != id
    case RetryJobV2(other, _) => other != id
  }

  ghost predicate Scheduled(db: Db, id: JobId, time: int) {
    Sound(db) && id in db.jobs && db.jobs[id].status == Todo && db.jobs[id].scheduledAt == Some(time)
  }

  lemma CallLeavesAlone(db: Db, call: Call, id: JobId, time: int)
    requires Scheduled(db, id, time) && LeavesAlone(call, id, time)
    ensures id in Exec(db, call).db.jobs && Exec(db, call).db.jobs[id] == db.jobs[id]
  {
    match call
    case DeferJobs(batch) => DeferredRows(db, batch);
    case FetchJob(queues, now, skipped, worker) =>
      FetchTakesIff(db, queues, now, skipped, worker);
      assert !Taken(db.jobs, id, queues, now, skipped);
    case FinishJob(other, end, delete) => FinishWrites(db, other, end, delete);
    case CancelJob(other, abort, delete) => CancelWrites(db, other, abort, delete);
    case RetryJobV1(other, retry) => RetryV1PutsBack(db, other, retry);
    case RetryJobV2(other, retry) => RetryV2PutsBack(db, other, retry);
  }

  /** A waiting job scheduled for later stays exactly as it is through every run of calls about other jobs, of
      deferrals and of fetches before its time. */
  lemma {:induction false} ScheduledWaits(db: Db, calls: seq<Call>, id: JobId, time: int)
    requires Scheduled(db, id, time) && forall i :: 0 <= i < |calls| ==> LeavesAlone(calls[i], id, time)
    ensures Scheduled(Execute(db, calls), id, time) && Execute(db, calls).jobs[id] == db.jobs[id]
    decreases |calls|
  {
    if calls != [] {
      var n := |calls| - 1;
      ScheduledWaits(db, calls[..n], id, time);
      CallLeavesAlone(Execute(db, calls[..n]), calls[n], id, time);
      ExecSound(Execute(db, calls[..n]), calls[n]);
    }
  }

  /** So the back-off of a retry is kept: a job put back for a later time is not fetched before it, in any run. */
  lemma BackOffHolds(db: Db, id: JobId, retry: Retry, second: bool, calls: seq<Call>)
    requires Sound(db) && id in db.jobs && !db.jobs[id].abortRequested && retry.retryAt.Some?
    requires forall i :: 0 <= i < |calls| ==> LeavesAlone(calls[i], id, retry.retryAt.value)
    ensures var done := if second then RetryV2(db, id, retry) else RetryV1(db, id, retry);
            done.result.Success? ==>
              var t := Execute(done.db, calls);
              id in t.jobs && t.jobs[id].status == Todo && PutBack(db.jobs[id], t.jobs[id], retry)
  {
    var done := if second then RetryV2(db, id, retry) else RetryV1(db, id, retry);
    if done.result.Success? {
      RetryV1PutsBack(db, id, retry);
      RetryV2PutsBack(db, id, retry);
      ExecSound(db, if second then RetryJobV2(id, retry) else RetryJobV1(id, retry));
      ScheduledWaits(done.db, calls, id, retry.retryAt.value);
    }
  }
}
