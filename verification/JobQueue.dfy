/** The job queue's stored functions. Each call is one transaction over the jobs table; a call that violates an
    index or a check raises and leaves the table as it was. */
module JobQueue {
  import opened Wrappers

  type JobId = nat

  datatype Status = Todo | Doing | Succeeded | Failed | Cancelled | Aborted

  datatype Job = Job(
    queue: string,
    task: string,
    priority: int,
    lock: Option<string>,
    queueingLock: Option<string>,
    scheduledAt: Option<int>,
    status: Status,
    attempts: nat,
    abortRequested: bool,
    worker: Option<nat>)

  datatype NewJob = NewJob(queue: string, task: string, priority: int, lock: Option<string>,
                           queueingLock: Option<string>, scheduledAt: Option<int>)

  datatype Db = Db(jobs: map<JobId, Job>, nextId: JobId)

  datatype Problem = ConstraintViolated | NotFound | BadEndStatus

  /** A raised call keeps the database. */
  datatype Outcome = Outcome(db: Db, result: Result<Option<JobId>, Problem>)

  /* ---------- constraints ---------- */

  predicate IsDoing(jobs: map<JobId, Job>, id: JobId) {
    id in jobs && jobs[id].status.Doing?
  }

  predicate IsTodo(jobs: map<JobId, Job>, id: JobId) {
    id in jobs && jobs[id].status.Todo?
  }

  /** The partial unique indexes and the check constraint. */
  predicate Legal(jobs: map<JobId, Job>) {
    && (forall x, y :: (x in jobs && y in jobs && IsDoing(jobs, x) && IsDoing(jobs, y)
                        && jobs[x].lock.Some? && jobs[x].lock == jobs[y].lock) ==> x == y)
    && (forall x, y :: (x in jobs && y in jobs && IsTodo(jobs, x) && IsTodo(jobs, y)
                        && jobs[x].queueingLock.Some? && jobs[x].queueingLock == jobs[y].queueingLock) ==> x == y)
    && (forall x :: x in jobs && IsTodo(jobs, x) ==> !jobs[x].abortRequested)
  }

  /** The transaction commits only a legal table. */
  function Commit(db: Db, proposed: Db, id: Option<JobId>): Outcome {
    if Legal(proposed.jobs) then Outcome(proposed, Success(id)) else Outcome(db, Failure(ConstraintViolated))
  }

  function SetJob(db: Db, id: JobId, job: Job): Db {
    db.(jobs := db.jobs[id := job])
  }

  /* ---------- defer ---------- */

  function Row(job: NewJob): Job {
    Job(job.queue, job.task, job.priority, job.lock, job.queueingLock, job.scheduledAt, Todo, 0, false, None)
  }

  function Insert(db: Db, batch: seq<NewJob>): Db
    decreases |batch|
  {
    if batch == [] then db
    else
      var earlier := Insert(db, batch[..|batch| - 1]);
      Db(earlier.jobs[earlier.nextId := Row(batch[|batch| - 1])], earlier.nextId + 1)
  }

  /** `procrastinate_defer_jobs_v1`: all rows or none. */
  function Defer(db: Db, batch: seq<NewJob>): Outcome {
    Commit(db, Insert(db, batch), None)
  }

  /* ---------- fetch ---------- */

  /** The order of the queue: priority first, then age. */
  predicate Ahead(jobs: map<JobId, Job>, x: JobId, y: JobId)
    requires x in jobs && y in jobs
  {
    jobs[x].priority > jobs[y].priority || (jobs[x].priority == jobs[y].priority && x < y)
  }

  /** Another job of the same lock is running, or waits ahead. */
  predicate Blocks(jobs: map<JobId, Job>, other: JobId, id: JobId)
    requires id in jobs
  {
    && other in jobs && jobs[id].lock.Some? && jobs[other].lock == jobs[id].lock
    && (jobs[other].status.Doing? || (jobs[other].status.Todo? && Ahead(jobs, other, id)))
  }

  predicate Due(job: Job, now: int) {
    job.scheduledAt.None? || job.scheduledAt.value <= now
  }

  predicate Targeted(job: Job, queues: Option<set<string>>) {
    queues.None? || job.queue in queues.value
  }

  predicate Eligible(jobs: map<JobId, Job>, id: JobId, queues: Option<set<string>>, now: int) {
    && IsTodo(jobs, id) && Targeted(jobs[id], queues) && Due(jobs[id], now)
    && forall other :: other in jobs ==> !Blocks(jobs, other, id)
  }

  /** The first eligible job of the order among the identifiers below `n`, rows locked by others skipped. */
  function First(jobs: map<JobId, Job>, queues: Option<set<string>>, now: int, skipped: set<JobId>, n: nat): (r: Option<JobId>)
    ensures r.Some? ==> r.value < n && r.value !in skipped && Eligible(jobs, r.value, queues, now)
  {
    if n == 0 then None
    else
      var best := First(jobs, queues, now, skipped, n - 1);
      if !Eligible(jobs, n - 1, queues, now) || n - 1 in skipped then best
      else if best.Some? && !Ahead(jobs, n - 1, best.value) then best
      else Some(n - 1)
  }

  /** `procrastinate_fetch_job_v2` */
  function Fetch(db: Db, queues: Option<set<string>>, now: int, skipped: set<JobId>, worker: nat): Outcome {
    match First(db.jobs, queues, now, skipped, db.nextId)
    case None => Outcome(db, Success(None))
    case Some(id) => Commit(db, SetJob(db, id, db.jobs[id].(status := Doing, worker := Some(worker))), Some(id))
  }

  /* ---------- finish, cancel, retry ---------- */

  predicate Unfinished(jobs: map<JobId, Job>, id: JobId) {
    IsTodo(jobs, id) || IsDoing(jobs, id)
  }

  /** `procrastinate_finish_job_v1` */
  function Finish(db: Db, id: JobId, end: Status, delete: bool): Outcome {
    if !end.Succeeded? && !end.Failed? && !end.Aborted? then Outcome(db, Failure(BadEndStatus))
    else if !Unfinished(db.jobs, id) then Outcome(db, Failure(NotFound))
    else if delete then Outcome(db.(jobs := db.jobs - {id}), Success(None))
    else
      var job := db.jobs[id];
      Commit(db, SetJob(db, id, job.(status := end, abortRequested := false,
                                     attempts := if job.status.Doing? then job.attempts + 1 else job.attempts)), None)
  }

  /** `procrastinate_cancel_job_v1`: nothing to cancel is not an error. */
  function Cancel(db: Db, id: JobId, abort: bool, delete: bool): Outcome {
    if delete && IsTodo(db.jobs, id) then Outcome(db.(jobs := db.jobs - {id}), Success(Some(id)))
    else if abort && Unfinished(db.jobs, id) then
      var job := db.jobs[id];
      Commit(db, SetJob(db, id, job.(abortRequested := true,
                                     status := if job.status.Todo? then Cancelled else job.status)), Some(id))
    else if !abort && IsTodo(db.jobs, id) then
      Commit(db, SetJob(db, id, db.jobs[id].(status := Cancelled)), Some(id))
    else Outcome(db, Success(None))
  }

  datatype Retry = Retry(retryAt: Option<int>, priority: Option<int>, queue: Option<string>, lock: Option<string>)

  function Requeued(job: Job, retry: Retry): Job {
    job.(status := Todo,
         attempts := job.attempts + 1,
         scheduledAt := retry.retryAt,
         priority := if retry.priority.Some? then retry.priority.value else job.priority,
         queue := if retry.queue.Some? then retry.queue.value else job.queue,
         lock := if retry.lock.Some? then retry.lock else job.lock)
  }

  /** `procrastinate_retry_job_v1` */
  function RetryV1(db: Db, id: JobId, retry: Retry): Outcome {
    if !IsDoing(db.jobs, id) then Outcome(db, Failure(NotFound))
    else if db.jobs[id].abortRequested then Commit(db, SetJob(db, id, db.jobs[id].(status := Failed)), None)
    else Commit(db, SetJob(db, id, Requeued(db.jobs[id], retry)), None)
  }

  predicate IsFailed(jobs: map<JobId, Job>, id: JobId) {
    id in jobs && jobs[id].status.Failed?
  }

  /** `procrastinate_retry_job_v2`, which also takes failed jobs. */
  function RetryV2(db: Db, id: JobId, retry: Retry): Outcome {
    if !IsDoing(db.jobs, id) && !IsFailed(db.jobs, id) then Outcome(db, Failure(NotFound))
    else if IsDoing(db.jobs, id) && db.jobs[id].abortRequested then
      Commit(db, SetJob(db, id, db.jobs[id].(status := Failed)), None)
    else Commit(db, SetJob(db, id, Requeued(db.jobs[id], retry)), None)
  }

  /* ---------- runs ---------- */

  datatype Call =
    | DeferJobs(batch: seq<NewJob>)
    | FetchJob(queues: Option<set<string>>, now: int, skipped: set<JobId>, worker: nat)
    | FinishJob(id: JobId, end: Status, delete: bool)
    | CancelJob(id: JobId, abort: bool, delete: bool)
    | RetryJobV1(id: JobId, retry: Retry)
    | RetryJobV2(id: JobId, retry: Retry)

  function Exec(db: Db, call: Call): Outcome {
    match call
    case DeferJobs(batch) => Defer(db, batch)
    case FetchJob(queues, now, skipped, worker) => Fetch(db, queues, now, skipped, worker)
    case FinishJob(id, end, delete) => Finish(db, id, end, delete)
    case CancelJob(id, abort, delete) => Cancel(db, id, abort, delete)
    case RetryJobV1(id, retry) => RetryV1(db, id, retry)
    case RetryJobV2(id, retry) => RetryV2(db, id, retry)
  }

  function Execute(db: Db, calls: seq<Call>): Db
    decreases |calls|
  {
    if calls == [] then db else Exec(Execute(db, calls[..|calls| - 1]), calls[|calls| - 1]).db
  }

  ghost predicate Sound(db: Db) {
    Legal(db.jobs) && forall id :: id in db.jobs ==> id < db.nextId
  }

  lemma {:induction false} InsertFresh(db: Db, batch: seq<NewJob>)
    requires forall id :: id in db.jobs ==> id < db.nextId
    ensures var t := Insert(db, batch);
            && t.nextId == db.nextId + |batch|
            && (forall id :: id in t.jobs <==> id in db.jobs || db.nextId <= id < db.nextId + |batch|)
            && (forall id :: id in db.jobs ==> t.jobs[id] == db.jobs[id])
            && (forall k :: 0 <= k < |batch| ==> t.jobs[db.nextId + k] == Row(batch[k]))
    decreases |batch|
  {
    if batch != [] {
      InsertFresh(db, batch[..|batch| - 1]);
    }
  }

  lemma SetSound(db: Db, id: JobId, job: Job, answer: Option<JobId>)
    requires Sound(db) && id in db.jobs
    ensures Sound(Commit(db, SetJob(db, id, job), answer).db)
    ensures Commit(db, SetJob(db, id, job), answer).db.nextId == db.nextId
  {
  }

  lemma DeleteSound(db: Db, id: JobId)
    requires Sound(db)
    ensures Sound(db.(jobs := db.jobs - {id}))
  {
  }

  lemma FetchSound(db: Db, queues: Option<set<string>>, now: int, skipped: set<JobId>, worker: nat)
    requires Sound(db)
    ensures var t := Fetch(db, queues, now, skipped, worker).db; Sound(t) && t.nextId == db.nextId
  {
    var first := First(db.jobs, queues, now, skipped, db.nextId);
    if first.Some? {
      SetSound(db, first.value, db.jobs[first.value].(status := Doing, worker := Some(worker)), first);
    }
  }

  lemma FinishSound(db: Db, id: JobId, end: Status, delete: bool)
    requires Sound(db)
    ensures var t := Finish(db, id, end, delete).db; Sound(t) && t.nextId == db.nextId
  {
    DeleteSound(db, id);
  }

  lemma CancelSound(db: Db, id: JobId, abort: bool, delete: bool)
    requires Sound(db)
    ensures var t := Cancel(db, id, abort, delete).db; Sound(t) && t.nextId == db.nextId
  {
    DeleteSound(db, id);
  }

  lemma ExecSound(db: Db, call: Call)
    requires Sound(db)
    ensures Sound(Exec(db, call).db) && db.nextId <= Exec(db, call).db.nextId
  {
    match call
    case DeferJobs(batch) => InsertFresh(db, batch);
    case FetchJob(queues, now, skipped, worker) => FetchSound(db, queues, now, skipped, worker);
    case FinishJob(id, end, delete) => FinishSound(db, id, end, delete);
    case CancelJob(id, abort, delete) => CancelSound(db, id, abort, delete);
    case _ =>
  }

  lemma {:induction false} ExecuteSound(db: Db, calls: seq<Call>)
    requires Sound(db)
    ensures Sound(Execute(db, calls))
    decreases |calls|
  {
    if calls != [] {
      ExecuteSound(db, calls[..|calls| - 1]);
      ExecSound(Execute(db, calls[..|calls| - 1]), calls[|calls| - 1]);
    }
  }

  /* ---------- which calls raise ---------- */

  /** Another waiting job holds the queueing lock. */
  predicate QueueingTaken(jobs: map<JobId, Job>, id: JobId)
    requires id in jobs
  {
    exists other :: other in jobs && other != id && IsTodo(jobs, other)
                    && jobs[id].queueingLock.Some? && jobs[other].queueingLock == jobs[id].queueingLock
  }

  /** Two jobs of the batch ask for one queueing lock. */
  predicate BatchRepeats(batch: seq<NewJob>) {
    exists i, j :: 0 <= i < j < |batch| && batch[i].queueingLock.Some? && batch[i].queueingLock == batch[j].queueingLock
  }

  /** A waiting job holds a queueing lock of the batch. */
  predicate BatchTaken(jobs: map<JobId, Job>, batch: seq<NewJob>) {
    exists i, other :: 0 <= i < |batch| && other in jobs && IsTodo(jobs, other)
                       && batch[i].queueingLock.Some? && jobs[other].queueingLock == batch[i].queueingLock
  }

  /** A deferral is refused exactly when a queueing lock of the batch is repeated in it, or held by a waiting job. */
  lemma DeferRaisesIff(db: Db, batch: seq<NewJob>)
    requires Sound(db)
    ensures Defer(db, batch).result.Failure? <==> BatchRepeats(batch) || BatchTaken(db.jobs, batch)
  {
    InsertFresh(db, batch);
    if BatchRepeats(batch) {
      RepeatIsIllegal(db, batch);
    } else if BatchTaken(db.jobs, batch) {
      TakenIsIllegal(db, batch);
    } else {
      InsertIsLegal(db, batch);
    }
  }

  /** Two waiting rows of one queueing lock are illegal. */
  lemma SharedLockIllegal(jobs: map<JobId, Job>, x: JobId, y: JobId)
    requires x != y && IsTodo(jobs, x) && IsTodo(jobs, y)
    requires jobs[x].queueingLock.Some? && jobs[x].queueingLock == jobs[y].queueingLock
    ensures !Legal(jobs)
  {
  }

  lemma RepeatIsIllegal(db: Db, batch: seq<NewJob>)
    requires Sound(db) && BatchRepeats(batch)
    ensures !Legal(Insert(db, batch).jobs)
  {
    var i, j :| 0 <= i < j < |batch| && batch[i].queueingLock.Some? && batch[i].queueingLock == batch[j].queueingLock;
    InsertFresh(db, batch);
    SharedLockIllegal(Insert(db, batch).jobs, db.nextId + i, db.nextId + j);
  }

  lemma TakenIsIllegal(db: Db, batch: seq<NewJob>)
    requires Sound(db) && BatchTaken(db.jobs, batch)
    ensures !Legal(Insert(db, batch).jobs)
  {
    InsertFresh(db, batch);
    var t := Insert(db, batch).jobs;
    var i, other :| 0 <= i < |batch| && other in db.jobs && IsTodo(db.jobs, other)
      && batch[i].queueingLock.Some? && db.jobs[other].queueingLock == batch[i].queueingLock;
    assert t[db.nextId + i] == Row(batch[i]);
    assert IsTodo(t, db.nextId + i) && IsTodo(t, other);
  }

  /** Where a row of the table after the insert comes from. */
  lemma InsertedRow(db: Db, batch: seq<NewJob>, id: JobId) returns (k: nat)
    requires Sound(db) && id in Insert(db, batch).jobs && id !in db.jobs
    ensures k < |batch| && id == db.nextId + k && Insert(db, batch).jobs[id] == Row(batch[k])
  {
    InsertFresh(db, batch);
    k := id - db.nextId;
    assert Insert(db, batch).jobs[db.nextId + k] == Row(batch[k]);
  }

  lemma InsertIsLegal(db: Db, batch: seq<NewJob>)
    requires Sound(db) && !BatchRepeats(batch) && !BatchTaken(db.jobs, batch)
    ensures Legal(Insert(db, batch).jobs)
  {
    InsertFresh(db, batch);
    var t := Insert(db, batch).jobs;
    forall x | x in t && x !in db.jobs ensures t[x].status.Todo? && !t[x].abortRequested {
      var k := InsertedRow(db, batch, x);
    }
    forall x, y | (x in t && y in t && IsTodo(t, x) && IsTodo(t, y)
      && t[x].queueingLock.Some? && t[x].queueingLock == t[y].queueingLock)
      ensures x == y
    {
      QueueingStaysUnique(db, batch, x, y);
    }
  }

  lemma QueueingStaysUnique(db: Db, batch: seq<NewJob>, x: JobId, y: JobId)
    requires Sound(db) && !BatchRepeats(batch) && !BatchTaken(db.jobs, batch)
    requires IsTodo(Insert(db, batch).jobs, x) && IsTodo(Insert(db, batch).jobs, y)
    requires Insert(db, batch).jobs[x].queueingLock.Some?
    requires Insert(db, batch).jobs[x].queueingLock == Insert(db, batch).jobs[y].queueingLock
    ensures x == y
  {
    InsertFresh(db, batch);
    if x in db.jobs {
      if y !in db.jobs {
        var k := InsertedRow(db, batch, y);
      }
    } else {
      var i := InsertedRow(db, batch, x);
      if y !in db.jobs {
        var j := InsertedRow(db, batch, y);
        assert i < j || j < i || i == j;
      }
    }
  }

  lemma {:induction false} FirstIsTop(jobs: map<JobId, Job>, queues: Option<set<string>>, now: int, skipped: set<JobId>, n: nat)
    ensures var first := First(jobs, queues, now, skipped, n);
            && (first.None? <==> forall id :: 0 <= id < n && id !in skipped ==> !Eligible(jobs, id, queues, now))
            && (first.Some? ==> forall id :: 0 <= id < n && id !in skipped && Eligible(jobs, id, queues, now) ==>
                  id == first.value || Ahead(jobs, first.value, id))
  {
    if n > 0 {
      FirstIsTop(jobs, queues, now, skipped, n - 1);
    }
  }

  /** Taking an eligible job cannot violate the lock index: nothing with its lock is running. */
  lemma TakeIsLegal(jobs: map<JobId, Job>, id: JobId, queues: Option<set<string>>, now: int, worker: nat)
    requires Legal(jobs) && Eligible(jobs, id, queues, now)
    ensures Legal(jobs[id := jobs[id].(status := Doing, worker := Some(worker))])
  {
    forall other | other in jobs && IsDoing(jobs, other) && jobs[id].lock.Some?
      ensures jobs[other].lock != jobs[id].lock
    {
      assert !Blocks(jobs, other, id);
    }
  }

  /** Fetch did not raise. It returned nothing because every unlocked row is ineligible; or it took, among the
      eligible ones, the job of highest priority and then of lowest identifier, and nothing else changed. */
  ghost predicate TookTheTop(db: Db, queues: Option<set<string>>, now: int, skipped: set<JobId>, worker: nat, fetched: Outcome) {
    && fetched.result.Success?
    && match fetched.result.value
       case None =>
         && fetched.db == db
         && forall id :: id in db.jobs && id !in skipped ==> !Eligible(db.jobs, id, queues, now)
       case Some(id) =>
         && Eligible(db.jobs, id, queues, now) && id !in skipped
         && (forall other :: other in db.jobs && other !in skipped && Eligible(db.jobs, other, queues, now) ==>
               other == id || Ahead(db.jobs, id, other))
         && fetched.db == SetJob(db, id, db.jobs[id].(status := Doing, worker := Some(worker)))
  }

  lemma FetchTakesTheTop(db: Db, queues: Option<set<string>>, now: int, skipped: set<JobId>, worker: nat)
    requires Sound(db)
    ensures TookTheTop(db, queues, now, skipped, worker, Fetch(db, queues, now, skipped, worker))
  {
    FirstIsTop(db.jobs, queues, now, skipped, db.nextId);
    var first := First(db.jobs, queues, now, skipped, db.nextId);
    if first.Some? {
      TakeIsLegal(db.jobs, first.value, queues, now, worker);
    }
  }

  /** At most one job of each lock is ever eligible, so concurrent fetches that skip each other's rows never
      contend for a lock. */
  lemma OneEligiblePerLock(jobs: map<JobId, Job>, x: JobId, y: JobId, queues: Option<set<string>>,
                           queues': Option<set<string>>, now: int, now': int)
    requires Eligible(jobs, x, queues, now) && Eligible(jobs, y, queues', now')
    requires jobs[x].lock.Some? && jobs[x].lock == jobs[y].lock
    ensures x == y
  {
    assert !Blocks(jobs, x, y) && !Blocks(jobs, y, x);
  }

  lemma FinishRaisesIff(db: Db, id: JobId, end: Status, delete: bool)
    requires Sound(db)
    ensures Finish(db, id, end, delete).result.Failure?
       <==> !(end.Succeeded? || end.Failed? || end.Aborted?) || !Unfinished(db.jobs, id)
  {
  }

  lemma CancelNeverRaises(db: Db, id: JobId, abort: bool, delete: bool)
    requires Sound(db)
    ensures Cancel(db, id, abort, delete).result.Success?
    ensures var jobs := db.jobs;
            Cancel(db, id, abort, delete).result.value == Some(id)
            <==> IsTodo(jobs, id) || (abort && IsDoing(jobs, id))
  {
  }

  /** Putting a job back is legal exactly when no abort is requested for it and its queueing lock is free. */
  lemma RequeueLegalIff(db: Db, id: JobId, retry: Retry)
    requires Sound(db) && id in db.jobs && !IsTodo(db.jobs, id)
    ensures Legal(db.jobs[id := Requeued(db.jobs[id], retry)])
       <==> !db.jobs[id].abortRequested && !QueueingTaken(db.jobs, id)
  {
    var t := db.jobs[id := Requeued(db.jobs[id], retry)];
    if Legal(t) {
      assert IsTodo(t, id);
      if QueueingTaken(db.jobs, id) {
        var other :| other in db.jobs && other != id && IsTodo(db.jobs, other)
          && db.jobs[id].queueingLock.Some? && db.jobs[other].queueingLock == db.jobs[id].queueingLock;
        assert IsTodo(t, other);
      }
    }
    if !db.jobs[id].abortRequested && !QueueingTaken(db.jobs, id) {
      RequeueLegal(db, id, retry);
    }
  }

  lemma RequeueLegal(db: Db, id: JobId, retry: Retry)
    requires Sound(db) && id in db.jobs && !db.jobs[id].abortRequested && !QueueingTaken(db.jobs, id)
    ensures Legal(db.jobs[id := Requeued(db.jobs[id], retry)])
  {
    var jobs := db.jobs;
    var t := jobs[id := Requeued(jobs[id], retry)];
    forall x | x in t && IsDoing(t, x) ensures x != id && IsDoing(jobs, x) && jobs[x] == t[x] {
    }
    forall x, y | (x in t && y in t && IsTodo(t, x) && IsTodo(t, y)
      && t[x].queueingLock.Some? && t[x].queueingLock == t[y].queueingLock)
      ensures x == y
    {
      assert x != id ==> IsTodo(jobs, x) && jobs[x] == t[x];
      assert y != id ==> IsTodo(jobs, y) && jobs[y] == t[y];
    }
  }

  /** The first version raises exactly for a job that is not running, or that must go back to waiting while
      another waiting job has its queueing lock. */
  lemma RetryV1RaisesIff(db: Db, id: JobId, retry: Retry)
    requires Sound(db)
    ensures RetryV1(db, id, retry).result.Failure?
       <==> !IsDoing(db.jobs, id) || (!db.jobs[id].abortRequested && QueueingTaken(db.jobs, id))
  {
    if IsDoing(db.jobs, id) && !db.jobs[id].abortRequested {
      RequeueLegalIff(db, id, retry);
    }
  }

  /** The second version also raises for a failed job that still carries its abort request: the waiting row
      would break the check constraint. */
  lemma RetryV2RaisesIff(db: Db, id: JobId, retry: Retry)
    requires Sound(db)
    ensures RetryV2(db, id, retry).result.Failure?
       <==> || (!IsDoing(db.jobs, id) && !IsFailed(db.jobs, id))
            || (IsDoing(db.jobs, id) && !db.jobs[id].abortRequested && QueueingTaken(db.jobs, id))
            || (IsFailed(db.jobs, id) && (db.jobs[id].abortRequested || QueueingTaken(db.jobs, id)))
  {
    if IsFailed(db.jobs, id) || (IsDoing(db.jobs, id) && !db.jobs[id].abortRequested) {
      RequeueLegalIff(db, id, retry);
    }
  }

  /* ---------- jobs that are over ---------- */

  /** A failed job that still carries its abort request. */
  predicate AbortedFailure(db: Db, id: JobId) {
    IsFailed(db.jobs, id) && db.jobs[id].abortRequested
  }

  predicate Over(db: Db, id: JobId) {
    && id in db.jobs
    && (db.jobs[id].status.Succeeded? || db.jobs[id].status.Cancelled? || db.jobs[id].status.Aborted?
        || AbortedFailure(db, id))
  }

  lemma ExecKeepsOver(db: Db, call: Call, id: JobId)
    requires Sound(db) && Over(db, id)
    ensures id in Exec(db, call).db.jobs && Exec(db, call).db.jobs[id] == db.jobs[id]
  {
    match call
    case DeferJobs(batch) => InsertFresh(db, batch);
    case RetryJobV2(other, retry) => RetryV2RaisesIff(db, other, retry);
    case _ =>
  }

  /** Succeeded, cancelled and aborted jobs, and failed ones with an abort request, are over for good: no call,
      in any run, ever changes them again. */
  lemma {:induction false} OverIsForever(db: Db, calls: seq<Call>, id: JobId)
    requires Sound(db) && Over(db, id)
    ensures id in Execute(db, calls).jobs && Execute(db, calls).jobs[id] == db.jobs[id]
    decreases |calls|
  {
    if calls != [] {
      var n := |calls| - 1;
      OverIsForever(db, calls[..n], id);
      ExecuteSound(db, calls[..n]);
      ExecKeepsOver(Execute(db, calls[..n]), calls[n], id);
    }
  }

  /** A cancelled waiting job is gone or over; a running one goes on, and its next retry ends it instead. */
  lemma CancelMeans(db: Db, id: JobId, abort: bool, delete: bool, retry: Retry)
    requires Sound(db)
    ensures var t := Cancel(db, id, abort, delete).db;
            && (IsTodo(db.jobs, id) ==> if delete then id !in t.jobs else Over(t, id))
            && (IsDoing(db.jobs, id) && abort ==> IsDoing(t.jobs, id) && AbortedFailure(RetryV1(t, id, retry).db, id))
            && (forall other :: other != id ==>
                  && (other in t.jobs <==> other in db.jobs)
                  && (other in db.jobs ==> t.jobs[other] == db.jobs[other]))
  {
    CancelNeverRaises(db, id, abort, delete);
    CancelSound(db, id, abort, delete);
    var t := Cancel(db, id, abort, delete).db;
    if IsDoing(db.jobs, id) && abort {
      RetryV1RaisesIff(t, id, retry);
    }
  }

  /** With the second version too: retrying a running job after its abort was requested leaves it stuck. */
  lemma RetryOfAbortedGetsStuck(db: Db, id: JobId, retry: Retry)
    requires Sound(db) && IsDoing(db.jobs, id)
    ensures var requested := Cancel(db, id, true, false).db;
            AbortedFailure(RetryV2(requested, id, retry).db, id)
  {
    CancelNeverRaises(db, id, true, false);
    var requested := Cancel(db, id, true, false).db;
    assert requested == SetJob(db, id, db.jobs[id].(abortRequested := true));
    ExecSound(db, CancelJob(id, true, false));
    RetryV2RaisesIff(requested, id, retry);
  }

  /* ---------- the attempt counter ---------- */

  /** What one call adds to the balance of a job: a run taken, a failed job put back, or, the other way, a
      retry that an abort request turned into a failure. */
  function Delta(db: Db, call: Call, id: JobId): int {
    match call
    case FetchJob(queues, now, skipped, worker) =>
      if Fetch(db, queues, now, skipped, worker).result == Success(Some(id)) then 1 else 0
    case RetryJobV1(other, retry) =>
      if other == id && IsDoing(db.jobs, id) && db.jobs[id].abortRequested then -1 else 0
    case RetryJobV2(other, retry) =>
      if other != id then 0
      else if IsDoing(db.jobs, id) && db.jobs[id].abortRequested then -1
      else if IsFailed(db.jobs, id) && RetryV2(db, id, retry).result.Success? then 1
      else 0
    case _ => 0
  }

  function Balance(db: Db, calls: seq<Call>, id: JobId): int
    decreases |calls|
  {
    if calls == [] then 0
    else
      var n := |calls| - 1;
      Balance(db, calls[..n], id) + Delta(Execute(db, calls[..n]), calls[n], id)
  }

  function Score(job: Job): int {
    job.attempts + if job.status.Doing? then 1 else 0
  }

  lemma FetchScores(db: Db, queues: Option<set<string>>, now: int, skipped: set<JobId>, worker: nat, id: JobId)
    requires Sound(db) && id in db.jobs
    ensures var t := Fetch(db, queues, now, skipped, worker).db;
            && id in t.jobs
            && Score(t.jobs[id]) == Score(db.jobs[id]) + Delta(db, FetchJob(queues, now, skipped, worker), id)
  {
    FetchTakesTheTop(db, queues, now, skipped, worker);
  }

  lemma RetryScores(db: Db, id: JobId, retry: Retry)
    requires Sound(db) && id in db.jobs
    ensures var t, u := RetryV1(db, id, retry).db, RetryV2(db, id, retry).db;
            && id in t.jobs && Score(t.jobs[id]) == Score(db.jobs[id]) + Delta(db, RetryJobV1(id, retry), id)
            && id in u.jobs && Score(u.jobs[id]) == Score(db.jobs[id]) + Delta(db, RetryJobV2(id, retry), id)
  {
    RetryV1RaisesIff(db, id, retry);
    RetryV2RaisesIff(db, id, retry);
  }

  lemma ExecScores(db: Db, call: Call, id: JobId)
    requires Sound(db)
    ensures var t := Exec(db, call).db;
            id in t.jobs ==> Score(t.jobs[id]) == if id in db.jobs then Score(db.jobs[id]) + Delta(db, call, id) else 0
    ensures id !in db.jobs ==> Delta(db, call, id) == 0
  {
    match call
    case DeferJobs(batch) =>
      InsertFresh(db, batch);
      if db.nextId <= id < db.nextId + |batch| {
        assert Insert(db, batch).jobs[db.nextId + (id - db.nextId)] == Row(batch[id - db.nextId]);
      }
    case FetchJob(queues, now, skipped, worker) =>
      FetchTakesTheTop(db, queues, now, skipped, worker);
      if id in db.jobs {
        FetchScores(db, queues, now, skipped, worker, id);
      }
    case FinishJob(other, end, delete) => FinishRaisesIff(db, other, end, delete);
    case CancelJob(other, abort, delete) => CancelNeverRaises(db, other, abort, delete);
    case RetryJobV1(other, retry) =>
      if id in db.jobs && other == id {
        RetryScores(db, id, retry);
      }
    case RetryJobV2(other, retry) =>
      if id in db.jobs && other == id {
        RetryScores(db, id, retry);
      }
  }

  lemma ExecKeepsGone(db: Db, call: Call, id: JobId)
    requires Sound(db) && id < db.nextId && id !in db.jobs
    ensures id !in Exec(db, call).db.jobs
  {
    match call
    case DeferJobs(batch) => InsertFresh(db, batch);
    case _ =>
  }

  /** The attempt counter over every run from an empty queue: attempts, plus one while the job runs, is the number
      of times it was fetched, plus the failed jobs put back, minus the retries that an abort request turned
      into a failure. So a run that failed and is then retried counts twice, and an aborted retry not at all. */
  lemma {:induction false} AttemptsAccount(calls: seq<Call>, id: JobId)
    ensures var t := Execute(Db(map[], 0), calls);
            && (id in t.jobs ==> Score(t.jobs[id]) == Balance(Db(map[], 0), calls, id))
            && (id >= t.nextId ==> Balance(Db(map[], 0), calls, id) == 0)
    decreases |calls|
  {
    if calls != [] {
      var n := |calls| - 1;
      var mid := Execute(Db(map[], 0), calls[..n]);
      AttemptsAccount(calls[..n], id);
      ExecuteSound(Db(map[], 0), calls[..n]);
      ExecScores(mid, calls[n], id);
      ExecSound(mid, calls[n]);
      if id < mid.nextId && id !in mid.jobs {
        ExecKeepsGone(mid, calls[n], id);
      }
    }
  }

  /* ---------- work conservation ---------- */

  function Todos(jobs: map<JobId, Job>): set<JobId> {
    set id | id in jobs && IsTodo(jobs, id)
  }

  /** Nothing runs and everything that waits is due. */
  predicate Idle(jobs: map<JobId, Job>, now: int) {
    forall id :: id in jobs ==> !IsDoing(jobs, id) && (IsTodo(jobs, id) ==> Due(jobs[id], now))
  }

  lemma {:induction false} TopTodo(jobs: map<JobId, Job>, n: nat) returns (top: JobId)
    requires exists id :: 0 <= id < n && IsTodo(jobs, id)
    ensures top < n && IsTodo(jobs, top)
    ensures forall id :: 0 <= id < n && IsTodo(jobs, id) && id != top ==> Ahead(jobs, top, id)
  {
    if n > 1 && exists id :: 0 <= id < n - 1 && IsTodo(jobs, id) {
      top := TopTodo(jobs, n - 1);
      if IsTodo(jobs, n - 1) && Ahead(jobs, n - 1, top) {
        top := n - 1;
      }
    } else {
      top := n - 1;
    }
  }

  lemma TopIsEligible(jobs: map<JobId, Job>, now: int, top: JobId)
    requires Idle(jobs, now) && IsTodo(jobs, top)
    requires forall id :: IsTodo(jobs, id) && id != top ==> Ahead(jobs, top, id)
    ensures Eligible(jobs, top, None, now)
  {
    forall other | other in jobs ensures !Blocks(jobs, other, top) {
      assert IsTodo(jobs, other) && other != top ==> Ahead(jobs, top, other);
    }
  }

  lemma IdleFetchFinds(db: Db, now: int, worker: nat, fetched: Outcome)
    requires Sound(db) && Idle(db.jobs, now) && TookTheTop(db, None, now, {}, worker, fetched)
    ensures fetched.result.value.Some? <==> Todos(db.jobs) != {}
  {
    if fetched.result.value.Some? {
      assert fetched.result.value.value in Todos(db.jobs);
    }
    if Todos(db.jobs) != {} {
      var some :| some in Todos(db.jobs);
      var top := TopTodo(db.jobs, db.nextId);
      TopIsEligible(db.jobs, now, top);
    }
  }

  /** Work conservation: with nothing running, everything due, all queues targeted and no row locked, fetch
      returns a job exactly when one is waiting. Locks and priorities cannot deadlock. */
  lemma WorkConserving(db: Db, now: int, worker: nat)
    requires Sound(db) && Idle(db.jobs, now)
    ensures var fetched := Fetch(db, None, now, {}, worker);
            fetched.result.Success? && (fetched.result.value.Some? <==> Todos(db.jobs) != {})
  {
    FetchTakesTheTop(db, None, now, {}, worker);
    IdleFetchFinds(db, now, worker, Fetch(db, None, now, {}, worker));
  }

  /** Being due matters: a job scheduled for later holds back every due job behind it on its lock. */
  lemma HeadOfLineBlocks(ahead: Job, behind: Job, now: int, worker: nat)
    requires ahead.status.Todo? && behind.status.Todo? && !ahead.abortRequested && !behind.abortRequested
    requires ahead.lock.Some? && ahead.lock == behind.lock && ahead.queueingLock.None? && behind.queueingLock.None?
    requires ahead.priority >= behind.priority && !Due(ahead, now)
    ensures var db := Db(map[0 := ahead, 1 := behind], 2);
            Sound(db) && Fetch(db, None, now, {}, worker) == Outcome(db, Success(None))
  {
    var db := Db(map[0 := ahead, 1 := behind], 2);
    FetchTakesTheTop(db, None, now, {}, worker);
    assert Blocks(db.jobs, 0, 1);
  }

  /* ---------- draining the queue ---------- */

  /** One worker turn: fetch, run, finish. */
  function Turn(db: Db, now: int, worker: nat): Db {
    match Fetch(db, None, now, {}, worker).result
    case Success(Some(id)) => Finish(Fetch(db, None, now, {}, worker).db, id, Succeeded, false).db
    case _ => db
  }

  function Turns(db: Db, now: int, worker: nat, n: nat): Db
    decreases n
  {
    if n == 0 then db else Turn(Turns(db, now, worker, n - 1), now, worker)
  }

  predicate RanOnce(before: Job, after: Job, worker: nat) {
    after == before.(status := Succeeded, attempts := before.attempts + 1, worker := Some(worker))
  }

  lemma FinishTaken(db: Db, taken: Db, id: JobId, worker: nat)
    requires Sound(db) && IsTodo(db.jobs, id) && Sound(taken)
    requires taken == SetJob(db, id, db.jobs[id].(status := Doing, worker := Some(worker)))
    ensures var t := Finish(taken, id, Succeeded, false).db;
            && Sound(t) && t.nextId == db.nextId
            && id in t.jobs && t.jobs == db.jobs[id := t.jobs[id]] && RanOnce(db.jobs[id], t.jobs[id], worker)
  {
    ExecSound(taken, FinishJob(id, Succeeded, false));
    FinishRaisesIff(taken, id, Succeeded, false);
    var t := Finish(taken, id, Succeeded, false).db;
    assert t.jobs == db.jobs[id := t.jobs[id]];
  }

  lemma TurnRunsOne(db: Db, now: int, worker: nat) returns (id: JobId)
    requires Sound(db) && Idle(db.jobs, now) && Todos(db.jobs) != {}
    ensures var t := Turn(db, now, worker);
            && Sound(t) && Idle(t.jobs, now)
            && id in Todos(db.jobs) && Todos(t.jobs) == Todos(db.jobs) - {id}
            && id in t.jobs && t.jobs == db.jobs[id := t.jobs[id]] && RanOnce(db.jobs[id], t.jobs[id], worker)
  {
    WorkConserving(db, now, worker);
    FetchTakesTheTop(db, None, now, {}, worker);
    var fetched := Fetch(db, None, now, {}, worker);
    id := fetched.result.value.value;
    ExecSound(db, FetchJob(None, now, {}, worker));
    FinishTaken(db, fetched.db, id, worker);
    var t := Turn(db, now, worker);
    assert Todos(t.jobs) == Todos(db.jobs) - {id};
  }

  /** The jobs that stopped waiting between two tables ran once each; the others are as they were. */
  ghost predicate RanBetween(jobs: map<JobId, Job>, jobs': map<JobId, Job>, worker: nat) {
    && jobs'.Keys == jobs.Keys && Todos(jobs') <= Todos(jobs)
    && forall id :: id in jobs ==>
         if id in Todos(jobs) - Todos(jobs') then RanOnce(jobs[id], jobs'[id], worker) else jobs'[id] == jobs[id]
  }

  lemma RanOneMore(jobs: map<JobId, Job>, mid: map<JobId, Job>, jobs': map<JobId, Job>, id: JobId, worker: nat)
    requires RanBetween(jobs, mid, worker) && id in Todos(mid)
    requires id in jobs' && jobs' == mid[id := jobs'[id]] && RanOnce(mid[id], jobs'[id], worker)
    requires Todos(jobs') == Todos(mid) - {id}
    ensures RanBetween(jobs, jobs', worker)
  {
  }

  ghost predicate Drained(db: Db, t: Db, now: int, worker: nat, n: nat) {
    && Sound(t) && Idle(t.jobs, now)
    && |Todos(t.jobs)| == |Todos(db.jobs)| - n && RanBetween(db.jobs, t.jobs, worker)
  }

  lemma DrainedNothing(db: Db, now: int, worker: nat)
    requires Sound(db) && Idle(db.jobs, now)
    ensures Drained(db, db, now, worker, 0)
  {
  }

  lemma DrainOneMore(db: Db, mid: Db, now: int, worker: nat, n: nat)
    requires Drained(db, mid, now, worker, n) && n < |Todos(db.jobs)|
    ensures Drained(db, Turn(mid, now, worker), now, worker, n + 1)
  {
    var id := TurnRunsOne(mid, now, worker);
    RanOneMore(db.jobs, mid.jobs, Turn(mid, now, worker).jobs, id, worker);
  }

  /** From an idle queue, every turn runs one more waiting job, once, and leaves everything else alone. */
  lemma {:induction false} TurnsDrain(db: Db, now: int, worker: nat, n: nat)
    requires Drained(db, db, now, worker, 0)
    ensures n <= |Todos(db.jobs)| ==> Drained(db, Turns(db, now, worker, n), now, worker, n)
    decreases n
  {
    if n > 0 {
      TurnsDrain(db, now, worker, n - 1);
      if n <= |Todos(db.jobs)| {
        DrainOneMore(db, Turns(db, now, worker, n - 1), now, worker, n - 1);
      }
    }
  }

  /** As many turns as there are waiting jobs empty the queue, whatever the locks and priorities. */
  lemma QueueDrains(db: Db, now: int, worker: nat)
    requires Sound(db) && Idle(db.jobs, now)
    ensures var t := Turns(db, now, worker, |Todos(db.jobs)|);
            && Todos(t.jobs) == {} && t.jobs.Keys == db.jobs.Keys
            && (forall id :: id in db.jobs ==>
                  if IsTodo(db.jobs, id) then RanOnce(db.jobs[id], t.jobs[id], worker)
                  else t.jobs[id] == db.jobs[id])
  {
    DrainedNothing(db, now, worker);
    TurnsDrain(db, now, worker, |Todos(db.jobs)|);
    var t := Turns(db, now, worker, |Todos(db.jobs)|);
    assert Todos(t.jobs) == {};
  }

  /** Over every run from an empty queue: at most one job of a lock is running, waiting jobs never carry an abort
      request, no two waiting jobs share a queueing lock, and no fetch ever raises. */
  lemma {:induction false} QueueTheorem(calls: seq<Call>)
    ensures var t := Execute(Db(map[], 0), calls);
            && (forall x, y :: (IsDoing(t.jobs, x) && IsDoing(t.jobs, y)
                                && t.jobs[x].lock.Some? && t.jobs[x].lock == t.jobs[y].lock) ==> x == y)
            && (forall x :: IsTodo(t.jobs, x) ==> !t.jobs[x].abortRequested)
            && (forall x, y :: (IsTodo(t.jobs, x) && IsTodo(t.jobs, y) && t.jobs[x].queueingLock.Some?
                                && t.jobs[x].queueingLock == t.jobs[y].queueingLock) ==> x == y)
            && (forall queues, now, skipped, worker :: Fetch(t, queues, now, skipped, worker).result.Success?)
  {
    ExecuteSound(Db(map[], 0), calls);
    var t := Execute(Db(map[], 0), calls);
    forall queues, now, skipped, worker ensures Fetch(t, queues, now, skipped, worker).result.Success? {
      FetchTakesTheTop(t, queues, now, skipped, worker);
    }
  }

  /* ---------- the functions over a mutable table ---------- */

  class JobTable {
    var jobs: map<JobId, Job>
    var nextId: JobId

    constructor ()
      ensures View() == Db(map[], 0)
    {
      jobs, nextId := map[], 0;
    }

    function View(): Db
      reads this
    {
      Db(jobs, nextId)
    }

    /** The end of a statement: a violated constraint undoes it. */
    method Settle(proposed: map<JobId, Job>, id: Option<JobId>) returns (result: Result<Option<JobId>, Problem>)
      modifies this`jobs
      ensures Outcome(View(), result) == Commit(old(View()), old(View()).(jobs := proposed), id)
    {
      if !Legal(proposed) {
        return Failure(ConstraintViolated);
      }
      jobs := proposed;
      result := Success(id);
    }

    method DeferAll(batch: seq<NewJob>) returns (result: Result<Option<JobId>, Problem>)
      modifies this
      ensures Outcome(View(), result) == Defer(old(View()), batch)
    {
      var proposed := View();
      assert batch[..0] == [];
      for i := 0 to |batch|
        invariant proposed == Insert(old(View()), batch[..i]) && View() == old(View())
      {
        assert batch[..i + 1][..i] == batch[..i];
        proposed := Db(proposed.jobs[proposed.nextId := Row(batch[i])], proposed.nextId + 1);
      }
      assert batch[..|batch|] == batch;
      if !Legal(proposed.jobs) {
        return Failure(ConstraintViolated);
      }
      jobs, nextId := proposed.jobs, proposed.nextId;
      result := Success(None);
    }

    method FetchNext(queues: Option<set<string>>, now: int, skipped: set<JobId>, worker: nat)
      returns (result: Result<Option<JobId>, Problem>)
      modifies this`jobs
      ensures Outcome(View(), result) == Fetch(old(View()), queues, now, skipped, worker)
    {
      var candidate := First(jobs, queues, now, skipped, nextId);
      if candidate.None? {
        return Success(None);
      }
      var id := candidate.value;
      result := Settle(jobs[id := jobs[id].(status := Doing, worker := Some(worker))], Some(id));
    }

    method FinishOne(id: JobId, end: Status, delete: bool) returns (result: Result<Option<JobId>, Problem>)
      modifies this`jobs
      ensures Outcome(View(), result) == Finish(old(View()), id, end, delete)
    {
      if !end.Succeeded? && !end.Failed? && !end.Aborted? {
        return Failure(BadEndStatus);
      }
      if !Unfinished(jobs, id) {
        return Failure(NotFound);
      }
      if delete {
        jobs := jobs - {id};
        return Success(None);
      }
      var attempts := if jobs[id].status.Doing? then jobs[id].attempts + 1 else jobs[id].attempts;
      result := Settle(jobs[id := jobs[id].(status := end, abortRequested := false, attempts := attempts)], None);
    }

    method CancelOne(id: JobId, abort: bool, delete: bool) returns (result: Result<Option<JobId>, Problem>)
      modifies this`jobs
      ensures Outcome(View(), result) == Cancel(old(View()), id, abort, delete)
    {
      if delete && IsTodo(jobs, id) {
        jobs := jobs - {id};
        return Success(Some(id));
      }
      if abort {
        if Unfinished(jobs, id) {
          var status := if jobs[id].status.Todo? then Cancelled else jobs[id].status;
          result := Settle(jobs[id := jobs[id].(abortRequested := true, status := status)], Some(id));
          return;
        }
      } else if IsTodo(jobs, id) {
        result := Settle(jobs[id := jobs[id].(status := Cancelled)], Some(id));
        return;
      }
      result := Success(None);
    }

    method RetryRunning(id: JobId, retry: Retry) returns (result: Result<Option<JobId>, Problem>)
      modifies this`jobs
      ensures Outcome(View(), result) == RetryV1(old(View()), id, retry)
    {
      if !IsDoing(jobs, id) {
        return Failure(NotFound);
      }
      if jobs[id].abortRequested {
        result := Settle(jobs[id := jobs[id].(status := Failed)], None);
      } else {
        result := Settle(jobs[id := Requeued(jobs[id], retry)], None);
      }
    }

    method RetryOne(id: JobId, retry: Retry) returns (result: Result<Option<JobId>, Problem>)
      modifies this`jobs
      ensures Outcome(View(), result) == RetryV2(old(View()), id, retry)
    {
      if !IsDoing(jobs, id) && !IsFailed(jobs, id) {
        return Failure(NotFound);
      }
      if jobs[id].status.Doing? && jobs[id].abortRequested {
        result := Settle(jobs[id := jobs[id].(status := Failed)], None);
      } else {
        result := Settle(jobs[id := Requeued(jobs[id], retry)], None);
      }
    }
  }
}
