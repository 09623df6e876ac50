/** Call attempts: admission (T-1), completion (T-2) and interruption (T-6) as database transactions. Each
    transaction is one atomic step; the environment may fire any of them with any stale session. */
module CallModel {
  import opened Wrappers

  type Uuid = nat

  datatype Status = InProgress | Completed | GradingPending | Graded | Interrupted

  /** A candidate attempt carries its stage. */
  datatype Participant = Rep(account: Uuid) | Candidate(candidate: Uuid, stage: Uuid)

  datatype Attempt = Attempt(drill: Uuid, participant: Participant, status: Status, restart: bool)

  datatype TranscriptRow = TranscriptRow(sequence: nat, speaker: string, atMs: nat, text: string)

  datatype Allowance = Allowance(used: int, allowed: int)

  datatype CandidateRow = CandidateRow(position: Uuid, completed: bool)

  datatype Job = GradeAttempt(attempt: Uuid) | RenderReport(candidate: Uuid) | DispatchEmail(candidate: Uuid)

  /** `plans` lists the stages of a position by ascending `ord`; `allowances` is keyed by drill and rep (one
      assignment per drill, one recipient row per rep); `sends` holds the candidates with an E-5 row. */
  datatype Db = Db(
    attempts: map<Uuid, Attempt>,
    nextAttempt: Uuid,
    transcripts: map<Uuid, seq<TranscriptRow>>,
    allowances: map<(Uuid, Uuid), Allowance>,
    candidates: map<Uuid, CandidateRow>,
    plans: map<Uuid, seq<Uuid>>,
    selfAuthored: set<Uuid>,
    notifying: set<Uuid>,
    sends: set<Uuid>,
    jobs: multiset<Job>)

  datatype Request = RepCall(account: Uuid, drill: Uuid) | CandidateCall(candidate: Uuid, stage: Uuid, drill: Uuid)

  datatype Refusal = NotPermitted | AllowanceExhausted | StageConsumed | StageNotNext

  datatype Ending = Won | Lost | Aborted

  /* ---------- reading the plan ---------- */

  predicate Counted(status: Status) {
    status.Completed? || status.GradingPending? || status.Graded?
  }

  function Plan(db: Db, candidate: Uuid): seq<Uuid> {
    if candidate in db.candidates && db.candidates[candidate].position in db.plans
    then db.plans[db.candidates[candidate].position]
    else []
  }

  predicate On(attempt: Attempt, candidate: Uuid, stage: Uuid) {
    attempt.participant == Candidate(candidate, stage)
  }

  predicate Done(db: Db, candidate: Uuid, stage: Uuid) {
    exists a :: a in db.attempts && On(db.attempts[a], candidate, stage) && Counted(db.attempts[a].status)
  }

  function InterruptedOn(db: Db, candidate: Uuid, stage: Uuid): set<Uuid> {
    set a | a in db.attempts && On(db.attempts[a], candidate, stage) && db.attempts[a].status.Interrupted?
  }

  predicate Closed(db: Db, candidate: Uuid, stage: Uuid) {
    Done(db, candidate, stage) || |InterruptedOn(db, candidate, stage)| >= 2
  }

  predicate AllClosed(db: Db, candidate: Uuid) {
    forall stage :: stage in Plan(db, candidate) ==> Closed(db, candidate, stage)
  }

  /** The first open stage: `where not done and interrupted < 2 order by ord limit 1`. */
  function NextStage(db: Db, candidate: Uuid, stages: seq<Uuid>): Option<Uuid> {
    if stages == [] then None
    else if Closed(db, candidate, stages[0]) then NextStage(db, candidate, stages[1..])
    else Some(stages[0])
  }

  /* ---------- T-1 ---------- */

  predicate AllowanceLeft(db: Db, key: (Uuid, Uuid)) {
    key in db.allowances && db.allowances[key].used < db.allowances[key].allowed
  }

  function AddUsed(db: Db, key: (Uuid, Uuid), used: int): Db
    requires key in db.allowances
  {
    db.(allowances := db.allowances[key := db.allowances[key].(used := used)])
  }

  /** Stage order and the restart allowance: the refusal, or whether this is the restart. */
  function StageGate(db: Db, candidate: Uuid, stage: Uuid): Result<bool, Refusal> {
    var interrupted := if stage in Plan(db, candidate) then |InterruptedOn(db, candidate, stage)| else 0;
    if stage in Plan(db, candidate) && Done(db, candidate, stage) then Failure(StageConsumed)
    else if interrupted >= 2 then Failure(StageConsumed)
    else if NextStage(db, candidate, Plan(db, candidate)) != Some(stage) then Failure(StageNotNext)
    else Success(interrupted == 1)
  }

  function InsertAttempt(db: Db, attempt: Attempt): Db {
    db.(attempts := db.attempts[db.nextAttempt := attempt], nextAttempt := db.nextAttempt + 1)
  }

  datatype Admission = Admission(db: Db, result: Result<Uuid, Refusal>)

  /** `permitted` stands for service access, the erasure fence and the consent on record. */
  function Admit(db: Db, request: Request, permitted: bool): Admission {
    if !permitted then Admission(db, Failure(NotPermitted))
    else
      match request
      case RepCall(account, drill) =>
        var key := (drill, account);
        if drill in db.selfAuthored then
          Admission(InsertAttempt(db, Attempt(drill, Rep(account), InProgress, false)), Success(db.nextAttempt))
        else if AllowanceLeft(db, key) then
          Admission(InsertAttempt(AddUsed(db, key, db.allowances[key].used + 1),
                                  Attempt(drill, Rep(account), InProgress, false)), Success(db.nextAttempt))
        else Admission(db, Failure(AllowanceExhausted))
      case CandidateCall(candidate, stage, drill) =>
        match StageGate(db, candidate, stage)
        case Failure(refusal) => Admission(db, Failure(refusal))
        case Success(restart) =>
          Admission(InsertAttempt(db, Attempt(drill, Candidate(candidate, stage), InProgress, restart)),
                    Success(db.nextAttempt))
  }

  /* ---------- closing a plan ---------- */

  predicate PlanCloses(db: Db, candidate: Uuid) {
    candidate in db.candidates && !db.candidates[candidate].completed && AllClosed(db, candidate)
  }

  /** `advance_candidate_if_closed`: the completion stamp, the report job, the E-5 row and its job. */
  function Advance(db: Db, candidate: Uuid): Db {
    if !PlanCloses(db, candidate) then db
    else
      var stamped := db.(candidates := db.candidates[candidate := db.candidates[candidate].(completed := true)],
                         jobs := db.jobs + multiset{RenderReport(candidate)});
      if db.candidates[candidate].position in db.notifying && candidate !in db.sends then
        stamped.(sends := stamped.sends + {candidate}, jobs := stamped.jobs + multiset{DispatchEmail(candidate)})
      else stamped
  }

  function AdvanceFor(db: Db, participant: Participant): Db {
    match participant
    case Rep(_) => db
    case Candidate(candidate, _) => Advance(db, candidate)
  }

  /* ---------- T-2 ---------- */

  predicate DistinctRows(rows: seq<TranscriptRow>) {
    forall i, j :: 0 <= i < j < |rows| ==> rows[i].sequence != rows[j].sequence
  }

  function SetStatus(db: Db, a: Uuid, status: Status): Db
    requires a in db.attempts
  {
    db.(attempts := db.attempts[a := db.attempts[a].(status := status)])
  }

  function InsertRows(db: Db, a: Uuid, rows: seq<TranscriptRow>): Db {
    if rows == [] then db else db.(transcripts := db.transcripts[a := rows])
  }

  /** The unique index over counted attempts of one candidate and stage. */
  predicate CountedElsewhere(db: Db, a: Uuid)
    requires a in db.attempts
  {
    match db.attempts[a].participant
    case Rep(_) => false
    case Candidate(candidate, stage) => Done(db, candidate, stage)
  }

  datatype Transaction = Transaction(db: Db, ending: Ending)

  /** `complete`: an attempt that is missing, fenced or no longer in progress is left alone. A key or index
      violation aborts the transaction. */
  function Complete(db: Db, a: Uuid, rows: seq<TranscriptRow>, fenced: bool): Transaction {
    if a !in db.attempts || fenced || !db.attempts[a].status.InProgress? then Transaction(db, Lost)
    else if !DistinctRows(rows) || CountedElsewhere(db, a) then Transaction(db, Aborted)
    else
      var flipped := SetStatus(InsertRows(db, a, rows), a, Completed);
      var advanced := AdvanceFor(flipped, db.attempts[a].participant);
      Transaction(advanced.(jobs := advanced.jobs + multiset{GradeAttempt(a)}), Won)
  }

  /* ---------- T-6 ---------- */

  function Reverse(db: Db, drill: Uuid, account: Uuid): Db {
    var key := (drill, account);
    if key in db.allowances then
      AddUsed(db, key, if db.allowances[key].used - 1 > 0 then db.allowances[key].used - 1 else 0)
    else db
  }

  /** `interrupt`: a call that never established deletes its attempt, any other voids it. */
  function Interrupt(db: Db, a: Uuid, neverEstablished: bool): Transaction {
    if a !in db.attempts || !db.attempts[a].status.InProgress? then Transaction(db, Lost)
    else
      var attempt := db.attempts[a];
      var ended := if neverEstablished then db.(attempts := db.attempts - {a}) else SetStatus(db, a, Interrupted);
      match attempt.participant
      case Rep(account) => Transaction(Reverse(ended, attempt.drill, account), Won)
      case Candidate(candidate, _) =>
        Transaction(if neverEstablished then ended else Advance(ended, candidate), Won)
  }

  /* ---------- runs ---------- */

  datatype Action =
    | Request(request: Request, permitted: bool)
    | ReportCompletion(attempt: Uuid, rows: seq<TranscriptRow>, fenced: bool)
    | ReportEnding(attempt: Uuid, neverEstablished: bool)
    | Grading(attempt: Uuid, finished: bool)
    | SetNotify(position: Uuid, on: bool)

  /** Grading, by other code: a counted attempt moves to `grading_pending` or, finished, to `graded`. */
  function Grade(db: Db, a: Uuid, finished: bool): Db {
    if a in db.attempts && (db.attempts[a].status.Completed? || db.attempts[a].status.GradingPending?)
    then SetStatus(db, a, if finished then Graded else GradingPending)
    else db
  }

  function Exec(db: Db, action: Action): Db {
    match action
    case Request(request, permitted) => Admit(db, request, permitted).db
    case ReportCompletion(a, rows, fenced) => Complete(db, a, rows, fenced).db
    case ReportEnding(a, neverEstablished) => Interrupt(db, a, neverEstablished).db
    case Grading(a, finished) => Grade(db, a, finished)
    case SetNotify(position, on) =>
      db.(notifying := if on then db.notifying + {position} else db.notifying - {position})
  }

  /** A run: the runtime, the sweep, the webhook and the suspension path in any order, any number of times. */
  function Execute(db: Db, actions: seq<Action>): Db
    decreases |actions|
  {
    if actions == [] then db else Exec(Execute(db, actions[..|actions| - 1]), actions[|actions| - 1])
  }
}
