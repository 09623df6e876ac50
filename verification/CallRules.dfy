/** What each call transaction decides and writes, on the rows themselves: the rules of admission, completion and
    interruption without the helpers of `CallModel`. */
module CallRules {
  import opened Wrappers
  import opened CallModel
  import CallPlans

  /* ---------- the rows a decision rests on ---------- */

  function Finished(db: Db, candidate: Uuid, stage: Uuid): set<Uuid> {
    set a | a in db.attempts && db.attempts[a].participant == Candidate(candidate, stage)
            && db.attempts[a].status in {Completed, GradingPending, Graded}
  }

  function Voided(db: Db, candidate: Uuid, stage: Uuid): set<Uuid> {
    set a | a in db.attempts && db.attempts[a].participant == Candidate(candidate, stage)
            && db.attempts[a].status == Interrupted
  }

  /** Neither finished nor voided twice. */
  predicate Open(db: Db, candidate: Uuid, stage: Uuid) {
    Finished(db, candidate, stage) == {} && |Voided(db, candidate, stage)| < 2
  }

  /** The stages of the candidate's position by `ord`. */
  function Stages(db: Db, candidate: Uuid): seq<Uuid> {
    if candidate !in db.candidates then []
    else if db.candidates[candidate].position !in db.plans then []
    else db.plans[db.candidates[candidate].position]
  }

  ghost predicate FirstOpen(db: Db, candidate: Uuid, stage: Uuid) {
    var stages := Stages(db, candidate);
    exists i :: 0 <= i < |stages| && stages[i] == stage && Open(db, candidate, stages[i])
                && forall j :: 0 <= j < i ==> !Open(db, candidate, stages[j])
  }

  lemma OpenIsNotClosed(db: Db, candidate: Uuid, stage: Uuid)
    ensures Open(db, candidate, stage) <==> !Closed(db, candidate, stage)
    ensures Done(db, candidate, stage) <==> Finished(db, candidate, stage) != {}
    ensures InterruptedOn(db, candidate, stage) == Voided(db, candidate, stage)
  {
    if Done(db, candidate, stage) {
      var a :| a in db.attempts && On(db.attempts[a], candidate, stage) && Counted(db.attempts[a].status);
      assert a in Finished(db, candidate, stage);
    }
    assert InterruptedOn(db, candidate, stage) == Voided(db, candidate, stage);
  }

  /* ---------- admission ---------- */

  /** A rep is admitted if and only if the call is permitted and the drill is the rep's own or one use of its
      allowance is left; the refusal names the first condition that fails. An admission inserts the attempt and
      charges exactly that use; a refusal writes nothing. */
  lemma RepAdmittedIff(db: Db, account: Uuid, drill: Uuid, permitted: bool)
    ensures var admission := Admit(db, RepCall(account, drill), permitted);
            var key := (drill, account);
            var metered := drill !in db.selfAuthored;
            && (admission.result.Success? <==>
                  permitted && (metered ==> key in db.allowances && db.allowances[key].used < db.allowances[key].allowed))
            && (admission.result.Failure? ==>
                  admission.db == db && admission.result.error == if permitted then AllowanceExhausted else NotPermitted)
            && (admission.result.Success? ==>
                  && admission.result.value == db.nextAttempt
                  && admission.db == db.(
                       attempts := db.attempts[db.nextAttempt := Attempt(drill, Rep(account), InProgress, false)],
                       nextAttempt := db.nextAttempt + 1,
                       allowances := if !metered then db.allowances else
                         db.allowances[key := Allowance(db.allowances[key].used + 1, db.allowances[key].allowed)]))
  {
  }

  lemma GateFirstOpen(db: Db, candidate: Uuid, stage: Uuid)
    ensures NextStage(db, candidate, Plan(db, candidate)) == Some(stage) <==> FirstOpen(db, candidate, stage)
  {
    var stages := Plan(db, candidate);
    CallPlans.NextStageFirst(db, candidate, stages);
    forall x ensures Open(db, candidate, x) <==> !Closed(db, candidate, x) {
      OpenIsNotClosed(db, candidate, x);
    }
    var next := NextStage(db, candidate, stages);
    if next.Some? {
      var i: nat :| i < |stages| && CallPlans.FirstOpenAt(db, candidate, stages, next.value, i);
      assert FirstOpen(db, candidate, next.value);
      if FirstOpen(db, candidate, stage) {
        var j :| 0 <= j < |stages| && stages[j] == stage && Open(db, candidate, stages[j])
          && forall k :: 0 <= k < j ==> !Open(db, candidate, stages[k]);
        assert i == j;
      }
    }
  }

  /** A candidate is admitted if and only if the call is permitted and the stage is the first open one of the
      plan. A stage of the plan that is finished or was voided twice is consumed; any other is not next. The
      attempt is the restart exactly when one earlier attempt on the stage was voided. */
  lemma CandidateAdmittedIff(db: Db, candidate: Uuid, stage: Uuid, drill: Uuid, permitted: bool)
    ensures var admission := Admit(db, CandidateCall(candidate, stage, drill), permitted);
            && (admission.result.Success? <==> permitted && FirstOpen(db, candidate, stage))
            && (admission.result.Failure? ==>
                  && admission.db == db
                  && admission.result.error ==
                       if !permitted then NotPermitted
                       else if stage in Stages(db, candidate) && !Open(db, candidate, stage) then StageConsumed
                       else StageNotNext)
            && (admission.result.Success? ==>
                  && admission.result.value == db.nextAttempt
                  && admission.db == db.(
                       attempts := db.attempts[db.nextAttempt :=
                         Attempt(drill, Candidate(candidate, stage), InProgress, |Voided(db, candidate, stage)| == 1)],
                       nextAttempt := db.nextAttempt + 1))
  {
    OpenIsNotClosed(db, candidate, stage);
    GateFirstOpen(db, candidate, stage);
    assert Plan(db, candidate) == Stages(db, candidate);
    if FirstOpen(db, candidate, stage) {
      assert stage in Stages(db, candidate);
    }
  }

  /* ---------- closing a plan ---------- */

  /** The plan of the candidate had no stamp before and has no open stage after. */
  predicate Closes(before: Db, after: Db, candidate: Uuid) {
    && candidate in before.candidates && !before.candidates[candidate].completed
    && forall stage :: stage in Stages(before, candidate) ==> !Open(after, candidate, stage)
  }

  predicate Notifies(db: Db, candidate: Uuid) {
    candidate in db.candidates && db.candidates[candidate].position in db.notifying && candidate !in db.sends
  }

  /** `after` with the stamp, the report job, and the send with its job where the position asks for one and none
      exists; or `after` as it is when the plan does not close. */
  function Stamped(before: Db, after: Db, candidate: Uuid): Db {
    if !Closes(before, after, candidate) then after
    else
      var sends := Notifies(before, candidate);
      after.(candidates := before.candidates[candidate := CandidateRow(before.candidates[candidate].position, true)],
             sends := if sends then before.sends + {candidate} else before.sends,
             jobs := after.jobs + multiset{RenderReport(candidate)}
                     + if sends then multiset{DispatchEmail(candidate)} else multiset{})
  }

  lemma AdvanceStamps(before: Db, after: Db, candidate: Uuid)
    requires after == before.(attempts := after.attempts, transcripts := after.transcripts)
    ensures Advance(after, candidate) == Stamped(before, after, candidate)
  {
    forall stage ensures Open(after, candidate, stage) <==> !Closed(after, candidate, stage) {
      OpenIsNotClosed(after, candidate, stage);
    }
    assert PlanCloses(after, candidate) <==> Closes(before, after, candidate);
    assert Advance(after, candidate).jobs == Stamped(before, after, candidate).jobs;
  }

  /* ---------- completion ---------- */

  /** No two rows share a sequence number. */
  predicate RowsDistinct(rows: seq<TranscriptRow>) {
    forall i, j :: 0 <= i < |rows| && 0 <= j < |rows| && rows[i].sequence == rows[j].sequence ==> i == j
  }

  /** The rows and their index allow the attempt to be completed. */
  predicate Completable(db: Db, a: Uuid, rows: seq<TranscriptRow>)
    requires a in db.attempts
  {
    && RowsDistinct(rows)
    && (db.attempts[a].participant.Candidate? ==>
          Finished(db, db.attempts[a].participant.candidate, db.attempts[a].participant.stage) == {})
  }

  /** What a completion of `a` leaves: the attempt flipped, its rows stored, the plan advanced, one grade job. */
  function AfterCompletion(db: Db, a: Uuid, rows: seq<TranscriptRow>): Db
    requires a in db.attempts
  {
    var attempt := db.attempts[a];
    var flipped := db.(attempts := db.attempts[a := Attempt(attempt.drill, attempt.participant, Completed, attempt.restart)],
                       transcripts := if rows == [] then db.transcripts else db.transcripts[a := rows]);
    var closed := if attempt.participant.Rep? then flipped else Stamped(db, flipped, attempt.participant.candidate);
    closed.(jobs := closed.jobs + multiset{GradeAttempt(a)})
  }

  /** A completion wins if and only if the attempt is in progress, its participant is not fenced by an erasure
      request, no two rows share a number and, for a candidate, no counted attempt exists on the stage. A missing,
      fenced or ended attempt loses; a violated key or index aborts; neither writes anything. */
  lemma CompletionWinsIff(db: Db, a: Uuid, rows: seq<TranscriptRow>, fenced: bool)
    ensures var done := Complete(db, a, rows, fenced);
            var claimed := a in db.attempts && db.attempts[a].status == InProgress && !fenced;
            && (done.ending.Won? <==> claimed && Completable(db, a, rows))
            && (done.ending.Aborted? <==> claimed && !Completable(db, a, rows))
            && (fenced ==> done == Transaction(db, Lost))
            && done.db == if done.ending.Won? then AfterCompletion(db, a, rows) else db
  {
    if a in db.attempts {
      var participant := db.attempts[a].participant;
      var flipped := SetStatus(InsertRows(db, a, rows), a, Completed);
      if participant.Candidate? {
        OpenIsNotClosed(db, participant.candidate, participant.stage);
        AdvanceStamps(db, flipped, participant.candidate);
      }
      assert RowsDistinct(rows) <==> DistinctRows(rows);
    }
  }

  /* ---------- interruption ---------- */

  /** The allowance of a rep's ended call with one use given back, never below zero. */
  function GivenBack(db: Db, drill: Uuid, account: Uuid): map<(Uuid, Uuid), Allowance> {
    var key := (drill, account);
    if key !in db.allowances then db.allowances
    else
      var row := db.allowances[key];
      db.allowances[key := Allowance(if row.used <= 1 then 0 else row.used - 1, row.allowed)]
  }

  /** What an interruption of `a` leaves. */
  function AfterInterruption(db: Db, a: Uuid, neverEstablished: bool): Db
    requires a in db.attempts
  {
    var attempt := db.attempts[a];
    var ended := db.(attempts := if neverEstablished then db.attempts - {a}
                                 else db.attempts[a := Attempt(attempt.drill, attempt.participant, Interrupted, attempt.restart)]);
    if attempt.participant.Rep? then ended.(allowances := GivenBack(db, attempt.drill, attempt.participant.account))
    else if neverEstablished then ended
    else Stamped(db, ended, attempt.participant.candidate)
  }

  /** An interruption wins if and only if the attempt is in progress. A call that never established leaves no
      attempt behind, any other a voided one; a rep gets one use back, a candidate's plan may close. */
  lemma InterruptionWinsIff(db: Db, a: Uuid, neverEstablished: bool)
    ensures var done := Interrupt(db, a, neverEstablished);
            && (done.ending.Won? <==> a in db.attempts && db.attempts[a].status == InProgress)
            && !done.ending.Aborted?
            && done.db == if done.ending.Won? then AfterInterruption(db, a, neverEstablished) else db
  {
    if a in db.attempts && db.attempts[a].participant.Candidate? && !neverEstablished {
      AdvanceStamps(db, SetStatus(db, a, Interrupted), db.attempts[a].participant.candidate);
    }
  }

  /** Grading moves a completed or pending attempt on, and no other. */
  lemma GradingMoves(db: Db, a: Uuid, finished: bool)
    ensures var t := Grade(db, a, finished);
            var due := a in db.attempts && db.attempts[a].status in {Completed, GradingPending};
            && (!due ==> t == db)
            && (due ==> t == db.(attempts := db.attempts[a := Attempt(db.attempts[a].drill, db.attempts[a].participant,
                               if finished then Graded else GradingPending, db.attempts[a].restart)]))
  {
  }
}
