/** The call transactions statement by statement over mutable tables, proved against `CallModel`. */
module CallTables {
  import opened Wrappers
  import opened CallModel

  class Tables {
    var attempts: map<Uuid, Attempt>
    var nextAttempt: Uuid
    var transcripts: map<Uuid, seq<TranscriptRow>>
    var allowances: map<(Uuid, Uuid), Allowance>
    var candidates: map<Uuid, CandidateRow>
    var plans: map<Uuid, seq<Uuid>>
    var selfAuthored: set<Uuid>
    var notifying: set<Uuid>
    var sends: set<Uuid>
    var jobs: multiset<Job>

    constructor (db: Db)
      ensures View() == db
    {
      attempts, nextAttempt, transcripts := db.attempts, db.nextAttempt, db.transcripts;
      allowances, candidates, plans := db.allowances, db.candidates, db.plans;
      selfAuthored, notifying, sends, jobs := db.selfAuthored, db.notifying, db.sends, db.jobs;
    }

    function View(): Db
      reads this
    {
      Db(attempts, nextAttempt, transcripts, allowances, candidates, plans, selfAuthored, notifying, sends, jobs)
    }

    /* ---------- T-1 ---------- */

    /** The conditional update of `assignment_recipient`: whether a row was charged. */
    method ConsumeAllowance(drill: Uuid, account: Uuid) returns (consumed: bool)
      modifies this`allowances
      ensures consumed <==> (drill, account) in old(allowances)
                            && old(allowances)[(drill, account)].used < old(allowances)[(drill, account)].allowed
      ensures allowances == if consumed
                            then old(allowances)[(drill, account) :=
                                   Allowance(old(allowances)[(drill, account)].used + 1,
                                             old(allowances)[(drill, account)].allowed)]
                            else old(allowances)
    {
      var key := (drill, account);
      consumed := key in allowances && allowances[key].used < allowances[key].allowed;
      if consumed {
        allowances := allowances[key := allowances[key].(used := allowances[key].used + 1)];
      }
    }

    method InsertRow(attempt: Attempt) returns (id: Uuid)
      modifies this`attempts, this`nextAttempt
      ensures id == old(nextAttempt) && View() == InsertAttempt(old(View()), attempt)
    {
      id := nextAttempt;
      attempts := attempts[id := attempt];
      nextAttempt := nextAttempt + 1;
    }

    method Admit(request: Request, permitted: bool) returns (result: Result<Uuid, Refusal>)
      modifies this
      ensures Admission(View(), result) == CallModel.Admit(old(View()), request, permitted)
    {
      if !permitted {
        return Failure(NotPermitted);
      }
      var restart := false;
      var participant;
      match request {
        case RepCall(account, drill) =>
          if drill !in selfAuthored {
            var consumed := ConsumeAllowance(drill, account);
            if !consumed {
              return Failure(AllowanceExhausted);
            }
          }
          participant := Rep(account);
        case CandidateCall(candidate, stage, drill) =>
          var gate := StageGate(View(), candidate, stage);
          if gate.Failure? {
            return Failure(gate.error);
          }
          restart := gate.value;
          participant := Candidate(candidate, stage);
      }
      var id := InsertRow(Attempt(request.drill, participant, InProgress, restart));
      result := Success(id);
    }

    /* ---------- closing a plan ---------- */

    /** The conditional stamp, the report job, the E-5 row unless one exists, and the job of a new row. */
    method AdvanceCandidateIfClosed(candidate: Uuid) returns (advanced: bool)
      modifies this`candidates, this`sends, this`jobs
      ensures advanced == PlanCloses(old(View()), candidate)
      ensures View() == Advance(old(View()), candidate)
    {
      advanced := PlanCloses(View(), candidate);
      if !advanced {
        return;
      }
      candidates := candidates[candidate := candidates[candidate].(completed := true)];
      jobs := jobs + multiset{RenderReport(candidate)};
      if candidates[candidate].position in notifying && candidate !in sends {
        sends := sends + {candidate};
        jobs := jobs + multiset{DispatchEmail(candidate)};
      }
    }

    /* ---------- T-2 ---------- */

    /** Claim, transcript, status flip, plan, grade job. A violated key or index rolls everything back. */
    method Complete(a: Uuid, rows: seq<TranscriptRow>, fenced: bool) returns (ending: Ending)
      modifies this
      ensures Transaction(View(), ending) == CallModel.Complete(old(View()), a, rows, fenced)
    {
      if a !in attempts || fenced {
        return Lost;
      }
      var claimed := attempts[a].status;
      if !claimed.InProgress? {
        return Lost;
      }
      var committed := transcripts;
      if rows != [] {
        if !DistinctRows(rows) {
          return Aborted;
        }
        transcripts := transcripts[a := rows];
      }
      if CountedElsewhere(View(), a) {
        transcripts := committed;
        return Aborted;
      }
      attempts := attempts[a := attempts[a].(status := Completed)];
      match attempts[a].participant {
        case Rep(_) =>
        case Candidate(candidate, _) => var _ := AdvanceCandidateIfClosed(candidate);
      }
      jobs := jobs + multiset{GradeAttempt(a)};
      ending := Won;
    }

    /* ---------- T-6 ---------- */

    method ReverseAllowance(drill: Uuid, account: Uuid)
      modifies this`allowances
      ensures View() == Reverse(old(View()), drill, account)
    {
      var key := (drill, account);
      if key in allowances {
        var used := allowances[key].used - 1;
        allowances := allowances[key := allowances[key].(used := if used > 0 then used else 0)];
      }
    }

    method Interrupt(a: Uuid, neverEstablished: bool) returns (ending: Ending)
      modifies this
      ensures Transaction(View(), ending) == CallModel.Interrupt(old(View()), a, neverEstablished)
    {
      if a !in attempts || !attempts[a].status.InProgress? {
        return Lost;
      }
      var attempt := attempts[a];
      if neverEstablished {
        attempts := attempts - {a};
      } else {
        attempts := attempts[a := attempt.(status := Interrupted)];
      }
      match attempt.participant {
        case Rep(account) => ReverseAllowance(attempt.drill, account);
        case Candidate(candidate, _) =>
          if !neverEstablished {
            var _ := AdvanceCandidateIfClosed(candidate);
          }
      }
      ending := Won;
    }
  }
}
