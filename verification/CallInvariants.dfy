/** What every transaction keeps, and what holds over every run of call transactions. */
module CallInvariants {
  import opened Wrappers
  import opened CallModel

  /* ---------- ended attempts ---------- */

  ghost predicate IdsFresh(db: Db) {
    forall a :: a in db.attempts ==> a < db.nextAttempt
  }

  /** The attempt took its terminal transition: it is counted, voided, or was deleted. */
  predicate Ended(db: Db, a: Uuid) {
    a < db.nextAttempt && (a in db.attempts ==> !db.attempts[a].status.InProgress?)
  }

  predicate SameEnd(before: Attempt, after: Attempt) {
    && before.participant == after.participant && before.drill == after.drill && before.restart == after.restart
    && (Counted(before.status) <==> Counted(after.status))
    && (before.status.Interrupted? <==> after.status.Interrupted?)
  }

  /** Ended attempts stay as they ended; the plans stay as they are. */
  ghost predicate EndsKept(db: Db, db': Db) {
    && db.nextAttempt <= db'.nextAttempt
    && db'.plans == db.plans && db'.selfAuthored == db.selfAuthored
    && db'.candidates.Keys == db.candidates.Keys
    && (forall c :: c in db.candidates ==> db'.candidates[c].position == db.candidates[c].position)
    && (forall a :: Ended(db, a) ==>
          && (a in db'.attempts <==> a in db.attempts)
          && (a in db.attempts ==> SameEnd(db.attempts[a], db'.attempts[a]))
          && (a in db'.transcripts <==> a in db.transcripts)
          && (a in db.transcripts ==> db'.transcripts[a] == db.transcripts[a]))
  }

  lemma AdvanceOneFrame(db: Db, candidate: Uuid)
    ensures var advanced := Advance(db, candidate);
            && advanced.attempts == db.attempts && advanced.nextAttempt == db.nextAttempt
            && advanced.transcripts == db.transcripts && advanced.allowances == db.allowances
            && advanced.plans == db.plans && advanced.selfAuthored == db.selfAuthored
            && advanced.candidates.Keys == db.candidates.Keys
            && (forall c :: c in db.candidates ==> advanced.candidates[c].position == db.candidates[c].position)
            && (forall a :: advanced.jobs[GradeAttempt(a)] == db.jobs[GradeAttempt(a)])
  {
    if PlanCloses(db, candidate) {
      assert candidate in db.candidates.Keys;
    }
  }

  lemma AdvanceFrame(db: Db, participant: Participant)
    ensures var advanced := AdvanceFor(db, participant);
            && advanced.attempts == db.attempts && advanced.nextAttempt == db.nextAttempt
            && advanced.transcripts == db.transcripts && advanced.allowances == db.allowances
            && advanced.plans == db.plans && advanced.selfAuthored == db.selfAuthored
            && advanced.candidates.Keys == db.candidates.Keys
            && (forall c :: c in db.candidates ==> advanced.candidates[c].position == db.candidates[c].position)
            && (forall a :: advanced.jobs[GradeAttempt(a)] == db.jobs[GradeAttempt(a)])
  {
    if participant.Candidate? {
      AdvanceOneFrame(db, participant.candidate);
    }
  }

  /** The tables of a database that no transaction on calls rewrites. */
  ghost predicate PlansKept(db: Db, db': Db) {
    && db'.plans == db.plans && db'.selfAuthored == db.selfAuthored
    && db'.candidates.Keys == db.candidates.Keys
    && (forall c :: c in db.candidates ==> db'.candidates[c].position == db.candidates[c].position)
  }

  lemma CompleteWon(db: Db, a: Uuid, rows: seq<TranscriptRow>, fenced: bool)
    requires Complete(db, a, rows, fenced).ending.Won?
    ensures var t := Complete(db, a, rows, fenced).db;
            && a in db.attempts && db.attempts[a].status.InProgress?
            && t.attempts == db.attempts[a := db.attempts[a].(status := Completed)]
            && t.nextAttempt == db.nextAttempt && PlansKept(db, t)
            && t.transcripts == InsertRows(db, a, rows).transcripts && t.allowances == db.allowances
            && (forall b :: t.jobs[GradeAttempt(b)] == db.jobs[GradeAttempt(b)] + if b == a then 1 else 0)
  {
    AdvanceFrame(SetStatus(InsertRows(db, a, rows), a, Completed), db.attempts[a].participant);
  }

  lemma InterruptWon(db: Db, a: Uuid, neverEstablished: bool)
    requires Interrupt(db, a, neverEstablished).ending.Won?
    ensures var t := Interrupt(db, a, neverEstablished).db;
            && a in db.attempts && db.attempts[a].status.InProgress?
            && t.attempts == (if neverEstablished then db.attempts - {a}
                              else db.attempts[a := db.attempts[a].(status := Interrupted)])
            && t.nextAttempt == db.nextAttempt && PlansKept(db, t) && t.transcripts == db.transcripts
            && t.allowances.Keys == db.allowances.Keys
            && (forall b :: t.jobs[GradeAttempt(b)] == db.jobs[GradeAttempt(b)])
  {
    var ended := if neverEstablished then db.(attempts := db.attempts - {a}) else SetStatus(db, a, Interrupted);
    AdvanceFrame(ended, db.attempts[a].participant);
  }

  function AdmittedParticipant(request: CallModel.Request): Participant {
    match request
    case RepCall(account, _) => Rep(account)
    case CandidateCall(candidate, stage, _) => Candidate(candidate, stage)
  }

  /** Admission inserts one in-progress attempt under a fresh identifier, or changes nothing. */
  lemma AdmitWrites(db: Db, request: CallModel.Request, permitted: bool)
    ensures var admission := Admit(db, request, permitted);
            var t := admission.db;
            && (admission.result.Failure? ==> t == db)
            && (admission.result.Success? ==>
                  && admission.result.value == db.nextAttempt
                  && var restart := request.CandidateCall? && StageGate(db, request.candidate, request.stage) == Success(true);
                  && t.attempts == db.attempts[db.nextAttempt :=
                       Attempt(request.drill, AdmittedParticipant(request), InProgress, restart)]
                  && t.nextAttempt == db.nextAttempt + 1
                  && t.transcripts == db.transcripts && t.candidates == db.candidates && t.plans == db.plans
                  && t.selfAuthored == db.selfAuthored && t.notifying == db.notifying && t.sends == db.sends
                  && t.jobs == db.jobs && t.allowances.Keys == db.allowances.Keys)
  {
  }

  lemma InsertKeepsEnds(db: Db, t: Db, attempt: Attempt)
    requires IdsFresh(db) && PlansKept(db, t)
    requires t.attempts == db.attempts[db.nextAttempt := attempt] && t.nextAttempt == db.nextAttempt + 1
    requires t.transcripts == db.transcripts
    ensures IdsFresh(t) && EndsKept(db, t)
  {
  }

  lemma AdmitKeepsEnds(db: Db, request: CallModel.Request, permitted: bool)
    requires IdsFresh(db)
    ensures var t := Admit(db, request, permitted).db;
            IdsFresh(t) && EndsKept(db, t)
  {
    var admission := Admit(db, request, permitted);
    AdmitWrites(db, request, permitted);
    if admission.result.Success? {
      InsertKeepsEnds(db, admission.db, admission.db.attempts[db.nextAttempt]);
    }
  }

  lemma CompleteKeepsEnds(db: Db, a: Uuid, rows: seq<TranscriptRow>, fenced: bool)
    requires IdsFresh(db)
    ensures var t := Complete(db, a, rows, fenced).db;
            IdsFresh(t) && EndsKept(db, t)
  {
    if Complete(db, a, rows, fenced).ending.Won? {
      CompleteWon(db, a, rows, fenced);
    }
  }

  lemma InterruptKeepsEnds(db: Db, a: Uuid, neverEstablished: bool)
    requires IdsFresh(db)
    ensures var t := Interrupt(db, a, neverEstablished).db;
            IdsFresh(t) && EndsKept(db, t)
  {
    if Interrupt(db, a, neverEstablished).ending.Won? {
      InterruptWon(db, a, neverEstablished);
    }
  }

  lemma RestatusKeepsEnds(db: Db, a: Uuid, status: Status)
    requires IdsFresh(db) && a in db.attempts && Counted(db.attempts[a].status) && Counted(status)
    ensures IdsFresh(SetStatus(db, a, status)) && EndsKept(db, SetStatus(db, a, status))
  {
  }

  lemma GradeKeepsEnds(db: Db, a: Uuid, finished: bool)
    requires IdsFresh(db)
    ensures IdsFresh(Grade(db, a, finished)) && EndsKept(db, Grade(db, a, finished))
  {
    if a in db.attempts && Counted(db.attempts[a].status) {
      RestatusKeepsEnds(db, a, if finished then Graded else GradingPending);
    }
  }

  lemma ExecKeepsEnds(db: Db, action: Action)
    requires IdsFresh(db)
    ensures IdsFresh(Exec(db, action)) && EndsKept(db, Exec(db, action))
  {
    match action
    case Request(request, permitted) => AdmitKeepsEnds(db, request, permitted);
    case ReportCompletion(a, rows, fenced) => CompleteKeepsEnds(db, a, rows, fenced);
    case ReportEnding(a, neverEstablished) => InterruptKeepsEnds(db, a, neverEstablished);
    case Grading(a, finished) => GradeKeepsEnds(db, a, finished);
    case SetNotify(_, _) =>
  }

  lemma {:induction false} ExecuteSplit(db: Db, before: seq<Action>, after: seq<Action>)
    ensures Execute(db, before + after) == Execute(Execute(db, before), after)
    decreases |after|
  {
    if after == [] {
      assert before + after == before;
    } else {
      var n := |after| - 1;
      ExecuteSplit(db, before, after[..n]);
      assert (before + after)[..|before + after| - 1] == before + after[..n];
    }
  }

  lemma {:induction false} ExecuteKeepsEnds(db: Db, actions: seq<Action>)
    requires IdsFresh(db)
    ensures IdsFresh(Execute(db, actions)) && EndsKept(db, Execute(db, actions))
    decreases |actions|
  {
    if actions != [] {
      var n := |actions| - 1;
      ExecuteKeepsEnds(db, actions[..n]);
      var mid := Execute(db, actions[..n]);
      ExecKeepsEnds(mid, actions[n]);
      forall a | Ended(db, a) ensures Ended(mid, a) {
      }
    }
  }

  /** An attempt ends at most once: after its end, in every continuation, it keeps the kind of its end and its
      transcript, and every further completion or interruption report of it loses and changes nothing. */
  lemma EndsOnce(db: Db, before: seq<Action>, after: seq<Action>, a: Uuid, rows: seq<TranscriptRow>, flag: bool)
    requires IdsFresh(db) && Ended(Execute(db, before), a)
    ensures var s, t := Execute(db, before), Execute(db, before + after);
            && (a in t.attempts <==> a in s.attempts)
            && (a in s.attempts ==> SameEnd(s.attempts[a], t.attempts[a]))
            && (a in t.transcripts <==> a in s.transcripts)
            && (a in s.transcripts ==> t.transcripts[a] == s.transcripts[a])
            && Complete(t, a, rows, flag) == Transaction(t, Lost)
            && Interrupt(t, a, flag) == Transaction(t, Lost)
  {
    ExecuteSplit(db, before, after);
    ExecuteKeepsEnds(db, before);
    ExecuteKeepsEnds(Execute(db, before), after);
  }

  /* ---------- exactly one grade job and the winner's transcript ---------- */

  function CountedOnce(db: Db, a: Uuid): nat {
    if a in db.attempts && Counted(db.attempts[a].status) then 1 else 0
  }

  ghost predicate GradesOnce(db: Db) {
    && IdsFresh(db)
    && (forall a :: db.jobs[GradeAttempt(a)] == CountedOnce(db, a))
    && (forall a :: a in db.transcripts ==> a in db.attempts && Counted(db.attempts[a].status))
  }

  lemma ExecKeepsGrades(db: Db, action: Action)
    requires GradesOnce(db)
    ensures GradesOnce(Exec(db, action))
  {
    ExecKeepsEnds(db, action);
    match action
    case Request(request, permitted) => GradesAfterAdmit(db, request, permitted);
    case ReportCompletion(a, rows, fenced) => GradesAfterComplete(db, a, rows, fenced);
    case ReportEnding(a, neverEstablished) => GradesAfterInterrupt(db, a, neverEstablished);
    case Grading(_, _) =>
    case SetNotify(_, _) =>
  }

  lemma GradesAfterComplete(db: Db, a: Uuid, rows: seq<TranscriptRow>, fenced: bool)
    requires GradesOnce(db)
    ensures GradesOnce(Complete(db, a, rows, fenced).db)
  {
    if Complete(db, a, rows, fenced).ending.Won? {
      CompleteWon(db, a, rows, fenced);
      var t := Complete(db, a, rows, fenced).db;
      assert forall b :: CountedOnce(t, b) == CountedOnce(db, b) + if b == a then 1 else 0;
    }
  }

  lemma GradesAfterInterrupt(db: Db, a: Uuid, neverEstablished: bool)
    requires GradesOnce(db)
    ensures GradesOnce(Interrupt(db, a, neverEstablished).db)
  {
    if Interrupt(db, a, neverEstablished).ending.Won? {
      InterruptWon(db, a, neverEstablished);
      var t := Interrupt(db, a, neverEstablished).db;
      assert forall b :: CountedOnce(t, b) == CountedOnce(db, b);
    }
  }

  lemma GradesAfterAdmit(db: Db, request: CallModel.Request, permitted: bool)
    requires GradesOnce(db)
    ensures GradesOnce(Admit(db, request, permitted).db)
  {
    var t := Admit(db, request, permitted).db;
    AdmitWrites(db, request, permitted);
    assert db.nextAttempt !in db.attempts;
    assert forall a :: CountedOnce(t, a) == CountedOnce(db, a);
    if t != db {
      InsertKeepsEnds(db, t, t.attempts[db.nextAttempt]);
    }
  }

  /** What a successful completion leaves behind. */
  lemma CompletionEffects(db: Db, a: Uuid, rows: seq<TranscriptRow>, fenced: bool)
    requires Complete(db, a, rows, fenced).ending.Won?
    ensures var t := Complete(db, a, rows, fenced).db;
            && a in t.attempts && t.attempts[a] == db.attempts[a].(status := Completed)
            && (rows != [] ==> a in t.transcripts && t.transcripts[a] == rows)
            && t.jobs[GradeAttempt(a)] == db.jobs[GradeAttempt(a)] + 1
            && t.allowances == db.allowances
  {
    CompleteWon(db, a, rows, fenced);
  }

  /* ---------- allowance conservation ---------- */

  /** The attempts of a rep on a drill that were not voided. */
  function Active(db: Db, key: (Uuid, Uuid)): set<Uuid> {
    set a | a in db.attempts && db.attempts[a].drill == key.0 && db.attempts[a].participant == Rep(key.1)
            && !db.attempts[a].status.Interrupted?
  }

  predicate AllowanceExact(db: Db, key: (Uuid, Uuid))
    requires key in db.allowances
  {
    db.allowances[key].used == |Active(db, key)| && 0 <= db.allowances[key].used <= db.allowances[key].allowed
  }

  /** Every allowance is exact, and self-authored drills carry none. */
  ghost predicate Conserved(db: Db) {
    && IdsFresh(db)
    && (forall key :: key in db.allowances ==> key.0 !in db.selfAuthored && AllowanceExact(db, key))
  }

  predicate Mine(attempt: Attempt, key: (Uuid, Uuid)) {
    attempt.drill == key.0 && attempt.participant == Rep(key.1)
  }

  lemma ActiveInserted(db: Db, db': Db, key: (Uuid, Uuid), a: Uuid, attempt: Attempt)
    requires a !in db.attempts && db'.attempts == db.attempts[a := attempt] && !attempt.status.Interrupted?
    ensures Active(db', key) == Active(db, key) + (if Mine(attempt, key) then {a} else {})
  {
    forall b ensures b in Active(db', key) <==> b in Active(db, key) || (b == a && Mine(attempt, key)) {
      if b != a && b in db.attempts {
        assert db'.attempts[b] == db.attempts[b];
      }
    }
  }

  lemma ActiveGrows(db: Db, db': Db, key: (Uuid, Uuid), a: Uuid, attempt: Attempt)
    requires a !in db.attempts && db'.attempts == db.attempts[a := attempt] && !attempt.status.Interrupted?
    ensures |Active(db', key)| == |Active(db, key)| + (if Mine(attempt, key) then 1 else 0)
  {
    ActiveInserted(db, db', key, a, attempt);
    assert a !in Active(db, key);
  }

  lemma ActiveDeleted(db: Db, db': Db, key: (Uuid, Uuid), a: Uuid)
    requires a in db.attempts && db'.attempts == db.attempts - {a}
    ensures Active(db', key) == Active(db, key) - {a}
  {
  }

  lemma ActiveVoided(db: Db, db': Db, key: (Uuid, Uuid), a: Uuid)
    requires a in db.attempts && db'.attempts == db.attempts[a := db.attempts[a].(status := Interrupted)]
    ensures Active(db', key) == Active(db, key) - {a}
  {
  }

  /** Voiding or deleting an in-progress attempt removes it from the active ones. */
  lemma ActiveShrinks(db: Db, db': Db, key: (Uuid, Uuid), a: Uuid)
    requires a in db.attempts && db.attempts[a].status.InProgress?
    requires db'.attempts == db.attempts - {a}
             || db'.attempts == db.attempts[a := db.attempts[a].(status := Interrupted)]
    ensures |Active(db, key)| == |Active(db', key)| + (if Mine(db.attempts[a], key) then 1 else 0)
  {
    if db'.attempts == db.attempts - {a} {
      ActiveDeleted(db, db', key, a);
    } else {
      ActiveVoided(db, db', key, a);
    }
    if a in Active(db, key) {
      assert Active(db, key) == Active(db', key) + {a};
    } else {
      assert Active(db, key) == Active(db', key);
    }
  }

  lemma ActiveSame(db: Db, db': Db, key: (Uuid, Uuid), a: Uuid, status: Status)
    requires a in db.attempts && !db.attempts[a].status.Interrupted? && !status.Interrupted?
    requires db'.attempts == db.attempts[a := db.attempts[a].(status := status)]
    ensures Active(db', key) == Active(db, key)
  {
  }

  /** Admission charges the allowance of its own drill and rep by one, and only if one is left. */
  lemma AdmitUses(db: Db, request: CallModel.Request, permitted: bool, key: (Uuid, Uuid))
    requires Admit(db, request, permitted).result.Success? && key in db.allowances && key.0 !in db.selfAuthored
    ensures var t := Admit(db, request, permitted).db;
            var mine := request.drill == key.0 && AdmittedParticipant(request) == Rep(key.1);
            && key in t.allowances && t.allowances[key].allowed == db.allowances[key].allowed
            && t.allowances[key].used == db.allowances[key].used + (if mine then 1 else 0)
            && (mine ==> db.allowances[key].used < db.allowances[key].allowed)
  {
  }

  lemma AdmitConserves(db: Db, request: CallModel.Request, permitted: bool)
    requires Conserved(db)
    ensures Conserved(Admit(db, request, permitted).db)
  {
    var admission := Admit(db, request, permitted);
    if admission.result.Success? {
      AdmitWrites(db, request, permitted);
      forall key | key in db.allowances ensures AllowanceExact(admission.db, key) {
        ActiveGrows(db, admission.db, key, db.nextAttempt, admission.db.attempts[db.nextAttempt]);
        AdmitUses(db, request, permitted, key);
        assert AllowanceExact(db, key);
      }
    }
  }

  /** The reversal of a voided or deleted rep attempt. */
  lemma InterruptUses(db: Db, a: Uuid, neverEstablished: bool)
    requires Interrupt(db, a, neverEstablished).ending.Won?
    ensures var t := Interrupt(db, a, neverEstablished).db;
            var attempt := db.attempts[a];
            t.allowances == match attempt.participant
                            case Rep(account) => Reverse(db, attempt.drill, account).allowances
                            case Candidate(_, _) => db.allowances
  {
    var ended := if neverEstablished then db.(attempts := db.attempts - {a}) else SetStatus(db, a, Interrupted);
    AdvanceFrame(ended, db.attempts[a].participant);
  }

  lemma InterruptConserves(db: Db, a: Uuid, neverEstablished: bool)
    requires Conserved(db)
    ensures Conserved(Interrupt(db, a, neverEstablished).db)
  {
    ExecKeepsEnds(db, ReportEnding(a, neverEstablished));
    if Interrupt(db, a, neverEstablished).ending.Won? {
      var t := Interrupt(db, a, neverEstablished).db;
      InterruptWon(db, a, neverEstablished);
      InterruptUses(db, a, neverEstablished);
      forall key | key in t.allowances ensures AllowanceExact(t, key) {
        ActiveShrinks(db, t, key, a);
        assert AllowanceExact(db, key);
      }
    }
  }

  lemma CompleteConserves(db: Db, a: Uuid, rows: seq<TranscriptRow>, fenced: bool)
    requires Conserved(db)
    ensures Conserved(Complete(db, a, rows, fenced).db)
  {
    if Complete(db, a, rows, fenced).ending.Won? {
      var t := Complete(db, a, rows, fenced).db;
      CompleteWon(db, a, rows, fenced);
      forall key | key in t.allowances ensures AllowanceExact(t, key) {
        ActiveSame(db, t, key, a, Completed);
        assert AllowanceExact(db, key);
      }
    }
  }

  lemma ExecConserves(db: Db, action: Action)
    requires Conserved(db)
    ensures Conserved(Exec(db, action))
  {
    match action
    case Request(request, permitted) => AdmitConserves(db, request, permitted);
    case ReportCompletion(a, rows, fenced) => CompleteConserves(db, a, rows, fenced);
    case ReportEnding(a, neverEstablished) => InterruptConserves(db, a, neverEstablished);
    case Grading(a, finished) =>
      var t := Exec(db, action);
      if t != db {
        forall key | key in t.allowances ensures AllowanceExact(t, key) {
          ActiveSame(db, t, key, a, if finished then Graded else GradingPending);
          assert AllowanceExact(db, key);
        }
      }
    case SetNotify(_, _) =>
      var t := Exec(db, action);
      forall key | key in t.allowances ensures AllowanceExact(t, key) {
        assert AllowanceExact(db, key);
        assert Active(t, key) == Active(db, key);
      }
  }

  /** Allowance conservation, over every run: for each drill and rep, `attempts_used` is the number of that
      rep's attempts on it that were not voided, within 0..allowed. */
  lemma {:induction false} AllowanceConservation(db: Db, actions: seq<Action>)
    requires Conserved(db)
    ensures Conserved(Execute(db, actions))
    ensures Execute(db, actions).allowances.Keys == db.allowances.Keys
    decreases |actions|
  {
    if actions != [] {
      var n := |actions| - 1;
      AllowanceConservation(db, actions[..n]);
      var mid := Execute(db, actions[..n]);
      ExecConserves(mid, actions[n]);
      AllowanceKeysKept(mid, actions[n]);
    }
  }

  lemma AllowanceKeysKept(db: Db, action: Action)
    ensures Exec(db, action).allowances.Keys == db.allowances.Keys
  {
    match action
    case Request(request, permitted) => AdmitWrites(db, request, permitted);
    case ReportCompletion(a, rows, fenced) =>
      if Complete(db, a, rows, fenced).ending.Won? {
        CompleteWon(db, a, rows, fenced);
      }
    case ReportEnding(a, neverEstablished) =>
      if Interrupt(db, a, neverEstablished).ending.Won? {
        InterruptWon(db, a, neverEstablished);
      }
    case _ =>
  }

  ghost predicate AllowancesExact(db: Db) {
    forall key :: key in db.allowances ==> AllowanceExact(db, key)
  }

  /** From exact allowances, every run keeps them exact if and only if no self-authored drill carries one:
      admission on such a drill charges nothing, so a single call breaks its count. */
  lemma ConservationIff(db: Db)
    requires IdsFresh(db) && AllowancesExact(db)
    ensures (forall actions :: AllowancesExact(Execute(db, actions)))
       <==> (forall key :: key in db.allowances ==> key.0 !in db.selfAuthored)
  {
    if forall key :: key in db.allowances ==> key.0 !in db.selfAuthored {
      forall actions ensures AllowancesExact(Execute(db, actions)) {
        AllowanceConservation(db, actions);
      }
    } else {
      var key :| key in db.allowances && key.0 in db.selfAuthored;
      var actions := UnchargedCall(db, key);
      assert key in Execute(db, actions).allowances;
      assert !AllowancesExact(Execute(db, actions));
    }
  }

  lemma UnchargedCall(db: Db, key: (Uuid, Uuid)) returns (actions: seq<Action>)
    requires IdsFresh(db) && key in db.allowances && AllowanceExact(db, key) && key.0 in db.selfAuthored
    ensures key in Execute(db, actions).allowances && !AllowanceExact(Execute(db, actions), key)
  {
    var call := RepCall(key.1, key.0);
    actions := [Request(call, true)];
    assert actions[..0] == [];
    assert Execute(db, []) == db;
    var t := Admit(db, call, true).db;
    assert Execute(db, actions) == t;
    ActiveGrows(db, t, key, db.nextAttempt, t.attempts[db.nextAttempt]);
  }

  /** The clamp `greatest(... - 1, 0)` never bites: wherever a reversal happens, at least one use is recorded,
      so the reversal gives back exactly one. */
  lemma ClampNeverBites(db: Db, actions: seq<Action>, a: Uuid, neverEstablished: bool)
    requires Conserved(db)
    requires var t := Execute(db, actions);
             Interrupt(t, a, neverEstablished).ending.Won? && t.attempts[a].participant.Rep?
    ensures var t := Execute(db, actions);
            var key := (t.attempts[a].drill, t.attempts[a].participant.account);
            key in t.allowances ==>
              && t.allowances[key].used >= 1
              && var u := Interrupt(t, a, neverEstablished).db;
                 key in u.allowances && u.allowances[key].used == t.allowances[key].used - 1
  {
    AllowanceConservation(db, actions);
    var t := Execute(db, actions);
    var key := (t.attempts[a].drill, t.attempts[a].participant.account);
    if key in t.allowances {
      assert AllowanceExact(t, key);
      assert a in Active(t, key);
    }
  }

  /** Conservation needs self-authored drills to be unassigned: admission does not charge them, but voiding
      does reverse. From an exact allowance on such a drill, one admitted and voided call keeps it exact if
      and only if nothing was used. */
  lemma SelfAuthoredReversal(db: Db, account: Uuid, drill: Uuid)
    requires IdsFresh(db) && drill in db.selfAuthored
    requires (drill, account) in db.allowances && AllowanceExact(db, (drill, account))
    ensures var admitted := Admit(db, RepCall(account, drill), true);
            && admitted.result.Success?
            && var voided := Interrupt(admitted.db, admitted.result.value, false).db;
               && (drill, account) in voided.allowances
               && (AllowanceExact(voided, (drill, account)) <==> db.allowances[(drill, account)].used == 0)
  {
    var key := (drill, account);
    var admitted := Admit(db, RepCall(account, drill), true);
    var a := db.nextAttempt;
    var voided := Interrupt(admitted.db, a, false).db;
    ActiveGrows(db, admitted.db, key, a, admitted.db.attempts[a]);
    ActiveShrinks(admitted.db, voided, key, a);
  }
}
