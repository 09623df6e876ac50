/** Candidate plans over every run: stage order, closing, and the effects of closing. */
module CallPlans {
  import opened Wrappers
  import opened CallModel
  import opened CallInvariants

  /* ---------- the stages one attempt touches ---------- */

  /** Both databases see every stage of the candidate alike. */
  ghost predicate SameStages(db: Db, db': Db, candidate: Uuid) {
    forall stage ::
      && (Done(db, candidate, stage) <==> Done(db', candidate, stage))
      && InterruptedOn(db, candidate, stage) == InterruptedOn(db', candidate, stage)
  }

  lemma InsertKeepsStages(db: Db, db': Db, a: Uuid, attempt: Attempt, candidate: Uuid)
    requires a !in db.attempts && db'.attempts == db.attempts[a := attempt] && attempt.status.InProgress?
    ensures SameStages(db, db', candidate)
  {
    forall stage ensures Done(db, candidate, stage) <==> Done(db', candidate, stage) {
      if Done(db, candidate, stage) {
        var b :| b in db.attempts && On(db.attempts[b], candidate, stage) && Counted(db.attempts[b].status);
        assert b in db'.attempts && db'.attempts[b] == db.attempts[b];
      }
    }
  }

  lemma DeleteKeepsStages(db: Db, db': Db, a: Uuid, candidate: Uuid)
    requires a in db.attempts && db.attempts[a].status.InProgress? && db'.attempts == db.attempts - {a}
    ensures SameStages(db, db', candidate)
  {
    forall stage ensures Done(db, candidate, stage) <==> Done(db', candidate, stage) {
      if Done(db, candidate, stage) {
        var b :| b in db.attempts && On(db.attempts[b], candidate, stage) && Counted(db.attempts[b].status);
        assert b in db'.attempts && db'.attempts[b] == db.attempts[b];
      }
    }
  }

  /** Changing the status of one attempt, away from the given candidate or among equal kinds of status. */
  lemma StatusKeepsStages(db: Db, db': Db, a: Uuid, status: Status, candidate: Uuid)
    requires a in db.attempts && db'.attempts == db.attempts[a := db.attempts[a].(status := status)]
    requires || db.attempts[a].participant.Rep?
             || db.attempts[a].participant.candidate != candidate
             || (Counted(db.attempts[a].status) && Counted(status))
    ensures SameStages(db, db', candidate)
  {
    forall stage ensures Done(db, candidate, stage) <==> Done(db', candidate, stage) {
      if Done(db, candidate, stage) {
        var b :| b in db.attempts && On(db.attempts[b], candidate, stage) && Counted(db.attempts[b].status);
        assert b in db'.attempts && On(db'.attempts[b], candidate, stage) && Counted(db'.attempts[b].status);
      }
      if Done(db', candidate, stage) {
        var b :| b in db'.attempts && On(db'.attempts[b], candidate, stage) && Counted(db'.attempts[b].status);
        assert b in db.attempts && On(db.attempts[b], candidate, stage) && Counted(db.attempts[b].status);
      }
    }
  }

  /** A closed stage stays closed. */
  lemma ClosedKept(db: Db, db': Db, candidate: Uuid, stage: Uuid)
    requires IdsFresh(db) && EndsKept(db, db') && Closed(db, candidate, stage)
    ensures Closed(db', candidate, stage)
  {
    if Done(db, candidate, stage) {
      var b :| b in db.attempts && On(db.attempts[b], candidate, stage) && Counted(db.attempts[b].status);
      assert Ended(db, b);
      assert b in db'.attempts && On(db'.attempts[b], candidate, stage) && Counted(db'.attempts[b].status);
    } else {
      var before, after := InterruptedOn(db, candidate, stage), InterruptedOn(db', candidate, stage);
      forall b | b in before ensures b in after {
        assert Ended(db, b);
      }
      SubsetSize(before, after);
    }
  }

  lemma {:induction false} SubsetSize(x: set<Uuid>, y: set<Uuid>)
    requires x <= y
    ensures |x| <= |y|
  {
    if x != {} {
      var e :| e in x;
      SubsetSize(x - {e}, y - {e});
    }
  }

  /* ---------- the next stage ---------- */

  lemma {:induction false} NextStageFirst(db: Db, candidate: Uuid, stages: seq<Uuid>)
    ensures var next := NextStage(db, candidate, stages);
            && (next.None? <==> forall stage :: stage in stages ==> Closed(db, candidate, stage))
            && (next.Some? ==> FirstOpen(db, candidate, stages, next.value))
  {
    if stages != [] {
      NextStageFirst(db, candidate, stages[1..]);
      if Closed(db, candidate, stages[0]) {
        var next := NextStage(db, candidate, stages[1..]);
        assert stages == [stages[0]] + stages[1..];
        if next.Some? {
          var i :| 0 <= i < |stages[1..]| && FirstOpenAt(db, candidate, stages[1..], next.value, i);
          assert stages[1..][i] in stages;
          forall j | 0 <= j < i + 1 ensures Closed(db, candidate, stages[j]) {
            if j > 0 {
              assert stages[j] == stages[1..][j - 1];
            }
          }
          assert FirstOpenAt(db, candidate, stages, next.value, i + 1);
        }
      } else {
        assert stages[0] in stages;
        assert FirstOpenAt(db, candidate, stages, stages[0], 0);
      }
    }
  }

  predicate FirstOpenAt(db: Db, candidate: Uuid, stages: seq<Uuid>, stage: Uuid, i: nat) {
    && i < |stages| && stages[i] == stage && !Closed(db, candidate, stage)
    && forall j :: 0 <= j < i ==> Closed(db, candidate, stages[j])
  }

  ghost predicate FirstOpen(db: Db, candidate: Uuid, stages: seq<Uuid>, stage: Uuid) {
    exists i: nat :: i < |stages| && FirstOpenAt(db, candidate, stages, stage, i)
  }

  /** Every stage before this one in the plan is closed. */
  predicate InOrderAt(db: Db, candidate: Uuid, stage: Uuid, i: nat) {
    var plan := Plan(db, candidate);
    i < |plan| && plan[i] == stage && forall j :: 0 <= j < i ==> Closed(db, candidate, plan[j])
  }

  ghost predicate InOrder(db: Db, candidate: Uuid, stage: Uuid) {
    exists i: nat :: InOrderAt(db, candidate, stage, i)
  }

  /* ---------- the invariant ---------- */

  /** Stage order: an attempt exists on a stage only if every earlier stage is closed. */
  ghost predicate Ordered(db: Db) {
    forall a :: a in db.attempts && db.attempts[a].participant.Candidate? ==>
      InOrder(db, db.attempts[a].participant.candidate, db.attempts[a].participant.stage)
  }

  /** At most one counted attempt on each stage of each candidate. */
  ghost predicate CountedUnique(db: Db) {
    forall a, b :: (a in db.attempts && b in db.attempts
      && db.attempts[a].participant.Candidate? && db.attempts[a].participant == db.attempts[b].participant
      && Counted(db.attempts[a].status) && Counted(db.attempts[b].status)) ==> a == b
  }

  /** The completion stamp is never early, and each effect of closing was scheduled once per stamp. */
  ghost predicate Stamped(db: Db) {
    && (forall c :: c in db.candidates && db.candidates[c].completed ==> AllClosed(db, c))
    && (forall c :: db.jobs[RenderReport(c)] == if c in db.candidates && db.candidates[c].completed then 1 else 0)
    && (forall c :: db.jobs[DispatchEmail(c)] == if c in db.sends then 1 else 0)
    && (forall c :: c in db.sends ==> c in db.candidates && db.candidates[c].completed)
  }

  ghost predicate StampDue(db: Db, candidate: Uuid) {
    candidate in db.candidates && AllClosed(db, candidate) ==> db.candidates[candidate].completed
  }

  /** The stamp is never late either. */
  ghost predicate PlanInv(db: Db) {
    && IdsFresh(db) && Ordered(db) && CountedUnique(db) && Stamped(db)
    && (forall c :: StampDue(db, c))
  }

  lemma SameStagesClosed(db: Db, db': Db, candidate: Uuid)
    requires SameStages(db, db', candidate) && PlansKept(db, db')
    ensures forall stage :: Closed(db, candidate, stage) <==> Closed(db', candidate, stage)
    ensures Plan(db, candidate) == Plan(db', candidate)
    ensures AllClosed(db, candidate) <==> AllClosed(db', candidate)
  {
    assert candidate in db.candidates.Keys <==> candidate in db'.candidates.Keys;
    forall stage ensures Closed(db, candidate, stage) <==> Closed(db', candidate, stage) {
      assert InterruptedOn(db, candidate, stage) == InterruptedOn(db', candidate, stage);
    }
  }

  lemma OrderKept(db: Db, db': Db, candidate: Uuid, stage: Uuid)
    requires IdsFresh(db) && EndsKept(db, db') && InOrder(db, candidate, stage)
    ensures InOrder(db', candidate, stage)
  {
    var i: nat :| InOrderAt(db, candidate, stage, i);
    assert candidate in db.candidates.Keys;
    var plan := Plan(db, candidate);
    assert Plan(db', candidate) == plan;
    forall j | 0 <= j < i ensures Closed(db', candidate, plan[j]) {
      ClosedKept(db, db', candidate, plan[j]);
    }
    assert InOrderAt(db', candidate, stage, i);
  }

  /** Attempts keep their order under any transaction that starts no attempt. */
  lemma OrderedKept(db: Db, db': Db)
    requires IdsFresh(db) && EndsKept(db, db') && Ordered(db)
    requires db'.attempts.Keys <= db.attempts.Keys
    requires forall a :: a in db'.attempts ==> db'.attempts[a].participant == db.attempts[a].participant
    ensures Ordered(db')
  {
    forall a | a in db'.attempts && db'.attempts[a].participant.Candidate?
      ensures InOrder(db', db'.attempts[a].participant.candidate, db'.attempts[a].participant.stage)
    {
      assert a in db.attempts.Keys;
      OrderKept(db, db', db.attempts[a].participant.candidate, db.attempts[a].participant.stage);
    }
  }

  /** A database whose stages look alike and whose stamps, sends and jobs are unchanged keeps the stamps. */
  lemma StampsKept(db: Db, db': Db)
    requires Stamped(db) && (forall c :: StampDue(db, c)) && PlansKept(db, db')
    requires forall c :: SameStages(db, db', c)
    requires db'.candidates == db.candidates && db'.sends == db.sends
    requires forall c :: db'.jobs[RenderReport(c)] == db.jobs[RenderReport(c)]
                         && db'.jobs[DispatchEmail(c)] == db.jobs[DispatchEmail(c)]
    ensures Stamped(db') && (forall c :: StampDue(db', c))
  {
    forall c ensures AllClosed(db, c) <==> AllClosed(db', c) {
      SameStagesClosed(db, db', c);
    }
    forall c ensures StampDue(db', c) {
      assert StampDue(db, c);
    }
  }

  /* ---------- admission ---------- */

  lemma AdmitKeepsOrder(db: Db, t: Db, a: Uuid)
    requires IdsFresh(db) && EndsKept(db, t) && Ordered(db)
    requires a in t.attempts && t.attempts == db.attempts[a := t.attempts[a]]
    requires t.attempts[a].participant.Candidate? ==>
               InOrder(t, t.attempts[a].participant.candidate, t.attempts[a].participant.stage)
    ensures Ordered(t)
  {
    forall b | b in t.attempts && t.attempts[b].participant.Candidate?
      ensures InOrder(t, t.attempts[b].participant.candidate, t.attempts[b].participant.stage)
    {
      if b != a {
        OrderKept(db, t, db.attempts[b].participant.candidate, db.attempts[b].participant.stage);
      }
    }
  }

  lemma AdmitKeepsStages(db: Db, request: CallModel.Request, permitted: bool, candidate: Uuid)
    requires IdsFresh(db)
    ensures SameStages(db, Admit(db, request, permitted).db, candidate)
    ensures PlansKept(db, Admit(db, request, permitted).db)
  {
    var t := Admit(db, request, permitted).db;
    AdmitWrites(db, request, permitted);
    if t != db {
      InsertKeepsStages(db, t, db.nextAttempt, t.attempts[db.nextAttempt], candidate);
    }
  }

  lemma InsertKeepsUnique(db: Db, t: Db, a: Uuid, attempt: Attempt)
    requires CountedUnique(db) && t.attempts == db.attempts[a := attempt] && attempt.status.InProgress?
    ensures CountedUnique(t)
  {
  }

  lemma AdmitKeepsPlan(db: Db, request: CallModel.Request, permitted: bool)
    requires PlanInv(db)
    ensures PlanInv(Admit(db, request, permitted).db)
  {
    var admission := Admit(db, request, permitted);
    AdmitWrites(db, request, permitted);
    if admission.result.Success? {
      var t := admission.db;
      var a := db.nextAttempt;
      AdmitKeepsEnds(db, request, permitted);
      forall c ensures SameStages(db, t, c) {
        AdmitKeepsStages(db, request, permitted, c);
      }
      StampsKept(db, t);
      InsertKeepsUnique(db, t, a, t.attempts[a]);
      if request.CandidateCall? {
        AdmitGated(db, request, permitted);
        AdmittedInOrder(db, t, request.candidate, request.stage);
      }
      AdmitKeepsOrder(db, t, a);
    }
  }

  lemma AdmitGated(db: Db, request: CallModel.Request, permitted: bool)
    requires Admit(db, request, permitted).result.Success? && request.CandidateCall?
    ensures StageGate(db, request.candidate, request.stage).Success?
  {
  }

  lemma AdmittedInOrder(db: Db, t: Db, candidate: Uuid, stage: Uuid)
    requires StageGate(db, candidate, stage).Success?
    requires SameStages(db, t, candidate) && PlansKept(db, t)
    ensures InOrder(t, candidate, stage) && !Closed(db, candidate, stage)
  {
    NextStageFirst(db, candidate, Plan(db, candidate));
    var i: nat :| i < |Plan(db, candidate)| && FirstOpenAt(db, candidate, Plan(db, candidate), stage, i);
    SameStagesClosed(db, t, candidate);
    assert InOrderAt(t, candidate, stage, i);
  }

  /* ---------- completion and interruption ---------- */

  /** What `advance_candidate_if_closed` changes: the stamp, the send and the jobs of the candidate. */
  lemma AdvanceWrites(db: Db, candidate: Uuid)
    ensures var t := Advance(db, candidate);
            var closes := PlanCloses(db, candidate);
            && t.attempts == db.attempts && PlansKept(db, t)
            && (forall c :: c in t.candidates && c != candidate ==> t.candidates[c] == db.candidates[c])
            && (candidate in t.candidates ==>
                  (t.candidates[candidate].completed <==> db.candidates[candidate].completed || closes))
            && (forall c :: t.jobs[RenderReport(c)]
                  == db.jobs[RenderReport(c)] + if closes && c == candidate then 1 else 0)
            && t.sends >= db.sends && t.sends - db.sends <= (if closes then {candidate} else {})
            && (forall c :: t.jobs[DispatchEmail(c)]
                  == db.jobs[DispatchEmail(c)] + if c in t.sends && c !in db.sends then 1 else 0)
  {
    AdvanceFrame(db, Candidate(candidate, 0));
  }

  lemma SameAttemptsSameStages(db: Db, db': Db, candidate: Uuid)
    requires db.attempts == db'.attempts
    ensures SameStages(db, db', candidate)
  {
    forall stage ensures Done(db, candidate, stage) <==> Done(db', candidate, stage) {
    }
  }

  /** Closing: after the candidate's own stages moved towards closed and `advance_candidate_if_closed` ran,
      stamps and effects are exact again. */
  lemma AdvanceRestores(db: Db, flipped: Db, candidate: Uuid)
    requires Stamped(db) && (forall c :: StampDue(db, c)) && PlansKept(db, flipped)
    requires flipped.candidates == db.candidates && flipped.sends == db.sends && flipped.jobs == db.jobs
    requires forall c :: c != candidate ==> SameStages(db, flipped, c)
    requires forall stage :: Closed(db, candidate, stage) ==> Closed(flipped, candidate, stage)
    ensures var t := Advance(flipped, candidate);
            Stamped(t) && (forall c :: StampDue(t, c))
  {
    var t := Advance(flipped, candidate);
    AdvanceWrites(flipped, candidate);
    AllClosedAfter(db, flipped, candidate);
    forall c ensures AllClosed(t, c) <==> AllClosed(flipped, c) {
      SameAttemptsSameStages(flipped, t, c);
      SameStagesClosed(flipped, t, c);
    }
    assert t.candidates.Keys == db.candidates.Keys;
    forall c ensures StampDue(t, c) {
      assert StampDue(db, c);
    }
  }

  lemma AllClosedAfter(db: Db, flipped: Db, candidate: Uuid)
    requires PlansKept(db, flipped)
    requires forall c :: c != candidate ==> SameStages(db, flipped, c)
    requires forall stage :: Closed(db, candidate, stage) ==> Closed(flipped, candidate, stage)
    ensures forall c :: c != candidate ==> (AllClosed(db, c) <==> AllClosed(flipped, c))
    ensures AllClosed(db, candidate) ==> AllClosed(flipped, candidate)
  {
    assert candidate in db.candidates.Keys <==> candidate in flipped.candidates.Keys;
    forall c | c != candidate ensures AllClosed(db, c) <==> AllClosed(flipped, c) {
      SameStagesClosed(db, flipped, c);
    }
  }

  lemma CompleteKeepsPlan(db: Db, a: Uuid, rows: seq<TranscriptRow>, fenced: bool)
    requires PlanInv(db)
    ensures PlanInv(Complete(db, a, rows, fenced).db)
  {
    if Complete(db, a, rows, fenced).ending.Won? {
      var t := Complete(db, a, rows, fenced).db;
      CompleteWon(db, a, rows, fenced);
      CompleteKeepsEnds(db, a, rows, fenced);
      OrderedKept(db, t);
      CompleteKeepsUnique(db, t, a);
      CompleteKeepsStamps(db, a, rows, fenced);
    }
  }

  lemma CompleteKeepsUnique(db: Db, t: Db, a: Uuid)
    requires CountedUnique(db) && a in db.attempts && !CountedElsewhere(db, a)
    requires t.attempts == db.attempts[a := db.attempts[a].(status := Completed)]
    ensures CountedUnique(t)
  {
    forall x, y | x in t.attempts && y in t.attempts
      && t.attempts[x].participant.Candidate? && t.attempts[x].participant == t.attempts[y].participant
      && Counted(t.attempts[x].status) && Counted(t.attempts[y].status)
      ensures x == y
    {
      if x != a && y == a {
        assert On(db.attempts[x], t.attempts[y].participant.candidate, t.attempts[y].participant.stage);
      } else if x == a && y != a {
        assert On(db.attempts[y], t.attempts[x].participant.candidate, t.attempts[x].participant.stage);
      }
    }
  }

  /** The stages after a status flip of an in-progress attempt. */
  lemma FlipStages(db: Db, flipped: Db, a: Uuid, status: Status)
    requires IdsFresh(db) && a in db.attempts && db.attempts[a].status.InProgress?
    requires Counted(status) || status.Interrupted?
    requires flipped.attempts == db.attempts[a := db.attempts[a].(status := status)]
    requires flipped.nextAttempt == db.nextAttempt && PlansKept(db, flipped)
    ensures db.attempts[a].participant.Rep? ==> forall c :: SameStages(db, flipped, c)
    ensures db.attempts[a].participant.Candidate? ==>
              var own := db.attempts[a].participant.candidate;
              && (forall c :: c != own ==> SameStages(db, flipped, c))
              && (forall stage :: Closed(db, own, stage) ==> Closed(flipped, own, stage))
  {
    forall c | db.attempts[a].participant.Rep? || c != db.attempts[a].participant.candidate
      ensures SameStages(db, flipped, c)
    {
      StatusKeepsStages(db, flipped, a, status, c);
    }
    if db.attempts[a].participant.Candidate? {
      var own := db.attempts[a].participant.candidate;
      forall stage | Closed(db, own, stage) ensures Closed(flipped, own, stage) {
        var same := flipped.(transcripts := db.transcripts);
        assert EndsKept(db, same);
        ClosedKept(db, same, own, stage);
        assert InterruptedOn(same, own, stage) == InterruptedOn(flipped, own, stage);
        assert Done(same, own, stage) <==> Done(flipped, own, stage);
      }
    }
  }

  lemma CompleteKeepsStamps(db: Db, a: Uuid, rows: seq<TranscriptRow>, fenced: bool)
    requires PlanInv(db) && Complete(db, a, rows, fenced).ending.Won?
    ensures var t := Complete(db, a, rows, fenced).db;
            Stamped(t) && (forall c :: StampDue(t, c))
  {
    var t := Complete(db, a, rows, fenced).db;
    var flipped := SetStatus(InsertRows(db, a, rows), a, Completed);
    FlipStages(db, flipped, a, Completed);
    var participant := db.attempts[a].participant;
    var advanced := AdvanceFor(flipped, participant);
    if participant.Candidate? {
      AdvanceRestores(db, flipped, participant.candidate);
    } else {
      StampsKept(db, flipped);
    }
    forall c ensures SameStages(advanced, t, c) {
      SameAttemptsSameStages(advanced, t, c);
    }
    StampsKept(advanced, t);
  }

  lemma InterruptKeepsPlan(db: Db, a: Uuid, neverEstablished: bool)
    requires PlanInv(db)
    ensures PlanInv(Interrupt(db, a, neverEstablished).db)
  {
    if Interrupt(db, a, neverEstablished).ending.Won? {
      var t := Interrupt(db, a, neverEstablished).db;
      InterruptWon(db, a, neverEstablished);
      InterruptKeepsEnds(db, a, neverEstablished);
      OrderedKept(db, t);
      if neverEstablished {
        DeletedKeepsStamps(db, a);
      } else {
        VoidedKeepsStamps(db, a);
      }
    }
  }

  lemma DeletedKeepsStamps(db: Db, a: Uuid)
    requires PlanInv(db) && Interrupt(db, a, true).ending.Won?
    ensures var t := Interrupt(db, a, true).db;
            Stamped(t) && (forall c :: StampDue(t, c))
  {
    var t := Interrupt(db, a, true).db;
    InterruptWon(db, a, true);
    forall c ensures SameStages(db, t, c) {
      DeleteKeepsStages(db, t, a, c);
    }
    StampsKept(db, t);
  }

  lemma VoidedKeepsStamps(db: Db, a: Uuid)
    requires PlanInv(db) && Interrupt(db, a, false).ending.Won?
    ensures var t := Interrupt(db, a, false).db;
            Stamped(t) && (forall c :: StampDue(t, c))
  {
    var t := Interrupt(db, a, false).db;
    var flipped := SetStatus(db, a, Interrupted);
    FlipStages(db, flipped, a, Interrupted);
    var participant := db.attempts[a].participant;
    if participant.Candidate? {
      AdvanceRestores(db, flipped, participant.candidate);
    } else {
      InterruptWon(db, a, false);
      forall c ensures SameStages(db, t, c) {
        StatusKeepsStages(db, t, a, Interrupted, c);
      }
      StampsKept(db, t);
    }
  }

  lemma GradeKeepsUnique(db: Db, a: Uuid, finished: bool)
    requires CountedUnique(db)
    ensures CountedUnique(Grade(db, a, finished))
  {
  }

  lemma GradeStages(db: Db, a: Uuid, finished: bool, candidate: Uuid)
    ensures SameStages(db, Grade(db, a, finished), candidate)
  {
    var t := Grade(db, a, finished);
    if t.attempts == db.attempts {
      SameAttemptsSameStages(db, t, candidate);
    } else {
      StatusKeepsStages(db, t, a, if finished then Graded else GradingPending, candidate);
    }
  }

  lemma GradeFrame(db: Db, a: Uuid, finished: bool)
    ensures var t := Grade(db, a, finished);
            && t.attempts.Keys == db.attempts.Keys
            && forall b :: b in t.attempts ==> t.attempts[b].participant == db.attempts[b].participant
  {
  }

  lemma GradeOrdered(db: Db, a: Uuid, finished: bool)
    requires IdsFresh(db) && Ordered(db)
    ensures IdsFresh(Grade(db, a, finished)) && Ordered(Grade(db, a, finished))
  {
    var t := Grade(db, a, finished);
    GradeKeepsEnds(db, a, finished);
    GradeFrame(db, a, finished);
    OrderedKept(db, t);
  }

  lemma GradeKeepsPlan(db: Db, a: Uuid, finished: bool)
    requires PlanInv(db)
    ensures PlanInv(Grade(db, a, finished))
  {
    var t := Grade(db, a, finished);
    GradeKeepsUnique(db, a, finished);
    GradeOrdered(db, a, finished);
    forall c ensures SameStages(db, t, c) {
      GradeStages(db, a, finished, c);
    }
    assert t.candidates == db.candidates && t.sends == db.sends && t.jobs == db.jobs;
    StampsKept(db, t);
  }

  lemma NotifyKeepsPlan(db: Db, position: Uuid, on: bool)
    requires PlanInv(db)
    ensures PlanInv(Exec(db, SetNotify(position, on)))
  {
    var t := Exec(db, SetNotify(position, on));
    forall c ensures SameStages(db, t, c) {
      SameAttemptsSameStages(db, t, c);
    }
    ExecKeepsEnds(db, SetNotify(position, on));
    OrderedKept(db, t);
    StampsKept(db, t);
  }

  /** Every transaction keeps the plan invariant. */
  lemma ExecKeepsPlan(db: Db, action: Action)
    requires PlanInv(db)
    ensures PlanInv(Exec(db, action))
  {
    match action
    case Request(request, permitted) => AdmitKeepsPlan(db, request, permitted);
    case ReportCompletion(a, rows, fenced) => CompleteKeepsPlan(db, a, rows, fenced);
    case ReportEnding(a, neverEstablished) => InterruptKeepsPlan(db, a, neverEstablished);
    case Grading(a, finished) => GradeKeepsPlan(db, a, finished);
    case SetNotify(position, on) => NotifyKeepsPlan(db, position, on);
  }

  lemma {:induction false} ExecuteKeepsPlan(db: Db, actions: seq<Action>)
    requires PlanInv(db)
    ensures PlanInv(Execute(db, actions))
    decreases |actions|
  {
    if actions != [] {
      ExecuteKeepsPlan(db, actions[..|actions| - 1]);
      ExecKeepsPlan(Execute(db, actions[..|actions| - 1]), actions[|actions| - 1]);
    }
  }

  /* ---------- the theorems ---------- */

  /** No call was ever admitted; every candidate has a non-empty plan. */
  ghost predicate Opening(db: Db) {
    && db.attempts == map[] && db.transcripts == map[] && db.sends == {}
    && (forall c :: c in db.candidates ==> !db.candidates[c].completed && Plan(db, c) != [])
    && (forall job :: db.jobs[job] == 0)
  }

  lemma OpeningInv(db: Db)
    requires Opening(db)
    ensures PlanInv(db) && GradesOnce(db)
  {
    forall c | c in db.candidates ensures !AllClosed(db, c) {
      var stage := Plan(db, c)[0];
      assert stage in Plan(db, c);
      assert InterruptedOn(db, c, stage) == {};
      assert !Closed(db, c, stage);
    }
    forall c ensures StampDue(db, c) {
    }
  }

  lemma {:induction false} ExecuteKeepsGrades(db: Db, actions: seq<Action>)
    requires GradesOnce(db)
    ensures GradesOnce(Execute(db, actions))
    decreases |actions|
  {
    if actions != [] {
      ExecuteKeepsGrades(db, actions[..|actions| - 1]);
      ExecKeepsGrades(Execute(db, actions[..|actions| - 1]), actions[|actions| - 1]);
    }
  }

  /** Over every run: a grade job exists for an attempt exactly once if it completed and never otherwise, and
      transcript rows exist only for completed attempts. */
  lemma {:induction false} GradedExactlyOnce(db: Db, actions: seq<Action>)
    requires Opening(db)
    ensures var t := Execute(db, actions);
            && (forall a :: t.jobs[GradeAttempt(a)] == CountedOnce(t, a))
            && (forall a :: a in t.transcripts ==> a in t.attempts && Counted(t.attempts[a].status))
  {
    OpeningInv(db);
    ExecuteKeepsGrades(db, actions);
  }

  /** The transcript of a completed attempt is the one its winning completion brought, in every continuation. */
  lemma WinnerKeepsTranscript(db: Db, before: seq<Action>, a: Uuid, rows: seq<TranscriptRow>, fenced: bool,
                              after: seq<Action>)
    requires Opening(db) && rows != []
    requires Complete(Execute(db, before), a, rows, fenced).ending.Won?
    ensures var t := Execute(db, before + [ReportCompletion(a, rows, fenced)] + after);
            a in t.transcripts && t.transcripts[a] == rows && t.jobs[GradeAttempt(a)] == 1
  {
    OpeningInv(db);
    var report := [ReportCompletion(a, rows, fenced)];
    ExecuteSplit(db, before, report);
    assert report[..0] == [];
    ExecuteKeepsEnds(db, before);
    CompletionEffects(Execute(db, before), a, rows, fenced);
    var s := Execute(db, before + report);
    assert s == Complete(Execute(db, before), a, rows, fenced).db;
    ExecuteKeepsEnds(db, before + report);
    EndsOnce(db, before + report, after, a, rows, fenced);
    ExecuteKeepsGrades(db, before + report + after);
  }

  /** Over every run, with a fixed non-empty plan: the completion stamp is set exactly when every stage is
      done or twice interrupted; the report job is enqueued exactly once per stamp and the E-5 dispatch at
      most once; every attempt respects stage order; no stage collects two counted attempts. */
  lemma {:induction false} PlanTheorem(db: Db, actions: seq<Action>)
    requires Opening(db)
    ensures var t := Execute(db, actions);
            && (forall c :: c in t.candidates ==> (t.candidates[c].completed <==> AllClosed(t, c)))
            && (forall c :: t.jobs[RenderReport(c)] == if c in t.candidates && t.candidates[c].completed then 1 else 0)
            && (forall c :: t.jobs[DispatchEmail(c)] <= t.jobs[RenderReport(c)])
            && Ordered(t) && CountedUnique(t)
  {
    OpeningInv(db);
    ExecuteKeepsPlan(db, actions);
    var t := Execute(db, actions);
    forall c | c in t.candidates ensures t.candidates[c].completed <==> AllClosed(t, c) {
      assert StampDue(t, c);
    }
  }

  /** Closing is monotone, and after the stamp no attempt of the candidate is ever admitted again. */
  lemma CompletionIsFinal(db: Db, before: seq<Action>, after: seq<Action>, c: Uuid, stage: Uuid, drill: Uuid, permitted: bool)
    requires Opening(db)
    requires c in Execute(db, before).candidates && Execute(db, before).candidates[c].completed
    ensures var s, t := Execute(db, before), Execute(db, before + after);
            && c in t.candidates && t.candidates[c].completed
            && (forall x, y :: Closed(s, x, y) ==> Closed(t, x, y))
            && Admit(t, CandidateCall(c, stage, drill), permitted).result.Failure?
            && Admit(t, CandidateCall(c, stage, drill), permitted).db == t
  {
    var s, t := Execute(db, before), Execute(db, before + after);
    ExecuteSplit(db, before, after);
    PlanTheorem(db, before);
    PlanTheorem(db, before + after);
    ExecuteKeepsEnds(db, before);
    ExecuteKeepsEnds(s, after);
    forall x, y | Closed(s, x, y) ensures Closed(t, x, y) {
      ClosedKept(s, t, x, y);
    }
    assert c in s.candidates.Keys;
    assert Plan(t, c) == Plan(s, c);
    NextStageFirst(t, c, Plan(t, c));
  }
}
