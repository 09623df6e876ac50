/** One live call at a time: voided attempts, restarts and why a candidate's plan must end.

    The single-live-call registry lives outside the database; it enters as the hypothesis that no candidate
    ever has two attempts in progress. */
module CallRestarts {
  import opened Wrappers
  import opened CallModel
  import opened CallInvariants
  import opened CallPlans

  predicate Live(db: Db, a: Uuid, candidate: Uuid) {
    && a in db.attempts && db.attempts[a].status.InProgress?
    && db.attempts[a].participant.Candidate? && db.attempts[a].participant.candidate == candidate
  }

  ghost predicate OneLive(db: Db) {
    forall a, b, candidate :: Live(db, a, candidate) && Live(db, b, candidate) ==> a == b
  }

  /** No state of the run has two live attempts of one candidate. */
  ghost predicate OneLiveRun(db: Db, actions: seq<Action>) {
    forall i :: 0 <= i <= |actions| ==> OneLive(Execute(db, actions[..i]))
  }

  predicate OfCandidate(db: Db, a: Uuid) {
    a in db.attempts && db.attempts[a].participant.Candidate?
  }

  /** The voided attempts on the stage of attempt `a` that were admitted before it. */
  function EarlierVoids(db: Db, a: Uuid): set<Uuid>
    requires OfCandidate(db, a)
  {
    set b | b in InterruptedOn(db, db.attempts[a].participant.candidate, db.attempts[a].participant.stage) && b < a
  }

  /** `restart` says exactly whether one attempt on the stage was voided before; never were two. */
  predicate RestartExact(db: Db, a: Uuid)
    requires OfCandidate(db, a)
  {
    |EarlierVoids(db, a)| == if db.attempts[a].restart then 1 else 0
  }

  predicate StageBounded(db: Db, candidate: Uuid, stage: Uuid) {
    |InterruptedOn(db, candidate, stage)| <= if Done(db, candidate, stage) then 1 else 2
  }

  /** A live attempt is the candidate's latest, and its stage is open. */
  ghost predicate LiveLast(db: Db, a: Uuid)
    requires OfCandidate(db, a)
  {
    && (forall b: Uuid :: OfCandidate(db, b) && db.attempts[b].participant.candidate == db.attempts[a].participant.candidate
                    ==> b <= a)
    && !Closed(db, db.attempts[a].participant.candidate, db.attempts[a].participant.stage)
  }

  ghost predicate Restarts(db: Db) {
    && (forall a :: OfCandidate(db, a) ==> RestartExact(db, a))
    && (forall candidate, stage :: StageBounded(db, candidate, stage))
    && (forall a :: OfCandidate(db, a) && db.attempts[a].status.InProgress? ==> LiveLast(db, a))
  }

  /* ---------- how one transaction moves the stages ---------- */

  ghost predicate SameStage(db: Db, t: Db, candidate: Uuid, stage: Uuid) {
    && (Done(db, candidate, stage) <==> Done(t, candidate, stage))
    && InterruptedOn(db, candidate, stage) == InterruptedOn(t, candidate, stage)
  }

  /** The status of one live attempt changes: its own stage gains that end, every other stage looks the same. */
  lemma FlipMoves(db: Db, t: Db, a: Uuid, status: Status)
    requires OfCandidate(db, a) && db.attempts[a].status.InProgress?
    requires t.attempts == db.attempts[a := db.attempts[a].(status := status)]
    ensures var own := db.attempts[a].participant;
            && (forall c, st :: Candidate(c, st) != own ==> SameStage(db, t, c, st))
            && (Done(t, own.candidate, own.stage) <==> Done(db, own.candidate, own.stage) || Counted(status))
            && InterruptedOn(t, own.candidate, own.stage)
            == InterruptedOn(db, own.candidate, own.stage) + (if status.Interrupted? then {a} else {})
  {
    var own := db.attempts[a].participant;
    forall c, st ensures Done(t, c, st) <==> Done(db, c, st) || (Candidate(c, st) == own && Counted(status)) {
      FlipDone(db, t, a, status, c, st);
    }
  }

  lemma FlipDone(db: Db, t: Db, a: Uuid, status: Status, candidate: Uuid, stage: Uuid)
    requires a in db.attempts && db.attempts[a].status.InProgress?
    requires t.attempts == db.attempts[a := db.attempts[a].(status := status)]
    ensures Done(t, candidate, stage)
       <==> Done(db, candidate, stage) || (db.attempts[a].participant == Candidate(candidate, stage) && Counted(status))
  {
    if Done(db, candidate, stage) {
      var b :| b in db.attempts && On(db.attempts[b], candidate, stage) && Counted(db.attempts[b].status);
      assert b in t.attempts && t.attempts[b] == db.attempts[b];
    }
    if Done(t, candidate, stage) {
      var b :| b in t.attempts && On(t.attempts[b], candidate, stage) && Counted(t.attempts[b].status);
      assert b != a ==> db.attempts[b] == t.attempts[b];
    }
    if db.attempts[a].participant == Candidate(candidate, stage) && Counted(status) {
      assert a in t.attempts && On(t.attempts[a], candidate, stage);
    }
  }

  /** Nothing about ended attempts, stages or live attempts moved, except that live ones may have gone. */
  lemma FrameKeepsRestarts(db: Db, t: Db)
    requires Restarts(db) && (forall c :: SameStages(db, t, c))
    requires forall a :: a in t.attempts ==>
               && a in db.attempts
               && t.attempts[a].participant == db.attempts[a].participant
               && t.attempts[a].restart == db.attempts[a].restart
               && (t.attempts[a].status.InProgress? ==> db.attempts[a].status.InProgress?)
    ensures Restarts(t)
  {
    forall c, st ensures StageBounded(t, c, st) && SameStage(db, t, c, st) {
      assert StageBounded(db, c, st) && SameStages(db, t, c);
    }
    forall a | OfCandidate(t, a) ensures RestartExact(t, a) {
      assert RestartExact(db, a);
      assert SameStage(db, t, t.attempts[a].participant.candidate, t.attempts[a].participant.stage);
      assert EarlierVoids(t, a) == EarlierVoids(db, a);
    }
    forall a | OfCandidate(t, a) && t.attempts[a].status.InProgress? ensures LiveLast(t, a) {
      assert LiveLast(db, a);
      assert SameStage(db, t, t.attempts[a].participant.candidate, t.attempts[a].participant.stage);
      forall b: Uuid | OfCandidate(t, b) && t.attempts[b].participant.candidate == t.attempts[a].participant.candidate
        ensures b <= a
      {
        assert OfCandidate(db, b);
      }
    }
  }

  /* ---------- admission ---------- */

  lemma InsertKeepsRestarts(db: Db, t: Db, a: Uuid)
    requires IdsFresh(db) && Restarts(db) && OneLive(t) && a == db.nextAttempt
    requires a in t.attempts && t.attempts == db.attempts[a := t.attempts[a]] && t.attempts[a].status.InProgress?
    requires OfCandidate(t, a) ==>
               var own := t.attempts[a].participant;
               && !Closed(db, own.candidate, own.stage)
               && t.attempts[a].restart == (|InterruptedOn(db, own.candidate, own.stage)| == 1)
    ensures Restarts(t)
  {
    forall c ensures SameStages(db, t, c) {
      InsertKeepsStages(db, t, a, t.attempts[a], c);
    }
    forall c, st ensures StageBounded(t, c, st) && SameStage(db, t, c, st) {
      assert StageBounded(db, c, st) && SameStages(db, t, c);
    }
    forall b | OfCandidate(t, b) ensures RestartExact(t, b) {
      var own := t.attempts[b].participant;
      assert SameStage(db, t, own.candidate, own.stage);
      if b == a {
        assert EarlierVoids(t, a) == InterruptedOn(db, own.candidate, own.stage);
      } else {
        assert RestartExact(db, b) && EarlierVoids(t, b) == EarlierVoids(db, b);
      }
    }
    forall b | OfCandidate(t, b) && t.attempts[b].status.InProgress? ensures LiveLast(t, b) {
      InsertedLast(db, t, a, b);
      assert SameStage(db, t, t.attempts[b].participant.candidate, t.attempts[b].participant.stage);
      assert b != a ==> LiveLast(db, b);
    }
  }

  lemma InsertedLast(db: Db, t: Db, a: Uuid, b: Uuid)
    requires IdsFresh(db) && Restarts(db) && OneLive(t) && a == db.nextAttempt
    requires a in t.attempts && t.attempts == db.attempts[a := t.attempts[a]] && t.attempts[a].status.InProgress?
    requires OfCandidate(t, b) && t.attempts[b].status.InProgress?
    ensures forall d: Uuid :: OfCandidate(t, d) && t.attempts[d].participant.candidate == t.attempts[b].participant.candidate
              ==> d <= b
  {
    var candidate := t.attempts[b].participant.candidate;
    assert Live(t, b, candidate);
    forall d: Uuid | OfCandidate(t, d) && t.attempts[d].participant.candidate == candidate ensures d <= b {
      if b != a {
        assert LiveLast(db, b);
        if d == a {
          assert Live(t, a, candidate);
        } else {
          assert OfCandidate(db, d);
        }
      }
    }
  }

  lemma GateOpens(db: Db, candidate: Uuid, stage: Uuid)
    requires StageGate(db, candidate, stage).Success?
    ensures !Closed(db, candidate, stage)
    ensures StageGate(db, candidate, stage) == Success(|InterruptedOn(db, candidate, stage)| == 1)
  {
    NextStageFirst(db, candidate, Plan(db, candidate));
    var i: nat :| i < |Plan(db, candidate)| && FirstOpenAt(db, candidate, Plan(db, candidate), stage, i);
    assert stage in Plan(db, candidate);
  }

  lemma AdmitKeepsRestarts(db: Db, request: CallModel.Request, permitted: bool)
    requires IdsFresh(db) && Restarts(db) && OneLive(Admit(db, request, permitted).db)
    ensures Restarts(Admit(db, request, permitted).db)
  {
    var admission := Admit(db, request, permitted);
    AdmitWrites(db, request, permitted);
    if admission.result.Success? {
      if request.CandidateCall? {
        AdmitGated(db, request, permitted);
        GateOpens(db, request.candidate, request.stage);
      }
      InsertKeepsRestarts(db, admission.db, db.nextAttempt);
    }
  }

  /* ---------- completion and interruption ---------- */

  lemma OneLiveElsewhere(db: Db, t: Db, a: Uuid, status: Status, b: Uuid)
    requires OneLive(db) && OfCandidate(db, a) && db.attempts[a].status.InProgress? && !status.InProgress?
    requires t.attempts == db.attempts[a := db.attempts[a].(status := status)]
    requires OfCandidate(t, b) && t.attempts[b].status.InProgress?
    ensures b != a && t.attempts[b] == db.attempts[b]
    ensures t.attempts[b].participant != db.attempts[a].participant
  {
    if t.attempts[b].participant == db.attempts[a].participant {
      var candidate := db.attempts[a].participant.candidate;
      assert Live(db, a, candidate) && Live(db, b, candidate);
    }
  }

  lemma FlipKeepsLast(db: Db, t: Db, a: Uuid, status: Status)
    requires Restarts(db) && OneLive(db)
    requires OfCandidate(db, a) && db.attempts[a].status.InProgress? && !status.InProgress?
    requires t.attempts == db.attempts[a := db.attempts[a].(status := status)]
    ensures forall b :: OfCandidate(t, b) && t.attempts[b].status.InProgress? ==> LiveLast(t, b)
  {
    FlipMoves(db, t, a, status);
    forall b | OfCandidate(t, b) && t.attempts[b].status.InProgress? ensures LiveLast(t, b) {
      OneLiveElsewhere(db, t, a, status, b);
      assert LiveLast(db, b);
      assert SameStage(db, t, t.attempts[b].participant.candidate, t.attempts[b].participant.stage);
      forall d: Uuid | OfCandidate(t, d) && t.attempts[d].participant.candidate == t.attempts[b].participant.candidate
        ensures d <= b
      {
        assert OfCandidate(db, d);
      }
    }
  }

  /** The voided attempt is the latest on its stage, so no other attempt's earlier voids change. */
  lemma FlipKeepsEarlier(db: Db, t: Db, a: Uuid, status: Status, b: Uuid)
    requires Restarts(db) && OfCandidate(db, a) && db.attempts[a].status.InProgress?
    requires t.attempts == db.attempts[a := db.attempts[a].(status := status)]
    requires OfCandidate(t, b)
    ensures RestartExact(t, b)
  {
    FlipMoves(db, t, a, status);
    assert OfCandidate(db, b) && RestartExact(db, b) && LiveLast(db, a);
    var own := t.attempts[b].participant;
    if own == db.attempts[a].participant {
      assert b <= a;
    } else {
      assert SameStage(db, t, own.candidate, own.stage);
    }
    assert EarlierVoids(t, b) == EarlierVoids(db, b);
  }

  lemma FlipKeepsBound(db: Db, t: Db, a: Uuid, status: Status, candidate: Uuid, stage: Uuid)
    requires Restarts(db) && OfCandidate(db, a) && db.attempts[a].status.InProgress?
    requires Counted(status) || status.Interrupted?
    requires t.attempts == db.attempts[a := db.attempts[a].(status := status)]
    ensures StageBounded(t, candidate, stage)
  {
    FlipMoves(db, t, a, status);
    assert StageBounded(db, candidate, stage);
    if db.attempts[a].participant == Candidate(candidate, stage) {
      assert LiveLast(db, a);
    } else {
      assert SameStage(db, t, candidate, stage);
    }
  }

  lemma FlipKeepsRestarts(db: Db, t: Db, a: Uuid, status: Status)
    requires Restarts(db) && OneLive(db)
    requires a in db.attempts && db.attempts[a].status.InProgress? && (Counted(status) || status.Interrupted?)
    requires t.attempts == db.attempts[a := db.attempts[a].(status := status)]
    ensures Restarts(t)
  {
    if OfCandidate(db, a) {
      FlipKeepsLast(db, t, a, status);
      forall b | OfCandidate(t, b) ensures RestartExact(t, b) {
        FlipKeepsEarlier(db, t, a, status, b);
      }
      forall c, st ensures StageBounded(t, c, st) {
        FlipKeepsBound(db, t, a, status, c, st);
      }
    } else {
      forall c ensures SameStages(db, t, c) {
        StatusKeepsStages(db, t, a, status, c);
      }
      FrameKeepsRestarts(db, t);
    }
  }

  lemma InterruptKeepsRestarts(db: Db, a: Uuid, neverEstablished: bool)
    requires Restarts(db) && OneLive(db) && Interrupt(db, a, neverEstablished).ending.Won?
    ensures Restarts(Interrupt(db, a, neverEstablished).db)
  {
    var t := Interrupt(db, a, neverEstablished).db;
    InterruptWon(db, a, neverEstablished);
    if neverEstablished {
      forall c ensures SameStages(db, t, c) {
        DeleteKeepsStages(db, t, a, c);
      }
      FrameKeepsRestarts(db, t);
    } else {
      FlipKeepsRestarts(db, t, a, Interrupted);
    }
  }

  lemma GradeKeepsRestarts(db: Db, a: Uuid, finished: bool)
    requires Restarts(db)
    ensures Restarts(Grade(db, a, finished))
  {
    var t := Grade(db, a, finished);
    forall c ensures SameStages(db, t, c) {
      GradeStages(db, a, finished, c);
    }
    FrameKeepsRestarts(db, t);
  }

  lemma ExecKeepsRestarts(db: Db, action: Action)
    requires IdsFresh(db) && Restarts(db) && OneLive(db) && OneLive(Exec(db, action))
    ensures Restarts(Exec(db, action))
  {
    match action
    case Request(request, permitted) => AdmitKeepsRestarts(db, request, permitted);
    case ReportCompletion(a, rows, fenced) =>
      if Complete(db, a, rows, fenced).ending.Won? {
        CompleteWon(db, a, rows, fenced);
        FlipKeepsRestarts(db, Exec(db, action), a, Completed);
      }
    case ReportEnding(a, neverEstablished) =>
      if Interrupt(db, a, neverEstablished).ending.Won? {
        InterruptKeepsRestarts(db, a, neverEstablished);
      }
    case Grading(a, finished) => GradeKeepsRestarts(db, a, finished);
    case SetNotify(_, _) =>
      var t := Exec(db, action);
      forall c ensures SameStages(db, t, c) {
        SameAttemptsSameStages(db, t, c);
      }
      FrameKeepsRestarts(db, t);
  }

  lemma {:induction false} ExecuteKeepsRestarts(db: Db, actions: seq<Action>)
    requires IdsFresh(db) && Restarts(db) && OneLiveRun(db, actions)
    ensures IdsFresh(Execute(db, actions)) && Restarts(Execute(db, actions))
    decreases |actions|
  {
    if actions != [] {
      var n := |actions| - 1;
      OneLivePrefix(db, actions);
      ExecuteKeepsRestarts(db, actions[..n]);
      ExecKeepsEnds(Execute(db, actions[..n]), actions[n]);
      ExecKeepsRestarts(Execute(db, actions[..n]), actions[n]);
    }
  }

  lemma {:induction false} OneLivePrefix(db: Db, actions: seq<Action>)
    requires OneLiveRun(db, actions) && actions != []
    ensures OneLiveRun(db, actions[..|actions| - 1])
    ensures OneLive(Execute(db, actions[..|actions| - 1])) && OneLive(Execute(db, actions))
  {
    var n := |actions| - 1;
    forall i | 0 <= i <= n ensures OneLive(Execute(db, actions[..n][..i])) {
      assert actions[..n][..i] == actions[..i];
    }
    assert actions[..|actions|] == actions;
  }

  lemma OpeningRestarts(db: Db)
    requires Opening(db)
    ensures IdsFresh(db) && Restarts(db)
  {
    forall c, st ensures StageBounded(db, c, st) {
      assert InterruptedOn(db, c, st) == {};
    }
  }

  /** With one live call per candidate, over every run: no stage collects more than two voided attempts, or
      more than one once it is done; and `restart` is set on an attempt exactly when one earlier attempt on
      that stage was voided, while without it none was. */
  lemma {:induction false} RestartTheorem(db: Db, actions: seq<Action>)
    requires Opening(db) && OneLiveRun(db, actions)
    ensures var t := Execute(db, actions);
            && (forall c, st :: |InterruptedOn(t, c, st)| <= if Done(t, c, st) then 1 else 2)
            && (forall a :: OfCandidate(t, a) ==> |EarlierVoids(t, a)| == if t.attempts[a].restart then 1 else 0)
  {
    OpeningRestarts(db);
    ExecuteKeepsRestarts(db, actions);
    var t := Execute(db, actions);
    forall c, st ensures |InterruptedOn(t, c, st)| <= if Done(t, c, st) then 1 else 2 {
      assert StageBounded(t, c, st);
    }
    forall a | OfCandidate(t, a) ensures |EarlierVoids(t, a)| == if t.attempts[a].restart then 1 else 0 {
      assert RestartExact(t, a);
    }
  }

  /* ---------- the plan must end ---------- */

  function Chances(db: Db, candidate: Uuid, stage: Uuid): int {
    if Closed(db, candidate, stage) then 0 else 2 - |InterruptedOn(db, candidate, stage)|
  }

  /** The sum over the open stages of two minus the voided attempts. */
  function Remaining(db: Db, candidate: Uuid, stages: seq<Uuid>): (r: nat)
    ensures r <= 2 * |stages|
  {
    if stages == [] then 0 else Chances(db, candidate, stages[0]) + Remaining(db, candidate, stages[1..])
  }

  lemma {:induction false} RemainingFalls(db: Db, t: Db, candidate: Uuid, stages: seq<Uuid>)
    requires forall stage :: Chances(t, candidate, stage) <= Chances(db, candidate, stage)
    ensures Remaining(t, candidate, stages) <= Remaining(db, candidate, stages)
    ensures (exists i :: 0 <= i < |stages| && Chances(t, candidate, stages[i]) < Chances(db, candidate, stages[i])) ==>
              Remaining(t, candidate, stages) < Remaining(db, candidate, stages)
  {
    if stages != [] {
      RemainingFalls(db, t, candidate, stages[1..]);
      if i: int :| 0 <= i < |stages| && Chances(t, candidate, stages[i]) < Chances(db, candidate, stages[i]) {
        if i > 0 {
          assert stages[1..][i - 1] == stages[i];
        }
      }
    }
  }

  /** The candidate whose attempt the action ends, by completing or voiding it. */
  predicate EndsCandidate(db: Db, action: Action, candidate: Uuid) {
    match action
    case ReportCompletion(a, rows, fenced) =>
      Complete(db, a, rows, fenced).ending.Won? && Live(db, a, candidate)
    case ReportEnding(a, neverEstablished) =>
      Interrupt(db, a, neverEstablished).ending.Won? && !neverEstablished && Live(db, a, candidate)
    case _ => false
  }

  lemma FlipSpendsChance(db: Db, t: Db, a: Uuid, status: Status)
    requires Restarts(db) && OfCandidate(db, a) && db.attempts[a].status.InProgress?
    requires Counted(status) || status.Interrupted?
    requires t.attempts == db.attempts[a := db.attempts[a].(status := status)]
    ensures var own := db.attempts[a].participant;
            Chances(t, own.candidate, own.stage) < Chances(db, own.candidate, own.stage)
  {
    FlipMoves(db, t, a, status);
    assert LiveLast(db, a);
  }

  lemma SameChances(db: Db, t: Db, candidate: Uuid)
    requires forall stage :: SameStage(db, t, candidate, stage)
    ensures forall stage :: Chances(t, candidate, stage) == Chances(db, candidate, stage)
  {
    forall stage ensures Chances(t, candidate, stage) == Chances(db, candidate, stage) {
      assert SameStage(db, t, candidate, stage);
    }
  }

  /** A completion or voiding spends a chance of its own candidate and no chance is ever gained. */
  lemma FlipChances(db: Db, t: Db, a: Uuid, status: Status, candidate: Uuid)
    requires Restarts(db) && a in db.attempts && db.attempts[a].status.InProgress?
    requires Counted(status) || status.Interrupted?
    requires t.attempts == db.attempts[a := db.attempts[a].(status := status)]
    ensures forall stage :: Chances(t, candidate, stage) <= Chances(db, candidate, stage)
    ensures Live(db, a, candidate) ==>
              var stage := db.attempts[a].participant.stage;
              Chances(t, candidate, stage) < Chances(db, candidate, stage)
  {
    if Live(db, a, candidate) {
      FlipMoves(db, t, a, status);
      FlipSpendsChance(db, t, a, status);
      forall stage | stage != db.attempts[a].participant.stage
        ensures Chances(t, candidate, stage) == Chances(db, candidate, stage)
      {
        assert SameStage(db, t, candidate, stage);
      }
    } else {
      StatusKeepsStages(db, t, a, status, candidate);
      SameChances(db, t, candidate);
    }
  }

  /** Every action but a winning completion or voiding leaves every chance as it was. */
  lemma OtherChances(db: Db, action: Action, candidate: Uuid)
    requires IdsFresh(db)
    requires match action
             case ReportCompletion(a, rows, fenced) => !Complete(db, a, rows, fenced).ending.Won?
             case ReportEnding(a, neverEstablished) => neverEstablished || !Interrupt(db, a, neverEstablished).ending.Won?
             case _ => true
    ensures forall stage :: Chances(Exec(db, action), candidate, stage) == Chances(db, candidate, stage)
  {
    var t := Exec(db, action);
    match action {
      case Request(request, permitted) => AdmitKeepsStages(db, request, permitted, candidate);
      case ReportCompletion(_, _, _) => SameAttemptsSameStages(db, t, candidate);
      case ReportEnding(a, neverEstablished) =>
        if Interrupt(db, a, neverEstablished).ending.Won? {
          InterruptWon(db, a, neverEstablished);
          DeleteKeepsStages(db, t, a, candidate);
        } else {
          SameAttemptsSameStages(db, t, candidate);
        }
      case Grading(a, finished) => GradeStages(db, a, finished, candidate);
      case SetNotify(_, _) => SameAttemptsSameStages(db, t, candidate);
    }
    SameChances(db, t, candidate);
  }

  lemma ExecChances(db: Db, action: Action, candidate: Uuid)
    requires IdsFresh(db) && Restarts(db)
    ensures forall stage :: Chances(Exec(db, action), candidate, stage) <= Chances(db, candidate, stage)
    ensures EndsCandidate(db, action, candidate) ==>
              var stage := db.attempts[action.attempt].participant.stage;
              Chances(Exec(db, action), candidate, stage) < Chances(db, candidate, stage)
  {
    if action.ReportCompletion? && Complete(db, action.attempt, action.rows, action.fenced).ending.Won? {
      CompleteWon(db, action.attempt, action.rows, action.fenced);
      FlipChances(db, Exec(db, action), action.attempt, Completed, candidate);
    } else if action.ReportEnding? && !action.neverEstablished
              && Interrupt(db, action.attempt, action.neverEstablished).ending.Won? {
      InterruptWon(db, action.attempt, action.neverEstablished);
      FlipChances(db, Exec(db, action), action.attempt, Interrupted, candidate);
    } else {
      OtherChances(db, action, candidate);
    }
  }

  /** The measure: it never rises, and it strictly falls whenever an attempt of the candidate is completed or
      voided. */
  lemma MeasureFalls(db: Db, action: Action, candidate: Uuid)
    requires PlanInv(db) && Restarts(db)
    ensures Plan(Exec(db, action), candidate) == Plan(db, candidate)
    ensures var plan := Plan(db, candidate);
            && Remaining(Exec(db, action), candidate, plan) <= Remaining(db, candidate, plan)
            && (EndsCandidate(db, action, candidate) ==>
                  Remaining(Exec(db, action), candidate, plan) < Remaining(db, candidate, plan))
  {
    var t := Exec(db, action);
    var plan := Plan(db, candidate);
    ExecKeepsEnds(db, action);
    assert candidate in db.candidates.Keys <==> candidate in t.candidates.Keys;
    ExecChances(db, action, candidate);
    RemainingFalls(db, t, candidate, plan);
    if EndsCandidate(db, action, candidate) {
      var stage := db.attempts[action.attempt].participant.stage;
      assert InOrder(db, candidate, stage);
      var i: nat :| InOrderAt(db, candidate, stage, i);
      assert Chances(t, candidate, plan[i]) < Chances(db, candidate, plan[i]);
    }
  }

  /** How often a run completed or voided an attempt of the candidate. */
  ghost function Endings(db: Db, actions: seq<Action>, candidate: Uuid): nat
    decreases |actions|
  {
    if actions == [] then 0
    else
      var n := |actions| - 1;
      Endings(db, actions[..n], candidate)
      + if EndsCandidate(Execute(db, actions[..n]), actions[n], candidate) then 1 else 0
  }

  lemma {:induction false} EndingsSpend(db: Db, actions: seq<Action>, candidate: Uuid)
    requires PlanInv(db) && Restarts(db) && OneLiveRun(db, actions)
    ensures var plan := Plan(db, candidate);
            && Plan(Execute(db, actions), candidate) == plan
            && Endings(db, actions, candidate) + Remaining(Execute(db, actions), candidate, plan)
               <= Remaining(db, candidate, plan)
    decreases |actions|
  {
    if actions != [] {
      var n := |actions| - 1;
      var mid := Execute(db, actions[..n]);
      OneLivePrefix(db, actions);
      EndingsSpend(db, actions[..n], candidate);
      ExecuteKeepsPlan(db, actions[..n]);
      ExecuteKeepsRestarts(db, actions[..n]);
      MeasureFalls(mid, actions[n], candidate);
    }
  }

  /** However long the run, a candidate's attempts are completed or voided at most twice per stage in all:
      each ending spends one of the remaining chances, and none remains exactly when the plan is closed. */
  lemma {:induction false} PlanMustEnd(db: Db, actions: seq<Action>, candidate: Uuid)
    requires Opening(db) && OneLiveRun(db, actions)
    ensures var t := Execute(db, actions);
            var remaining := Remaining(t, candidate, Plan(t, candidate));
            && Endings(db, actions, candidate) + remaining <= 2 * |Plan(db, candidate)|
            && (remaining == 0 <==> AllClosed(t, candidate))
  {
    OpeningInv(db);
    OpeningRestarts(db);
    EndingsSpend(db, actions, candidate);
    var t := Execute(db, actions);
    SpentIsClosed(t, candidate, Plan(t, candidate));
  }

  lemma {:induction false} SpentIsClosed(db: Db, candidate: Uuid, stages: seq<Uuid>)
    ensures Remaining(db, candidate, stages) == 0 <==> forall stage :: stage in stages ==> Closed(db, candidate, stage)
  {
    if stages != [] {
      SpentIsClosed(db, candidate, stages[1..]);
      assert stages == [stages[0]] + stages[1..];
    }
  }

  /* ---------- without the hypothesis ---------- */

  predicate LiveOn(db: Db, a: Uuid, candidate: Uuid, stage: Uuid) {
    a in db.attempts && db.attempts[a].status.InProgress? && On(db.attempts[a], candidate, stage)
  }

  ghost predicate AllLive(db: Db, ids: set<Uuid>, candidate: Uuid, stage: Uuid) {
    forall a :: a in ids ==> LiveOn(db, a, candidate, stage)
  }

  lemma ExecuteLast(db: Db, actions: seq<Action>, action: Action)
    ensures Execute(db, actions + [action]) == Exec(Execute(db, actions), action)
  {
    assert (actions + [action])[..|actions|] == actions;
  }

  /** A live attempt closes no stage, so the gate of an open stage stays as it is. */
  lemma {:induction false} SameNext(db: Db, t: Db, candidate: Uuid, stages: seq<Uuid>)
    requires forall stage :: Closed(db, candidate, stage) <==> Closed(t, candidate, stage)
    ensures NextStage(db, candidate, stages) == NextStage(t, candidate, stages)
    decreases |stages|
  {
    if stages != [] {
      SameNext(db, t, candidate, stages[1..]);
    }
  }

  lemma GateStays(db: Db, candidate: Uuid, stage: Uuid, drill: Uuid)
    requires IdsFresh(db) && StageGate(db, candidate, stage).Success?
    ensures var admission := Admit(db, CandidateCall(candidate, stage, drill), true);
            && admission.result.Success? && admission.db.nextAttempt == db.nextAttempt + 1
            && StageGate(admission.db, candidate, stage).Success?
            && InterruptedOn(admission.db, candidate, stage) == InterruptedOn(db, candidate, stage)
            && LiveOn(admission.db, db.nextAttempt, candidate, stage)
            && (forall a :: LiveOn(db, a, candidate, stage) ==> LiveOn(admission.db, a, candidate, stage))
  {
    var call := CandidateCall(candidate, stage, drill);
    var t := Admit(db, call, true).db;
    AdmitWrites(db, call, true);
    AdmitKeepsStages(db, call, true, candidate);
    SameStagesClosed(db, t, candidate);
    SameNext(db, t, candidate, Plan(db, candidate));
  }

  /** Any number of calls of one candidate can be admitted on an open stage before one of them ends. */
  lemma {:induction false} AdmitMany(db: Db, candidate: Uuid, stage: Uuid, drill: Uuid, n: nat)
    returns (actions: seq<Action>, ids: set<Uuid>)
    requires IdsFresh(db) && StageGate(db, candidate, stage).Success?
    ensures var t := Execute(db, actions);
            && IdsFresh(t) && StageGate(t, candidate, stage).Success?
            && InterruptedOn(t, candidate, stage) == InterruptedOn(db, candidate, stage)
            && |ids| == n && AllLive(t, ids, candidate, stage)
    decreases n
  {
    if n == 0 {
      actions, ids := [], {};
    } else {
      var call := Request(CandidateCall(candidate, stage, drill), true);
      var before, earlier := AdmitMany(db, candidate, stage, drill, n - 1);
      var mid := Execute(db, before);
      actions, ids := before + [call], earlier + {mid.nextAttempt};
      ExecuteLast(db, before, call);
      ExecKeepsEnds(mid, call);
      GateStays(mid, candidate, stage, drill);
      assert mid.nextAttempt !in earlier by {
        assert !LiveOn(mid, mid.nextAttempt, candidate, stage);
      }
    }
  }

  lemma VoidAddsOne(db: Db, a: Uuid, candidate: Uuid, stage: Uuid)
    requires LiveOn(db, a, candidate, stage)
    ensures var t := Exec(db, ReportEnding(a, false));
            && InterruptedOn(t, candidate, stage) == InterruptedOn(db, candidate, stage) + {a}
            && forall b :: b != a && LiveOn(db, b, candidate, stage) ==> LiveOn(t, b, candidate, stage)
  {
    InterruptWon(db, a, false);
    FlipMoves(db, Exec(db, ReportEnding(a, false)), a, Interrupted);
  }

  /** And all of them can be voided, although the stage closed with the second one. */
  lemma {:induction false} VoidMany(db: Db, ids: set<Uuid>, candidate: Uuid, stage: Uuid)
    returns (actions: seq<Action>)
    requires AllLive(db, ids, candidate, stage)
    ensures var t := Execute(db, actions);
            && InterruptedOn(t, candidate, stage) == InterruptedOn(db, candidate, stage) + ids
            && forall a :: a !in ids && LiveOn(db, a, candidate, stage) ==> LiveOn(t, a, candidate, stage)
    decreases ids
  {
    if ids == {} {
      actions := [];
    } else {
      var a :| a in ids;
      var before := VoidMany(db, ids - {a}, candidate, stage);
      assert LiveOn(db, a, candidate, stage);
      actions := before + [ReportEnding(a, false)];
      ExecuteLast(db, before, ReportEnding(a, false));
      VoidAddsOne(Execute(db, before), a, candidate, stage);
      assert ids == (ids - {a}) + {a};
    }
  }

  /** Without that hypothesis there is no bound at all: from any state in which a stage is open for a candidate,
      and for every number, some run voids that many more attempts on this one stage. */
  lemma VoidsUnbounded(db: Db, candidate: Uuid, stage: Uuid, drill: Uuid, n: nat) returns (actions: seq<Action>)
    requires IdsFresh(db) && StageGate(db, candidate, stage).Success?
    ensures |InterruptedOn(Execute(db, actions), candidate, stage)| == |InterruptedOn(db, candidate, stage)| + n
  {
    var admits, ids := AdmitMany(db, candidate, stage, drill, n);
    var mid := Execute(db, admits);
    var voids := VoidMany(mid, ids, candidate, stage);
    actions := admits + voids;
    ExecuteSplit(db, admits, voids);
    forall a | a in ids ensures a !in InterruptedOn(mid, candidate, stage) {
      assert LiveOn(mid, a, candidate, stage);
    }
    assert InterruptedOn(mid, candidate, stage) !! ids;
  }

  /** So the bound of two holds over all runs from the start if and only if no candidate has a stage at all;
      with one live call per candidate it always holds. */
  lemma BoundNeedsOneLive(db: Db)
    requires Opening(db)
    ensures (forall actions, candidate, stage :: |InterruptedOn(Execute(db, actions), candidate, stage)| <= 2)
       <==> db.candidates == map[]
    ensures forall actions :: OneLiveRun(db, actions) ==>
              forall candidate, stage :: |InterruptedOn(Execute(db, actions), candidate, stage)| <= 2
  {
    forall actions | OneLiveRun(db, actions)
      ensures forall candidate, stage :: |InterruptedOn(Execute(db, actions), candidate, stage)| <= 2
    {
      RestartTheorem(db, actions);
    }
    if db.candidates == map[] {
      forall actions, candidate, stage ensures |InterruptedOn(Execute(db, actions), candidate, stage)| <= 2 {
        NoCandidateNoVoid(db, actions, candidate, stage);
      }
    } else {
      var candidate :| candidate in db.candidates;
      var stage := Plan(db, candidate)[0];
      OpeningGate(db, candidate);
      var actions := VoidsUnbounded(db, candidate, stage, 0, 3);
      assert |InterruptedOn(Execute(db, actions), candidate, stage)| > 2;
    }
  }

  lemma OpeningGate(db: Db, candidate: Uuid)
    requires Opening(db) && candidate in db.candidates
    ensures StageGate(db, candidate, Plan(db, candidate)[0]).Success? && IdsFresh(db)
  {
    var stage := Plan(db, candidate)[0];
    assert InterruptedOn(db, candidate, stage) == {};
    assert !Done(db, candidate, stage);
  }

  lemma NoCandidateNoVoid(db: Db, actions: seq<Action>, candidate: Uuid, stage: Uuid)
    requires Opening(db) && db.candidates == map[]
    ensures InterruptedOn(Execute(db, actions), candidate, stage) == {}
  {
    OpeningInv(db);
    ExecuteKeepsPlan(db, actions);
    ExecuteKeepsEnds(db, actions);
    var t := Execute(db, actions);
    assert candidate !in t.candidates.Keys;
    assert Plan(t, candidate) == [];
    assert !InOrder(t, candidate, stage);
    forall a | a in t.attempts ensures !On(t.attempts[a], candidate, stage) {
    }
  }
}
