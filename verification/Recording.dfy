/** Recording reconciliation between the runtime's completion callback and the egress webhook.

    Each side writes its own fact and then looks for the other's: the completion commits `pending` and reads the
    stored egress outcome; the webhook stores the outcome and updates a pending row. One step is one call to
    the database or to the registry; any number of handlers of both kinds run interleaved, and a handler that
    is never scheduled again has crashed. */
module Recording {
  import opened Wrappers

  datatype Status = InProgress | Completed | Voided | Deleted

  datatype RecordingStatus = NoRecording | Pending | Available | Unavailable

  /** The program counter of a handler: the first seven belong to the completion, the last three to the
      webhook. `Ignored` is the early answer for a session that is already terminal. */
  datatype Pc =
    | ReadingSession
    | Completing
    | MarkingTerminal
    | ReadingOutcome
    | Reconciling(available: bool)
    | Answered
    | Ignored
    | StoringOutcome(available: bool)
    | ApplyingOutcome(available: bool)
    | Delivered

  datatype State = State(
    status: Status,
    recording: RecordingStatus,
    fenced: bool,
    terminal: bool,
    outcome: Option<bool>,
    openFaults: nat,
    raisedFaults: nat,
    handlers: map<nat, Pc>)

  /** `StaleSweep` gives up on a recording that stayed pending too long; the other unnamed actions are the
      interruption paths, the sweep's registry write, an erasure request and an operator. */
  datatype Action =
    | StartCompletion(id: nat)
    | StartWebhook(id: nat, available: bool)
    | Step(id: nat)
    | Interruption(neverEstablished: bool)
    | MarkTerminal
    | RequestErasure
    | ResolveFault
    | StaleSweep

  function Verdict(available: bool): RecordingStatus {
    if available then Available else Unavailable
  }

  predicate Settled(recording: RecordingStatus) {
    recording.Available? || recording.Unavailable?
  }

  /** `reconcile_recording`: only a pending recording changes; a failure raises a fault unless one is open. */
  function Reconcile(s: State, available: bool): State {
    if !s.recording.Pending? then s
    else
      var resolved := s.(recording := Verdict(available));
      if available || s.openFaults > 0 then resolved
      else resolved.(openFaults := 1, raisedFaults := s.raisedFaults + 1)
  }

  /** The transaction of the completion: a fenced or ended attempt is left alone. */
  function Commit(s: State): State {
    if s.fenced || !s.status.InProgress? then s else s.(status := Completed, recording := Pending)
  }

  function Advance(s: State, pc: Pc): (State, Pc) {
    match pc
    case ReadingSession => (s, if s.terminal then Ignored else Completing)
    case Completing => (Commit(s), MarkingTerminal)
    case MarkingTerminal => (s.(terminal := true), ReadingOutcome)
    case ReadingOutcome => (s, if s.outcome.Some? then Reconciling(s.outcome.value) else Answered)
    case Reconciling(available) => (Reconcile(s, available), Answered)
    case StoringOutcome(available) => (s.(outcome := Some(available)), ApplyingOutcome(available))
    case ApplyingOutcome(available) => (Reconcile(s, available), Delivered)
    case _ => (s, pc)
  }

  function Exec(s: State, action: Action): State {
    match action
    case StartCompletion(id) =>
      if id in s.handlers then s else s.(handlers := s.handlers[id := ReadingSession])
    case StartWebhook(id, available) =>
      if id in s.handlers then s else s.(handlers := s.handlers[id := StoringOutcome(available)])
    case Step(id) =>
      if id !in s.handlers then s
      else
        var (t, pc) := Advance(s, s.handlers[id]);
        t.(handlers := t.handlers[id := pc])
    case Interruption(neverEstablished) =>
      if s.status.InProgress? then s.(status := if neverEstablished then Deleted else Voided) else s
    case MarkTerminal => s.(terminal := true)
    case RequestErasure => s.(fenced := true)
    case ResolveFault => if s.openFaults > 0 then s.(openFaults := s.openFaults - 1) else s
    case StaleSweep => if s.status.Voided? then s else Reconcile(s, false)
  }

  function Execute(s: State, actions: seq<Action>): State
    decreases |actions|
  {
    if actions == [] then s else Exec(Execute(s, actions[..|actions| - 1]), actions[|actions| - 1])
  }

  /** A call in progress whose egress is registered; nobody has reported anything yet. */
  predicate Start(s: State) {
    s == State(InProgress, NoRecording, s.fenced, false, None, 0, 0, map[])
  }

  /* ---------- what every run keeps, the sweep included ---------- */

  predicate Rows(s: State) {
    && (s.recording.NoRecording? <==> !s.status.Completed?)
    && s.raisedFaults == (if s.recording.Unavailable? then 1 else 0)
    && s.openFaults <= s.raisedFaults
  }

  lemma ExecKeepsRows(s: State, action: Action)
    requires Rows(s)
    ensures Rows(Exec(s, action))
    ensures Settled(s.recording) ==> Exec(s, action).recording == s.recording
  {
  }

  /** How many steps of a run took the recording out of `pending`. */
  ghost function Settlements(s: State, actions: seq<Action>): nat
    decreases |actions|
  {
    if actions == [] then 0
    else
      var n := |actions| - 1;
      var mid := Execute(s, actions[..n]);
      Settlements(s, actions[..n])
      + if mid.recording.Pending? && !Exec(mid, actions[n]).recording.Pending? then 1 else 0
  }

  /** Over every run, with or without the sweep: a recording exists exactly for a completed attempt; it leaves
      `pending` exactly once, to a status it then keeps; exactly one playback fault is ever raised if that
      status is `unavailable` and none otherwise, so at most one is open. */
  lemma {:induction false} SettledOnce(s: State, actions: seq<Action>)
    requires Start(s)
    ensures var t := Execute(s, actions);
            && (t.recording.NoRecording? <==> !t.status.Completed?)
            && Settlements(s, actions) == (if Settled(t.recording) then 1 else 0)
            && t.raisedFaults == (if t.recording.Unavailable? then 1 else 0)
            && t.openFaults <= t.raisedFaults
    decreases |actions|
  {
    if actions != [] {
      var n := |actions| - 1;
      SettledOnce(s, actions[..n]);
      ExecKeepsRows(Execute(s, actions[..n]), actions[n]);
    }
  }

  lemma {:induction false} ExecuteSplit(s: State, before: seq<Action>, after: seq<Action>)
    ensures Execute(s, before + after) == Execute(Execute(s, before), after)
    decreases |after|
  {
    if after == [] {
      assert before + after == before;
    } else {
      var n := |after| - 1;
      ExecuteSplit(s, before, after[..n]);
      assert (before + after)[..|before + after| - 1] == before + after[..n];
    }
  }

  lemma {:induction false} SettledStays(s: State, before: seq<Action>, after: seq<Action>)
    requires Start(s) && Settled(Execute(s, before).recording)
    ensures Execute(s, before + after).recording == Execute(s, before).recording
    decreases |after|
  {
    if after == [] {
      assert before + after == before;
    } else {
      var n := |after| - 1;
      SettledStays(s, before, after[..n]);
      assert (before + after)[..|before + after| - 1] == before + after[..n];
      SettledOnce(s, before + after[..n]);
      ExecKeepsRows(Execute(s, before + after[..n]), after[n]);
    }
  }

  /* ---------- convergence ---------- */

  /** Every egress report of the run carries the one terminal outcome, and the sweep does not run. */
  ghost predicate OneOutcome(actions: seq<Action>, available: bool) {
    forall i :: 0 <= i < |actions| ==>
      !actions[i].StaleSweep? && (actions[i].StartWebhook? ==> actions[i].available == available)
  }

  /** The completion got past its transaction. */
  predicate PastCommit(pc: Pc) {
    pc.MarkingTerminal? || pc.ReadingOutcome? || pc.Reconciling? || pc.Answered?
  }

  predicate PcInv(s: State, pc: Pc, available: bool) {
    && ((pc.Reconciling? || pc.StoringOutcome? || pc.ApplyingOutcome?) ==> pc.available == available)
    && (pc.ApplyingOutcome? || pc.Delivered? || pc.Reconciling? ==> s.outcome == Some(available))
    && (PastCommit(pc) ==> s.fenced || !s.status.InProgress?)
  }

  ghost predicate Reached(s: State, pc: Pc) {
    exists id :: id in s.handlers && s.handlers[id] == pc
  }

  ghost predicate Inv(s: State, available: bool) {
    && Rows(s)
    && (s.outcome.Some? ==> s.outcome.value == available)
    && (Settled(s.recording) ==> s.recording == Verdict(available))
    && (forall id :: id in s.handlers ==> PcInv(s, s.handlers[id], available))
    && (s.recording.Pending? ==> !Reached(s, Answered) || !Reached(s, Delivered))
  }

  lemma OthersKept(s: State, t: State, pc: Pc, available: bool)
    requires PcInv(s, pc, available)
    requires s.fenced ==> t.fenced
    requires !s.status.InProgress? ==> !t.status.InProgress?
    requires s.outcome == Some(available) ==> t.outcome == Some(available)
    ensures PcInv(t, pc, available)
  {
  }

  lemma OwnStep(s: State, id: nat, available: bool)
    requires Inv(s, available) && id in s.handlers
    ensures var t := Exec(s, Step(id));
            && Rows(t) && PcInv(t, t.handlers[id], available)
            && (t.outcome.Some? ==> t.outcome.value == available)
            && (Settled(t.recording) ==> t.recording == Verdict(available))
  {
    assert PcInv(s, s.handlers[id], available);
  }

  lemma StepFrame(s: State, id: nat, available: bool)
    requires Inv(s, available) && id in s.handlers
    ensures var t := Exec(s, Step(id));
            && id in t.handlers && t.handlers == s.handlers[id := t.handlers[id]]
            && (s.fenced ==> t.fenced) && (!s.status.InProgress? ==> !t.status.InProgress?)
            && (s.outcome == Some(available) ==> t.outcome == Some(available))
  {
    assert PcInv(s, s.handlers[id], available);
  }

  /** A handler's own step: the interesting ones are the commit, which no answered completion precedes, and the
      read, which misses the outcome only if no webhook is past its write. */
  lemma StepKeepsInv(s: State, id: nat, available: bool)
    requires Inv(s, available) && id in s.handlers
    ensures Inv(Exec(s, Step(id)), available)
  {
    var t := Exec(s, Step(id));
    OwnStep(s, id, available);
    StepFrame(s, id, available);
    forall other | other in t.handlers ensures PcInv(t, t.handlers[other], available) {
      if other != id {
        OthersKept(s, t, s.handlers[other], available);
      }
    }
    if t.recording.Pending? {
      MeetingPoint(s, id, available);
    }
  }

  lemma MeetingPoint(s: State, id: nat, available: bool)
    requires Inv(s, available) && id in s.handlers && Exec(s, Step(id)).recording.Pending?
    ensures !Reached(Exec(s, Step(id)), Answered) || !Reached(Exec(s, Step(id)), Delivered)
  {
    var t := Exec(s, Step(id));
    assert PcInv(s, s.handlers[id], available);
    forall x, y | x in t.handlers && y in t.handlers && t.handlers[x] == Answered && t.handlers[y] == Delivered
      ensures false
    {
      assert PcInv(s, s.handlers[x], available) && PcInv(s, s.handlers[y], available);
      assert x != id ==> Reached(s, Answered);
      assert y != id ==> Reached(s, Delivered);
    }
  }

  lemma ExecKeepsInv(s: State, action: Action, available: bool)
    requires Inv(s, available) && !action.StaleSweep?
    requires action.StartWebhook? ==> action.available == available
    ensures Inv(Exec(s, action), available)
  {
    var t := Exec(s, action);
    if action.Step? {
      if action.id in s.handlers {
        StepKeepsInv(s, action.id, available);
      }
    } else {
      ExecKeepsRows(s, action);
      forall id | id in t.handlers ensures PcInv(t, t.handlers[id], available) {
        if id in s.handlers {
          OthersKept(s, t, s.handlers[id], available);
        }
      }
      forall pc | (pc == Answered || pc == Delivered) && Reached(t, pc) ensures Reached(s, pc) {
        var id :| id in t.handlers && t.handlers[id] == pc;
        assert id in s.handlers && s.handlers[id] == pc;
      }
    }
  }

  lemma {:induction false} ExecuteKeepsInv(s: State, actions: seq<Action>, available: bool)
    requires Start(s) && OneOutcome(actions, available)
    ensures Inv(Execute(s, actions), available)
    decreases |actions|
  {
    if actions != [] {
      var n := |actions| - 1;
      ExecuteKeepsInv(s, actions[..n], available);
      ExecKeepsInv(Execute(s, actions[..n]), actions[n], available);
    }
  }

  /** Convergence: with one terminal outcome and no stale sweep, in every interleaving and with any duplicates,
      once a completed attempt has seen one completion answered and one webhook delivered, its recording is
      at that outcome. */
  lemma RecordingConverges(s: State, actions: seq<Action>, available: bool)
    requires Start(s) && OneOutcome(actions, available)
    ensures var t := Execute(s, actions);
            && (Settled(t.recording) ==> t.recording == Verdict(available))
            && (t.status.Completed? && Reached(t, Answered) && Reached(t, Delivered) ==>
                  t.recording == Verdict(available))
  {
    ExecuteKeepsInv(s, actions, available);
  }

  lemma ExecuteOne(s: State, a: Action)
    ensures Execute(s, [a]) == Exec(s, a)
  {
    assert [a][..0] == [];
  }

  lemma ExecuteTwo(s: State, a: Action, b: Action)
    ensures Execute(s, [a, b]) == Exec(Exec(s, a), b)
  {
    assert [a, b][..1] == [a];
    ExecuteOne(s, a);
  }

  /** The state with handler `id` at `pc`. */
  function At(s: State, id: nat, pc: Pc): State {
    s.(handlers := s.handlers[id := pc])
  }

  lemma StepAt(s: State, id: nat, pc: Pc)
    ensures Exec(At(s, id, pc), Step(id)) == At(Advance(s, pc).0, id, Advance(s, pc).1)
  {
    var next := Advance(s, pc).1;
    assert s.handlers[id := pc][id := next] == s.handlers[id := next];
  }

  lemma TwoStepsAt(s: State, id: nat, pc: Pc)
    ensures var (t, next) := Advance(s, pc);
            Execute(At(s, id, pc), [Step(id), Step(id)]) == At(Advance(t, next).0, id, Advance(t, next).1)
  {
    ExecuteTwo(At(s, id, pc), Step(id), Step(id));
    StepAt(s, id, pc);
    StepAt(Advance(s, pc).0, id, Advance(s, pc).1);
  }

  /** A webhook run to its end on its own: the outcome is stored and a pending recording takes it. */
  lemma WebhookRuns(s: State, id: nat, available: bool)
    requires id !in s.handlers
    ensures Execute(s, [StartWebhook(id, available)] + [Step(id), Step(id)])
         == At(Reconcile(s.(outcome := Some(available)), available), id, Delivered)
  {
    ExecuteSplit(s, [StartWebhook(id, available)], [Step(id), Step(id)]);
    ExecuteOne(s, StartWebhook(id, available));
    TwoStepsAt(s, id, StoringOutcome(available));
  }

  /** One more delivery of the webhook settles any completed attempt, wherever the other handlers stopped. */
  lemma RedeliverySettles(s: State, actions: seq<Action>, available: bool, id: nat)
    requires Start(s) && OneOutcome(actions, available)
    requires Execute(s, actions).status.Completed? && id !in Execute(s, actions).handlers
    ensures Execute(s, actions + ([StartWebhook(id, available)] + [Step(id), Step(id)])).recording == Verdict(available)
  {
    ExecuteSplit(s, actions, [StartWebhook(id, available)] + [Step(id), Step(id)]);
    ExecuteKeepsInv(s, actions, available);
    WebhookRuns(Execute(s, actions), id, available);
  }

  /** The completion up to its read: its transaction and the terminal mark. */
  lemma CompletionRunsToRead(s: State, id: nat)
    requires id !in s.handlers && !s.terminal
    ensures Execute(s, [StartCompletion(id), Step(id)] + [Step(id), Step(id)])
         == At(Commit(s).(terminal := true), id, ReadingOutcome)
  {
    ExecuteSplit(s, [StartCompletion(id), Step(id)], [Step(id), Step(id)]);
    ExecuteTwo(s, StartCompletion(id), Step(id));
    StepAt(s, id, ReadingSession);
    TwoStepsAt(s, id, Completing);
  }

  lemma RetryIsIgnored(s: State, id: nat)
    requires id !in s.handlers && s.terminal
    ensures Execute(s, [StartCompletion(id), Step(id)]) == At(s, id, Ignored)
  {
    ExecuteTwo(s, StartCompletion(id), Step(id));
    StepAt(s, id, ReadingSession);
  }

  /** The runtime's retry cannot always do the same: if the webhook came before the commit of a completion that
      then crashes after marking the session terminal, the retry is ignored and the recording stays pending. */
  lemma CrashStrandsPending(s: State, available: bool) returns (actions: seq<Action>)
    requires Start(s) && !s.fenced
    ensures OneOutcome(actions, available)
    ensures var t := Execute(s, actions);
            && t.recording.Pending? && t.outcome == Some(available)
            && Reached(t, Delivered) && Reached(t, Ignored)
  {
    var egress := [StartWebhook(0, available)] + [Step(0), Step(0)];
    var crashed := [StartCompletion(1), Step(1)] + [Step(1), Step(1)];
    var retry := [StartCompletion(2), Step(2)];
    actions := egress + crashed + retry;
    ExecuteSplit(s, egress + crashed, retry);
    ExecuteSplit(s, egress, crashed);
    WebhookRuns(s, 0, available);
    var a := Execute(s, egress);
    CompletionRunsToRead(a, 1);
    var b := Execute(a, crashed);
    RetryIsIgnored(b, 2);
    var c := Execute(b, retry);
    assert c.handlers[0] == Delivered && c.handlers[2] == Ignored;
  }

  /* ---------- the handlers run without interruption ---------- */

  /** The completion callback run to its end on its own. */
  function CompletionAlone(s: State): State {
    if s.terminal then s
    else
      var committed := Commit(s).(terminal := true);
      if s.outcome.Some? then Reconcile(committed, s.outcome.value) else committed
  }

  /** A completion handler from its start, with steps enough to reach its end. */
  function CompletionCalls(id: nat): seq<Action> {
    ([StartCompletion(id), Step(id)] + [Step(id), Step(id)]) + [Step(id), Step(id)]
  }

  lemma EarlyAnswerRuns(s: State, id: nat)
    requires id !in s.handlers && s.terminal
    ensures Execute(s, CompletionCalls(id)) == At(s, id, Ignored)
  {
    var first := [StartCompletion(id), Step(id)];
    ExecuteSplit(s, first + [Step(id), Step(id)], [Step(id), Step(id)]);
    ExecuteSplit(s, first, [Step(id), Step(id)]);
    RetryIsIgnored(s, id);
    TwoStepsAt(s, id, Ignored);
  }

  lemma FullCompletionRuns(s: State, id: nat)
    requires id !in s.handlers && !s.terminal
    ensures Execute(s, CompletionCalls(id)) == At(CompletionAlone(s), id, Answered)
  {
    ExecuteSplit(s, [StartCompletion(id), Step(id)] + [Step(id), Step(id)], [Step(id), Step(id)]);
    CompletionRunsToRead(s, id);
    TwoStepsAt(Commit(s).(terminal := true), id, ReadingOutcome);
  }

  /** Whatever state it starts in, the handler's steps do what the undisturbed handler does: the early answer on a
      terminal session, the answer without a stored outcome, and the reconciliation with one. */
  lemma CompletionRuns(s: State, id: nat)
    requires id !in s.handlers
    ensures Execute(s, CompletionCalls(id)) == At(CompletionAlone(s), id, if s.terminal then Ignored else Answered)
  {
    if s.terminal {
      EarlyAnswerRuns(s, id);
    } else {
      FullCompletionRuns(s, id);
    }
  }

  /** When the runtime's retry settles a pending recording: over every run with one outcome, wherever the other
      handlers stopped, a further completion run to its end leaves the recording at that outcome if and only if
      the session is not yet terminal and the outcome is stored; otherwise the recording is still pending. */
  lemma RetrySettlesIff(s: State, actions: seq<Action>, available: bool, id: nat)
    requires Start(s) && OneOutcome(actions, available)
    requires Execute(s, actions).recording.Pending? && id !in Execute(s, actions).handlers
    ensures var t := Execute(s, actions);
            var u := Execute(s, actions + CompletionCalls(id));
            && (u.recording == Verdict(available) <==> !t.terminal && t.outcome.Some?)
            && (u.recording != Verdict(available) ==> u.recording.Pending?)
  {
    ExecuteSplit(s, actions, CompletionCalls(id));
    ExecuteKeepsInv(s, actions, available);
    CompletionRuns(Execute(s, actions), id);
  }

  /* ---------- what each call decides, on the row itself ---------- */

  /** The recording and the fault counters after an egress outcome reaches a pending recording; `row` is the state
      it reaches. */
  ghost predicate Resolves(row: State, t: State, available: bool) {
    var raises := !available && row.openFaults == 0;
    && t.recording == (if available then Available else Unavailable)
    && t.openFaults == (if raises then 1 else row.openFaults)
    && t.raisedFaults == row.raisedFaults + (if raises then 1 else 0)
  }

  ghost predicate RecordingKept(row: State, t: State) {
    t.recording == row.recording && t.openFaults == row.openFaults && t.raisedFaults == row.raisedFaults
  }

  /** The completion callback run alone, in full. On a terminal session nothing happens. Otherwise the session
      becomes terminal; the attempt completes with a pending recording if and only if it is in progress and not
      fenced; and a recording that is then pending is resolved if and only if an outcome is stored. */
  lemma CompletionDecided(s: State)
    ensures var t := CompletionAlone(s);
            var wins := !s.terminal && !s.fenced && s.status == InProgress;
            var row := if wins then s.(recording := Pending) else s;
            && (s.terminal ==> t == s)
            && t.terminal && t.fenced == s.fenced && t.outcome == s.outcome && t.handlers == s.handlers
            && t.status == (if wins then Completed else s.status)
            && (if !s.terminal && row.recording == Pending && s.outcome.Some? then Resolves(row, t, s.outcome.value)
                else RecordingKept(row, t))
  {
  }

  /** The webhook run alone stores its outcome, resolves a pending recording, and changes nothing else. */
  lemma WebhookDecided(s: State, available: bool, id: nat)
    requires id !in s.handlers
    ensures var t := Execute(s, [StartWebhook(id, available)] + [Step(id), Step(id)]);
            && t.outcome == Some(available) && t.handlers == s.handlers[id := Delivered]
            && t.status == s.status && t.terminal == s.terminal && t.fenced == s.fenced
            && (if s.recording == Pending then Resolves(s, t, available) else RecordingKept(s, t))
  {
    WebhookRuns(s, id, available);
  }

  /** The reports from elsewhere: an interruption ends a call in progress and no other; the stale sweep fails a
      pending recording unless the attempt was voided; closing a fault, the registry's mark and an erasure request
      touch their own field only; and a handler starts once. */
  lemma OthersDecided(s: State, neverEstablished: bool, id: nat, available: bool)
    ensures Exec(s, Interruption(neverEstablished))
         == s.(status := if s.status != InProgress then s.status else if neverEstablished then Deleted else Voided)
    ensures var t := Exec(s, StaleSweep);
            && t.(recording := s.recording, openFaults := s.openFaults, raisedFaults := s.raisedFaults) == s
            && (if s.recording == Pending && s.status != Voided then Resolves(s, t, false) else t == s)
    ensures Exec(s, MarkTerminal) == s.(terminal := true) && Exec(s, RequestErasure) == s.(fenced := true)
    ensures Exec(s, ResolveFault) == s.(openFaults := if s.openFaults == 0 then 0 else s.openFaults - 1)
    ensures id in s.handlers ==> Exec(s, StartCompletion(id)) == s && Exec(s, StartWebhook(id, available)) == s
  {
  }

  /** The rows and keys of one call, as the two callbacks update them. */
  class CallPlane {
    var status: Status
    var recording: RecordingStatus
    var fenced: bool
    var terminal: bool
    var outcome: Option<bool>
    var openFaults: nat
    var raisedFaults: nat
    /** The egress registered for the call; none while its start is only claimed. */
    var egressId: Option<string>

    constructor (erasureRequested: bool, egressId: Option<string>)
      ensures Start(View()) && fenced == erasureRequested && this.egressId == egressId
    {
      this.egressId := egressId;
      status, recording, fenced, terminal := InProgress, NoRecording, erasureRequested, false;
      outcome, openFaults, raisedFaults := None, 0, 0;
    }

    function View(): State
      reads this
    {
      State(status, recording, fenced, terminal, outcome, openFaults, raisedFaults, map[])
    }

    method ReconcileRecording(available: bool) returns (changed: bool)
      modifies this`recording, this`openFaults, this`raisedFaults
      ensures changed == old(recording).Pending?
      ensures View() == Reconcile(old(View()), available)
    {
      changed := recording.Pending?;
      if changed {
        recording := if available then Available else Unavailable;
        if !available && openFaults == 0 {
          openFaults := openFaults + 1;
          raisedFaults := raisedFaults + 1;
        }
      }
    }

    /** `runtime_completion` after authentication. */
    method RuntimeCompletion()
      modifies this
      ensures View() == CompletionAlone(old(View())) && egressId == old(egressId)
    {
      if terminal {
        return;
      }
      if !fenced && status.InProgress? {
        status, recording := Completed, Pending;
      }
      terminal := true;
      if outcome.Some? {
        var _ := ReconcileRecording(outcome.value);
      }
    }

    /** The `egress_ended` branch of `livekit_webhook`: another egress than the registered one is ignored. */
    method EgressEnded(reported: string, available: bool)
      modifies this
      ensures View() == if old(egressId) == Some(reported)
                        then Reconcile(old(View()).(outcome := Some(available)), available)
                        else old(View())
      ensures egressId == old(egressId)
    {
      if egressId != Some(reported) {
        return;
      }
      outcome := Some(available);
      var _ := ReconcileRecording(available);
    }
  }
}
