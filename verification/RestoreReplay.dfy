/** Replay of one organization's verified history into a restored database.

    Each event takes two transactions: one rebuilds the pending operation, one applies the event. What an event
    does to the projection is an arbitrary partial function; `complete` removes the organization row. */
module RestoreReplay {
  import opened Wrappers
  import opened HistoryModel
  import HistoryFacts

  type Projection = string

  /** Applying an event to a projection, or nothing when the event's own checks refuse it. */
  datatype Rules = Rules(apply: (Projection, HistoryEvent) -> Option<Projection>)

  datatype OperationStatus = Pending | Applied | Rejected

  datatype Operation = Operation(status: OperationStatus, action: string, expectedSequence: int, payload: string,
                                 reason: string, actorId: Option<Uuid>, resultingSequence: Option<int>)

  datatype Org = Org(sequence: int, projection: Projection)

  datatype Db = Db(org: Option<Org>, operations: map<Uuid, Operation>, purgeCompleted: bool)

  /** Where replay left the database, and whether it finished or raised RestoreUnverified. */
  datatype Outcome = Outcome(db: Db, ok: bool)

  const COMPLETE := "complete"

  function Pendings(db: Db): set<Uuid> {
    set id | id in db.operations && db.operations[id].status.Pending?
  }

  function PendingFor(event: HistoryEvent): Operation {
    Operation(Pending, event.action, event.sequence - 1, event.data, event.reason, event.actorId, None)
  }

  predicate Agrees(operation: Operation, event: HistoryEvent) {
    && operation.action == event.action && operation.expectedSequence == event.sequence - 1
    && operation.payload == event.data && operation.reason == event.reason && operation.actorId == event.actorId
  }

  /** The operation is on record as the applied form of the event. */
  predicate AppliedFor(db: Db, event: HistoryEvent) {
    && event.operationId in db.operations
    && var operation := db.operations[event.operationId];
       && operation.status.Applied? && operation.resultingSequence == Some(event.sequence)
       && operation.action == event.action && operation.payload == event.data
       && operation.actorId == event.actorId && operation.reason == event.reason
  }

  /** The same without the action, which the check of a purged organization does not read. */
  predicate AppliedRecord(db: Db, event: HistoryEvent) {
    && event.operationId in db.operations
    && var operation := db.operations[event.operationId];
       && operation.status.Applied? && operation.resultingSequence == Some(event.sequence)
       && operation.payload == event.data && operation.actorId == event.actorId && operation.reason == event.reason
  }

  /** A pending operation the authority never accepted is rejected; any other stays. */
  function Resolved(operation: Operation): Operation {
    if operation.status.Pending? then operation.(status := Rejected) else operation
  }

  function RejectPendings(operations: map<Uuid, Operation>): map<Uuid, Operation> {
    map id | id in operations :: Resolved(operations[id])
  }

  /** `_ensure_operation` */
  function EnsureOperation(db: Db, event: HistoryEvent): Option<Db> {
    if db.org.None? || db.org.value.sequence != event.sequence - 1 then None
    else if event.operationId in db.operations then
      var existing := db.operations[event.operationId];
      if existing.status.Pending? && Agrees(existing, event) then Some(db) else None
    else if |Pendings(db)| > 1 then None
    else Some(db.(operations := RejectPendings(db.operations)[event.operationId := PendingFor(event)]))
  }

  /** The transaction that applies an event and resolves its operation. */
  function ApplyEvent(rules: Rules, db: Db, event: HistoryEvent): Option<Db> {
    if db.org.None? || event.operationId !in db.operations then None
    else
      match rules.apply(db.org.value.projection, event)
      case None => None
      case Some(projection) =>
        var resolved := db.operations[event.operationId].(status := Applied, resultingSequence := Some(event.sequence));
        var completes := event.action == COMPLETE;
        Some(Db(if completes then None else Some(Org(event.sequence, projection)),
                db.operations[event.operationId := resolved],
                db.purgeCompleted || completes))
  }

  /** One iteration of the event loop. */
  function ReplayStep(rules: Rules, db: Db, event: HistoryEvent): Outcome {
    if db.org.None? then
      Outcome(db, event.action == COMPLETE && event.operationId in db.operations
                  && db.operations[event.operationId].status.Applied?)
    else if db.org.value.sequence >= event.sequence then Outcome(db, AppliedFor(db, event))
    else if db.org.value.sequence != event.sequence - 1 then Outcome(db, false)
    else
      match EnsureOperation(db, event)
      case None => Outcome(db, false)
      case Some(ensured) =>
        match ApplyEvent(rules, ensured, event)
        case None => Outcome(ensured, false)
        case Some(applied) => Outcome(applied, true)
  }

  function ReplayLoop(rules: Rules, db: Db, events: seq<HistoryEvent>): Outcome
    decreases |events|
  {
    if events == [] then Outcome(db, true)
    else
      var before := ReplayLoop(rules, db, events[..|events| - 1]);
      if !before.ok then before else ReplayStep(rules, before.db, events[|events| - 1])
  }

  predicate EndsComplete(events: seq<HistoryEvent>) {
    events != [] && events[|events| - 1].action == COMPLETE
  }

  predicate ReplayFinished(db: Db, events: seq<HistoryEvent>) {
    if db.org.None? then EndsComplete(events) && db.purgeCompleted
    else db.org.value.sequence == if events == [] then 0 else events[|events| - 1].sequence
  }

  /** `replay_organization`, without markers and without the checks of dependent projections. */
  function Replay(rules: Rules, db: Db, events: seq<HistoryEvent>): Outcome {
    if db.org.None? then
      Outcome(db, db.purgeCompleted && EndsComplete(events)
                  && forall i :: 0 <= i < |events| ==> AppliedRecord(db, events[i]))
    else
      var replayed := ReplayLoop(rules, db, events);
      Outcome(replayed.db, replayed.ok && ReplayFinished(replayed.db, events))
  }

  /* ---------- histories ---------- */

  /** What verification gives: numbered 1..n, one event per operation. */
  ghost predicate Numbered(events: seq<HistoryEvent>) {
    && (forall i :: 0 <= i < |events| ==> events[i].sequence == i + 1)
    && (forall i, j :: 0 <= i < j < |events| ==> events[i].operationId != events[j].operationId)
  }

  /** And at most one completion. */
  ghost predicate Verified(events: seq<HistoryEvent>) {
    && Numbered(events)
    && (forall i, j :: 0 <= i < j < |events| ==> events[i].action != COMPLETE || events[j].action != COMPLETE)
  }

  /** From `at` on, at most one of the first `m` events is a completion. */
  ghost predicate OneCompletion(events: seq<HistoryEvent>, at: int, m: nat)
    requires m <= |events|
  {
    forall i, j :: 0 <= i < j < m && at <= i ==> events[i].action != COMPLETE || events[j].action != COMPLETE
  }

  /** The events of a verified head are numbered; they qualify in full exactly if the organization was completed
      at most once. */
  lemma VerifiedHistory(ctx: Context, primary: Store, backup: Store)
    requires VerifiedHead(ctx, primary, backup).Some?
    ensures VerifiedEvents(ctx, primary, backup).Some?
    ensures var events := VerifiedEvents(ctx, primary, backup).value;
            && Numbered(events)
            && (Verified(events)
                <==> forall i, j :: 0 <= i < j < |events| ==> events[i].action != COMPLETE || events[j].action != COMPLETE)
  {
    HistoryFacts.VerifiedEventsAreTheChain(ctx, primary, backup);
    var events := HistoryFacts.VerifiedChain(ctx, primary, backup);
    forall i | 0 <= i < |events| ensures events[i].sequence == i + 1 {
      assert HistoryFacts.ChainedAt(ctx, events, i);
    }
    forall i, j | 0 <= i < |events| && 0 <= j < |events| && events[i].operationId == events[j].operationId
      ensures i == j
    {
      HistoryFacts.StoredDistinct(ctx, primary, events, i, j);
    }
  }

  /** The fold of a history over a projection. */
  function Fold(rules: Rules, projection: Projection, events: seq<HistoryEvent>): Option<Projection>
    decreases |events|
  {
    if events == [] then Some(projection)
    else
      match Fold(rules, projection, events[..|events| - 1])
      case None => None
      case Some(reached) => rules.apply(reached, events[|events| - 1])
  }

  lemma {:induction false} FoldSplit(rules: Rules, start: Projection, before: seq<HistoryEvent>, after: seq<HistoryEvent>)
    requires Fold(rules, start, before).Some?
    ensures Fold(rules, start, before + after) == Fold(rules, Fold(rules, start, before).value, after)
    decreases |after|
  {
    if after == [] {
      assert before + after == before;
    } else {
      var n := |after| - 1;
      FoldSplit(rules, start, before, after[..n]);
      assert (before + after)[..|before + after| - 1] == before + after[..n];
    }
  }

  /* ---------- at most one pending operation ---------- */

  ghost predicate OnePending(db: Db) {
    forall x, y :: x in Pendings(db) && y in Pendings(db) ==> x == y
  }

  lemma OnePendingSize(db: Db)
    requires OnePending(db)
    ensures |Pendings(db)| <= 1
  {
    if Pendings(db) != {} {
      var x :| x in Pendings(db);
      assert Pendings(db) == {x};
    }
  }

  lemma EnsureLeavesItsOwn(db: Db, event: HistoryEvent)
    requires OnePending(db) && EnsureOperation(db, event).Some?
    ensures var ensured := EnsureOperation(db, event).value;
            && Pendings(ensured) == {event.operationId} && Agrees(ensured.operations[event.operationId], event)
            && ensured.org == db.org && ensured.purgeCompleted == db.purgeCompleted
            && EnsureOperation(ensured, event) == Some(ensured)
  {
    var ensured := EnsureOperation(db, event).value;
    forall id ensures id in Pendings(ensured) <==> id == event.operationId {
      if event.operationId in db.operations && id in Pendings(db) {
        assert event.operationId in Pendings(db);
      }
    }
  }

  lemma ApplyLeavesNone(rules: Rules, db: Db, event: HistoryEvent)
    requires ApplyEvent(rules, db, event).Some? && Pendings(db) == {event.operationId}
    ensures Pendings(ApplyEvent(rules, db, event).value) == {}
  {
    var t := ApplyEvent(rules, db, event).value;
    forall id | id in t.operations && id != event.operationId ensures !t.operations[id].status.Pending? {
      assert id !in Pendings(db);
    }
  }

  /** A step keeps the unique pending operation, also where it raises. */
  lemma StepKeepsOnePending(rules: Rules, db: Db, event: HistoryEvent)
    requires OnePending(db)
    ensures OnePending(ReplayStep(rules, db, event).db)
  {
    if EnsureOperation(db, event).Some? {
      EnsureLeavesItsOwn(db, event);
      var ensured := EnsureOperation(db, event).value;
      if ApplyEvent(rules, ensured, event).Some? {
        ApplyLeavesNone(rules, ensured, event);
      }
    }
  }

  lemma {:induction false} LoopKeepsOnePending(rules: Rules, db: Db, events: seq<HistoryEvent>)
    requires OnePending(db)
    ensures OnePending(ReplayLoop(rules, db, events).db)
    decreases |events|
  {
    if events != [] {
      var before := ReplayLoop(rules, db, events[..|events| - 1]);
      LoopKeepsOnePending(rules, db, events[..|events| - 1]);
      if before.ok {
        StepKeepsOnePending(rules, before.db, events[|events| - 1]);
      }
    }
  }

  /* ---------- when a history can be replayed ---------- */

  /** The next operation is absent, or already the pending form of its event. */
  predicate NextReady(db: Db, event: HistoryEvent) {
    event.operationId in db.operations ==>
      db.operations[event.operationId].status.Pending? && Agrees(db.operations[event.operationId], event)
  }

  /** What the first `m` events need of a database whose projection stands at `at`. */
  ghost predicate Replayable(rules: Rules, db: Db, events: seq<HistoryEvent>, at: int, m: nat)
    requires m <= |events| && db.org.Some?
  {
    && (forall i :: 0 <= i < m && i < at ==> AppliedFor(db, events[i]))
    && (0 < m && at < m ==>
          && 0 <= at
          && NextReady(db, events[at])
          && (forall i :: at < i < m ==> events[i].operationId !in db.operations)
          && (forall i :: at <= i < m - 1 ==> events[i].action != COMPLETE)
          && Fold(rules, db.org.value.projection, events[at..m]).Some?)
  }

  function Ids(events: seq<HistoryEvent>): set<Uuid> {
    set event | event in events :: event.operationId
  }

  /** Operations other than the given ones: as they were, or rejected if they were pending. */
  ghost predicate OthersResolved(db: Db, t: Db, ids: set<Uuid>) {
    forall id :: id !in ids ==>
      && (id in t.operations <==> id in db.operations)
      && (id in db.operations ==> t.operations[id] == Resolved(db.operations[id]))
  }

  ghost predicate RecordsReached(db: Db, events: seq<HistoryEvent>, at: nat, m: nat, t: Db)
    requires at < m <= |events|
  {
    && Pendings(t) == {}
    && (forall i :: 0 <= i < m ==> AppliedFor(t, events[i]))
    && OthersResolved(db, t, Ids(events[at..m]))
  }

  predicate OrgReached(rules: Rules, db: Db, events: seq<HistoryEvent>, at: nat, m: nat, t: Db)
    requires at < m <= |events| && db.org.Some?
  {
    var completes := events[m - 1].action == COMPLETE;
    var projection := Fold(rules, db.org.value.projection, events[at..m]);
    && t.purgeCompleted == (db.purgeCompleted || completes)
    && projection.Some?
    && t.org == if completes then None else Some(Org(m, projection.value))
  }

  /** The database after the first `m` events. */
  ghost predicate Reached(rules: Rules, db: Db, events: seq<HistoryEvent>, at: int, m: nat, t: Db)
    requires m <= |events| && db.org.Some?
  {
    if m <= at || m == 0 then t == db
    else 0 <= at && RecordsReached(db, events, at, m, t) && OrgReached(rules, db, events, at, m, t)
  }

  lemma ReplayablePrefix(rules: Rules, db: Db, events: seq<HistoryEvent>, at: int, m: nat)
    requires 0 < m <= |events| && db.org.Some? && Replayable(rules, db, events, at, m)
    ensures Replayable(rules, db, events, at, m - 1)
  {
    if 0 <= at < m - 1 {
      assert events[at..m][..m - at - 1] == events[at..m - 1];
    }
  }

  /** An event the projection already contains: only its record is checked. */
  lemma StepIdle(rules: Rules, db: Db, events: seq<HistoryEvent>, at: int, m: nat)
    requires 0 < m <= |events| && db.org.Some? && db.org.value.sequence == at && m <= at
    requires events[m - 1].sequence == m && Replayable(rules, db, events, at, m - 1)
    ensures var step := ReplayStep(rules, db, events[m - 1]);
            && (step.ok <==> Replayable(rules, db, events, at, m))
            && step.db == db
  {
  }

  /** The account of one event that is ensured and applied. */
  ghost predicate StepAccount(rules: Rules, db: Db, event: HistoryEvent, step: Outcome)
    requires db.org.Some?
  {
    var projection := rules.apply(db.org.value.projection, event);
    && (step.ok <==> NextReady(db, event) && projection.Some?)
    && (step.ok ==>
          && Pendings(step.db) == {} && AppliedFor(step.db, event)
          && OthersResolved(db, step.db, {event.operationId})
          && step.db.purgeCompleted == (db.purgeCompleted || event.action == COMPLETE)
          && step.db.org == if event.action == COMPLETE then None else Some(Org(event.sequence, projection.value)))
  }

  lemma StepApplies(rules: Rules, db: Db, event: HistoryEvent)
    requires OnePending(db) && db.org.Some? && db.org.value.sequence == event.sequence - 1
    ensures StepAccount(rules, db, event, ReplayStep(rules, db, event))
  {
    OnePendingSize(db);
    if NextReady(db, event) {
      EnsureLeavesItsOwn(db, event);
      var ensured := EnsureOperation(db, event).value;
      OthersRejected(db, ensured, event);
      if ApplyEvent(rules, ensured, event).Some? {
        ApplyLeavesNone(rules, ensured, event);
      }
    }
  }

  lemma OthersRejected(db: Db, ensured: Db, event: HistoryEvent)
    requires OnePending(db) && EnsureOperation(db, event) == Some(ensured)
    ensures OthersResolved(db, ensured, {event.operationId})
  {
    forall id | id != event.operationId && id in db.operations
      ensures id in ensured.operations && ensured.operations[id] == Resolved(db.operations[id])
    {
      if event.operationId in db.operations {
        assert event.operationId in Pendings(db);
        assert id !in Pendings(db);
      }
    }
  }

  lemma ResolvedTwice(db: Db, t: Db, u: Db, ids: set<Uuid>, more: set<Uuid>)
    requires OthersResolved(db, t, ids) && OthersResolved(t, u, more)
    ensures OthersResolved(db, u, ids + more)
  {
  }

  /** Applied records stay applied when later events are replayed. */
  lemma AppliedKept(events: seq<HistoryEvent>, m: nat, t: Db, u: Db)
    requires Numbered(events) && 0 < m <= |events|
    requires OthersResolved(t, u, {events[m - 1].operationId}) && AppliedFor(u, events[m - 1])
    requires forall i :: 0 <= i < m - 1 ==> AppliedFor(t, events[i])
    ensures forall i :: 0 <= i < m ==> AppliedFor(u, events[i])
  {
    forall i | 0 <= i < m ensures AppliedFor(u, events[i]) {
      if i < m - 1 {
        assert AppliedFor(t, events[i]) && events[i].operationId != events[m - 1].operationId;
      }
    }
  }

  /** The first event the projection lacks. */
  lemma StepFirst(rules: Rules, db: Db, events: seq<HistoryEvent>, at: nat, m: nat)
    requires Numbered(events) && OnePending(db)
    requires 0 < m <= |events| && db.org.Some? && db.org.value.sequence == at && at == m - 1
    requires Replayable(rules, db, events, at, m - 1)
    ensures var step := ReplayStep(rules, db, events[m - 1]);
            && (step.ok <==> Replayable(rules, db, events, at, m))
            && (step.ok ==> Reached(rules, db, events, at, m, step.db))
  {
    var event := events[at];
    StepApplies(rules, db, event);
    assert events[at..m] == [event] && [event][..0] == [];
    assert Fold(rules, db.org.value.projection, [event]) == rules.apply(db.org.value.projection, event);
    var step := ReplayStep(rules, db, event);
    if step.ok {
      AppliedKept(events, m, db, step.db);
      assert Ids([event]) == {event.operationId};
    }
  }

  lemma ReplayableNext(rules: Rules, db: Db, events: seq<HistoryEvent>, at: nat, m: nat)
    requires 0 < m <= |events| && db.org.Some? && at < m - 1 && Replayable(rules, db, events, at, m - 1)
    ensures Replayable(rules, db, events, at, m)
       <==> && events[m - 1].operationId !in db.operations
            && events[m - 2].action != COMPLETE
            && Fold(rules, db.org.value.projection, events[at..m]).Some?
  {
  }

  /** After the completion nothing more can be replayed. */
  lemma NextAfterCompletion(rules: Rules, db: Db, events: seq<HistoryEvent>, at: nat, m: nat, t: Db)
    requires Numbered(events) && 0 < m <= |events| && db.org.Some? && at < m - 1 && OneCompletion(events, at, m)
    requires OrgReached(rules, db, events, at, m - 1, t)
    ensures t.org.None? <==> events[m - 2].action == COMPLETE
    ensures t.org.None? ==> !ReplayStep(rules, t, events[m - 1]).ok
  {
  }

  /** The next event of a present organization: when it is accepted. */
  lemma NextAccepted(rules: Rules, db: Db, events: seq<HistoryEvent>, at: nat, m: nat, t: Db, step: Outcome)
    requires Numbered(events) && 0 < m <= |events| && db.org.Some? && at < m - 1
    requires t.org.Some? && Fold(rules, db.org.value.projection, events[at..m - 1]) == Some(t.org.value.projection)
    requires RecordsReached(db, events, at, m - 1, t)
    requires StepAccount(rules, t, events[m - 1], step)
    ensures step.ok <==> events[m - 1].operationId !in db.operations
                         && Fold(rules, db.org.value.projection, events[at..m]).Some?
  {
    FoldMore(rules, db.org.value.projection, events, at, m);
    NextUntouched(db, events, at, m, t);
  }

  lemma NextOrg(rules: Rules, db: Db, events: seq<HistoryEvent>, at: nat, m: nat, t: Db, step: Outcome)
    requires 0 < m <= |events| && db.org.Some? && at < m - 1 && events[m - 1].sequence == m
    requires t.org.Some? && Fold(rules, db.org.value.projection, events[at..m - 1]) == Some(t.org.value.projection)
    requires t.purgeCompleted == db.purgeCompleted && StepAccount(rules, t, events[m - 1], step) && step.ok
    ensures OrgReached(rules, db, events, at, m, step.db)
  {
    FoldMore(rules, db.org.value.projection, events, at, m);
  }

  /** A later event. */
  lemma StepNext(rules: Rules, db: Db, events: seq<HistoryEvent>, at: nat, m: nat, t: Db)
    requires Numbered(events) && 0 < m <= |events| && db.org.Some? && at < m - 1 && OneCompletion(events, at, m)
    requires Replayable(rules, db, events, at, m - 1) && Reached(rules, db, events, at, m - 1, t)
    ensures var step := ReplayStep(rules, t, events[m - 1]);
            && (step.ok <==> Replayable(rules, db, events, at, m))
            && (step.ok ==> Reached(rules, db, events, at, m, step.db))
  {
    ReplayableNext(rules, db, events, at, m);
    NextAfterCompletion(rules, db, events, at, m, t);
    if t.org.Some? {
      NextStarts(rules, db, events, at, m, t);
      StepApplies(rules, t, events[m - 1]);
      var step := ReplayStep(rules, t, events[m - 1]);
      NextAccepted(rules, db, events, at, m, t, step);
      if step.ok {
        NextRecords(db, events, at, m, t, step.db);
        NextOrg(rules, db, events, at, m, t, step);
      }
    }
  }

  lemma NextStarts(rules: Rules, db: Db, events: seq<HistoryEvent>, at: nat, m: nat, t: Db)
    requires 0 < m <= |events| && db.org.Some? && at < m - 1 && t.org.Some?
    requires Reached(rules, db, events, at, m - 1, t)
    ensures OnePending(t) && t.org.value.sequence == m - 1 && t.purgeCompleted == db.purgeCompleted
    ensures Fold(rules, db.org.value.projection, events[at..m - 1]) == Some(t.org.value.projection)
  {
  }

  lemma FoldMore(rules: Rules, projection: Projection, events: seq<HistoryEvent>, at: nat, m: nat)
    requires at < m <= |events|
    ensures Fold(rules, projection, events[at..m])
         == match Fold(rules, projection, events[at..m - 1])
            case None => None
            case Some(reached) => rules.apply(reached, events[m - 1])
  {
    assert events[at..m][..m - at - 1] == events[at..m - 1];
  }

  lemma NextUntouched(db: Db, events: seq<HistoryEvent>, at: nat, m: nat, t: Db)
    requires Numbered(events) && at < m - 1 && m <= |events| && RecordsReached(db, events, at, m - 1, t)
    ensures NextReady(t, events[m - 1]) <==> events[m - 1].operationId !in db.operations
  {
    var id := events[m - 1].operationId;
    assert id !in Ids(events[at..m - 1]);
    assert id !in Pendings(t);
  }

  lemma NextRecords(db: Db, events: seq<HistoryEvent>, at: nat, m: nat, t: Db, u: Db)
    requires Numbered(events) && at < m - 1 && m <= |events| && RecordsReached(db, events, at, m - 1, t)
    requires Pendings(u) == {} && AppliedFor(u, events[m - 1])
    requires OthersResolved(t, u, {events[m - 1].operationId})
    ensures RecordsReached(db, events, at, m, u)
  {
    var event := events[m - 1];
    AppliedKept(events, m, t, u);
    ResolvedTwice(db, t, u, Ids(events[at..m - 1]), {event.operationId});
    assert events[at..m] == events[at..m - 1] + [event];
    assert Ids(events[at..m]) == Ids(events[at..m - 1]) + {event.operationId};
  }

  /** The loop succeeds on the first `m` events exactly when they are replayable, and then it has reached them. */
  lemma {:induction false} LoopAccount(rules: Rules, db: Db, events: seq<HistoryEvent>, m: nat)
    requires Numbered(events) && OnePending(db) && m <= |events| && db.org.Some?
    requires OneCompletion(events, db.org.value.sequence, m)
    ensures var replayed := ReplayLoop(rules, db, events[..m]);
            var at := db.org.value.sequence;
            && (replayed.ok <==> Replayable(rules, db, events, at, m))
            && (replayed.ok ==> Reached(rules, db, events, at, m, replayed.db))
    decreases m
  {
    var at := db.org.value.sequence;
    if m > 0 {
      LoopAccount(rules, db, events, m - 1);
      assert events[..m][..m - 1] == events[..m - 1];
      var before := ReplayLoop(rules, db, events[..m - 1]);
      if !before.ok {
        if Replayable(rules, db, events, at, m) {
          ReplayablePrefix(rules, db, events, at, m);
        }
      } else if m <= at {
        StepIdle(rules, db, events, at, m);
      } else if m - 1 == at {
        StepFirst(rules, db, events, at, m);
      } else if at >= 0 {
        StepNext(rules, db, events, at, m, before.db);
      }
    }
  }

  /** How many events there are up to and including the first completion from `at` on, or in all. */
  function Stop(events: seq<HistoryEvent>, at: nat): (m: nat)
    requires at <= |events|
    ensures at <= m <= |events|
    ensures forall i :: at <= i < m - 1 ==> events[i].action != COMPLETE
    ensures m < |events| ==> at < m && events[m - 1].action == COMPLETE
    decreases |events| - at
  {
    if at == |events| then at
    else if events[at].action == COMPLETE then at + 1
    else Stop(events, at + 1)
  }

  /** What an absent organization lets pass: a completion whose operation is on record as applied. */
  predicate PassesAbsent(db: Db, event: HistoryEvent) {
    event.action == COMPLETE && event.operationId in db.operations && db.operations[event.operationId].status.Applied?
  }

  /** Once the organization is gone the loop only checks. */
  lemma {:induction false} TailLoop(rules: Rules, db: Db, events: seq<HistoryEvent>, m: nat, j: nat)
    requires m <= j <= |events| && ReplayLoop(rules, db, events[..m]).ok
    requires ReplayLoop(rules, db, events[..m]).db.org.None?
    ensures var t := ReplayLoop(rules, db, events[..m]).db;
            var replayed := ReplayLoop(rules, db, events[..j]);
            && replayed.db == t
            && (replayed.ok <==> forall i :: m <= i < j ==> PassesAbsent(t, events[i]))
    decreases j
  {
    if j > m {
      TailLoop(rules, db, events, m, j - 1);
      assert events[..j][..j - 1] == events[..j - 1];
    }
  }

  /** Replaying other events does not change whether a later completion passes. */
  lemma PassesAlike(db: Db, events: seq<HistoryEvent>, at: nat, m: nat, t: Db, i: nat)
    requires Numbered(events) && at < m <= i < |events| && RecordsReached(db, events, at, m, t)
    ensures PassesAbsent(t, events[i]) <==> PassesAbsent(db, events[i])
  {
    assert events[i].operationId !in Ids(events[at..m]);
  }

  lemma StopOnce(events: seq<HistoryEvent>, at: nat)
    requires at <= |events|
    ensures OneCompletion(events, at, Stop(events, at))
    ensures Stop(events, at) < |events| ==> at < Stop(events, at) && events[Stop(events, at) - 1].action == COMPLETE
  {
  }

  ghost predicate TailPasses(db: Db, events: seq<HistoryEvent>, m: nat) {
    forall i :: m <= i < |events| ==> PassesAbsent(db, events[i])
  }

  /** What a present organization needs of the whole history. */
  ghost predicate ReplayableWhole(rules: Rules, db: Db, events: seq<HistoryEvent>)
    requires db.org.Some?
  {
    var at := db.org.value.sequence;
    && 0 <= at <= |events|
    && Replayable(rules, db, events, at, Stop(events, at))
    && TailPasses(db, events, Stop(events, at))
  }

  /** A projection that stands at no prefix never finishes. */
  lemma NoPrefixNoFinish(rules: Rules, db: Db, events: seq<HistoryEvent>)
    requires Numbered(events) && OnePending(db) && db.org.Some?
    requires db.org.value.sequence < 0 || db.org.value.sequence > |events|
    ensures !Replay(rules, db, events).ok
  {
    assert events[..|events|] == events;
    if db.org.value.sequence > |events| {
      LoopAccount(rules, db, events, |events|);
    } else if events != [] {
      LoopAccount(rules, db, events, 1);
      LoopStopped(rules, db, events, 1);
    }
  }

  lemma LoopRefused(rules: Rules, db: Db, events: seq<HistoryEvent>, m: nat)
    requires db.org.Some? && m <= |events| && !ReplayLoop(rules, db, events[..m]).ok
    ensures !Replay(rules, db, events).ok
  {
    LoopStopped(rules, db, events, m);
  }

  /** The final check agrees with what was reached. */
  lemma ReachedFinishes(rules: Rules, db: Db, events: seq<HistoryEvent>, t: Db)
    requires Numbered(events) && db.org.Some? && 0 <= db.org.value.sequence <= |events|
    requires Reached(rules, db, events, db.org.value.sequence, |events|, t)
    ensures ReplayFinished(t, events)
  {
  }

  /** A history that ends with the first completion from the projection's position, or has none. */
  lemma FinishesUntilStop(rules: Rules, db: Db, events: seq<HistoryEvent>)
    requires Numbered(events) && OnePending(db) && db.org.Some? && 0 <= db.org.value.sequence <= |events|
    requires Stop(events, db.org.value.sequence) == |events|
    ensures Replay(rules, db, events).ok <==> Replayable(rules, db, events, db.org.value.sequence, |events|)
  {
    LoopAccount(rules, db, events, |events|);
    var replayed := ReplayLoop(rules, db, events[..|events|]);
    assert events[..|events|] == events;
    if replayed.ok {
      ReachedFinishes(rules, db, events, replayed.db);
    }
  }

  lemma ReachedStop(rules: Rules, db: Db, events: seq<HistoryEvent>, at: nat, m: nat, t: Db)
    requires at < m <= |events| && db.org.Some? && events[m - 1].action == COMPLETE
    requires Reached(rules, db, events, at, m, t)
    ensures t.org.None? && t.purgeCompleted && RecordsReached(db, events, at, m, t)
  {
  }

  /** A history that goes on after that completion. */
  lemma FinishesPastStop(rules: Rules, db: Db, events: seq<HistoryEvent>, at: nat, m: nat)
    requires Numbered(events) && OnePending(db) && db.org.Some? && db.org.value.sequence == at
    requires at < m < |events| && events[m - 1].action == COMPLETE && OneCompletion(events, at, m)
    ensures Replay(rules, db, events).ok <==> Replayable(rules, db, events, at, m) && TailPasses(db, events, m)
  {
    LoopAccount(rules, db, events, m);
    var replayed := ReplayLoop(rules, db, events[..m]);
    if replayed.ok {
      ReachedStop(rules, db, events, at, m, replayed.db);
      PastStop(rules, db, events, m, replayed.db);
    } else {
      LoopRefused(rules, db, events, m);
    }
  }

  lemma PastStop(rules: Rules, db: Db, events: seq<HistoryEvent>, m: nat, t: Db)
    requires Numbered(events) && db.org.Some? && 0 <= db.org.value.sequence < m < |events|
    requires ReplayLoop(rules, db, events[..m]) == Outcome(t, true) && t.org.None? && t.purgeCompleted
    requires RecordsReached(db, events, db.org.value.sequence, m, t)
    ensures Replay(rules, db, events).ok <==> TailPasses(db, events, m)
  {
    TailLoop(rules, db, events, m, |events|);
    assert events[..|events|] == events;
    forall i | m <= i < |events| ensures PassesAbsent(t, events[i]) <==> PassesAbsent(db, events[i]) {
      PassesAlike(db, events, db.org.value.sequence, m, t, i);
    }
    assert TailPasses(t, events, m) <==> TailPasses(db, events, m);
    if TailPasses(t, events, m) {
      assert PassesAbsent(t, events[|events| - 1]);
    }
  }

  /** `replay_organization` on a present organization, in full: it finishes exactly when the projection stands
      at some prefix of the history; every event up to there is on record as applied with the event's own
      fields; up to the first completion that follows, the next operation is absent or pending for that very
      event, no later operation is on record and every event applies; and every event after that completion
      is a completion on record as applied. So gaps and disagreeing operations are refused, and so is a
      pending operation of any later event. */
  lemma ReplayFinishesIff(rules: Rules, db: Db, events: seq<HistoryEvent>)
    requires Numbered(events) && OnePending(db) && db.org.Some?
    ensures Replay(rules, db, events).ok <==> ReplayableWhole(rules, db, events)
  {
    var at := db.org.value.sequence;
    if at < 0 || at > |events| {
      NoPrefixNoFinish(rules, db, events);
    } else {
      StopOnce(events, at);
      if Stop(events, at) == |events| {
        FinishesUntilStop(rules, db, events);
      } else {
        FinishesPastStop(rules, db, events, at, Stop(events, at));
      }
    }
  }

  /** Replay refines the fold: from the fold of any prefix it reaches the fold of the whole history at the last
      sequence number, or completes the purge; every event is on record as applied. */
  lemma ReplayReachesFold(rules: Rules, start: Projection, db: Db, events: seq<HistoryEvent>)
    requires Verified(events) && OnePending(db) && db.org.Some?
    requires 0 <= db.org.value.sequence <= |events|
    requires Fold(rules, start, events[..db.org.value.sequence]) == Some(db.org.value.projection)
    requires Replay(rules, db, events).ok
    ensures var t := Replay(rules, db, events).db;
            && Fold(rules, start, events).Some?
            && (t.org.Some? ==> t.org.value == Org(|events|, Fold(rules, start, events).value))
            && (t.org.None? ==> EndsComplete(events) && t.purgeCompleted)
            && (forall i :: 0 <= i < |events| ==> AppliedFor(t, events[i]))
            && OnePending(t)
  {
    var at := db.org.value.sequence;
    LoopAccount(rules, db, events, |events|);
    assert events[..|events|] == events;
    WholeFold(rules, start, db.org.value.projection, events, at);
  }

  lemma WholeFold(rules: Rules, start: Projection, projection: Projection, events: seq<HistoryEvent>, at: nat)
    requires at <= |events| && Fold(rules, start, events[..at]) == Some(projection)
    ensures Fold(rules, start, events) == Fold(rules, projection, events[at..|events|])
    ensures at == |events| ==> Fold(rules, start, events) == Some(projection)
  {
    assert events == events[..at] + events[at..] && events[at..|events|] == events[at..];
    FoldSplit(rules, start, events[..at], events[at..]);
  }

  /** A second replay changes nothing and finishes again. */
  lemma ReplayTwice(rules: Rules, db: Db, events: seq<HistoryEvent>)
    requires Verified(events) && OnePending(db) && Replay(rules, db, events).ok
    ensures var t := Replay(rules, db, events).db;
            Replay(rules, t, events) == Outcome(t, true)
  {
    var t := Replay(rules, db, events).db;
    assert events[..|events|] == events;
    if db.org.Some? {
      LoopAccount(rules, db, events, |events|);
      if t.org.Some? {
        LoopKeepsOnePending(rules, db, events);
        LoopAccount(rules, t, events, |events|);
      }
    }
  }

  /* ---------- a crash between any two transactions ---------- */

  /** What is committed when replay stops after `m` events, or in addition after the first transaction of the
      next one. */
  function Committed(rules: Rules, db: Db, events: seq<HistoryEvent>, m: nat, ensured: bool): Db
    requires m <= |events|
  {
    var t := ReplayLoop(rules, db, events[..m]).db;
    if ensured && m < |events| && t.org.Some? && t.org.value.sequence < events[m].sequence
       && EnsureOperation(t, events[m]).Some?
    then EnsureOperation(t, events[m]).value
    else t
  }

  lemma {:induction false} LoopSplit(rules: Rules, db: Db, before: seq<HistoryEvent>, after: seq<HistoryEvent>)
    requires ReplayLoop(rules, db, before).ok
    ensures ReplayLoop(rules, db, before + after) == ReplayLoop(rules, ReplayLoop(rules, db, before).db, after)
    decreases |after|
  {
    if after == [] {
      assert before + after == before;
    } else {
      var n := |after| - 1;
      LoopSplit(rules, db, before, after[..n]);
      assert (before + after)[..|before + after| - 1] == before + after[..n];
    }
  }

  lemma {:induction false} LoopPrefixOk(rules: Rules, db: Db, events: seq<HistoryEvent>, m: nat)
    requires m <= |events| && ReplayLoop(rules, db, events).ok
    ensures ReplayLoop(rules, db, events[..m]).ok
    decreases |events|
  {
    if m < |events| {
      LoopPrefixOk(rules, db, events[..|events| - 1], m);
      assert events[..|events| - 1][..m] == events[..m];
    } else {
      assert events[..m] == events;
    }
  }

  /** On events already applied the loop does nothing. */
  lemma {:induction false} LoopIdle(rules: Rules, db: Db, events: seq<HistoryEvent>, m: nat)
    requires m <= |events| && db.org.Some? && db.org.value.sequence >= m
    requires forall i :: 0 <= i < m ==> events[i].sequence == i + 1 && AppliedFor(db, events[i])
    ensures ReplayLoop(rules, db, events[..m]) == Outcome(db, true)
  {
    if m > 0 {
      LoopIdle(rules, db, events, m - 1);
      assert events[..m][..m - 1] == events[..m - 1];
    } else {
      assert events[..0] == [];
    }
  }

  /** The state committed after `m` events: the organization is there, and everything before is applied. */
  lemma MidState(rules: Rules, db: Db, events: seq<HistoryEvent>, m: nat)
    requires Verified(events) && OnePending(db) && db.org.Some? && m < |events|
    requires Replay(rules, db, events).ok
    ensures var t := ReplayLoop(rules, db, events[..m]).db;
            && ReplayLoop(rules, db, events[..m]).ok
            && t.org.Some? && t.org.value.sequence >= m && OnePending(t)
            && (forall i :: 0 <= i < m ==> AppliedFor(t, events[i]))
  {
    LoopPrefixOk(rules, db, events, m);
    LoopAccount(rules, db, events, m);
    LoopAccount(rules, db, events, |events|);
    assert events[..|events|] == events;
    LoopKeepsOnePending(rules, db, events[..m]);
  }

  /** Ensuring the next operation first does not change what the step then does. */
  lemma EnsuredStep(rules: Rules, db: Db, event: HistoryEvent)
    requires OnePending(db) && EnsureOperation(db, event).Some?
    ensures ReplayStep(rules, EnsureOperation(db, event).value, event) == ReplayStep(rules, db, event)
  {
    EnsureLeavesItsOwn(db, event);
  }

  /** A replay that can finish can be interrupted between any two of its transactions: what is committed has
      at most one pending operation, and replaying from there ends in exactly the same database. */
  lemma CrashResumes(rules: Rules, db: Db, events: seq<HistoryEvent>, m: nat, ensured: bool)
    requires Verified(events) && OnePending(db) && db.org.Some? && m < |events|
    requires Replay(rules, db, events).ok
    ensures var t := Committed(rules, db, events, m, ensured);
            OnePending(t) && Replay(rules, t, events) == Replay(rules, db, events)
  {
    var reached := ReplayLoop(rules, db, events[..m]).db;
    var t := Committed(rules, db, events, m, ensured);
    MidState(rules, db, events, m);
    assert events == events[..m] + events[m..];
    LoopSplit(rules, db, events[..m], events[m..]);
    if t == reached {
      LoopIdle(rules, t, events, m);
      LoopSplit(rules, t, events[..m], events[m..]);
    } else {
      EnsuredLoop(rules, reached, t, events, m);
    }
  }

  lemma EnsuredKeepsApplied(reached: Db, t: Db, events: seq<HistoryEvent>, m: nat)
    requires Verified(events) && OnePending(reached) && m < |events| && EnsureOperation(reached, events[m]) == Some(t)
    requires forall i :: 0 <= i < m ==> AppliedFor(reached, events[i])
    ensures forall i :: 0 <= i < m ==> AppliedFor(t, events[i])
  {
    OthersRejected(reached, t, events[m]);
    forall i | 0 <= i < m ensures AppliedFor(t, events[i]) {
      assert AppliedFor(reached, events[i]) && events[i].operationId != events[m].operationId;
    }
  }

  lemma EnsuredLoop(rules: Rules, reached: Db, t: Db, events: seq<HistoryEvent>, m: nat)
    requires Verified(events) && OnePending(reached) && m < |events|
    requires reached.org.Some? && reached.org.value.sequence == m && EnsureOperation(reached, events[m]) == Some(t)
    requires forall i :: 0 <= i < m ==> AppliedFor(reached, events[i])
    ensures OnePending(t) && t.org == reached.org
    ensures ReplayLoop(rules, t, events) == ReplayLoop(rules, reached, events[m..])
  {
    EnsureLeavesItsOwn(reached, events[m]);
    EnsuredKeepsApplied(reached, t, events, m);
    LoopIdle(rules, t, events, m);
    LoopSplit(rules, t, events[..m], events[m..]);
    assert events == events[..m] + events[m..];
    EnsuredTail(rules, reached, t, events[m], events[m + 1..]);
    assert events[m..] == [events[m]] + events[m + 1..];
  }

  lemma {:induction false} EnsuredTail(rules: Rules, reached: Db, t: Db, event: HistoryEvent, rest: seq<HistoryEvent>)
    requires OnePending(reached) && EnsureOperation(reached, event) == Some(t)
    ensures ReplayLoop(rules, t, [event] + rest) == ReplayLoop(rules, reached, [event] + rest)
    decreases |rest|
  {
    var all := [event] + rest;
    if rest == [] {
      assert all[..|all| - 1] == [];
      EnsuredStep(rules, reached, event);
    } else {
      EnsuredTail(rules, reached, t, event, rest[..|rest| - 1]);
      assert all[..|all| - 1] == [event] + rest[..|rest| - 1];
    }
  }

  /* ---------- the replay over mutable tables ---------- */

  class RestoredDatabase {
    const rules: Rules
    var org: Option<Org>
    var operations: map<Uuid, Operation>
    var purgeCompleted: bool

    constructor (rules: Rules, db: Db)
      ensures this.rules == rules && View() == db
    {
      this.rules := rules;
      org, operations, purgeCompleted := db.org, db.operations, db.purgeCompleted;
    }

    function View(): Db
      reads this
    {
      Db(org, operations, purgeCompleted)
    }

    /** `_ensure_operation`: false is RestoreUnverified, and then nothing changed. */
    method EnsurePending(event: HistoryEvent) returns (ok: bool)
      modifies this`operations
      ensures ok == EnsureOperation(old(View()), event).Some?
      ensures View() == if ok then EnsureOperation(old(View()), event).value else old(View())
    {
      if org.None? || org.value.sequence != event.sequence - 1 {
        return false;
      }
      if event.operationId in operations {
        var existing := operations[event.operationId];
        return existing.status.Pending? && Agrees(existing, event);
      }
      var pending := Pendings(View());
      if |pending| > 1 {
        return false;
      }
      operations := RejectPendings(operations);
      operations := operations[event.operationId := PendingFor(event)];
      ok := true;
    }

    method Apply(event: HistoryEvent) returns (ok: bool)
      modifies this
      ensures ok == ApplyEvent(rules, old(View()), event).Some?
      ensures View() == if ok then ApplyEvent(rules, old(View()), event).value else old(View())
    {
      if org.None? || event.operationId !in operations {
        return false;
      }
      var projection := rules.apply(org.value.projection, event);
      if projection.None? {
        return false;
      }
      var resolved := operations[event.operationId].(status := Applied, resultingSequence := Some(event.sequence));
      operations := operations[event.operationId := resolved];
      if event.action == COMPLETE {
        org := None;
        purgeCompleted := true;
      } else {
        org := Some(Org(event.sequence, projection.value));
      }
      ok := true;
    }

    /** The body of the event loop. */
    method ReplayOne(event: HistoryEvent) returns (ok: bool)
      modifies this
      ensures Outcome(View(), ok) == ReplayStep(rules, old(View()), event)
    {
      if org.None? {
        return event.action == COMPLETE && event.operationId in operations
               && operations[event.operationId].status.Applied?;
      }
      if org.value.sequence >= event.sequence {
        return AppliedFor(View(), event);
      }
      if org.value.sequence != event.sequence - 1 {
        return false;
      }
      ok := EnsurePending(event);
      if ok {
        ok := Apply(event);
      }
    }

    method ReplayOrganization(events: seq<HistoryEvent>) returns (ok: bool)
      modifies this
      ensures Outcome(View(), ok) == Replay(rules, old(View()), events)
    {
      if org.None? {
        if !purgeCompleted || !EndsComplete(events) {
          return false;
        }
        for i := 0 to |events|
          invariant View() == old(View())
          invariant forall j :: 0 <= j < i ==> AppliedRecord(View(), events[j])
        {
          if !AppliedRecord(View(), events[i]) {
            return false;
          }
        }
        return true;
      }
      assert events[..0] == [];
      for i := 0 to |events|
        invariant ReplayLoop(rules, old(View()), events[..i]) == Outcome(View(), true)
      {
        ok := ReplayOne(events[i]);
        assert events[..i + 1][..i] == events[..i];
        if !ok {
          LoopStopped(rules, old(View()), events, i + 1);
          return;
        }
      }
      assert events[..|events|] == events;
      ok := ReplayFinished(View(), events);
    }
  }

  /** A loop that raised stays where it raised. */
  lemma {:induction false} LoopStopped(rules: Rules, db: Db, events: seq<HistoryEvent>, m: nat)
    requires m <= |events| && !ReplayLoop(rules, db, events[..m]).ok
    ensures ReplayLoop(rules, db, events) == ReplayLoop(rules, db, events[..m])
    decreases |events|
  {
    if m < |events| {
      assert events[..|events| - 1][..m] == events[..m];
      LoopStopped(rules, db, events[..|events| - 1], m);
    } else {
      assert events[..m] == events;
    }
  }
}
