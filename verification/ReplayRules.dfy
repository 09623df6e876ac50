/** What replay of a history checks and writes, on the fields of the operations and without the helpers of
    `RestoreReplay`. */
module ReplayRules {
  import opened Wrappers
  import opened HistoryModel
  import opened RestoreReplay

  /* ---------- the organization is gone ---------- */

  /** The operation is on record as applied at this number, with the payload, actor and reason of the event. */
  predicate Projected(db: Db, event: HistoryEvent, sequence: int) {
    && event.operationId in db.operations
    && db.operations[event.operationId].status == Applied
    && db.operations[event.operationId].resultingSequence == Some(sequence)
    && db.operations[event.operationId].payload == event.data
    && db.operations[event.operationId].actorId == event.actorId
    && db.operations[event.operationId].reason == event.reason
  }

  /** Without the organization, replay changes nothing and finishes if and only if the purge is on record as
      completed, the history ends with a completion, and every one of its events is projected at its number. */
  lemma AbsentReplayIff(rules: Rules, db: Db, events: seq<HistoryEvent>)
    requires Numbered(events) && db.org.None?
    ensures var replayed := Replay(rules, db, events);
            && replayed.db == db
            && (replayed.ok <==>
                  && db.purgeCompleted
                  && events != [] && events[|events| - 1].action == "complete"
                  && forall i :: 0 <= i < |events| ==> Projected(db, events[i], i + 1))
  {
    forall i | 0 <= i < |events| ensures Projected(db, events[i], i + 1) <==> AppliedRecord(db, events[i]) {
    }
  }

  /* ---------- one event ---------- */

  /** The event is already in the projection, with its own action. */
  predicate InProjection(db: Db, event: HistoryEvent) {
    Projected(db, event, event.sequence) && db.operations[event.operationId].action == event.action
  }

  /** The operations that wait. */
  function Waiting(db: Db): set<Uuid> {
    set id | id in db.operations && db.operations[id].status == Pending
  }

  /** The next event may be applied: its operation waits with all fields of the event, or is absent while at most
      one other operation waits. */
  predicate Acceptable(db: Db, event: HistoryEvent) {
    if event.operationId in db.operations then
      db.operations[event.operationId].status == Pending
      && db.operations[event.operationId].action == event.action
      && db.operations[event.operationId].expectedSequence == event.sequence - 1
      && db.operations[event.operationId].payload == event.data
      && db.operations[event.operationId].reason == event.reason
      && db.operations[event.operationId].actorId == event.actorId
    else |Waiting(db)| <= 1
  }

  /** The operation of an event before and after it is applied. */
  function OperationOf(event: HistoryEvent, status: OperationStatus): Operation {
    Operation(status, event.action, event.sequence - 1, event.data, event.reason, event.actorId,
              if status == Applied then Some(event.sequence) else None)
  }

  /** Every operation but the event's own: as it was, but rejected if it waited and the event's was missing. */
  ghost predicate LocalRejected(db: Db, t: Db, event: HistoryEvent) {
    forall id :: id != event.operationId ==>
      && (id in t.operations <==> id in db.operations)
      && (id in db.operations ==>
            t.operations[id] == if id in Waiting(db) && event.operationId !in db.operations
                                then db.operations[id].(status := Rejected) else db.operations[id])
  }

  /** One event of the loop, in full. Of an absent organization only an applied completion passes. An event at or
      before the projection passes if and only if it is in it; one beyond the next is a gap. The next event passes
      if and only if its operation is acceptable and the event applies; only this case writes. */
  lemma EventPassesIff(rules: Rules, db: Db, event: HistoryEvent)
    ensures var step := ReplayStep(rules, db, event);
            var next := db.org.Some? && db.org.value.sequence == event.sequence - 1;
            && (step.ok <==>
                  if db.org.None? then
                    event.action == "complete" && event.operationId in db.operations
                    && db.operations[event.operationId].status == Applied
                  else if db.org.value.sequence >= event.sequence then InProjection(db, event)
                  else next && Acceptable(db, event) && rules.apply(db.org.value.projection, event).Some?)
            && (!next || !Acceptable(db, event) ==> step.db == db)
  {
    assert Pendings(db) == Waiting(db);
  }

  /** What the next event writes. Its operation is applied with the event's own fields at its number, whatever
      waited locally is rejected if it was missing, and the organization moves on, or goes with its completion. */
  lemma EventWrites(rules: Rules, db: Db, event: HistoryEvent)
    requires db.org.Some? && db.org.value.sequence == event.sequence - 1 && ReplayStep(rules, db, event).ok
    ensures var t := ReplayStep(rules, db, event).db;
            var projection := rules.apply(db.org.value.projection, event);
            && LocalRejected(db, t, event)
            && event.operationId in t.operations && t.operations[event.operationId] == OperationOf(event, Applied)
            && projection.Some?
            && t.org == (if event.action == "complete" then None else Some(Org(event.sequence, projection.value)))
            && t.purgeCompleted == (db.purgeCompleted || event.action == "complete")
  {
    assert Pendings(db) == Waiting(db);
    var t := ReplayStep(rules, db, event).db;
    var ensured := EnsureOperation(db, event).value;
    forall id | id != event.operationId
      ensures id in t.operations <==> id in db.operations
      ensures id in db.operations ==>
                t.operations[id] == if id in Waiting(db) && event.operationId !in db.operations
                                    then db.operations[id].(status := Rejected) else db.operations[id]
    {
      assert id in t.operations <==> id in ensured.operations;
    }
  }

  /** The event that cannot be applied leaves its operation waiting, which is the state a retry starts from. */
  lemma RefusedEventWaits(rules: Rules, db: Db, event: HistoryEvent)
    requires db.org.Some? && db.org.value.sequence == event.sequence - 1
    requires Acceptable(db, event) && rules.apply(db.org.value.projection, event).None?
    ensures var t := ReplayStep(rules, db, event).db;
            && t.org == db.org && t.purgeCompleted == db.purgeCompleted && LocalRejected(db, t, event)
            && event.operationId in t.operations
            && t.operations[event.operationId]
               == if event.operationId in db.operations then db.operations[event.operationId] else OperationOf(event, Pending)
  {
    assert Pendings(db) == Waiting(db);
    var t := ReplayStep(rules, db, event).db;
    assert EnsureOperation(db, event) == Some(t);
  }
}
