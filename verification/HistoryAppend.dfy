/** `register` and `append` without a concurrent caller, as functions of the two stores, and the complete
    account of what `append` does to a healthy history. */
module HistoryAppend {
  import opened Wrappers
  import opened HistoryModel
  import opened HistoryFacts
  import opened HistoryProtocol
  import opened HistoryInvariant
  import opened HistoryRecovery

  /* ---------- register ---------- */

  function Register(ctx: Context, primary: Store, backup: Store): Outcome<()> {
    var entry := PutImmutable(primary, backup, CatalogKey, Registration(ctx.orgId));
    match entry.result
    case Failure(error) => entry
    case Success(_) => PutImmutable(entry.primary, entry.backup, ReceiptKey(0), GenesisReceipt(ctx))
  }

  /** A store in which some of the two registration records are present and nothing else is. */
  predicate PartlyRegistered(ctx: Context, store: Store) {
    && store.objects.Keys <= {CatalogKey, ReceiptKey(0)}
    && AbsentOr(store, CatalogKey, Registration(ctx.orgId))
    && AbsentOr(store, ReceiptKey(0), GenesisReceipt(ctx))
    && (store.Has(CatalogKey) ==> store.objects[CatalogKey].etag < store.clock)
    && (store.Has(ReceiptKey(0)) ==> store.objects[ReceiptKey(0)].etag < store.clock)
  }

  /** Registration completes from every point at which an earlier registration may have stopped, and
      registering again changes nothing. */
  lemma RegisterCompletes(ctx: Context, primary: Store, backup: Store)
    requires PartlyRegistered(ctx, primary) && PartlyRegistered(ctx, backup)
    ensures var done := Register(ctx, primary, backup);
            && done.result == Success(())
            && Registered(ctx, done.primary) && Registered(ctx, done.backup)
            && Register(ctx, done.primary, done.backup) == done
            && VerifiedHead(ctx, done.primary, done.backup) == Some(GenesisHead(ctx))
  {
    var done := Register(ctx, primary, backup);
    assert done.primary.objects.Keys == {CatalogKey, ReceiptKey(0)};
    assert done.backup.objects.Keys == {CatalogKey, ReceiptKey(0)};
    assert ReceiptRange(0) == {ReceiptKey(0)};
    assert done.primary.ReceiptKeys() == ReceiptRange(0) && done.backup.ReceiptKeys() == ReceiptRange(0);
    assert Complete(ctx, done.primary, done.backup, []);
    CompleteVerifies(ctx, done.primary, done.backup, [], GenesisHead(ctx));
  }

  /* ---------- append ---------- */

  /** The exception handlers: the operation may be on the chain after all. */
  function Resolve(ctx: Context, primary: Store, backup: Store, operationId: Uuid): Outcome<HistoryEvent> {
    match Accepted(ctx, primary, backup, operationId)
    case Present(event) => Outcome(primary, backup, Success(event))
    case Absent => Outcome(primary, backup, Failure(Conflict))
    case Broken => Outcome(primary, backup, Failure(Unverified))
  }

  function Confirm(ctx: Context, primary: Store, backup: Store, event: HistoryEvent): Outcome<HistoryEvent> {
    match Accepted(ctx, primary, backup, event.operationId)
    case Present(found) =>
      Outcome(primary, backup, if ctx.hash(found) == ctx.hash(event) then Success(found) else Failure(Unverified))
    case _ => Outcome(primary, backup, Failure(Unverified))
  }

  /** The head, then the receipt into both copies. */
  function Publish(ctx: Context, primary: Store, backup: Store, head: HistoryHead, event: HistoryEvent)
    : Outcome<HistoryEvent>
  {
    match primary.Put(HeadKey, HeadFor(ctx, event), head.etag)
    case None => Resolve(ctx, primary, backup, event.operationId)
    case Some(moved) =>
      var receipted := PutImmutable(moved, backup, ReceiptKey(event.sequence), ReceiptFor(ctx, event));
      if receipted.result.Failure? then Resolve(ctx, receipted.primary, receipted.backup, event.operationId)
      else Confirm(ctx, receipted.primary, receipted.backup, event)
  }

  /** The three writes: the event into both copies, the head, the receipt into both copies. */
  function WriteEvent(ctx: Context, primary: Store, backup: Store, head: HistoryHead, event: HistoryEvent)
    : Outcome<HistoryEvent>
  {
    var stored := PutImmutable(primary, backup, EventKey(event.operationId), Event(event));
    if stored.result.Failure? then Resolve(ctx, stored.primary, stored.backup, event.operationId)
    else Publish(ctx, stored.primary, stored.backup, head, event)
  }

  function Append(ctx: Context, primary: Store, backup: Store, command: Command): Outcome<HistoryEvent> {
    match VerifiedHead(ctx, primary, backup)
    case None => Outcome(primary, backup, Failure(Unverified))
    case Some(head) =>
      match Accepted(ctx, primary, backup, command.operationId)
      case Broken => Outcome(primary, backup, Failure(Unverified))
      case Present(event) =>
        Outcome(primary, backup, if Matches(command, event) then Success(event) else Failure(Conflict))
      case Absent =>
        if head.sequence != command.expectedSequence then Outcome(primary, backup, Failure(Conflict))
        else WriteEvent(ctx, primary, backup, head, BuildEvent(ctx, command, head))
  }

  /** The head verifies and the last receipt is in both copies. */
  ghost predicate Healthy(ctx: Context, primary: Store, backup: Store) {
    StoreInv(ctx, primary, backup) && LastReceiptSafe(ctx, primary, backup)
  }

  /** A record left under the operation by an append that never reached the head. */
  predicate Stale(primary: Store, event: HistoryEvent) {
    !AbsentOr(primary, EventKey(event.operationId), Event(event))
  }

  lemma HealthyHead(ctx: Context, primary: Store, backup: Store)
    requires Healthy(ctx, primary, backup)
    ensures VerifiedHead(ctx, primary, backup) == StoredHead(ctx, primary)
    ensures var head := StoredHead(ctx, primary);
            && head.Some? && HeadOf(ctx, head.value, Log(ctx, primary))
            && primary.Admits(HeadKey, head.value.etag)
            && (head.value.etag.Some? ==> head.value.etag.value < primary.clock)
  {
    VerifiedIffReceipted(ctx, primary, backup);
    LogShape(ctx, primary);
  }

  lemma HealthyAccepted(ctx: Context, primary: Store, backup: Store, operationId: Uuid)
    requires Healthy(ctx, primary, backup)
    ensures var answer := Accepted(ctx, primary, backup, operationId);
            && !answer.Broken?
            && (answer.Present? <==> OnChain(Log(ctx, primary), operationId))
            && (answer.Present? ==> answer.event in Log(ctx, primary) && answer.event.operationId == operationId)
  {
    VerifiedIffReceipted(ctx, primary, backup);
    AcceptedIffOnChain(ctx, primary, backup, operationId);
  }

  /** Putting the event into both copies, as the two event puts of the protocol. */
  lemma EventPuts(ctx: Context, primary: Store, backup: Store, event: HistoryEvent)
    requires StoreInv(ctx, primary, backup) && !Stale(primary, event)
    ensures var put := PutImmutable(primary, backup, EventKey(event.operationId), Event(event));
            && put.result == Success(())
            && StoreInv(ctx, put.primary, put.backup)
            && Kept(primary, put.primary) && Kept(backup, put.backup)
            && put.primary.Read(HeadKey) == primary.Read(HeadKey)
            && Log(ctx, put.primary) == Log(ctx, primary)
            && put.primary.Holds(EventKey(event.operationId), Event(event))
            && put.backup.Holds(EventKey(event.operationId), Event(event))
  {
    var key := EventKey(event.operationId);
    assert backup.Has(key) ==> primary.Holds(key, backup.objects[key].body);
    var s := State(primary, backup, {}, map[]);
    ApplySafe(ctx, s, PutEvent(Primary, event));
    var t := Apply(ctx, s, PutEvent(Primary, event));
    LogKept(ctx, primary, t.primary);
    ApplySafe(ctx, t, PutEvent(Backup, event));
    assert Apply(ctx, t, PutEvent(Backup, event)).backup == PutImmutable(primary, backup, key, Event(event)).backup;
  }

  /** Moving the head to the next event. */
  lemma HeadPut(ctx: Context, primary: Store, backup: Store, head: HistoryHead, event: HistoryEvent)
    requires StoreInv(ctx, primary, backup) && HeadSafe(ctx, primary, backup, event, head.etag)
    requires primary.Admits(HeadKey, head.etag)
    ensures var moved := primary.Put(HeadKey, HeadFor(ctx, event), head.etag);
            && moved.Some?
            && StoreInv(ctx, moved.value, backup)
            && Log(ctx, moved.value) == Log(ctx, primary) + [event]
            && Kept(primary, moved.value)
  {
    var s := State(primary, backup, {}, map[]);
    HeadMovesLog(ctx, s, PutHead(event, head.etag));
    ApplyHead(ctx, s, PutHead(event, head.etag));
  }

  lemma NextEventSafe(ctx: Context, primary: Store, backup: Store, command: Command)
    requires Healthy(ctx, primary, backup) && !OnChain(Log(ctx, primary), command.operationId)
    ensures var head := StoredHead(ctx, primary).value;
            EventSafe(ctx, primary, backup, BuildEvent(ctx, command, head), head.etag)
  {
    HealthyHead(ctx, primary, backup);
    var log := Log(ctx, primary);
    assert ReceiptsThrough(primary, backup, |log|);
  }

  lemma ConfirmHolds(ctx: Context, primary: Store, backup: Store, log: seq<HistoryEvent>, event: HistoryEvent)
    requires Healthy(ctx, primary, backup) && Log(ctx, primary) == log + [event]
    ensures Confirm(ctx, primary, backup, event) == Outcome(primary, backup, Success(event))
  {
    LogShape(ctx, primary);
    assert (log + [event])[|log|] == event;
    assert OnChain(Log(ctx, primary), event.operationId);
    HealthyAccepted(ctx, primary, backup, event.operationId);
    var found := Accepted(ctx, primary, backup, event.operationId).event;
    var i :| 0 <= i < |log| + 1 && Log(ctx, primary)[i] == found;
    StoredDistinct(ctx, primary, Log(ctx, primary), i, |log|);
  }

  lemma PublishExtends(ctx: Context, primary: Store, backup: Store, head: HistoryHead, event: HistoryEvent)
    requires StoreInv(ctx, primary, backup) && HeadSafe(ctx, primary, backup, event, head.etag)
    requires primary.Admits(HeadKey, head.etag)
    ensures var written := Publish(ctx, primary, backup, head, event);
            && written.result == Success(event)
            && Log(ctx, written.primary) == Log(ctx, primary) + [event]
            && Healthy(ctx, written.primary, written.backup)
  {
    HeadPut(ctx, primary, backup, head, event);
    var moved := primary.Put(HeadKey, HeadFor(ctx, event), head.etag).value;
    ReceiptPuts(ctx, moved, backup, event);
    var receipted := PutImmutable(moved, backup, ReceiptKey(event.sequence), ReceiptFor(ctx, event));
    ConfirmHolds(ctx, receipted.primary, receipted.backup, Log(ctx, primary), event);
  }

  lemma WriteEventExtends(ctx: Context, primary: Store, backup: Store, head: HistoryHead, event: HistoryEvent)
    requires Healthy(ctx, primary, backup) && primary.Admits(HeadKey, head.etag)
    requires EventSafe(ctx, primary, backup, event, head.etag) && !Stale(primary, event)
    ensures var written := WriteEvent(ctx, primary, backup, head, event);
            && written.result == Success(event)
            && Log(ctx, written.primary) == Log(ctx, primary) + [event]
            && Healthy(ctx, written.primary, written.backup)
  {
    EventPuts(ctx, primary, backup, event);
    var stored := PutImmutable(primary, backup, EventKey(event.operationId), Event(event));
    assert stored.primary.Has(HeadKey) <==> primary.Has(HeadKey);
    EventStable(ctx, primary, backup, stored.primary, stored.backup, event, head.etag);
    PublishExtends(ctx, stored.primary, stored.backup, head, event);
  }

  /** The lookup answers each operation of the verified chain with its own event, and nothing for any other. */
  lemma AcceptedIsItsEvent(ctx: Context, primary: Store, backup: Store, operationId: Uuid)
    requires VerifiedHead(ctx, primary, backup).Some?
    ensures VerifiedEvents(ctx, primary, backup).Some?
    ensures var events := VerifiedEvents(ctx, primary, backup).value;
            var answer := Accepted(ctx, primary, backup, operationId);
            && |events| == VerifiedHead(ctx, primary, backup).value.sequence
            && (forall i :: 0 <= i < |events| && events[i].operationId == operationId ==> answer == Present(events[i]))
            && ((forall i :: 0 <= i < |events| ==> events[i].operationId != operationId) ==> answer == Absent)
  {
    VerifiedEventsAreTheChain(ctx, primary, backup);
    AcceptedIffOnChain(ctx, primary, backup, operationId);
    var events := VerifiedChain(ctx, primary, backup);
    forall i | 0 <= i < |events| && events[i].operationId == operationId
      ensures Accepted(ctx, primary, backup, operationId) == Present(events[i])
    {
      assert OnChain(events, operationId);
      StoredDistinct(ctx, primary, events, i, Accepted(ctx, primary, backup, operationId).event.sequence - 1);
    }
  }

  /** `append` on any two stores, until it writes. Stores that do not verify are refused. An operation on the verified
      chain is answered with its event if and only if the command asks for the same, and refused otherwise; any other
      command is refused if it expects another sequence. None of these touches a record. */
  lemma AppendAnswers(ctx: Context, primary: Store, backup: Store, command: Command)
    ensures var done := Append(ctx, primary, backup, command);
            match VerifiedEvents(ctx, primary, backup)
            case None => done == Outcome(primary, backup, Failure(Unverified))
            case Some(events) =>
              && (forall i :: 0 <= i < |events| && events[i].operationId == command.operationId ==>
                    && done.primary == primary && done.backup == backup
                    && (done.result.Success? <==> SameCommand(command, events[i]))
                    && done.result == if SameCommand(command, events[i]) then Success(events[i]) else Failure(Conflict))
              && ((forall i :: 0 <= i < |events| ==> events[i].operationId != command.operationId)
                  && |events| != command.expectedSequence ==>
                    done == Outcome(primary, backup, Failure(Conflict)))
  {
    var verified := VerifiedHead(ctx, primary, backup);
    if verified.Some? {
      AcceptedIsItsEvent(ctx, primary, backup, command.operationId);
    }
  }

  /** The event that a command adds to a log: the next number, linked to the last event, the command's own fields. */
  function NextEvent(ctx: Context, log: seq<HistoryEvent>, command: Command): HistoryEvent {
    HistoryEvent(
      ctx.orgId, command.operationId, |log| + 1,
      if log == [] then None else Some(log[|log| - 1].operationId),
      if log == [] then ctx.genesis else ctx.hash(log[|log| - 1]),
      command.action, command.acceptedAt, command.actorId, command.reason, command.data)
  }

  /** Another document is stored under the operation: an append that never reached the head left it. */
  predicate Occupied(primary: Store, event: HistoryEvent) {
    var key := EventKey(event.operationId);
    key in primary.objects && primary.objects[key].body != Event(event)
  }

  /** `append` on a healthy history, in full. A recorded operation is answered with its event if and only if the
      command asks for the same, and refused otherwise; a wrong expected sequence or an occupied key is refused; all
      of these leave both stores as they were. Otherwise the log grows by exactly the event of the command, which is
      returned, and the history is healthy again. */
  lemma AppendAccount(ctx: Context, primary: Store, backup: Store, command: Command)
    requires Healthy(ctx, primary, backup)
    ensures var log := Log(ctx, primary);
            var event := NextEvent(ctx, log, command);
            var done := Append(ctx, primary, backup, command);
            if exists i :: 0 <= i < |log| && log[i].operationId == command.operationId then
              && done.primary == primary && done.backup == backup
              && forall i :: 0 <= i < |log| && log[i].operationId == command.operationId ==>
                   done.result == if SameCommand(command, log[i]) then Success(log[i]) else Failure(Conflict)
            else if |log| != command.expectedSequence || Occupied(primary, event) then
              done == Outcome(primary, backup, Failure(Conflict))
            else
              && done.result == Success(event)
              && Log(ctx, done.primary) == log + [event]
              && Healthy(ctx, done.primary, done.backup)
  {
    HealthyHead(ctx, primary, backup);
    HealthyAccepted(ctx, primary, backup, command.operationId);
    VerifiedIffReceipted(ctx, primary, backup);
    AppendAnswers(ctx, primary, backup, command);
    var log := Log(ctx, primary);
    if !OnChain(log, command.operationId) && |log| == command.expectedSequence {
      NextEventSafe(ctx, primary, backup, command);
      var head := StoredHead(ctx, primary).value;
      var event := BuildEvent(ctx, command, head);
      assert event == NextEvent(ctx, log, command);
      if !Stale(primary, event) {
        WriteEventExtends(ctx, primary, backup, head, event);
      }
    }
  }

  /** What the exception handlers and the final confirmation answer, on any two stores: the event of the operation on
      the verified chain. The handlers refuse an operation that is not on it; the confirmation also refuses an event
      with another digest. */
  lemma HandlersDecided(ctx: Context, primary: Store, backup: Store, event: HistoryEvent)
    ensures var resolved := Resolve(ctx, primary, backup, event.operationId);
            var confirmed := Confirm(ctx, primary, backup, event);
            && resolved.primary == confirmed.primary == primary && resolved.backup == confirmed.backup == backup
            && match VerifiedEvents(ctx, primary, backup)
               case None => resolved.result == Failure(Unverified) && confirmed.result == Failure(Unverified)
               case Some(events) =>
                 && (forall i :: 0 <= i < |events| && events[i].operationId == event.operationId ==>
                       && resolved.result == Success(events[i])
                       && confirmed.result == if ctx.hash(events[i]) == ctx.hash(event) then Success(events[i])
                                              else Failure(Unverified))
                 && ((forall i :: 0 <= i < |events| ==> events[i].operationId != event.operationId) ==>
                       resolved.result == Failure(Conflict) && confirmed.result == Failure(Unverified))
  {
    var verified := VerifiedHead(ctx, primary, backup);
    if verified.Some? {
      AcceptedIsItsEvent(ctx, primary, backup, event.operationId);
    }
  }

  /** Stores whose head is the given event's verify only with that event, or one of the same digest, at the end. */
  lemma HeadOnChain(ctx: Context, primary: Store, backup: Store, event: HistoryEvent)
    requires primary.Holds(HeadKey, Head(event.sequence, ctx.hash(event), event.operationId))
    ensures Confirm(ctx, primary, backup, event) == Resolve(ctx, primary, backup, event.operationId)
  {
    var verified := VerifiedHead(ctx, primary, backup);
    if verified.Some? {
      var events := VerifiedChain(ctx, primary, backup);
      VerifiedEventsAreTheChain(ctx, primary, backup);
      AcceptedIsItsEvent(ctx, primary, backup, event.operationId);
      assert events[|events| - 1].operationId == event.operationId;
    }
  }

  /** Writing a record leaves the head as it is. */
  lemma RecordKeepsHead(primary: Store, backup: Store, key: Key, body: Body)
    requires key != HeadKey
    ensures PutImmutable(primary, backup, key, body).primary.Read(HeadKey) == primary.Read(HeadKey)
  {
  }

  lemma PublishResolves(ctx: Context, primary: Store, backup: Store, head: HistoryHead, event: HistoryEvent)
    ensures var done := Publish(ctx, primary, backup, head, event);
            done == Resolve(ctx, done.primary, done.backup, event.operationId)
  {
    var moved := primary.Put(HeadKey, HeadFor(ctx, event), head.etag);
    if moved.Some? {
      var key, receipt := ReceiptKey(event.sequence), ReceiptFor(ctx, event);
      var receipted := PutImmutable(moved.value, backup, key, receipt);
      RecordKeepsHead(moved.value, backup, key, receipt);
      assert receipted.primary.Read(HeadKey) == Some(Object(HeadFor(ctx, event), primary.clock));
      HeadOnChain(ctx, receipted.primary, receipted.backup, event);
    }
  }

  /** Once `append` writes, it answers from the stores it leaves, whatever they held: with the event of the operation on
      their verified chain, with a conflict if the operation is not on it, and unverified if they do not verify. */
  lemma WritesAnswerFromChain(ctx: Context, primary: Store, backup: Store, head: HistoryHead, event: HistoryEvent)
    ensures var done := WriteEvent(ctx, primary, backup, head, event);
            match VerifiedEvents(ctx, done.primary, done.backup)
            case None => done.result == Failure(Unverified)
            case Some(events) =>
              && (forall i :: 0 <= i < |events| && events[i].operationId == event.operationId ==>
                    done.result == Success(events[i]))
              && ((forall i :: 0 <= i < |events| ==> events[i].operationId != event.operationId) ==>
                    done.result == Failure(Conflict))
  {
    var done := WriteEvent(ctx, primary, backup, head, event);
    var stored := PutImmutable(primary, backup, EventKey(event.operationId), Event(event));
    PublishResolves(ctx, stored.primary, stored.backup, head, event);
    HandlersDecided(ctx, done.primary, done.backup, event);
  }
}
