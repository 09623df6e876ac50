/** The inductive invariant of the append protocol. */
module HistoryInvariant {
  import opened Wrappers
  import opened HistoryModel
  import opened HistoryFacts
  import opened HistoryProtocol

  /* ---------- the invariant of the two stores ---------- */

  /** The events the stored head stands for. */
  function Log(ctx: Context, primary: Store): seq<HistoryEvent> {
    match StoredHead(ctx, primary)
    case None => []
    case Some(head) =>
      match WalkHead(ctx, primary, head)
      case None => []
      case Some(events) => events
  }

  /** The head walks back to genesis. */
  predicate Walks(ctx: Context, primary: Store) {
    && (primary.Has(HeadKey) ==> primary.objects[HeadKey].body.Head?)
    && StoredHead(ctx, primary).Some?
    && WalkHead(ctx, primary, StoredHead(ctx, primary).value).Some?
  }

  ghost predicate TagsIssued(store: Store) {
    forall key :: key in store.objects ==> store.objects[key].etag < store.clock
  }

  /** Every backup record has the identical primary record; the head exists in the primary copy only. */
  ghost predicate BackupFollows(primary: Store, backup: Store) {
    forall key :: key in backup.objects ==> key != HeadKey && primary.Holds(key, backup.objects[key].body)
  }

  ghost predicate EventsNamed(primary: Store) {
    forall operationId :: primary.Has(EventKey(operationId)) ==>
      primary.objects[EventKey(operationId)].body.Event?
      && primary.objects[EventKey(operationId)].body.event.operationId == operationId
  }

  ghost predicate Mirrored(backup: Store, log: seq<HistoryEvent>) {
    forall i :: 0 <= i < |log| ==> backup.Holds(EventKey(log[i].operationId), Event(log[i]))
  }

  function ReceiptBody(ctx: Context, log: seq<HistoryEvent>, sequence: nat): Body
    requires sequence <= |log|
  {
    if sequence == 0 then GenesisReceipt(ctx) else ReceiptFor(ctx, log[sequence - 1])
  }

  /** Both copies hold the receipts 0..last. */
  ghost predicate ReceiptsThrough(primary: Store, backup: Store, last: int) {
    forall i :: 0 <= i <= last ==> primary.Has(ReceiptKey(i)) && backup.Has(ReceiptKey(i))
  }

  ghost predicate SideThrough(store: Store, last: int) {
    forall i :: 0 <= i <= last ==> store.Has(ReceiptKey(i))
  }

  /** The receipts present are those of the log, none beyond it, and all but the last are in both copies. */
  ghost predicate ReceiptsOk(ctx: Context, primary: Store, backup: Store, log: seq<HistoryEvent>) {
    && (forall i :: primary.Has(ReceiptKey(i)) ==>
          0 <= i <= |log| && primary.Holds(ReceiptKey(i), ReceiptBody(ctx, log, i)))
    && (forall name :: !primary.Has(StrayReceiptKey(name)))
    && ReceiptsThrough(primary, backup, if log == [] then 0 else |log| - 1)
  }

  ghost predicate StoreInv(ctx: Context, primary: Store, backup: Store) {
    && Walks(ctx, primary)
    && TagsIssued(primary) && TagsIssued(backup)
    && primary.Holds(CatalogKey, Registration(ctx.orgId)) && backup.Holds(CatalogKey, Registration(ctx.orgId))
    && BackupFollows(primary, backup)
    && EventsNamed(primary)
    && Mirrored(backup, Log(ctx, primary))
    && ReceiptsOk(ctx, primary, backup, Log(ctx, primary))
  }

  /** The stores of an organization right after `register`. */
  predicate Registered(ctx: Context, store: Store) {
    && store.objects.Keys == {CatalogKey, ReceiptKey(0)}
    && store.Holds(CatalogKey, Registration(ctx.orgId))
    && store.Holds(ReceiptKey(0), GenesisReceipt(ctx))
    && store.objects[CatalogKey].etag < store.clock && store.objects[ReceiptKey(0)].etag < store.clock
  }

  lemma LogShape(ctx: Context, primary: Store)
    requires Walks(ctx, primary)
    ensures var log := Log(ctx, primary);
            var head := StoredHead(ctx, primary).value;
            && Chained(ctx, log) && Stored(primary, log)
            && head.sequence == |log|
            && LinkOf(ctx, log, |log|) == Link(head.digest, head.operationId)
            && (primary.Has(HeadKey) <==> log != [])
  {
    var head := StoredHead(ctx, primary).value;
    WalkSound(ctx, primary, head.operationId, head.digest, head.sequence);
  }

  /* ---------- how the stores may change ---------- */

  /** No record other than the head is ever replaced or removed. */
  ghost predicate Kept(before: Store, after: Store) {
    && before.clock <= after.clock
    && forall key :: key in before.objects && key != HeadKey ==>
         key in after.objects && after.objects[key] == before.objects[key]
  }

  /** Records are kept, the log only grows, and a changed head carries a tag never issued before. */
  ghost predicate Grows(ctx: Context, primary: Store, backup: Store, primary': Store, backup': Store) {
    && Kept(primary, primary') && Kept(backup, backup')
    && Log(ctx, primary) <= Log(ctx, primary')
    && (|| (Log(ctx, primary') == Log(ctx, primary)
            && primary.Read(HeadKey) == primary'.Read(HeadKey))
        || (primary'.Has(HeadKey) && primary'.objects[HeadKey].etag >= primary.clock))
  }

  /** Keeping the records and the head keeps the log. */
  lemma LogKept(ctx: Context, before: Store, after: Store)
    requires Walks(ctx, before) && Kept(before, after) && before.Read(HeadKey) == after.Read(HeadKey)
    ensures Walks(ctx, after) && Log(ctx, after) == Log(ctx, before)
  {
    LogShape(ctx, before);
    var log := Log(ctx, before);
    assert Stored(after, log) by {
      forall i | 0 <= i < |log| ensures ReadEvent(after, log[i].operationId) == Some(log[i]) {
        assert ReadEvent(before, log[i].operationId) == Some(log[i]);
        assert before.Has(EventKey(log[i].operationId));
      }
    }
    assert StoredHead(ctx, before) == StoredHead(ctx, after) by {
      assert before.Has(HeadKey) <==> after.Has(HeadKey);
    }
    WalkComplete(ctx, after, log);
  }

  /* ---------- what a request in flight must satisfy ---------- */

  /** The event is on the log at its number. */
  predicate Recorded(ctx: Context, primary: Store, event: HistoryEvent) {
    var log := Log(ctx, primary);
    1 <= event.sequence <= |log| && log[event.sequence - 1] == event
  }

  /** An event built on a head that was once current: if the head still admits its tag, the event is exactly
      the next one and its operation is new. */
  ghost predicate EventSafe(ctx: Context, primary: Store, backup: Store, event: HistoryEvent, etag: Option<nat>) {
    var log := Log(ctx, primary);
    && event.orgId == ctx.orgId
    && 1 <= event.sequence <= |log| + 1
    && Link(event.previousDigest, event.previousOperationId) == LinkOf(ctx, log, event.sequence - 1)
    && ReceiptsThrough(primary, backup, event.sequence - 1)
    && (etag.Some? ==> etag.value < primary.clock)
    && (primary.Admits(HeadKey, etag) ==> |log| == event.sequence - 1 && !OnChain(log, event.operationId))
  }

  ghost predicate HeadSafe(ctx: Context, primary: Store, backup: Store, event: HistoryEvent, etag: Option<nat>) {
    && EventSafe(ctx, primary, backup, event, etag)
    && primary.Holds(EventKey(event.operationId), Event(event))
    && backup.Holds(EventKey(event.operationId), Event(event))
  }

  ghost predicate RequestSafe(ctx: Context, primary: Store, backup: Store, request: Request) {
    match request
    case PutEvent(side, event) =>
      side.Backup? ==> primary.Holds(EventKey(event.operationId), Event(event))
    case PutHead(event, etag) => HeadSafe(ctx, primary, backup, event, etag)
    case PutReceipt(side, event) =>
      && Recorded(ctx, primary, event)
      && (side.Backup? ==> primary.Holds(ReceiptKey(event.sequence), ReceiptFor(ctx, event)))
  }

  lemma RequestStable(ctx: Context, primary: Store, backup: Store, primary': Store, backup': Store, request: Request)
    requires Grows(ctx, primary, backup, primary', backup')
    requires RequestSafe(ctx, primary, backup, request)
    ensures RequestSafe(ctx, primary', backup', request)
  {
    if request.PutHead? {
      EventStable(ctx, primary, backup, primary', backup', request.event, request.expected);
    }
  }

  lemma EventStable(ctx: Context, primary: Store, backup: Store, primary': Store, backup': Store,
                    event: HistoryEvent, etag: Option<nat>)
    requires Grows(ctx, primary, backup, primary', backup')
    requires EventSafe(ctx, primary, backup, event, etag)
    ensures EventSafe(ctx, primary', backup', event, etag)
  {
    var log, log' := Log(ctx, primary), Log(ctx, primary');
    assert LinkOf(ctx, log', event.sequence - 1) == LinkOf(ctx, log, event.sequence - 1);
  }

  /* ---------- applying a safe request ---------- */

  /** A record other than the head reaches a store that did not have it. */
  lemma ApplyRecord(ctx: Context, s: State, request: Request)
    requires Walks(ctx, s.primary) && TagsIssued(s.primary) && TagsIssued(s.backup)
    requires !request.PutHead? && Admitted(s, request)
    ensures var t := Apply(ctx, s, request);
            var entry := Object(RequestBody(ctx, request), SideStore(s, RequestSide(request)).clock);
            && Walks(ctx, t.primary) && TagsIssued(t.primary) && TagsIssued(t.backup)
            && Log(ctx, t.primary) == Log(ctx, s.primary)
            && Grows(ctx, s.primary, s.backup, t.primary, t.backup)
            && t.primary.objects == (if RequestSide(request).Primary?
                                     then s.primary.objects[RequestKey(request) := entry] else s.primary.objects)
            && t.backup.objects == (if RequestSide(request).Backup?
                                    then s.backup.objects[RequestKey(request) := entry] else s.backup.objects)
  {
    LogKept(ctx, s.primary, Apply(ctx, s, request).primary);
  }

  lemma ApplyEvent(ctx: Context, s: State, request: Request)
    requires StoreInv(ctx, s.primary, s.backup) && request.PutEvent?
    requires RequestSafe(ctx, s.primary, s.backup, request) && Admitted(s, request)
    ensures var t := Apply(ctx, s, request);
            StoreInv(ctx, t.primary, t.backup) && Grows(ctx, s.primary, s.backup, t.primary, t.backup)
  {
    var t := Apply(ctx, s, request);
    ApplyRecord(ctx, s, request);
    assert Mirrored(t.backup, Log(ctx, s.primary));
    ReceiptsUntouched(ctx, s.primary, s.backup, t.primary, t.backup, Log(ctx, s.primary));
  }

  lemma ReceiptsUntouched(ctx: Context, primary: Store, backup: Store, primary': Store, backup': Store,
                          log: seq<HistoryEvent>)
    requires ReceiptsOk(ctx, primary, backup, log) && Kept(primary, primary') && Kept(backup, backup')
    requires forall key :: key in primary'.objects && !key.EventKey? ==> key in primary.objects
    ensures ReceiptsOk(ctx, primary', backup', log)
  {
  }

  lemma ReceiptsExtended(ctx: Context, primary: Store, backup: Store, primary': Store, backup': Store,
                         log: seq<HistoryEvent>, event: HistoryEvent)
    requires ReceiptsOk(ctx, primary, backup, log) && Kept(primary, primary') && Kept(backup, backup')
    requires 1 <= event.sequence <= |log| && log[event.sequence - 1] == event
    requires forall key :: key in primary'.objects && key !in primary.objects ==>
               key == ReceiptKey(event.sequence) && primary'.Holds(key, ReceiptFor(ctx, event))
    ensures ReceiptsOk(ctx, primary', backup', log)
  {
  }

  /** A receipt more changes neither the events nor what the backup copy follows. */
  lemma ReceiptKeepsOthers(primary: Store, backup: Store, primary': Store, backup': Store, log: seq<HistoryEvent>,
                           key: Key, entry: Object)
    requires BackupFollows(primary, backup) && EventsNamed(primary) && Mirrored(backup, log) && key.ReceiptKey?
    requires || (key !in primary.objects && primary'.objects == primary.objects[key := entry]
                 && backup'.objects == backup.objects)
             || (key !in backup.objects && primary'.objects == primary.objects && primary.Holds(key, entry.body)
                 && backup'.objects == backup.objects[key := entry])
    ensures BackupFollows(primary', backup') && EventsNamed(primary') && Mirrored(backup', log)
  {
  }

  lemma ApplyReceipt(ctx: Context, s: State, request: Request)
    requires StoreInv(ctx, s.primary, s.backup) && request.PutReceipt?
    requires RequestSafe(ctx, s.primary, s.backup, request) && Admitted(s, request)
    ensures var t := Apply(ctx, s, request);
            StoreInv(ctx, t.primary, t.backup) && Grows(ctx, s.primary, s.backup, t.primary, t.backup)
  {
    var t := Apply(ctx, s, request);
    ApplyRecord(ctx, s, request);
    var entry := Object(RequestBody(ctx, request), SideStore(s, request.side).clock);
    ReceiptKeepsOthers(s.primary, s.backup, t.primary, t.backup, Log(ctx, s.primary), RequestKey(request), entry);
    ReceiptsExtended(ctx, s.primary, s.backup, t.primary, t.backup, Log(ctx, s.primary), request.event);
  }

  /** The one step that moves the log: it appends exactly the event of the request. */
  lemma HeadMovesLog(ctx: Context, s: State, request: Request)
    requires Walks(ctx, s.primary) && request.PutHead?
    requires RequestSafe(ctx, s.primary, s.backup, request) && Admitted(s, request)
    ensures var t := Apply(ctx, s, request);
            && Log(ctx, t.primary) == Log(ctx, s.primary) + [request.event]
            && Walks(ctx, t.primary) && Kept(s.primary, t.primary) && t.backup == s.backup
            && t.primary.objects == s.primary.objects[HeadKey := Object(HeadFor(ctx, request.event), s.primary.clock)]
  {
    var t := Apply(ctx, s, request);
    var event := request.event;
    LogShape(ctx, s.primary);
    var log := Log(ctx, s.primary);
    ChainedExtend(ctx, log, event);
    var log' := log + [event];
    assert Stored(t.primary, log') by {
      forall i | 0 <= i < |log'| ensures ReadEvent(t.primary, log'[i].operationId) == Some(log'[i]) {
        if i < |log| {
          assert ReadEvent(s.primary, log[i].operationId) == Some(log[i]);
        }
      }
    }
    WalkComplete(ctx, t.primary, log');
  }

  lemma ReceiptsAfterHead(ctx: Context, primary: Store, backup: Store, log: seq<HistoryEvent>, event: HistoryEvent)
    requires ReceiptsOk(ctx, primary, backup, log)
    requires ReceiptsThrough(primary, backup, |log|)
    ensures ReceiptsOk(ctx, primary, backup, log + [event])
  {
    forall i | primary.Has(ReceiptKey(i))
      ensures 0 <= i <= |log| + 1 && primary.Holds(ReceiptKey(i), ReceiptBody(ctx, log + [event], i))
    {
      assert ReceiptBody(ctx, log + [event], i) == ReceiptBody(ctx, log, i);
    }
  }

  lemma ApplyHead(ctx: Context, s: State, request: Request)
    requires StoreInv(ctx, s.primary, s.backup) && request.PutHead?
    requires RequestSafe(ctx, s.primary, s.backup, request) && Admitted(s, request)
    ensures var t := Apply(ctx, s, request);
            StoreInv(ctx, t.primary, t.backup) && Grows(ctx, s.primary, s.backup, t.primary, t.backup)
  {
    var t := Apply(ctx, s, request);
    var log := Log(ctx, s.primary);
    HeadMovesLog(ctx, s, request);
    ReceiptsAfterHead(ctx, s.primary, s.backup, log, request.event);
    assert ReceiptsOk(ctx, t.primary, t.backup, Log(ctx, t.primary));
    assert Mirrored(t.backup, Log(ctx, t.primary));
    assert EventsNamed(t.primary);
  }

  lemma ApplySafe(ctx: Context, s: State, request: Request)
    requires StoreInv(ctx, s.primary, s.backup) && RequestSafe(ctx, s.primary, s.backup, request)
    ensures var t := Apply(ctx, s, request);
            StoreInv(ctx, t.primary, t.backup) && Grows(ctx, s.primary, s.backup, t.primary, t.backup)
  {
    if Admitted(s, request) {
      match request
      case PutEvent(_, _) => ApplyEvent(ctx, s, request);
      case PutHead(_, _) => ApplyHead(ctx, s, request);
      case PutReceipt(_, _) => ApplyReceipt(ctx, s, request);
    }
  }

  /* ---------- what an appender may rely on at each program counter ---------- */

  /** A head that was current when it was read. */
  ghost predicate HeadSeen(ctx: Context, primary: Store, head: HistoryHead) {
    var log := Log(ctx, primary);
    && head.sequence <= |log|
    && Link(head.digest, head.operationId) == LinkOf(ctx, log, head.sequence)
    && (head.etag.Some? ==> head.etag.value < primary.clock)
    && (primary.Admits(HeadKey, head.etag) ==> |log| == head.sequence)
  }

  /** The event carries what the command asked for; the time it was accepted at is not part of that. */
  predicate SameCommand(command: Command, event: HistoryEvent) {
    && event.action == command.action && event.actorId == command.actorId
    && event.reason == command.reason && event.data == command.data
  }

  /** The event is the one this command asked for. */
  predicate Built(command: Command, event: HistoryEvent) {
    event.operationId == command.operationId && Matches(command, event)
  }

  ghost predicate PurposeSafe(ctx: Context, primary: Store, backup: Store, command: Command, purpose: Purpose) {
    match purpose
    case Deciding(head) => HeadSeen(ctx, primary, head) && ReceiptsThrough(primary, backup, head.sequence)
    case Confirming(event) =>
      Built(command, event) && primary.Holds(EventKey(event.operationId), Event(event))
    case _ => true
  }

  ghost predicate TaskSafe(ctx: Context, primary: Store, backup: Store, command: Command, task: Task) {
    match task
    case StoreEvent(event, etag) => Built(command, event) && EventSafe(ctx, primary, backup, event, etag)
    case StoreReceipt(event) =>
      && Built(command, event) && Recorded(ctx, primary, event)
      && primary.Holds(EventKey(event.operationId), Event(event))
      && ReceiptsThrough(primary, backup, event.sequence - 1)
  }

  ghost predicate VerifySafe(ctx: Context, primary: Store, backup: Store, command: Command,
                             purpose: Purpose, head: HistoryHead)
  {
    && PurposeSafe(ctx, primary, backup, command, purpose)
    && HeadSeen(ctx, primary, head)
    && (purpose.Deciding? ==> purpose.head.sequence <= head.sequence)
  }

  ghost predicate ListedSafe(primary: Store, backup: Store, head: HistoryHead, side: Side) {
    SideThrough(primary, head.sequence) && (side.Backup? ==> SideThrough(backup, head.sequence))
  }

  ghost predicate PcSafe(ctx: Context, primary: Store, backup: Store, command: Command, pc: Pc) {
    match pc
    case ReadingHead(purpose) => PurposeSafe(ctx, primary, backup, command, purpose)
    case WalkingEvents(purpose, head, _, _, _) => VerifySafe(ctx, primary, backup, command, purpose, head)
    case ReadingEntry(purpose, head, side) =>
      && VerifySafe(ctx, primary, backup, command, purpose, head)
      && (side.Backup? ==> SideThrough(primary, head.sequence))
    case ListingReceipts(purpose, head, side) =>
      && VerifySafe(ctx, primary, backup, command, purpose, head)
      && (side.Backup? ==> SideThrough(primary, head.sequence))
    case ReadingReceipt(purpose, head, side, _, _) =>
      VerifySafe(ctx, primary, backup, command, purpose, head) && ListedSafe(primary, backup, head, side)
    case ReadingReceiptEvent(purpose, head, side, _, _, _, _) =>
      VerifySafe(ctx, primary, backup, command, purpose, head) && ListedSafe(primary, backup, head, side)
    case ReadingReceiptBackup(purpose, head, side, _, _, _) =>
      VerifySafe(ctx, primary, backup, command, purpose, head) && ListedSafe(primary, backup, head, side)
    case SearchingChain(purpose, head, cursor, remaining) =>
      var log := Log(ctx, primary);
      && VerifySafe(ctx, primary, backup, command, purpose, head)
      && ReceiptsThrough(primary, backup, head.sequence)
      && !purpose.Opening?
      && remaining <= head.sequence <= |log|
      && cursor == LinkOf(ctx, log, remaining).operationId
      && (forall i :: remaining <= i < head.sequence ==> log[i].operationId != command.operationId)
    case ReadingCopy(task, side) =>
      && TaskSafe(ctx, primary, backup, command, task)
      && (side.Backup? ==> primary.Holds(TaskKey(task), TaskBody(ctx, task)))
    case WritingCopy(task, side) =>
      && TaskSafe(ctx, primary, backup, command, task)
      && (side.Backup? ==> primary.Holds(TaskKey(task), TaskBody(ctx, task)))
    case RereadingCopy(task, side) =>
      && TaskSafe(ctx, primary, backup, command, task)
      && (side.Backup? ==> primary.Holds(TaskKey(task), TaskBody(ctx, task)))
    case WritingHead(event, etag) =>
      Built(command, event) && HeadSafe(ctx, primary, backup, event, etag)
    case Returned(event, matched) =>
      && Recorded(ctx, primary, event)
      && ReceiptsThrough(primary, backup, event.sequence)
      && event.operationId == command.operationId
      && (matched ==> Matches(command, event))
    case Raised => true
  }

  ghost predicate Inv(ctx: Context, s: State) {
    && StoreInv(ctx, s.primary, s.backup)
    && (forall request :: request in s.sent ==> RequestSafe(ctx, s.primary, s.backup, request))
    && (forall id :: id in s.procs ==> PcSafe(ctx, s.primary, s.backup, s.procs[id].command, s.procs[id].pc))
  }

  lemma HeadSeenStable(ctx: Context, primary: Store, backup: Store, primary': Store, backup': Store, head: HistoryHead)
    requires Grows(ctx, primary, backup, primary', backup') && HeadSeen(ctx, primary, head)
    ensures HeadSeen(ctx, primary', head)
  {
    assert LinkOf(ctx, Log(ctx, primary'), head.sequence) == LinkOf(ctx, Log(ctx, primary), head.sequence);
  }

  lemma PurposeStable(ctx: Context, primary: Store, backup: Store, primary': Store, backup': Store,
                      command: Command, purpose: Purpose)
    requires Grows(ctx, primary, backup, primary', backup')
    requires PurposeSafe(ctx, primary, backup, command, purpose)
    ensures PurposeSafe(ctx, primary', backup', command, purpose)
  {
    if purpose.Deciding? {
      HeadSeenStable(ctx, primary, backup, primary', backup', purpose.head);
    }
  }

  lemma TaskStable(ctx: Context, primary: Store, backup: Store, primary': Store, backup': Store,
                   command: Command, task: Task)
    requires Grows(ctx, primary, backup, primary', backup')
    requires TaskSafe(ctx, primary, backup, command, task)
    ensures TaskSafe(ctx, primary', backup', command, task)
    ensures primary.Holds(TaskKey(task), TaskBody(ctx, task)) ==> primary'.Holds(TaskKey(task), TaskBody(ctx, task))
  {
    if task.StoreEvent? {
      EventStable(ctx, primary, backup, primary', backup', task.event, task.etag);
    }
  }

  lemma VerifyStable(ctx: Context, primary: Store, backup: Store, primary': Store, backup': Store,
                     command: Command, purpose: Purpose, head: HistoryHead)
    requires Grows(ctx, primary, backup, primary', backup')
    requires VerifySafe(ctx, primary, backup, command, purpose, head)
    ensures VerifySafe(ctx, primary', backup', command, purpose, head)
  {
    PurposeStable(ctx, primary, backup, primary', backup', command, purpose);
    HeadSeenStable(ctx, primary, backup, primary', backup', head);
  }

  lemma SearchStable(ctx: Context, primary: Store, backup: Store, primary': Store, backup': Store,
                     command: Command, pc: Pc)
    requires Grows(ctx, primary, backup, primary', backup') && pc.SearchingChain?
    requires PcSafe(ctx, primary, backup, command, pc)
    ensures PcSafe(ctx, primary', backup', command, pc)
  {
    VerifyStable(ctx, primary, backup, primary', backup', command, pc.purpose, pc.head);
    assert LinkOf(ctx, Log(ctx, primary'), pc.remaining) == LinkOf(ctx, Log(ctx, primary), pc.remaining);
  }

  lemma CopyStable(ctx: Context, primary: Store, backup: Store, primary': Store, backup': Store,
                   command: Command, pc: Pc)
    requires Grows(ctx, primary, backup, primary', backup')
    requires pc.ReadingCopy? || pc.WritingCopy? || pc.RereadingCopy?
    requires PcSafe(ctx, primary, backup, command, pc)
    ensures PcSafe(ctx, primary', backup', command, pc)
  {
    TaskStable(ctx, primary, backup, primary', backup', command, pc.task);
  }

  lemma ReceiptPcStable(ctx: Context, primary: Store, backup: Store, primary': Store, backup': Store,
                        command: Command, pc: Pc)
    requires Grows(ctx, primary, backup, primary', backup') && PcSafe(ctx, primary, backup, command, pc)
    requires pc.ReadingReceipt? || pc.ReadingReceiptEvent? || pc.ReadingReceiptBackup?
    ensures PcSafe(ctx, primary', backup', command, pc)
  {
    VerifyStable(ctx, primary, backup, primary', backup', command, pc.purpose, pc.head);
  }

  /** Whatever an appender relies on survives every growth of the stores. */
  lemma PcStable(ctx: Context, primary: Store, backup: Store, primary': Store, backup': Store,
                 command: Command, pc: Pc)
    requires Grows(ctx, primary, backup, primary', backup')
    requires PcSafe(ctx, primary, backup, command, pc)
    ensures PcSafe(ctx, primary', backup', command, pc)
  {
    match pc
    case ReadingHead(purpose) =>
      PurposeStable(ctx, primary, backup, primary', backup', command, purpose);
    case ReadingCopy(_, _) => CopyStable(ctx, primary, backup, primary', backup', command, pc);
    case WritingCopy(_, _) => CopyStable(ctx, primary, backup, primary', backup', command, pc);
    case RereadingCopy(_, _) => CopyStable(ctx, primary, backup, primary', backup', command, pc);
    case WritingHead(event, etag) => EventStable(ctx, primary, backup, primary', backup', event, etag);
    case Returned(_, _) =>
    case Raised =>
    case SearchingChain(_, _, _, _) => SearchStable(ctx, primary, backup, primary', backup', command, pc);
    case WalkingEvents(purpose, head, _, _, _) =>
      VerifyStable(ctx, primary, backup, primary', backup', command, purpose, head);
    case ReadingEntry(purpose, head, _) => VerifyStable(ctx, primary, backup, primary', backup', command, purpose, head);
    case ListingReceipts(purpose, head, _) => VerifyStable(ctx, primary, backup, primary', backup', command, purpose, head);
    case _ => ReceiptPcStable(ctx, primary, backup, primary', backup', command, pc);
  }

  /* ---------- one step keeps the invariant ---------- */

  /** A head just read is the current one, and no older than any head read before. */
  lemma HeadReadStep(ctx: Context, primary: Store, backup: Store, command: Command, purpose: Purpose)
    requires Walks(ctx, primary) && TagsIssued(primary)
    requires PurposeSafe(ctx, primary, backup, command, purpose)
    ensures VerifySafe(ctx, primary, backup, command, purpose, StoredHead(ctx, primary).value)
  {
    LogShape(ctx, primary);
  }

  lemma ListingStep(store: Store, last: nat)
    requires store.ReceiptKeys() == ReceiptRange(last)
    ensures SideThrough(store, last)
  {
    forall i | 0 <= i <= last ensures store.Has(ReceiptKey(i)) {
      assert ReceiptKey(i) in ReceiptRange(last);
    }
  }

  /** Past the last receipt: on to the other copy, or the verification is complete. */
  lemma ReceiptsReadStep(ctx: Context, s: State, command: Command, purpose: Purpose, head: HistoryHead, side: Side)
    requires VerifySafe(ctx, s.primary, s.backup, command, purpose, head) && ListedSafe(s.primary, s.backup, head, side)
    ensures PcSafe(ctx, s.primary, s.backup, command,
                   if side.Primary? then ReadingEntry(purpose, head, Backup) else AfterVerified(purpose, head))
  {
    if side.Backup? {
      assert ReceiptsThrough(s.primary, s.backup, head.sequence);
    }
  }

  /** The loop over one copy of the receipts keeps what the listing established. */
  lemma ReceiptLoopStep(ctx: Context, s: State, command: Command, pc: Pc)
    requires PcSafe(ctx, s.primary, s.backup, command, pc)
    requires pc.ReadingReceipt? || pc.ReadingReceiptEvent? || pc.ReadingReceiptBackup?
    ensures PcSafe(ctx, s.primary, s.backup, command, VerifyMove(ctx, s, pc))
  {
    if pc.ReadingReceipt? && pc.sequence > pc.head.sequence {
      ReceiptsReadStep(ctx, s, command, pc.purpose, pc.head, pc.side);
    }
  }

  lemma WalkStep(ctx: Context, s: State, command: Command, pc: Pc)
    requires PcSafe(ctx, s.primary, s.backup, command, pc) && (pc.WalkingEvents? || pc.ReadingEntry?)
    ensures PcSafe(ctx, s.primary, s.backup, command, VerifyMove(ctx, s, pc))
  {
  }

  lemma ListStep(ctx: Context, s: State, command: Command, pc: Pc)
    requires PcSafe(ctx, s.primary, s.backup, command, pc) && pc.ListingReceipts?
    ensures PcSafe(ctx, s.primary, s.backup, command, VerifyMove(ctx, s, pc))
  {
    if SideStore(s, pc.side).ReceiptKeys() == ReceiptRange(pc.head.sequence) {
      ListingStep(SideStore(s, pc.side), pc.head.sequence);
    }
  }

  lemma VerifyStep(ctx: Context, s: State, command: Command, pc: Pc)
    requires Walks(ctx, s.primary) && TagsIssued(s.primary) && PcSafe(ctx, s.primary, s.backup, command, pc)
    requires !pc.SearchingChain? && !pc.ReadingCopy? && !pc.WritingCopy? && !pc.RereadingCopy?
    requires !pc.WritingHead? && !pc.Returned? && !pc.Raised?
    ensures PcSafe(ctx, s.primary, s.backup, command, VerifyMove(ctx, s, pc))
  {
    match pc
    case ReadingHead(purpose) => HeadReadStep(ctx, s.primary, s.backup, command, purpose);
    case WalkingEvents(_, _, _, _, _) => WalkStep(ctx, s, command, pc);
    case ReadingEntry(_, _, _) => WalkStep(ctx, s, command, pc);
    case ListingReceipts(_, _, _) => ListStep(ctx, s, command, pc);
    case _ => ReceiptLoopStep(ctx, s, command, pc);
  }

  /** `accepted` found the event: it is on the log, and its receipts are in both copies. */
  lemma ConcludeFound(ctx: Context, primary: Store, backup: Store, command: Command, purpose: Purpose,
                      event: HistoryEvent)
    requires Recorded(ctx, primary, event) && ReceiptsThrough(primary, backup, event.sequence)
    requires event.operationId == command.operationId
    requires primary.Holds(EventKey(event.operationId), Event(event))
    requires PurposeSafe(ctx, primary, backup, command, purpose)
    ensures PcSafe(ctx, primary, backup, command, Conclude(ctx, command, purpose, Some(event)))
  {
  }

  /** `accepted` found nothing on a head read later than the one the event is built on. */
  lemma ConcludeNone(ctx: Context, primary: Store, backup: Store, command: Command, pc: Pc)
    requires StoreInv(ctx, primary, backup) && PcSafe(ctx, primary, backup, command, pc)
    requires pc.SearchingChain? && pc.remaining == 0
    ensures PcSafe(ctx, primary, backup, command, Conclude(ctx, command, pc.purpose, None))
  {
    if pc.purpose.Deciding? {
      var head := pc.purpose.head;
      var log := Log(ctx, primary);
      if primary.Admits(HeadKey, head.etag) {
        assert |log| == head.sequence <= pc.head.sequence <= |log|;
        assert !OnChain(log, command.operationId);
      }
      assert EventSafe(ctx, primary, backup, BuildEvent(ctx, command, head), head.etag);
    }
  }

  /** The cursor names the log event at its number. */
  lemma SearchReads(ctx: Context, primary: Store, remaining: nat)
    requires Walks(ctx, primary) && 1 <= remaining <= |Log(ctx, primary)|
    ensures var event := Log(ctx, primary)[remaining - 1];
            && LinkOf(ctx, Log(ctx, primary), remaining).operationId == Some(event.operationId)
            && ReadEvent(primary, event.operationId) == Some(event)
            && event.sequence == remaining
            && event.previousOperationId == LinkOf(ctx, Log(ctx, primary), remaining - 1).operationId
  {
    LogShape(ctx, primary);
    var log := Log(ctx, primary);
    assert ReadEvent(primary, log[remaining - 1].operationId) == Some(log[remaining - 1]);
    assert ChainedAt(ctx, log, remaining - 1);
  }

  lemma SearchPasses(ctx: Context, primary: Store, backup: Store, command: Command, pc: Pc, event: HistoryEvent)
    requires PcSafe(ctx, primary, backup, command, pc) && pc.SearchingChain? && pc.remaining >= 1
    requires event == Log(ctx, primary)[pc.remaining - 1] && event.operationId != command.operationId
    requires event.previousOperationId == LinkOf(ctx, Log(ctx, primary), pc.remaining - 1).operationId
    ensures PcSafe(ctx, primary, backup, command,
                   SearchingChain(pc.purpose, pc.head, event.previousOperationId, pc.remaining - 1))
  {
  }

  lemma SearchStep(ctx: Context, s: State, command: Command, pc: Pc)
    requires StoreInv(ctx, s.primary, s.backup) && PcSafe(ctx, s.primary, s.backup, command, pc)
    requires pc.SearchingChain?
    ensures PcSafe(ctx, s.primary, s.backup, command, SearchMove(ctx, s, command, pc))
  {
    if pc.remaining == 0 {
      ConcludeNone(ctx, s.primary, s.backup, command, pc);
    } else {
      var log := Log(ctx, s.primary);
      var event := log[pc.remaining - 1];
      SearchReads(ctx, s.primary, pc.remaining);
      if event.operationId == command.operationId {
        ConcludeFound(ctx, s.primary, s.backup, command, pc.purpose, event);
      } else {
        SearchPasses(ctx, s.primary, s.backup, command, pc, event);
      }
    }
  }

  ghost predicate MoveSafe(ctx: Context, s: State, command: Command, move: Move) {
    var t := Perform(ctx, s, move.effect);
    && (!move.effect.Nothing? ==> RequestSafe(ctx, s.primary, s.backup, move.effect.request))
    && StoreInv(ctx, t.primary, t.backup) && Grows(ctx, s.primary, s.backup, t.primary, t.backup)
    && PcSafe(ctx, t.primary, t.backup, command, move.pc)
  }

  lemma AfterCopySafe(ctx: Context, primary: Store, backup: Store, command: Command, task: Task, side: Side)
    requires StoreInv(ctx, primary, backup)
    requires TaskSafe(ctx, primary, backup, command, task)
    requires primary.Holds(TaskKey(task), TaskBody(ctx, task))
    requires side.Backup? ==> backup.Holds(TaskKey(task), TaskBody(ctx, task))
    ensures PcSafe(ctx, primary, backup, command, AfterCopy(task, side))
  {
  }

  lemma CopyWriteStep(ctx: Context, s: State, command: Command, pc: Pc)
    requires StoreInv(ctx, s.primary, s.backup) && PcSafe(ctx, s.primary, s.backup, command, pc)
    requires pc.WritingCopy? && Admitted(s, TaskRequest(pc.task, pc.side))
    ensures MoveSafe(ctx, s, command, Move(AfterCopy(pc.task, pc.side), Write(TaskRequest(pc.task, pc.side))))
  {
    var request := TaskRequest(pc.task, pc.side);
    var t := Apply(ctx, s, request);
    ApplySafe(ctx, s, request);
    TaskStable(ctx, s.primary, s.backup, t.primary, t.backup, command, pc.task);
    AfterCopySafe(ctx, t.primary, t.backup, command, pc.task, pc.side);
  }

  lemma ReceiptDue(ctx: Context, primary: Store, backup: Store, primary': Store, command: Command,
                   event: HistoryEvent, etag: Option<nat>)
    requires Built(command, event) && HeadSafe(ctx, primary, backup, event, etag) && primary.Admits(HeadKey, etag)
    requires Kept(primary, primary') && Log(ctx, primary') == Log(ctx, primary) + [event]
    ensures TaskSafe(ctx, primary', backup, command, StoreReceipt(event))
  {
  }

  lemma HeadWriteStep(ctx: Context, s: State, command: Command, pc: Pc)
    requires StoreInv(ctx, s.primary, s.backup) && PcSafe(ctx, s.primary, s.backup, command, pc)
    requires pc.WritingHead? && Admitted(s, PutHead(pc.event, pc.etag))
    ensures MoveSafe(ctx, s, command, Move(ReadingCopy(StoreReceipt(pc.event), Primary), Write(PutHead(pc.event, pc.etag))))
  {
    var request := PutHead(pc.event, pc.etag);
    var t := Apply(ctx, s, request);
    ApplyHead(ctx, s, request);
    HeadMovesLog(ctx, s, request);
    ReceiptDue(ctx, s.primary, s.backup, t.primary, command, pc.event, pc.etag);
  }

  /** Steps that write nothing. */
  lemma StillSafe(ctx: Context, s: State, command: Command, pc: Pc)
    requires StoreInv(ctx, s.primary, s.backup) && PcSafe(ctx, s.primary, s.backup, command, pc)
    ensures MoveSafe(ctx, s, command, Move(pc, Nothing))
  {
  }

  /** A put whose answer is lost stays in flight. */
  lemma FlightSafe(ctx: Context, s: State, command: Command, request: Request)
    requires StoreInv(ctx, s.primary, s.backup) && RequestSafe(ctx, s.primary, s.backup, request)
    ensures MoveSafe(ctx, s, command, Move(ReadingHead(Resolving), Flight(request)))
  {
  }

  lemma CopyReadStep(ctx: Context, s: State, command: Command, pc: Pc, signal: Signal)
    requires StoreInv(ctx, s.primary, s.backup) && PcSafe(ctx, s.primary, s.backup, command, pc)
    requires pc.ReadingCopy? || pc.RereadingCopy?
    ensures PcSafe(ctx, s.primary, s.backup, command, WriteMove(ctx, s, command, pc, signal).pc)
  {
    if SideStore(s, pc.side).Holds(TaskKey(pc.task), TaskBody(ctx, pc.task)) {
      AfterCopySafe(ctx, s.primary, s.backup, command, pc.task, pc.side);
    }
  }

  lemma TaskRequestSafe(ctx: Context, s: State, command: Command, pc: Pc)
    requires PcSafe(ctx, s.primary, s.backup, command, pc) && pc.WritingCopy?
    ensures RequestSafe(ctx, s.primary, s.backup, TaskRequest(pc.task, pc.side))
  {
  }

  lemma CopyPutStep(ctx: Context, s: State, command: Command, pc: Pc, signal: Signal)
    requires StoreInv(ctx, s.primary, s.backup) && PcSafe(ctx, s.primary, s.backup, command, pc) && pc.WritingCopy?
    ensures MoveSafe(ctx, s, command, WriteMove(ctx, s, command, pc, signal))
  {
    var request := TaskRequest(pc.task, pc.side);
    if signal.Fault? {
      TaskRequestSafe(ctx, s, command, pc);
      FlightSafe(ctx, s, command, request);
    } else if signal.Refusal? || !Admitted(s, request) {
      StillSafe(ctx, s, command, RereadingCopy(pc.task, pc.side));
    } else {
      CopyWriteStep(ctx, s, command, pc);
    }
  }

  lemma HeadPutStep(ctx: Context, s: State, command: Command, pc: Pc, signal: Signal)
    requires StoreInv(ctx, s.primary, s.backup) && PcSafe(ctx, s.primary, s.backup, command, pc) && pc.WritingHead?
    ensures MoveSafe(ctx, s, command, WriteMove(ctx, s, command, pc, signal))
  {
    var request := PutHead(pc.event, pc.etag);
    if signal.Fault? {
      FlightSafe(ctx, s, command, request);
    } else if signal.Refusal? || !Admitted(s, request) {
      StillSafe(ctx, s, command, ReadingHead(Resolving));
    } else {
      HeadWriteStep(ctx, s, command, pc);
    }
  }

  lemma CopyLookStep(ctx: Context, s: State, command: Command, pc: Pc, signal: Signal)
    requires StoreInv(ctx, s.primary, s.backup) && PcSafe(ctx, s.primary, s.backup, command, pc)
    requires pc.ReadingCopy? || pc.RereadingCopy?
    ensures MoveSafe(ctx, s, command, WriteMove(ctx, s, command, pc, signal))
  {
    CopyReadStep(ctx, s, command, pc, signal);
    StillSafe(ctx, s, command, WriteMove(ctx, s, command, pc, signal).pc);
  }

  lemma SearchMoveSafe(ctx: Context, s: State, command: Command, pc: Pc)
    requires StoreInv(ctx, s.primary, s.backup) && PcSafe(ctx, s.primary, s.backup, command, pc)
    requires pc.SearchingChain?
    ensures MoveSafe(ctx, s, command, Move(SearchMove(ctx, s, command, pc), Nothing))
  {
    SearchStep(ctx, s, command, pc);
    StillSafe(ctx, s, command, SearchMove(ctx, s, command, pc));
  }

  lemma VerifyMoveSafe(ctx: Context, s: State, command: Command, pc: Pc)
    requires StoreInv(ctx, s.primary, s.backup) && PcSafe(ctx, s.primary, s.backup, command, pc)
    requires !pc.SearchingChain? && !pc.ReadingCopy? && !pc.WritingCopy? && !pc.RereadingCopy?
    requires !pc.WritingHead? && !pc.Returned? && !pc.Raised?
    ensures MoveSafe(ctx, s, command, Move(VerifyMove(ctx, s, pc), Nothing))
  {
    VerifyStep(ctx, s, command, pc);
    StillSafe(ctx, s, command, VerifyMove(ctx, s, pc));
  }

  lemma ProcStep(ctx: Context, s: State, proc: Proc, signal: Signal)
    requires StoreInv(ctx, s.primary, s.backup) && PcSafe(ctx, s.primary, s.backup, proc.command, proc.pc)
    ensures MoveSafe(ctx, s, proc.command, ProcMove(ctx, s, proc, signal))
  {
    var pc := proc.pc;
    if pc.Returned? || pc.Raised? {
      StillSafe(ctx, s, proc.command, pc);
    } else if pc.WritingCopy? {
      CopyPutStep(ctx, s, proc.command, pc, signal);
    } else if pc.WritingHead? {
      HeadPutStep(ctx, s, proc.command, pc, signal);
    } else if pc.ReadingCopy? || pc.RereadingCopy? {
      CopyLookStep(ctx, s, proc.command, pc, signal);
    } else if !signal.Reply? {
      StillSafe(ctx, s, proc.command, Raised);
    } else if pc.SearchingChain? {
      SearchMoveSafe(ctx, s, proc.command, pc);
    } else {
      VerifyMoveSafe(ctx, s, proc.command, pc);
    }
  }

  /** Requests in flight and appenders are not disturbed by a change that only grows the stores. */
  lemma Others(ctx: Context, s: State, t: State)
    requires Inv(ctx, s) && Grows(ctx, s.primary, s.backup, t.primary, t.backup)
    ensures forall request :: request in s.sent ==> RequestSafe(ctx, t.primary, t.backup, request)
    ensures forall id :: id in s.procs ==> PcSafe(ctx, t.primary, t.backup, s.procs[id].command, s.procs[id].pc)
  {
    forall request | request in s.sent ensures RequestSafe(ctx, t.primary, t.backup, request) {
      RequestStable(ctx, s.primary, s.backup, t.primary, t.backup, request);
    }
    forall id | id in s.procs ensures PcSafe(ctx, t.primary, t.backup, s.procs[id].command, s.procs[id].pc) {
      PcStable(ctx, s.primary, s.backup, t.primary, t.backup, s.procs[id].command, s.procs[id].pc);
    }
  }

  lemma RunKeepsInv(ctx: Context, s: State, id: nat, signal: Signal)
    requires Inv(ctx, s) && id in s.procs
    ensures var t := Exec(ctx, s, Run(id, signal));
            Inv(ctx, t) && Grows(ctx, s.primary, s.backup, t.primary, t.backup)
  {
    var move := ProcMove(ctx, s, s.procs[id], signal);
    var u := Perform(ctx, s, move.effect);
    var t := Exec(ctx, s, Run(id, signal));
    ProcStep(ctx, s, s.procs[id], signal);
    Others(ctx, s, u);
    assert t.primary == u.primary && t.backup == u.backup && t.sent == u.sent;
    forall request | request in t.sent ensures RequestSafe(ctx, t.primary, t.backup, request) {
      if request !in s.sent {
        assert move.effect == Flight(request);
      }
    }
  }

  /** Every action of the system keeps the invariant, and the stores only grow. */
  lemma ExecKeepsInv(ctx: Context, s: State, action: Action)
    requires Inv(ctx, s)
    ensures var t := Exec(ctx, s, action);
            Inv(ctx, t) && Grows(ctx, s.primary, s.backup, t.primary, t.backup)
  {
    match action
    case Launch(_, _) =>
    case Deliver(request) =>
      if request in s.sent {
        ApplySafe(ctx, s, request);
        Others(ctx, s, Apply(ctx, s, request));
      }
    case Run(id, signal) =>
      if id in s.procs {
        RunKeepsInv(ctx, s, id, signal);
      }
  }
}
