/** Recovery behind the restore barrier: `repair_interrupted_receipt` and `reconstruct_head_from_receipts`
    as functions of the two stores, and what they restore. */
module HistoryRecovery {
  import opened Wrappers
  import opened HistoryModel
  import opened HistoryFacts
  import opened HistoryProtocol
  import opened HistoryInvariant
  import opened HistoryTheorems

  datatype HistoryError = Conflict | Unverified

  /** The two stores after an operation and what it returned or raised. */
  datatype Outcome<+T> = Outcome(primary: Store, backup: Store, result: Result<T, HistoryError>)

  /** `_put_immutable` on one copy, without a concurrent writer. */
  function PutCopy(store: Store, key: Key, body: Body): Option<Store> {
    if store.Has(key) then
      if store.objects[key].body == body then Some(store) else None
    else store.Put(key, body, None)
  }

  /** `_put_immutable`: primary copy first; a differing record stops it. */
  function PutImmutable(primary: Store, backup: Store, key: Key, body: Body): Outcome<()> {
    match PutCopy(primary, key, body)
    case None => Outcome(primary, backup, Failure(Conflict))
    case Some(primary') =>
      match PutCopy(backup, key, body)
      case None => Outcome(primary', backup, Failure(Conflict))
      case Some(backup') => Outcome(primary', backup', Success(()))
  }

  /** `digest` and `operation_id` of a document read as a receipt. */
  function BodyLink(body: Body): Option<Link> {
    match body
    case Receipt(_, _, operationId, digest) => Some(Link(digest, operationId))
    case Head(_, digest, tip) => Some(Link(digest, Some(tip)))
    case _ => None
  }

  function Verify(ctx: Context, primary: Store, backup: Store): Result<HistoryHead, HistoryError> {
    match VerifiedHead(ctx, primary, backup)
    case None => Failure(Unverified)
    case Some(head) => Success(head)
  }

  /** Both copies of a key are present with one body. */
  predicate Twin(primary: Store, backup: Store, key: Key) {
    primary.Has(key) && backup.Holds(key, primary.objects[key].body)
  }

  /** The tail event named by the head, durable in both copies and linked to the receipt before it. */
  predicate TailVerified(ctx: Context, primary: Store, backup: Store, head: HistoryHead)
    requires head.operationId.Some? && head.sequence >= 1
  {
    var key := EventKey(head.operationId.value);
    && Twin(primary, backup, key)
    && primary.objects[key].body.Event?
    && var event := primary.objects[key].body.event;
       && LinksTo(ctx, event, head.operationId.value, head.digest, head.sequence)
       && Twin(primary, backup, ReceiptKey(head.sequence - 1))
       && BodyLink(primary.objects[ReceiptKey(head.sequence - 1)].body)
            == Some(Link(event.previousDigest, event.previousOperationId))
  }

  function HeadReceipt(ctx: Context, head: HistoryHead): Body {
    Receipt(ctx.orgId, head.sequence, head.operationId, head.digest)
  }

  predicate AbsentOr(store: Store, key: Key, body: Body) {
    store.Has(key) ==> store.objects[key].body == body
  }

  function Repair(ctx: Context, primary: Store, backup: Store): Outcome<bool> {
    if !primary.Has(HeadKey) then Outcome(primary, backup, Success(false))
    else
      match ParseHead(primary.objects[HeadKey].body, primary.objects[HeadKey].etag)
      case None => Outcome(primary, backup, Failure(Unverified))
      case Some(head) =>
        var key := ReceiptKey(head.sequence);
        if head.sequence < 1 || head.operationId.None? then Outcome(primary, backup, Failure(Unverified))
        else if primary.Has(key) && backup.Has(key) then Outcome(primary, backup, Success(false))
        else if !TailVerified(ctx, primary, backup, head) then Outcome(primary, backup, Failure(Unverified))
        else
          var receipt := HeadReceipt(ctx, head);
          if !AbsentOr(primary, key, receipt) || !AbsentOr(backup, key, receipt) then
            Outcome(primary, backup, Failure(Unverified))
          else
            var put := PutImmutable(primary, backup, key, receipt);
            var verified := Verify(ctx, put.primary, put.backup);
            Outcome(put.primary, put.backup, if verified.Success? then Success(true) else Failure(Unverified))
  }

  /** One iteration of the reconstruction loop, stricter than `ReceiptStep`: both copies at once, and the
      receipt must name the key of its event. */
  function RebuildStep(ctx: Context, primary: Store, backup: Store, index: nat, previous: Link): Option<Link> {
    if !Twin(primary, backup, ReceiptKey(index)) then None
    else
      var body := primary.objects[ReceiptKey(index)].body;
      if !ReceiptIdentified(ctx, body, index) then None
      else if index == 0 then
        if body.digest != ctx.genesis || body.operationId != None then None else Some(previous)
      else if body.operationId.None? || !Twin(primary, backup, EventKey(body.operationId.value)) then None
      else
        match ReadEvent(primary, body.operationId.value)
        case None => None
        case Some(event) =>
          if LinksTo(ctx, event, body.operationId.value, body.digest, index)
             && Link(event.previousDigest, event.previousOperationId) == previous
          then Some(Link(ctx.hash(event), body.operationId))
          else None
  }

  function RebuildWalk(ctx: Context, primary: Store, backup: Store, index: nat, count: nat, previous: Link): Option<Link>
    requires index <= count
    decreases count - index
  {
    if index == count then Some(previous)
    else
      match RebuildStep(ctx, primary, backup, index, previous)
      case None => None
      case Some(next) => RebuildWalk(ctx, primary, backup, index + 1, count, next)
  }

  /** `sequence` and `digest` of the stored head document. */
  function HeadPosition(body: Body): Option<(int, Digest)> {
    match body
    case Head(sequence, digest, _) => Some((sequence, digest))
    case Receipt(_, sequence, _, digest) => Some((sequence, digest))
    case _ => None
  }

  /** The stored head lies on the receipts, strictly before the last one. */
  predicate HeadBehind(primary: Store, position: (int, Digest)) {
    && primary.Has(ReceiptKey(position.0))
    && var link := BodyLink(primary.objects[ReceiptKey(position.0)].body);
       link.Some? && link.value.digest == position.1
  }

  function WriteHead(ctx: Context, primary: Store, backup: Store, highest: nat, tip: Link): Outcome<HistoryHead>
    requires tip.operationId.Some?
  {
    var etag := if primary.Has(HeadKey) then Some(primary.objects[HeadKey].etag) else None;
    match primary.Put(HeadKey, Head(highest, tip.digest, tip.operationId.value), etag)
    case None => Outcome(primary, backup, Failure(Conflict))
    case Some(primary') => Outcome(primary', backup, Verify(ctx, primary', backup))
  }

  /** The head, given the last receipt: kept, or rewritten from the receipt if it is absent or behind. */
  function RestoreHead(ctx: Context, primary: Store, backup: Store, highest: nat, tip: Link): Outcome<HistoryHead> {
    var refused := Outcome(primary, backup, Failure(Unverified));
    if !primary.Has(HeadKey) then
      if highest == 0 then Outcome(primary, backup, Verify(ctx, primary, backup))
      else if tip.operationId.None? then refused
      else WriteHead(ctx, primary, backup, highest, tip)
    else
      match HeadPosition(primary.objects[HeadKey].body)
      case None => refused
      case Some(position) =>
        if position.0 > highest then refused
        else if position.0 == highest then Outcome(primary, backup, Verify(ctx, primary, backup))
        else if !HeadBehind(primary, position) then refused
        else if highest == 0 then Outcome(primary, backup, Verify(ctx, primary, backup))
        else if tip.operationId.None? then refused
        else WriteHead(ctx, primary, backup, highest, tip)
  }

  function Reconstruct(ctx: Context, primary: Store, backup: Store): Outcome<HistoryHead> {
    var refused := Outcome(primary, backup, Failure(Unverified));
    if !primary.Holds(CatalogKey, Registration(ctx.orgId)) || !backup.Holds(CatalogKey, Registration(ctx.orgId)) then refused
    else if primary.ReceiptKeys() != backup.ReceiptKeys() || ReceiptKey(0) !in primary.ReceiptKeys() then refused
    else
      var highest := |primary.ReceiptKeys()| - 1;
      if highest < 0 || primary.ReceiptKeys() != ReceiptRange(highest) then refused
      else
        match RebuildWalk(ctx, primary, backup, 0, highest + 1, GenesisLink(ctx))
        case None => refused
        case Some(tip) => RestoreHead(ctx, primary, backup, highest, tip)
  }

  /** The restore sequence of one organization: repair, then reconstruct. */
  function Recover(ctx: Context, primary: Store, backup: Store): Outcome<HistoryHead> {
    var repaired := Repair(ctx, primary, backup);
    match repaired.result
    case Failure(error) => Outcome(repaired.primary, repaired.backup, Failure(error))
    case Success(_) => Reconstruct(ctx, repaired.primary, repaired.backup)
  }

  /* ---------- complete records verify ---------- */

  /** Both copies hold exactly the records of `log`, whatever the head object says. */
  ghost predicate Complete(ctx: Context, primary: Store, backup: Store, log: seq<HistoryEvent>) {
    && Chained(ctx, log)
    && primary.Holds(CatalogKey, Registration(ctx.orgId)) && backup.Holds(CatalogKey, Registration(ctx.orgId))
    && primary.ReceiptKeys() == ReceiptRange(|log|) && backup.ReceiptKeys() == ReceiptRange(|log|)
    && (forall i :: 0 <= i < |log| ==>
          && primary.Holds(EventKey(log[i].operationId), Event(log[i]))
          && backup.Holds(EventKey(log[i].operationId), Event(log[i])))
    && (forall i :: 0 <= i <= |log| ==>
          && primary.Holds(ReceiptKey(i), ReceiptBody(ctx, log, i))
          && backup.Holds(ReceiptKey(i), ReceiptBody(ctx, log, i)))
  }

  /** The head the log deserves. */
  predicate HeadOf(ctx: Context, head: HistoryHead, log: seq<HistoryEvent>) {
    head.sequence == |log| && Link(head.digest, head.operationId) == LinkOf(ctx, log, |log|)
  }

  lemma CompleteStored(ctx: Context, primary: Store, backup: Store, log: seq<HistoryEvent>)
    requires Complete(ctx, primary, backup, log)
    ensures Stored(primary, log)
  {
    forall i | 0 <= i < |log| ensures ReadEvent(primary, log[i].operationId) == Some(log[i]) {
      assert primary.Holds(EventKey(log[i].operationId), Event(log[i]));
    }
  }

  lemma {:induction false} CompleteReceipts(ctx: Context, side: Store, primary: Store, backup: Store,
                                            log: seq<HistoryEvent>, head: HistoryHead, sequence: nat)
    requires Complete(ctx, primary, backup, log) && HeadOf(ctx, head, log)
    requires side == primary || side == backup
    requires sequence <= |log| + 1
    ensures ReceiptWalk(ctx, side, primary, backup, head, sequence,
                        if sequence == 0 then GenesisLink(ctx) else LinkOf(ctx, log, sequence - 1))
         == Some(LinkOf(ctx, log, |log|))
    decreases |log| + 1 - sequence
  {
    if sequence <= |log| {
      CompleteReceipts(ctx, side, primary, backup, log, head, sequence + 1);
      assert side.Holds(ReceiptKey(sequence), ReceiptBody(ctx, log, sequence));
      if sequence > 0 {
        CompleteStored(ctx, primary, backup, log);
        assert ChainedAt(ctx, log, sequence - 1);
        assert ReadEvent(primary, log[sequence - 1].operationId) == Some(log[sequence - 1]);
        assert backup.Holds(EventKey(log[sequence - 1].operationId), Event(log[sequence - 1]));
      }
    }
  }

  lemma CompleteVerifies(ctx: Context, primary: Store, backup: Store, log: seq<HistoryEvent>, head: HistoryHead)
    requires Complete(ctx, primary, backup, log)
    requires StoredHead(ctx, primary) == Some(head) && HeadOf(ctx, head, log)
    ensures VerifiedHead(ctx, primary, backup) == Some(head)
    ensures VerifiedEvents(ctx, primary, backup) == Some(log)
  {
    CompleteStored(ctx, primary, backup, log);
    WalkComplete(ctx, primary, log);
    CompleteReceipts(ctx, primary, primary, backup, log, head, 0);
    CompleteReceipts(ctx, backup, primary, backup, log, head, 0);
    CollectAgrees(ctx, primary, log);
  }

  lemma {:induction false} CompleteRebuilds(ctx: Context, primary: Store, backup: Store, log: seq<HistoryEvent>, index: nat)
    requires Complete(ctx, primary, backup, log) && index <= |log| + 1
    ensures RebuildWalk(ctx, primary, backup, index, |log| + 1,
                        if index == 0 then GenesisLink(ctx) else LinkOf(ctx, log, index - 1))
         == Some(LinkOf(ctx, log, |log|))
    decreases |log| + 1 - index
  {
    if index <= |log| {
      CompleteRebuilds(ctx, primary, backup, log, index + 1);
      assert primary.Holds(ReceiptKey(index), ReceiptBody(ctx, log, index));
      assert backup.Holds(ReceiptKey(index), ReceiptBody(ctx, log, index));
      if index > 0 {
        CompleteStored(ctx, primary, backup, log);
        assert ChainedAt(ctx, log, index - 1);
        assert ReadEvent(primary, log[index - 1].operationId) == Some(log[index - 1]);
        assert backup.Holds(EventKey(log[index - 1].operationId), Event(log[index - 1]));
      }
    }
  }

  lemma {:induction false} ReceiptRangeSize(last: nat)
    ensures |ReceiptRange(last)| == last + 1
  {
    if last == 0 {
      assert ReceiptRange(0) == {ReceiptKey(0)};
    } else {
      ReceiptRangeSize(last - 1);
      assert ReceiptRange(last) == ReceiptRange(last - 1) + {ReceiptKey(last)};
    }
  }

  /* ---------- recovery from every reachable state ---------- */

  /** The last receipt is in both copies. */
  predicate LastReceiptSafe(ctx: Context, primary: Store, backup: Store) {
    primary.Has(ReceiptKey(|Log(ctx, primary)|)) && backup.Has(ReceiptKey(|Log(ctx, primary)|))
  }

  lemma ReachableComplete(ctx: Context, primary: Store, backup: Store)
    requires StoreInv(ctx, primary, backup) && LastReceiptSafe(ctx, primary, backup)
    ensures Complete(ctx, primary, backup, Log(ctx, primary))
    ensures HeadOf(ctx, StoredHead(ctx, primary).value, Log(ctx, primary))
  {
    LogShape(ctx, primary);
    var log := Log(ctx, primary);
    forall i | 0 <= i < |log| ensures primary.Holds(EventKey(log[i].operationId), Event(log[i])) {
      assert ReadEvent(primary, log[i].operationId) == Some(log[i]);
    }
    forall i | 0 <= i <= |log|
      ensures primary.Holds(ReceiptKey(i), ReceiptBody(ctx, log, i))
      ensures backup.Holds(ReceiptKey(i), ReceiptBody(ctx, log, i))
    {
      assert primary.Has(ReceiptKey(i)) && backup.Has(ReceiptKey(i));
    }
    RangeIsReceipts(ctx, primary, backup, log);
  }

  lemma RangeIsReceipts(ctx: Context, primary: Store, backup: Store, log: seq<HistoryEvent>)
    requires BackupFollows(primary, backup) && ReceiptsOk(ctx, primary, backup, log)
    requires forall i :: 0 <= i <= |log| ==> primary.Has(ReceiptKey(i)) && backup.Has(ReceiptKey(i))
    ensures primary.ReceiptKeys() == ReceiptRange(|log|) && backup.ReceiptKeys() == ReceiptRange(|log|)
  {
    forall key | key in primary.ReceiptKeys() ensures key in ReceiptRange(|log|) {
      if key.ReceiptKey? {
        assert primary.Has(ReceiptKey(key.sequence));
      } else {
        assert primary.Has(StrayReceiptKey(key.name));
      }
    }
    forall key | key in backup.ReceiptKeys() ensures key in ReceiptRange(|log|) {
      assert primary.Holds(key, backup.objects[key].body);
      assert key in primary.ReceiptKeys();
    }
    forall key | key in ReceiptRange(|log|) ensures key in primary.ReceiptKeys() && key in backup.ReceiptKeys() {
      assert primary.Has(ReceiptKey(key.sequence)) && backup.Has(ReceiptKey(key.sequence));
    }
  }

  /** In a reachable state `verified_head` succeeds exactly when the last receipt is in both copies, and then
      it is the stored head. */
  lemma VerifiedIffReceipted(ctx: Context, primary: Store, backup: Store)
    requires StoreInv(ctx, primary, backup)
    ensures VerifiedHead(ctx, primary, backup).Some? <==> LastReceiptSafe(ctx, primary, backup)
    ensures VerifiedHead(ctx, primary, backup).Some? ==>
              VerifiedHead(ctx, primary, backup) == StoredHead(ctx, primary)
              && VerifiedEvents(ctx, primary, backup) == Some(Log(ctx, primary))
  {
    LogShape(ctx, primary);
    assert ReceiptKey(|Log(ctx, primary)|) in ReceiptRange(|Log(ctx, primary)|);
    if LastReceiptSafe(ctx, primary, backup) {
      ReachableComplete(ctx, primary, backup);
      CompleteVerifies(ctx, primary, backup, Log(ctx, primary), StoredHead(ctx, primary).value);
    }
  }

  /** Repair of a reachable state adds the missing copies of the last receipt and nothing else. */
  lemma RepairCompletes(ctx: Context, primary: Store, backup: Store)
    requires StoreInv(ctx, primary, backup)
    ensures var repaired := Repair(ctx, primary, backup);
            && repaired.result.Success?
            && (repaired.result.value <==> !LastReceiptSafe(ctx, primary, backup))
            && Kept(primary, repaired.primary) && Kept(backup, repaired.backup)
            && repaired.primary.Read(HeadKey) == primary.Read(HeadKey)
            && Log(ctx, repaired.primary) == Log(ctx, primary)
            && StoreInv(ctx, repaired.primary, repaired.backup)
            && LastReceiptSafe(ctx, repaired.primary, repaired.backup)
  {
    LogShape(ctx, primary);
    var log := Log(ctx, primary);
    if log == [] {
      assert primary.Has(ReceiptKey(0)) && backup.Has(ReceiptKey(0));
    } else if !LastReceiptSafe(ctx, primary, backup) {
      RepairWrites(ctx, primary, backup);
    }
  }

  lemma TailIsVerified(ctx: Context, primary: Store, backup: Store)
    requires StoreInv(ctx, primary, backup) && Log(ctx, primary) != []
    ensures var head := StoredHead(ctx, primary).value;
            && head.operationId.Some? && head.sequence >= 1
            && TailVerified(ctx, primary, backup, head)
            && HeadReceipt(ctx, head) == ReceiptFor(ctx, Log(ctx, primary)[|Log(ctx, primary)| - 1])
  {
    LogShape(ctx, primary);
    var log := Log(ctx, primary);
    var n := |log|;
    assert ChainedAt(ctx, log, n - 1);
    assert ReadEvent(primary, log[n - 1].operationId) == Some(log[n - 1]);
    assert backup.Holds(EventKey(log[n - 1].operationId), Event(log[n - 1]));
    assert primary.Has(ReceiptKey(n - 1)) && backup.Has(ReceiptKey(n - 1));
    assert primary.Holds(ReceiptKey(n - 1), ReceiptBody(ctx, log, n - 1));
  }

  lemma RepairWrites(ctx: Context, primary: Store, backup: Store)
    requires StoreInv(ctx, primary, backup) && Log(ctx, primary) != []
    requires !LastReceiptSafe(ctx, primary, backup)
    ensures var repaired := Repair(ctx, primary, backup);
            && repaired.result == Success(true)
            && Kept(primary, repaired.primary) && Kept(backup, repaired.backup)
            && repaired.primary.Read(HeadKey) == primary.Read(HeadKey)
            && Log(ctx, repaired.primary) == Log(ctx, primary)
            && StoreInv(ctx, repaired.primary, repaired.backup)
            && LastReceiptSafe(ctx, repaired.primary, repaired.backup)
  {
    LogShape(ctx, primary);
    TailIsVerified(ctx, primary, backup);
    var log := Log(ctx, primary);
    assert ChainedAt(ctx, log, |log| - 1);
    ReceiptPuts(ctx, primary, backup, log[|log| - 1]);
    var put := PutImmutable(primary, backup, ReceiptKey(|log|), ReceiptFor(ctx, log[|log| - 1]));
    VerifiedIffReceipted(ctx, put.primary, put.backup);
  }

  /** `_put_immutable` of the last receipt acts as the two receipt puts of an append. */
  lemma ReceiptPuts(ctx: Context, primary: Store, backup: Store, event: HistoryEvent)
    requires StoreInv(ctx, primary, backup)
    requires Recorded(ctx, primary, event) && event.sequence == |Log(ctx, primary)|
    ensures var key, receipt := ReceiptKey(event.sequence), ReceiptFor(ctx, event);
            var put := PutImmutable(primary, backup, key, receipt);
            && put.result == Success(())
            && AbsentOr(primary, key, receipt) && AbsentOr(backup, key, receipt)
            && Kept(primary, put.primary) && Kept(backup, put.backup)
            && put.primary.Read(HeadKey) == primary.Read(HeadKey)
            && Log(ctx, put.primary) == Log(ctx, primary)
            && StoreInv(ctx, put.primary, put.backup)
            && put.primary.Has(key) && put.backup.Has(key)
  {
    var log := Log(ctx, primary);
    var key, receipt := ReceiptKey(event.sequence), ReceiptFor(ctx, event);
    assert primary.Has(key) ==> primary.Holds(key, ReceiptBody(ctx, log, |log|));
    assert backup.Has(key) ==> primary.Holds(key, backup.objects[key].body);
    var s := State(primary, backup, {}, map[]);
    ApplySafe(ctx, s, PutReceipt(Primary, event));
    var t := Apply(ctx, s, PutReceipt(Primary, event));
    LogKept(ctx, primary, t.primary);
    ApplySafe(ctx, t, PutReceipt(Backup, event));
    assert Apply(ctx, t, PutReceipt(Backup, event)).backup == PutImmutable(primary, backup, key, receipt).backup;
  }

  /** Reconstruction leaves a complete state with a current head as it is. */
  lemma ReconstructConfirms(ctx: Context, primary: Store, backup: Store)
    requires StoreInv(ctx, primary, backup) && LastReceiptSafe(ctx, primary, backup)
    ensures Reconstruct(ctx, primary, backup) == Outcome(primary, backup, Success(StoredHead(ctx, primary).value))
  {
    LogShape(ctx, primary);
    var log := Log(ctx, primary);
    ReachableComplete(ctx, primary, backup);
    CompleteVerifies(ctx, primary, backup, log, StoredHead(ctx, primary).value);
    CompleteRebuilds(ctx, primary, backup, log, 0);
    ReceiptRangeSize(|log|);
    assert ReceiptKey(0) in ReceiptRange(|log|);
  }

  /** From every reachable state, repair and then reconstruction end with `verified_head` succeeding at
      exactly the stored head, the same log, and every record kept. */
  lemma RecoveryKeepsHead(ctx: Context, s: State, actions: seq<Action>)
    requires Fresh(ctx, s)
    ensures var t := Execute(ctx, s, actions);
            var recovered := Recover(ctx, t.primary, t.backup);
            && StoredHead(ctx, t.primary).Some?
            && recovered.result == Success(StoredHead(ctx, t.primary).value)
            && VerifiedHead(ctx, recovered.primary, recovered.backup) == StoredHead(ctx, t.primary)
            && VerifiedEvents(ctx, recovered.primary, recovered.backup) == Some(Log(ctx, t.primary))
            && Kept(t.primary, recovered.primary) && Kept(t.backup, recovered.backup)
  {
    FreshInv(ctx, s);
    ExecuteKeepsInv(ctx, s, actions);
    var t := Execute(ctx, s, actions);
    RepairCompletes(ctx, t.primary, t.backup);
    var repaired := Repair(ctx, t.primary, t.backup);
    ReconstructConfirms(ctx, repaired.primary, repaired.backup);
    VerifiedIffReceipted(ctx, repaired.primary, repaired.backup);
    assert StoredHead(ctx, repaired.primary) == StoredHead(ctx, t.primary) by {
      assert t.primary.Has(HeadKey) <==> repaired.primary.Has(HeadKey);
    }
  }

  /* ---------- a lost or rolled back head ---------- */

  /** A head document of the event numbered `m`. */
  predicate NamesEvent(ctx: Context, body: Body, log: seq<HistoryEvent>, m: int) {
    1 <= m <= |log| && body == HeadFor(ctx, log[m - 1])
  }

  /** Every record but the head is the same. */
  predicate SameRecords(primary: Store, damaged: Store) {
    damaged.objects - {HeadKey} == primary.objects - {HeadKey}
  }

  /** The same store with its head object deleted or replaced by the head of any earlier sequence. */
  ghost predicate HeadRolledBack(ctx: Context, primary: Store, damaged: Store) {
    && SameRecords(primary, damaged)
    && (damaged.Has(HeadKey) ==>
          exists m :: NamesEvent(ctx, damaged.objects[HeadKey].body, Log(ctx, primary), m))
  }

  lemma DamagedKeeps(primary: Store, damaged: Store, key: Key)
    requires SameRecords(primary, damaged) && key != HeadKey
    ensures primary.Read(key) == damaged.Read(key)
  {
    assert key in primary.objects <==> key in (primary.objects - {HeadKey});
    assert key in damaged.objects <==> key in (damaged.objects - {HeadKey});
    if key in primary.objects {
      assert (primary.objects - {HeadKey})[key] == (damaged.objects - {HeadKey})[key];
    }
  }

  lemma DamagedHolds(primary: Store, damaged: Store)
    requires SameRecords(primary, damaged)
    ensures forall key: Key, body: Body :: key != HeadKey && primary.Holds(key, body) ==> damaged.Holds(key, body)
    ensures damaged.ReceiptKeys() == primary.ReceiptKeys()
  {
    forall key: Key | key != HeadKey ensures primary.Read(key) == damaged.Read(key) {
      DamagedKeeps(primary, damaged, key);
    }
    forall key: Key, body: Body | key != HeadKey && primary.Holds(key, body) ensures damaged.Holds(key, body) {
      assert primary.Read(key) == damaged.Read(key);
    }
    forall key: Key | key != HeadKey ensures key in primary.objects <==> key in damaged.objects {
      assert primary.Read(key) == damaged.Read(key);
    }
  }

  lemma DamagedComplete(ctx: Context, primary: Store, backup: Store, damaged: Store, log: seq<HistoryEvent>)
    requires Complete(ctx, primary, backup, log) && SameRecords(primary, damaged)
    ensures Complete(ctx, damaged, backup, log)
  {
    DamagedHolds(primary, damaged);
  }

  /** Writing the head of a complete log verifies. */
  lemma WriteHeadVerifies(ctx: Context, primary: Store, backup: Store, log: seq<HistoryEvent>)
    requires Complete(ctx, primary, backup, log) && log != []
    ensures var written := WriteHead(ctx, primary, backup, |log|, LinkOf(ctx, log, |log|));
            && written.backup == backup
            && written.primary.objects == primary.objects[HeadKey := Object(HeadFor(ctx, log[|log| - 1]), primary.clock)]
            && written.result.Success?
            && HeadOf(ctx, written.result.value, log)
            && VerifiedHead(ctx, written.primary, backup) == Some(written.result.value)
            && VerifiedEvents(ctx, written.primary, backup) == Some(log)
  {
    var written := WriteHead(ctx, primary, backup, |log|, LinkOf(ctx, log, |log|));
    assert ChainedAt(ctx, log, |log| - 1);
    assert Complete(ctx, written.primary, backup, log) by {
      assert written.primary.ReceiptKeys() == primary.ReceiptKeys();
      forall key: Key, body: Body | key != HeadKey && primary.Holds(key, body) ensures written.primary.Holds(key, body) {
      }
    }
    CompleteVerifies(ctx, written.primary, backup, log, StoredHead(ctx, written.primary).value);
  }

  /** With every receipt written, losing the head or rolling it back to any earlier one loses nothing:
      recovery rewrites the identical head document and verifies the same events. */
  lemma LostHeadIsRebuilt(ctx: Context, s: State, actions: seq<Action>, damaged: Store)
    requires Fresh(ctx, s)
    requires LastReceiptSafe(ctx, Execute(ctx, s, actions).primary, Execute(ctx, s, actions).backup)
    requires HeadRolledBack(ctx, Execute(ctx, s, actions).primary, damaged)
    ensures var t := Execute(ctx, s, actions);
            var log := Log(ctx, t.primary);
            var recovered := Recover(ctx, damaged, t.backup);
            && recovered.result.Success?
            && HeadOf(ctx, recovered.result.value, log)
            && (t.primary.Has(HeadKey) ==>
                  recovered.primary.Holds(HeadKey, t.primary.objects[HeadKey].body))
            && VerifiedHead(ctx, recovered.primary, recovered.backup) == Some(recovered.result.value)
            && VerifiedEvents(ctx, recovered.primary, recovered.backup) == Some(log)
            && recovered.backup == t.backup
            && recovered.primary.objects - {HeadKey} == damaged.objects - {HeadKey}
  {
    FreshInv(ctx, s);
    ExecuteKeepsInv(ctx, s, actions);
    var t := Execute(ctx, s, actions);
    ReachableComplete(ctx, t.primary, t.backup);
    var log := Log(ctx, t.primary);
    LogShape(ctx, t.primary);
    DamagedComplete(ctx, t.primary, t.backup, damaged, log);
    assert t.primary.Has(HeadKey) ==> t.primary.objects[HeadKey].body == HeadFor(ctx, log[|log| - 1]) by {
      if log != [] {
        assert ChainedAt(ctx, log, |log| - 1);
      }
    }
    CompleteRecovers(ctx, damaged, t.backup, log);
  }

  /** Recovery of complete records whose head is missing or names some event of the log. */
  lemma CompleteRecovers(ctx: Context, primary: Store, backup: Store, log: seq<HistoryEvent>)
    requires Complete(ctx, primary, backup, log)
    requires primary.Has(HeadKey) ==> exists m :: NamesEvent(ctx, primary.objects[HeadKey].body, log, m)
    ensures var recovered := Recover(ctx, primary, backup);
            && recovered.result.Success?
            && HeadOf(ctx, recovered.result.value, log)
            && recovered.backup == backup
            && recovered.primary.objects - {HeadKey} == primary.objects - {HeadKey}
            && (log != [] ==> recovered.primary.Holds(HeadKey, HeadFor(ctx, log[|log| - 1])))
            && VerifiedHead(ctx, recovered.primary, recovered.backup) == Some(recovered.result.value)
            && VerifiedEvents(ctx, recovered.primary, recovered.backup) == Some(log)
  {
    RepairIdle(ctx, primary, backup, log);
    if primary.Has(HeadKey) {
      var m :| NamesEvent(ctx, primary.objects[HeadKey].body, log, m);
      if m == |log| {
        assert ChainedAt(ctx, log, m - 1);
        ReconstructIdle(ctx, primary, backup, log);
        CompleteVerifies(ctx, primary, backup, log, StoredHead(ctx, primary).value);
      } else {
        ReconstructWrites(ctx, primary, backup, log);
        WriteHeadVerifies(ctx, primary, backup, log);
      }
    } else if log == [] {
      ReconstructIdle(ctx, primary, backup, log);
      CompleteVerifies(ctx, primary, backup, log, GenesisHead(ctx));
    } else {
      ReconstructWrites(ctx, primary, backup, log);
      WriteHeadVerifies(ctx, primary, backup, log);
    }
  }

  /** Nothing to repair: the receipt of the stored head is there. */
  lemma RepairIdle(ctx: Context, primary: Store, backup: Store, log: seq<HistoryEvent>)
    requires Complete(ctx, primary, backup, log)
    requires primary.Has(HeadKey) ==> exists m :: NamesEvent(ctx, primary.objects[HeadKey].body, log, m)
    ensures Repair(ctx, primary, backup) == Outcome(primary, backup, Success(false))
  {
    if primary.Has(HeadKey) {
      var m :| NamesEvent(ctx, primary.objects[HeadKey].body, log, m);
      assert ChainedAt(ctx, log, m - 1);
      assert primary.Holds(ReceiptKey(m), ReceiptBody(ctx, log, m));
      assert backup.Holds(ReceiptKey(m), ReceiptBody(ctx, log, m));
    }
  }

  /** On complete records the receipt walk of reconstruction ends at the last event. */
  lemma ReconstructReachesTip(ctx: Context, primary: Store, backup: Store, log: seq<HistoryEvent>)
    requires Complete(ctx, primary, backup, log)
    ensures Reconstruct(ctx, primary, backup) == RestoreHead(ctx, primary, backup, |log|, LinkOf(ctx, log, |log|))
  {
    CompleteRebuilds(ctx, primary, backup, log, 0);
    ReceiptRangeSize(|log|);
    assert ReceiptKey(0) in ReceiptRange(|log|);
  }

  /** A head behind the receipts, or none: reconstruction writes the head of the last receipt. */
  lemma ReconstructWrites(ctx: Context, primary: Store, backup: Store, log: seq<HistoryEvent>)
    requires Complete(ctx, primary, backup, log) && log != []
    requires primary.Has(HeadKey) ==>
               exists m :: NamesEvent(ctx, primary.objects[HeadKey].body, log, m) && m < |log|
    ensures Reconstruct(ctx, primary, backup) == WriteHead(ctx, primary, backup, |log|, LinkOf(ctx, log, |log|))
  {
    ReconstructReachesTip(ctx, primary, backup, log);
    if primary.Has(HeadKey) {
      var m :| NamesEvent(ctx, primary.objects[HeadKey].body, log, m) && m < |log|;
      assert ChainedAt(ctx, log, m - 1);
      assert primary.Holds(ReceiptKey(m), ReceiptBody(ctx, log, m));
    }
  }

  /** A head that names the last receipt, or an empty log: reconstruction only verifies. */
  lemma ReconstructIdle(ctx: Context, primary: Store, backup: Store, log: seq<HistoryEvent>)
    requires Complete(ctx, primary, backup, log)
    requires if primary.Has(HeadKey) then NamesEvent(ctx, primary.objects[HeadKey].body, log, |log|) else log == []
    ensures Reconstruct(ctx, primary, backup) == Outcome(primary, backup, Verify(ctx, primary, backup))
  {
    ReconstructReachesTip(ctx, primary, backup, log);
    if primary.Has(HeadKey) {
      assert ChainedAt(ctx, log, |log| - 1);
    }
  }

  /** Whatever the stores hold, a successful reconstruction rests on exactly the receipts 0..sequence in
      both copies, and it changes no record but the head. */
  lemma ReconstructNeedsReceipts(ctx: Context, primary: Store, backup: Store)
    ensures var rebuilt := Reconstruct(ctx, primary, backup);
            && rebuilt.backup == backup
            && rebuilt.primary.objects - {HeadKey} == primary.objects - {HeadKey}
            && (rebuilt.result.Success? ==>
                  && VerifiedHead(ctx, rebuilt.primary, backup) == Some(rebuilt.result.value)
                  && primary.ReceiptKeys() == ReceiptRange(rebuilt.result.value.sequence)
                  && backup.ReceiptKeys() == ReceiptRange(rebuilt.result.value.sequence))
  {
    var rebuilt := Reconstruct(ctx, primary, backup);
    assert rebuilt.primary.ReceiptKeys() == primary.ReceiptKeys();
  }

  /** When the head object is lost from a reachable state, recovery comes back to the last event if and only
      if its receipt is in both copies. */
  lemma LostHeadIffReceipted(ctx: Context, s: State, actions: seq<Action>, damaged: Store)
    requires Fresh(ctx, s)
    requires HeadRolledBack(ctx, Execute(ctx, s, actions).primary, damaged) && !damaged.Has(HeadKey)
    ensures var t := Execute(ctx, s, actions);
            var recovered := Recover(ctx, damaged, t.backup);
            (recovered.result.Success? && HeadOf(ctx, recovered.result.value, Log(ctx, t.primary)))
            <==> LastReceiptSafe(ctx, t.primary, t.backup)
  {
    var t := Execute(ctx, s, actions);
    if LastReceiptSafe(ctx, t.primary, t.backup) {
      LostHeadIsRebuilt(ctx, s, actions, damaged);
    } else {
      var last := ReceiptKey(|Log(ctx, t.primary)|);
      ReconstructNeedsReceipts(ctx, damaged, t.backup);
      DamagedKeeps(t.primary, damaged, last);
      assert last in ReceiptRange(|Log(ctx, t.primary)|);
      assert !(last in damaged.ReceiptKeys() && last in t.backup.ReceiptKeys());
    }
  }
}
