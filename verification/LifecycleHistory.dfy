/** The history service over two mutable object stores, loop by loop, proved against the functions of
    `HistoryModel`, `HistoryRecovery` and `HistoryAppend`. */
module LifecycleHistory {
  import opened Wrappers
  import opened HistoryModel
  import opened HistoryProtocol
  import Recovery = HistoryRecovery
  import Appending = HistoryAppend
  import Shared = HistoryShared

  type HistoryError = Recovery.HistoryError

  class HistoryStore {
    var objects: map<Key, Object>
    var clock: nat

    constructor ()
      ensures View() == Store(map[], 0)
    {
      objects := map[];
      clock := 0;
    }

    function View(): Store
      reads this
    {
      Store(objects, clock)
    }

    method Read(key: Key) returns (found: Option<Object>)
      ensures found == View().Read(key)
    {
      if key in objects {
        found := Some(objects[key]);
      } else {
        found := None;
      }
    }

    /** If-Match with a tag, If-None-Match without one; a failed precondition changes nothing. */
    method Put(key: Key, body: Body, expected: Option<nat>) returns (ok: bool)
      modifies this
      ensures ok == old(View()).Admits(key, expected)
      ensures ok ==> Some(View()) == old(View()).Put(key, body, expected)
      ensures !ok ==> View() == old(View())
    {
      match expected {
        case None => ok := key !in objects;
        case Some(etag) => ok := key in objects && objects[key].etag == etag;
      }
      if ok {
        objects := objects[key := Object(body, clock)];
        clock := clock + 1;
      }
    }

    method ListReceipts() returns (keys: set<Key>)
      ensures keys == View().ReceiptKeys()
    {
      keys := set key | key in objects && (key.ReceiptKey? || key.StrayReceiptKey?);
    }
  }

  class LifecycleHistory {
    const ctx: Context
    const store: HistoryStore
    const backup: HistoryStore

    constructor (ctx: Context, store: HistoryStore, backup: HistoryStore)
      ensures this.ctx == ctx && this.store == store && this.backup == backup
    {
      this.ctx := ctx;
      this.store := store;
      this.backup := backup;
    }

    /* ---------- writing one record into both copies ---------- */

    static method PutCopy(target: HistoryStore, key: Key, body: Body) returns (ok: bool)
      modifies target
      ensures ok == Recovery.PutCopy(old(target.View()), key, body).Some?
      ensures ok ==> Some(target.View()) == Recovery.PutCopy(old(target.View()), key, body)
      ensures !ok ==> target.View() == old(target.View())
    {
      var current := target.Read(key);
      match current {
        case None => ok := target.Put(key, body, None);
        case Some(found) => ok := found.body == body;
      }
    }

    method PutImmutable(key: Key, body: Body) returns (result: Result<(), HistoryError>)
      modifies store, backup
      ensures Recovery.Outcome(store.View(), backup.View(), result)
           == Recovery.PutImmutable(old(store.View()), old(backup.View()), key, body)
    {
      var ok := PutCopy(store, key, body);
      if !ok {
        return Failure(Recovery.Conflict);
      }
      Shared.PutTwice(old(store.View()), key, body);
      ok := PutCopy(backup, key, body);
      result := if ok then Success(()) else Failure(Recovery.Conflict);
    }

    method Register() returns (result: Result<(), HistoryError>)
      modifies store, backup
      ensures Recovery.Outcome(store.View(), backup.View(), result)
           == Appending.Register(ctx, old(store.View()), old(backup.View()))
    {
      result := PutImmutable(CatalogKey, Registration(ctx.orgId));
      if result.Success? {
        result := PutImmutable(ReceiptKey(0), GenesisReceipt(ctx));
      }
    }

    /* ---------- verification ---------- */

    /** One pass of `_verify_catalog` over one copy. */
    method VerifyCatalogSide(side: HistoryStore, head: HistoryHead) returns (ok: bool)
      ensures ok == CatalogSideOk(ctx, side.View(), store.View(), backup.View(), head)
    {
      var entry := side.Read(CatalogKey);
      if entry.None? || entry.value.body != Registration(ctx.orgId) {
        return false;
      }
      var keys := side.ListReceipts();
      if keys != ReceiptRange(head.sequence) {
        return false;
      }
      var previous := GenesisLink(ctx);
      var sequence := 0;
      while sequence <= head.sequence
        invariant sequence <= head.sequence + 1
        invariant ReceiptWalk(ctx, side.View(), store.View(), backup.View(), head, sequence, previous)
               == ReceiptWalk(ctx, side.View(), store.View(), backup.View(), head, 0, GenesisLink(ctx))
      {
        var step := ReadReceipt(side, head, sequence, previous);
        if step.None? {
          return false;
        }
        previous := step.value;
        sequence := sequence + 1;
      }
      ok := previous.operationId == head.operationId;
    }

    /** The body of the receipt loop: the receipt, its event and the backup of its event. */
    method ReadReceipt(side: HistoryStore, head: HistoryHead, sequence: nat, previous: Link) returns (step: Option<Link>)
      ensures step == ReceiptStep(ctx, side.View(), store.View(), backup.View(), head, sequence, previous)
    {
      var receipt := side.Read(ReceiptKey(sequence));
      if receipt.None? || !ReceiptIdentified(ctx, receipt.value.body, sequence) {
        return None;
      }
      var body := receipt.value.body;
      if sequence == 0 {
        if body.digest != ctx.genesis || body.operationId != None || (head.sequence == 0 && body.digest != head.digest) {
          return None;
        }
        return Some(previous);
      }
      if body.operationId.None? {
        return None;
      }
      var found := store.Read(EventKey(body.operationId.value));
      if found.None? || !found.value.body.Event? {
        return None;
      }
      var event := found.value.body.event;
      if !ReceiptMatches(ctx, event, sequence, body.digest, previous) {
        return None;
      }
      var copy := backup.Read(EventKey(event.operationId));
      if copy.None? || copy.value.body != found.value.body || (sequence == head.sequence && body.digest != head.digest) {
        return None;
      }
      step := Some(Link(ctx.hash(event), Some(event.operationId)));
    }

    method VerifyCatalog(head: HistoryHead) returns (ok: bool)
      ensures ok == CatalogOk(ctx, store.View(), backup.View(), head)
    {
      ok := VerifyCatalogSide(store, head);
      if ok {
        ok := VerifyCatalogSide(backup, head);
      }
    }

    /** The backward walk of `verified_head`. */
    method WalkEvents(head: HistoryHead) returns (ok: bool)
      ensures ok == WalkHead(ctx, store.View(), head).Some?
    {
      var cursor, expected := head.operationId, head.digest;
      var sequence := head.sequence;
      while sequence > 0
        invariant WalkBack(ctx, store.View(), cursor, expected, sequence).Some? == WalkHead(ctx, store.View(), head).Some?
      {
        if cursor.None? {
          return false;
        }
        var found := store.Read(EventKey(cursor.value));
        if found.None? || !found.value.body.Event? {
          return false;
        }
        var event := found.value.body.event;
        if !LinksTo(ctx, event, cursor.value, expected, sequence) {
          return false;
        }
        cursor, expected := event.previousOperationId, event.previousDigest;
        sequence := sequence - 1;
      }
      ok := cursor == None && expected == ctx.genesis;
    }

    method GetVerifiedHead() returns (head: Option<HistoryHead>)
      ensures head == VerifiedHead(ctx, store.View(), backup.View())
    {
      var stored := store.Read(HeadKey);
      if stored.None? {
        head := Some(GenesisHead(ctx));
      } else {
        head := ParseHead(stored.value.body, stored.value.etag);
        if head.None? {
          return;
        }
        var linked := WalkEvents(head.value);
        if !linked {
          return None;
        }
      }
      var ok := VerifyCatalog(head.value);
      if !ok {
        head := None;
      }
    }

    /** `accepted`: the operation's event, if it is on the verified chain. */
    method FindAccepted(operationId: Uuid) returns (answer: Lookup)
      ensures answer == Accepted(ctx, store.View(), backup.View(), operationId)
    {
      var head := GetVerifiedHead();
      if head.None? {
        return Broken;
      }
      var cursor := head.value.operationId;
      var remaining := head.value.sequence;
      while remaining > 0
        invariant Search(store.View(), cursor, remaining, operationId)
               == Search(store.View(), head.value.operationId, head.value.sequence, operationId)
      {
        if cursor.None? {
          return Broken;
        }
        var found := store.Read(EventKey(cursor.value));
        if found.None? || !found.value.body.Event? {
          return Broken;
        }
        if cursor.value == operationId {
          return Present(found.value.body.event);
        }
        cursor := found.value.body.event.previousOperationId;
        remaining := remaining - 1;
      }
      answer := Absent;
    }

    /** `verified_events`: collected newest first, returned oldest first. */
    method GetVerifiedEvents() returns (events: Option<seq<HistoryEvent>>)
      ensures events == VerifiedEvents(ctx, store.View(), backup.View())
    {
      var head := GetVerifiedHead();
      if head.None? {
        return None;
      }
      var collected: seq<HistoryEvent> := [];
      var cursor := head.value.operationId;
      var expected := head.value.sequence;
      ghost var whole := Collect(ctx, store.View(), cursor, expected);
      assert whole.Some? ==> whole.value + collected == whole.value;
      while expected > 0
        invariant var rest := Collect(ctx, store.View(), cursor, expected);
                  var all := Collect(ctx, store.View(), head.value.operationId, head.value.sequence);
                  all == if rest.None? then None else Some(rest.value + collected)
      {
        if cursor.None? {
          return None;
        }
        var found := store.Read(EventKey(cursor.value));
        if found.None? || !found.value.body.Event? {
          return None;
        }
        var event := found.value.body.event;
        if event.sequence != expected || event.orgId != ctx.orgId {
          return None;
        }
        ghost var rest := Collect(ctx, store.View(), event.previousOperationId, expected - 1);
        assert rest.Some? ==> (rest.value + [event]) + collected == rest.value + ([event] + collected);
        collected := [event] + collected;
        cursor := event.previousOperationId;
        expected := expected - 1;
      }
      assert [] + collected == collected;
      events := Some(collected);
    }

    /* ---------- recovery ---------- */

    /** `repair_interrupted_receipt` */
    method RepairInterruptedReceipt() returns (result: Result<bool, HistoryError>)
      modifies store, backup
      ensures Recovery.Outcome(store.View(), backup.View(), result)
           == Recovery.Repair(ctx, old(store.View()), old(backup.View()))
    {
      var stored := store.Read(HeadKey);
      if stored.None? {
        return Success(false);
      }
      var parsed := ParseHead(stored.value.body, stored.value.etag);
      if parsed.None? || parsed.value.sequence < 1 || parsed.value.operationId.None? {
        return Failure(Recovery.Unverified);
      }
      var head := parsed.value;
      var key := ReceiptKey(head.sequence);
      var primaryReceipt := store.Read(key);
      var backupReceipt := backup.Read(key);
      if primaryReceipt.Some? && backupReceipt.Some? {
        return Success(false);
      }
      var verified := TailVerified(head);
      if !verified {
        return Failure(Recovery.Unverified);
      }
      var receipt := Recovery.HeadReceipt(ctx, head);
      if (primaryReceipt.Some? && primaryReceipt.value.body != receipt)
         || (backupReceipt.Some? && backupReceipt.value.body != receipt)
      {
        return Failure(Recovery.Unverified);
      }
      var _ := PutImmutable(key, receipt);
      var after := GetVerifiedHead();
      result := if after.Some? then Success(true) else Failure(Recovery.Unverified);
    }

    method TailVerified(head: HistoryHead) returns (ok: bool)
      requires head.operationId.Some? && head.sequence >= 1
      ensures ok == Recovery.TailVerified(ctx, store.View(), backup.View(), head)
    {
      var eventKey := EventKey(head.operationId.value);
      var found := store.Read(eventKey);
      var copy := backup.Read(eventKey);
      if found.None? || copy.None? || found.value.body != copy.value.body || !found.value.body.Event? {
        return false;
      }
      var event := found.value.body.event;
      if !LinksTo(ctx, event, head.operationId.value, head.digest, head.sequence) {
        return false;
      }
      var predecessor := store.Read(ReceiptKey(head.sequence - 1));
      var backupPredecessor := backup.Read(ReceiptKey(head.sequence - 1));
      if predecessor.None? || backupPredecessor.None? || predecessor.value.body != backupPredecessor.value.body {
        return false;
      }
      ok := Recovery.BodyLink(predecessor.value.body) == Some(Link(event.previousDigest, event.previousOperationId));
    }

    /** The body of the reconstruction loop. */
    method RebuildReceipt(index: nat, previous: Link) returns (step: Option<Link>)
      ensures step == Recovery.RebuildStep(ctx, store.View(), backup.View(), index, previous)
    {
      var pair := store.Read(ReceiptKey(index));
      var backupPair := backup.Read(ReceiptKey(index));
      if pair.None? || backupPair.None? || pair.value.body != backupPair.value.body
         || !ReceiptIdentified(ctx, pair.value.body, index)
      {
        return None;
      }
      var receipt := pair.value.body;
      if index == 0 {
        return if receipt.digest != ctx.genesis || receipt.operationId != None then None else Some(previous);
      }
      if receipt.operationId.None? {
        return None;
      }
      var eventKey := EventKey(receipt.operationId.value);
      var found := store.Read(eventKey);
      var copy := backup.Read(eventKey);
      if found.None? || copy.None? || found.value.body != copy.value.body || !found.value.body.Event? {
        return None;
      }
      var event := found.value.body.event;
      if LinksTo(ctx, event, receipt.operationId.value, receipt.digest, index)
         && event.previousDigest == previous.digest && event.previousOperationId == previous.operationId
      {
        return Some(Link(ctx.hash(event), receipt.operationId));
      }
      step := None;
    }

    /** `reconstruct_head_from_receipts` */
    method ReconstructHeadFromReceipts() returns (result: Result<HistoryHead, HistoryError>)
      modifies store
      ensures var done := Recovery.Reconstruct(ctx, old(store.View()), old(backup.View()));
              && store.View() == done.primary && result == done.result
              && (store != backup ==> backup.View() == done.backup)
    {
      var entry := store.Read(CatalogKey);
      var backupEntry := backup.Read(CatalogKey);
      if entry.None? || entry.value.body != Registration(ctx.orgId)
         || backupEntry.None? || backupEntry.value.body != Registration(ctx.orgId)
      {
        return Failure(Recovery.Unverified);
      }
      var keys := store.ListReceipts();
      var backupKeys := backup.ListReceipts();
      if keys != backupKeys || ReceiptKey(0) !in keys {
        return Failure(Recovery.Unverified);
      }
      var highest := |keys| - 1;
      if highest < 0 || keys != ReceiptRange(highest) {
        return Failure(Recovery.Unverified);
      }
      var tip := GenesisLink(ctx);
      var index := 0;
      while index <= highest
        invariant index <= highest + 1
        invariant store.View() == old(store.View()) && backup.View() == old(backup.View())
        invariant Recovery.RebuildWalk(ctx, store.View(), backup.View(), index, highest + 1, tip)
               == Recovery.RebuildWalk(ctx, store.View(), backup.View(), 0, highest + 1, GenesisLink(ctx))
      {
        var step := RebuildReceipt(index, tip);
        if step.None? {
          return Failure(Recovery.Unverified);
        }
        tip := step.value;
        index := index + 1;
      }
      result := RestoreHead(highest, tip);
    }

    /** The head, given the last receipt. */
    method RestoreHead(highest: nat, tip: Link) returns (result: Result<HistoryHead, HistoryError>)
      modifies store
      ensures var done := Recovery.RestoreHead(ctx, old(store.View()), old(backup.View()), highest, tip);
              && store.View() == done.primary && result == done.result
              && (store != backup ==> backup.View() == done.backup)
    {
      var current := store.Read(HeadKey);
      if current.Some? {
        var position := Recovery.HeadPosition(current.value.body);
        if position.None? || position.value.0 > highest {
          return Failure(Recovery.Unverified);
        }
        if position.value.0 == highest {
          result := VerifyNow();
          return;
        }
        var named := store.Read(ReceiptKey(position.value.0));
        if named.None? || Recovery.BodyLink(named.value.body).None?
           || Recovery.BodyLink(named.value.body).value.digest != position.value.1
        {
          return Failure(Recovery.Unverified);
        }
      }
      if highest == 0 {
        result := VerifyNow();
        return;
      }
      if tip.operationId.None? {
        return Failure(Recovery.Unverified);
      }
      var ok := store.Put(HeadKey, Head(highest, tip.digest, tip.operationId.value),
                          if current.Some? then Some(current.value.etag) else None);
      if !ok {
        return Failure(Recovery.Conflict);
      }
      Shared.VerifiedIgnoresHead(ctx, store.View(), backup.View(), old(backup.View()));
      result := VerifyNow();
    }

    method VerifyNow() returns (result: Result<HistoryHead, HistoryError>)
      ensures result == Recovery.Verify(ctx, store.View(), backup.View())
    {
      var head := GetVerifiedHead();
      result := if head.Some? then Success(head.value) else Failure(Recovery.Unverified);
    }

    /** The restore sequence of one organization: a failed repair stops it. */
    method Recover() returns (result: Result<HistoryHead, HistoryError>)
      modifies store, backup
      ensures var done := Recovery.Recover(ctx, old(store.View()), old(backup.View()));
              && store.View() == done.primary && result == done.result
              && (store != backup ==> backup.View() == done.backup)
    {
      var repaired := RepairInterruptedReceipt();
      if repaired.Failure? {
        return Failure(repaired.error);
      }
      result := ReconstructHeadFromReceipts();
    }

    /* ---------- append ---------- */

    method Resolve(operationId: Uuid) returns (result: Result<HistoryEvent, HistoryError>)
      ensures Recovery.Outcome(store.View(), backup.View(), result)
           == Appending.Resolve(ctx, store.View(), backup.View(), operationId)
    {
      var answer := FindAccepted(operationId);
      match answer {
        case Present(event) => result := Success(event);
        case Absent => result := Failure(Recovery.Conflict);
        case Broken => result := Failure(Recovery.Unverified);
      }
    }

    method Append(command: Command) returns (result: Result<HistoryEvent, HistoryError>)
      modifies store, backup
      ensures var done := Appending.Append(ctx, old(store.View()), old(backup.View()), command);
              && store.View() == done.primary && result == done.result
              && (store != backup ==> backup.View() == done.backup)
    {
      var verified := GetVerifiedHead();
      if verified.None? {
        return Failure(Recovery.Unverified);
      }
      var head := verified.value;
      var accepted := FindAccepted(command.operationId);
      if accepted.Broken? {
        return Failure(Recovery.Unverified);
      }
      if accepted.Present? {
        return if Matches(command, accepted.event) then Success(accepted.event) else Failure(Recovery.Conflict);
      }
      if head.sequence != command.expectedSequence {
        return Failure(Recovery.Conflict);
      }
      var event := BuildEvent(ctx, command, head);
      var stored := PutImmutable(EventKey(event.operationId), Event(event));
      if stored.Failure? {
        result := Resolve(event.operationId);
        return;
      }
      result := Publish(head, event);
    }

    /** The head, then the receipt into both copies. */
    method Publish(head: HistoryHead, event: HistoryEvent) returns (result: Result<HistoryEvent, HistoryError>)
      modifies store, backup
      ensures var done := Appending.Publish(ctx, old(store.View()), old(backup.View()), head, event);
              && store.View() == done.primary && result == done.result
              && (store != backup ==> backup.View() == done.backup)
    {
      var moved := store.Put(HeadKey, HeadFor(ctx, event), head.etag);
      if !moved {
        result := Resolve(event.operationId);
        return;
      }
      var key := ReceiptKey(event.sequence);
      Shared.BothIgnoreHead(store.View(), backup.View(), old(backup.View()), key, ReceiptFor(ctx, event));
      ghost var put := Recovery.PutImmutable(store.View(), old(backup.View()), key, ReceiptFor(ctx, event));
      var receipted := PutImmutable(key, ReceiptFor(ctx, event));
      Shared.AnswersIgnoreHead(ctx, store.View(), backup.View(), put.backup, event);
      if receipted.Failure? {
        result := Resolve(event.operationId);
        return;
      }
      var confirmed := FindAccepted(event.operationId);
      result := if confirmed.Present? && ctx.hash(confirmed.event) == ctx.hash(event)
                then Success(confirmed.event) else Failure(Recovery.Unverified);
    }
  }
}
