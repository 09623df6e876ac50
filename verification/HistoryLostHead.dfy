/** What is left of a history when its head object is lost: for any pair of stores that verified, and for every
    reachable state. */
module HistoryLostHead {
  import opened Wrappers
  import opened HistoryModel
  import opened HistoryFacts
  import opened HistoryProtocol
  import opened HistoryInvariant
  import opened HistoryTheorems
  import opened HistoryRecovery

  /* ---------- any verified pair of stores ---------- */

  /** Every receipt of this copy names the operation of its event. */
  ghost predicate ReceiptsCarry(side: Store, events: seq<HistoryEvent>) {
    forall i :: 1 <= i <= |events| ==> CarriesAt(side, events, i)
  }

  predicate CarriesAt(side: Store, events: seq<HistoryEvent>, i: int)
    requires 1 <= i <= |events|
  {
    ReceiptNames(side, i, events[i - 1].operationId)
  }

  predicate ReceiptNames(side: Store, i: int, operationId: Uuid) {
    && side.Has(ReceiptKey(i)) && side.objects[ReceiptKey(i)].body.Receipt?
    && side.objects[ReceiptKey(i)].body.operationId == Some(operationId)
  }

  /** A receipt that the loop of verification passed. */
  lemma PassedReceipt(ctx: Context, side: Store, primary: Store, backup: Store, head: HistoryHead, i: nat)
    requires ReceiptWalk(ctx, side, primary, backup, head, 0, GenesisLink(ctx)).Some? && i <= head.sequence
    ensures side.Has(ReceiptKey(i))
    ensures i == 0 ==> side.Holds(ReceiptKey(0), GenesisReceipt(ctx))
    ensures i > 0 ==>
              var found := ReceiptEvent(side, primary, i);
              var body := side.objects[ReceiptKey(i)].body;
              && found.Some? && body.Receipt? && body.operationId.Some?
              && body == Receipt(ctx.orgId, i, body.operationId, ctx.hash(found.value))
  {
    WalkFollowsLinks(ctx, side, primary, backup, head, i);
    WalkFollowsLinks(ctx, side, primary, backup, head, i + 1);
    var previous := LinkBefore(ctx, side, primary, backup, head, i).value;
    assert ReceiptStep(ctx, side, primary, backup, head, i, previous).Some?;
  }

  /** Receipts that name both the event and its operation are the receipts of the chain. */
  lemma CarriedReceipts(ctx: Context, side: Store, primary: Store, backup: Store, head: HistoryHead,
                        events: seq<HistoryEvent>, i: nat)
    requires CatalogSideOk(ctx, side, primary, backup, head) && |events| == head.sequence && i <= |events|
    requires ReceiptsName(side, primary, backup, events, 0) && ReceiptsCarry(side, events)
    ensures side.Holds(ReceiptKey(i), ReceiptBody(ctx, events, i))
  {
    PassedReceipt(ctx, side, primary, backup, head, i);
    if i > 0 {
      assert ReceiptEvent(side, primary, i) == Some(events[i - 1]);
      assert CarriesAt(side, events, i);
      var body := side.objects[ReceiptKey(i)].body;
      assert body.operationId == Some(events[i - 1].operationId);
      PassedNumber(ctx, side, primary, backup, head, i);
    }
  }

  /** The event a passed receipt names has the receipt's number. */
  lemma PassedNumber(ctx: Context, side: Store, primary: Store, backup: Store, head: HistoryHead, i: nat)
    requires ReceiptWalk(ctx, side, primary, backup, head, 0, GenesisLink(ctx)).Some? && 1 <= i <= head.sequence
    ensures ReceiptEvent(side, primary, i).Some? && ReceiptEvent(side, primary, i).value.sequence == i
  {
    WalkFollowsLinks(ctx, side, primary, backup, head, i);
    WalkFollowsLinks(ctx, side, primary, backup, head, i + 1);
    var previous := LinkBefore(ctx, side, primary, backup, head, i).value;
    assert ReceiptStep(ctx, side, primary, backup, head, i, previous).Some?;
  }

  /** A verified pair whose receipts carry their operations is complete. */
  lemma CarriedComplete(ctx: Context, primary: Store, backup: Store, events: seq<HistoryEvent>)
    requires VerifiedHead(ctx, primary, backup).Some? && VerifiedEvents(ctx, primary, backup) == Some(events)
    requires ReceiptsName(primary, primary, backup, events, 0) && ReceiptsName(backup, primary, backup, events, 0)
    requires ReceiptsCarry(primary, events) && ReceiptsCarry(backup, events)
    ensures Complete(ctx, primary, backup, events)
  {
    VerifiedEventsAreTheChain(ctx, primary, backup);
    var head := VerifiedHead(ctx, primary, backup).value;
    var chain := VerifiedChain(ctx, primary, backup);
    forall i | 0 <= i < |events|
      ensures primary.Holds(EventKey(events[i].operationId), Event(events[i]))
      ensures backup.Holds(EventKey(events[i].operationId), Event(events[i]))
    {
      assert ReadEvent(primary, events[i].operationId) == Some(events[i]);
      assert ReceiptEvent(primary, primary, i + 1) == Some(events[i + 1 - 1]);
    }
    forall i | 0 <= i <= |events|
      ensures primary.Holds(ReceiptKey(i), ReceiptBody(ctx, events, i))
      ensures backup.Holds(ReceiptKey(i), ReceiptBody(ctx, events, i))
    {
      CarriedReceipts(ctx, primary, primary, backup, head, events, i);
      CarriedReceipts(ctx, backup, primary, backup, head, events, i);
    }
  }

  /** Reconstruction of complete records without a head: the last event is the head again. */
  lemma HeadlessRebuilds(ctx: Context, lost: Store, backup: Store, events: seq<HistoryEvent>)
    requires Complete(ctx, lost, backup, events) && !lost.Has(HeadKey)
    ensures var rebuilt := Reconstruct(ctx, lost, backup);
            && rebuilt.result.Success? && HeadOf(ctx, rebuilt.result.value, events)
            && VerifiedEvents(ctx, rebuilt.primary, rebuilt.backup) == Some(events)
  {
    if events == [] {
      ReconstructIdle(ctx, lost, backup, events);
      CompleteVerifies(ctx, lost, backup, events, GenesisHead(ctx));
    } else {
      ReconstructWrites(ctx, lost, backup, events);
      WriteHeadVerifies(ctx, lost, backup, events);
    }
  }

  /** A walk of reconstruction that succeeds passed every receipt on its way. */
  lemma {:induction false} RebuildPasses(ctx: Context, primary: Store, backup: Store, index: nat, count: nat,
                                         previous: Link, i: nat) returns (link: Link)
    requires index <= i < count && RebuildWalk(ctx, primary, backup, index, count, previous).Some?
    ensures RebuildStep(ctx, primary, backup, i, link).Some?
    decreases count - index
  {
    if index == i {
      link := previous;
    } else {
      var next := RebuildStep(ctx, primary, backup, index, previous).value;
      link := RebuildPasses(ctx, primary, backup, index + 1, count, next, i);
    }
  }

  /** Reconstruction reads each receipt in both copies and requires its event to carry the name it is under. */
  lemma RebuiltReceipt(ctx: Context, primary: Store, backup: Store, n: nat, i: nat)
    requires Reconstruct(ctx, primary, backup).result.Success? && primary.ReceiptKeys() == ReceiptRange(n) && 1 <= i <= n
    ensures primary.Has(ReceiptKey(i)) && backup.Has(ReceiptKey(i))
    ensures backup.objects[ReceiptKey(i)].body == primary.objects[ReceiptKey(i)].body
    ensures var event := ReceiptEvent(primary, primary, i);
            event.Some? && ReceiptNames(primary, i, event.value.operationId)
  {
    ReceiptRangeSize(n);
    var link := RebuildPasses(ctx, primary, backup, 0, n + 1, GenesisLink(ctx), i);
  }

  /** The lost store names the same events. */
  lemma LostReads(primary: Store, lost: Store, i: nat)
    requires SameRecords(primary, lost)
    ensures lost.Read(ReceiptKey(i)) == primary.Read(ReceiptKey(i))
    ensures ReceiptEvent(lost, lost, i) == ReceiptEvent(primary, primary, i)
  {
    DamagedKeeps(primary, lost, ReceiptKey(i));
    assert primary.Has(ReceiptKey(i)) <==> lost.Has(ReceiptKey(i));
    if primary.Has(ReceiptKey(i)) {
      var body := primary.objects[ReceiptKey(i)].body;
      if body.Receipt? && body.operationId.Some? {
        DamagedKeeps(primary, lost, EventKey(body.operationId.value));
        assert primary.Has(EventKey(body.operationId.value)) <==> lost.Has(EventKey(body.operationId.value));
      }
    }
  }

  lemma RebuiltCarries(ctx: Context, primary: Store, backup: Store, lost: Store, events: seq<HistoryEvent>)
    requires SameRecords(primary, lost) && primary.ReceiptKeys() == ReceiptRange(|events|)
    requires ReceiptsName(primary, primary, backup, events, 0)
    requires Reconstruct(ctx, lost, backup).result.Success?
    ensures ReceiptsCarry(primary, events) && ReceiptsCarry(backup, events)
  {
    DamagedHolds(primary, lost);
    forall i | 1 <= i <= |events|
      ensures CarriesAt(primary, events, i) && CarriesAt(backup, events, i)
    {
      RebuiltReceipt(ctx, lost, backup, |events|, i);
      LostReads(primary, lost, i);
      assert ReceiptEvent(primary, primary, i) == Some(events[i - 1]);
      assert primary.Has(ReceiptKey(i)) <==> lost.Has(ReceiptKey(i));
    }
  }

  /** For any pair of stores that verifies, whatever put it in its state: once the head object is lost,
      reconstruction succeeds if and only if every receipt, in both copies, carries the operation of its event;
      and then it comes back to the same head and the same events. Otherwise the primary store holds two
      different documents with one digest. */
  lemma LostHeadRebuildsIff(ctx: Context, primary: Store, backup: Store, lost: Store)
    returns (a: HistoryEvent, b: HistoryEvent)
    requires VerifiedHead(ctx, primary, backup).Some? && lost.objects == primary.objects - {HeadKey}
    ensures VerifiedEvents(ctx, primary, backup).Some?
    ensures var events := VerifiedEvents(ctx, primary, backup).value;
            var rebuilt := Reconstruct(ctx, lost, backup);
            || Collision(ctx, primary, primary, a, b)
            || (&& (rebuilt.result.Success? <==> ReceiptsCarry(primary, events) && ReceiptsCarry(backup, events))
                && (rebuilt.result.Success? ==>
                      && HeadOf(ctx, rebuilt.result.value, events)
                      && VerifiedEvents(ctx, rebuilt.primary, rebuilt.backup) == Some(events)))
  {
    VerifiedEventsAreTheChain(ctx, primary, backup);
    var events := VerifiedEvents(ctx, primary, backup).value;
    a, b := ReceiptsAgreeWithWalk(ctx, primary, backup);
    if !Collision(ctx, primary, primary, a, b) {
      assert SameRecords(primary, lost);
      if ReceiptsCarry(primary, events) && ReceiptsCarry(backup, events) {
        CarriedComplete(ctx, primary, backup, events);
        DamagedComplete(ctx, primary, backup, lost, events);
        HeadlessRebuilds(ctx, lost, backup, events);
      } else if Reconstruct(ctx, lost, backup).result.Success? {
        RebuiltCarries(ctx, primary, backup, lost, events);
      }
    }
  }

  /** `verified_head` does not require a receipt to name the key of its event: a copy of the event under
      another key passes. Reconstruction does require it, and refuses the same records once the head is lost. */
  lemma ReceiptMayNameACopy(ctx: Context) returns (primary: Store, backup: Store, lost: Store)
    ensures VerifiedHead(ctx, primary, backup).Some?
    ensures primary.Has(ReceiptKey(1)) && primary.objects[ReceiptKey(1)].body.Receipt?
    ensures primary.objects[ReceiptKey(1)].body.operationId != VerifiedHead(ctx, primary, backup).value.operationId
    ensures lost.objects == primary.objects - {HeadKey}
    ensures Reconstruct(ctx, lost, backup).result.Failure?
  {
    var event := HistoryEvent(ctx.orgId, 1, 1, None, ctx.genesis, "", "", None, "", "");
    var receipt := Receipt(ctx.orgId, 1, Some(2), ctx.hash(event));
    var records := map[
      CatalogKey := Object(Registration(ctx.orgId), 0),
      ReceiptKey(0) := Object(GenesisReceipt(ctx), 1),
      EventKey(1) := Object(Event(event), 2),
      EventKey(2) := Object(Event(event), 3),
      ReceiptKey(1) := Object(receipt, 4)];
    backup := Store(records, 6);
    primary := Store(records[HeadKey := Object(HeadFor(ctx, event), 5)], 6);
    lost := Store(primary.objects - {HeadKey}, 6);
    var head := StoredHead(ctx, primary).value;
    assert ReceiptRange(1) == {ReceiptKey(0), ReceiptKey(1)};
    assert primary.ReceiptKeys() == ReceiptRange(1) && backup.ReceiptKeys() == ReceiptRange(1);
    assert WalkBack(ctx, primary, None, ctx.genesis, 0) == Some([]);
    assert WalkHead(ctx, primary, head).Some?;
    var link := Link(ctx.hash(event), Some(1));
    assert ReceiptWalk(ctx, primary, primary, backup, head, 2, link) == Some(link);
    assert ReceiptWalk(ctx, primary, primary, backup, head, 1, GenesisLink(ctx)) == Some(link);
    assert ReceiptWalk(ctx, backup, primary, backup, head, 2, link) == Some(link);
    assert ReceiptWalk(ctx, backup, primary, backup, head, 1, GenesisLink(ctx)) == Some(link);
    ReceiptRangeSize(1);
    assert lost.ReceiptKeys() == ReceiptRange(1);
    assert RebuildStep(ctx, lost, backup, 1, GenesisLink(ctx)).None?;
    assert RebuildWalk(ctx, lost, backup, 1, 2, GenesisLink(ctx)).None?;
  }

  /* ---------- every reachable state ---------- */

  /** A reachable state in which neither copy has the last receipt is complete up to the event before. */
  lemma PrefixComplete(ctx: Context, primary: Store, backup: Store)
    requires StoreInv(ctx, primary, backup)
    requires !primary.Has(ReceiptKey(|Log(ctx, primary)|)) && !backup.Has(ReceiptKey(|Log(ctx, primary)|))
    ensures var log := Log(ctx, primary);
            log != [] && Complete(ctx, primary, backup, log[..|log| - 1])
  {
    LogShape(ctx, primary);
    var log := Log(ctx, primary);
    assert primary.Has(ReceiptKey(0));
    var n := |log| - 1;
    var earlier := log[..n];
    ChainedPrefix(ctx, log, n);
    forall i | 0 <= i < n ensures primary.Holds(EventKey(earlier[i].operationId), Event(earlier[i])) {
      assert ReadEvent(primary, log[i].operationId) == Some(log[i]);
    }
    forall i | 0 <= i < n ensures backup.Holds(EventKey(earlier[i].operationId), Event(earlier[i])) {
      assert backup.Holds(EventKey(log[i].operationId), Event(log[i]));
    }
    PrefixReceipts(ctx, primary, backup, log);
    RangeIsReceipts(ctx, primary, backup, earlier);
  }

  lemma PrefixReceipts(ctx: Context, primary: Store, backup: Store, log: seq<HistoryEvent>)
    requires BackupFollows(primary, backup) && ReceiptsOk(ctx, primary, backup, log) && log != []
    requires !primary.Has(ReceiptKey(|log|))
    ensures var earlier := log[..|log| - 1];
            && ReceiptsOk(ctx, primary, backup, earlier)
            && (forall i :: 0 <= i <= |earlier| ==>
                  && primary.Holds(ReceiptKey(i), ReceiptBody(ctx, earlier, i))
                  && backup.Holds(ReceiptKey(i), ReceiptBody(ctx, earlier, i)))
  {
    var earlier := log[..|log| - 1];
    forall i | primary.Has(ReceiptKey(i))
      ensures 0 <= i <= |earlier| && primary.Holds(ReceiptKey(i), ReceiptBody(ctx, earlier, i))
    {
      assert i != |log|;
      assert ReceiptBody(ctx, log, i) == ReceiptBody(ctx, earlier, i);
    }
    forall i | 0 <= i <= |earlier|
      ensures primary.Holds(ReceiptKey(i), ReceiptBody(ctx, earlier, i))
      ensures backup.Holds(ReceiptKey(i), ReceiptBody(ctx, earlier, i))
    {
      assert primary.Has(ReceiptKey(i)) && backup.Has(ReceiptKey(i));
    }
  }

  lemma HeadlessRecovers(ctx: Context, damaged: Store, backup: Store, log: seq<HistoryEvent>)
    requires Complete(ctx, damaged, backup, log) && !damaged.Has(HeadKey)
    ensures var recovered := Recover(ctx, damaged, backup);
            recovered.result.Success? && VerifiedEvents(ctx, recovered.primary, recovered.backup) == Some(log)
  {
    CompleteRecovers(ctx, damaged, backup, log);
  }

  /** One copy only has the last receipt: the listings differ and the whole organization is refused. */
  lemma OneSidedRefused(ctx: Context, damaged: Store, backup: Store, i: nat)
    requires damaged.Has(ReceiptKey(i)) != backup.Has(ReceiptKey(i)) && !damaged.Has(HeadKey)
    ensures Recover(ctx, damaged, backup) == Outcome(damaged, backup, Failure(Unverified))
  {
    assert ReceiptKey(i) in damaged.ReceiptKeys() <==> damaged.Has(ReceiptKey(i));
    assert ReceiptKey(i) in backup.ReceiptKeys() <==> backup.Has(ReceiptKey(i));
  }

  /** The head object is deleted in any reachable state: the restore sequence succeeds if and only if the two
      copies agree on whether the last receipt exists. With it, the whole log is back; without it, the log up
      to the event before. */
  lemma LostHeadOutcome(ctx: Context, s: State, actions: seq<Action>, damaged: Store)
    requires Fresh(ctx, s)
    requires SameRecords(Execute(ctx, s, actions).primary, damaged) && !damaged.Has(HeadKey)
    ensures var t := Execute(ctx, s, actions);
            var log := Log(ctx, t.primary);
            var last := ReceiptKey(|log|);
            var recovered := Recover(ctx, damaged, t.backup);
            && (recovered.result.Success? <==> (t.primary.Has(last) <==> t.backup.Has(last)))
            && (!recovered.result.Success? ==> recovered.primary == damaged && recovered.backup == t.backup)
            && (recovered.result.Success? ==>
                  && (!t.primary.Has(last) ==> log != [])
                  && VerifiedEvents(ctx, recovered.primary, recovered.backup)
                     == Some(if t.primary.Has(last) then log else log[..|log| - 1]))
  {
    FreshInv(ctx, s);
    ExecuteKeepsInv(ctx, s, actions);
    var t := Execute(ctx, s, actions);
    var log := Log(ctx, t.primary);
    var last := ReceiptKey(|log|);
    DamagedKeeps(t.primary, damaged, last);
    assert damaged.Has(last) <==> t.primary.Has(last);
    if t.primary.Has(last) != t.backup.Has(last) {
      OneSidedRefused(ctx, damaged, t.backup, |log|);
    } else if t.primary.Has(last) {
      ReachableComplete(ctx, t.primary, t.backup);
      DamagedComplete(ctx, t.primary, t.backup, damaged, log);
      HeadlessRecovers(ctx, damaged, t.backup, log);
    } else {
      PrefixComplete(ctx, t.primary, t.backup);
      DamagedComplete(ctx, t.primary, t.backup, damaged, log[..|log| - 1]);
      HeadlessRecovers(ctx, damaged, t.backup, log[..|log| - 1]);
    }
  }

  /** Stores without a head but with a receipt beyond genesis do not verify. */
  lemma HeadlessUnverified(ctx: Context, damaged: Store, backup: Store, i: nat)
    requires !damaged.Has(HeadKey) && backup.Has(ReceiptKey(i)) && i > 0
    ensures VerifiedEvents(ctx, damaged, backup).None?
  {
    assert ReceiptKey(i) in backup.ReceiptKeys();
    assert ReceiptKey(i) !in ReceiptRange(0);
  }

  /** An event whose append returned, after the head object was deleted in any reachable state and the restore
      sequence ran: it is back at its own number of the verified events if and only if the two copies agree on
      whether the last receipt exists. If they do not, the organization is refused as a whole. */
  lemma AcknowledgedSurvives(ctx: Context, s: State, actions: seq<Action>, id: nat, damaged: Store)
    requires Fresh(ctx, s)
    requires id in Execute(ctx, s, actions).procs && Execute(ctx, s, actions).procs[id].pc.Returned?
    requires SameRecords(Execute(ctx, s, actions).primary, damaged) && !damaged.Has(HeadKey)
    ensures var t := Execute(ctx, s, actions);
            var event := t.procs[id].pc.event;
            var last := ReceiptKey(|Log(ctx, t.primary)|);
            var recovered := Recover(ctx, damaged, t.backup);
            var events := VerifiedEvents(ctx, recovered.primary, recovered.backup);
            (events.Some? && 1 <= event.sequence <= |events.value| && events.value[event.sequence - 1] == event)
            <==> (t.primary.Has(last) <==> t.backup.Has(last))
  {
    var t := Execute(ctx, s, actions);
    var event := t.procs[id].pc.event;
    ExecuteSplit(ctx, s, actions, []);
    assert actions + [] == actions;
    ReturnedIsDurable(ctx, s, actions, [], id);
    assert t.primary.Has(ReceiptKey(event.sequence)) && t.backup.Has(ReceiptKey(event.sequence));
    LostHeadOutcome(ctx, s, actions, damaged);
    if !Recover(ctx, damaged, t.backup).result.Success? {
      HeadlessUnverified(ctx, damaged, t.backup, event.sequence);
    }
  }
}
