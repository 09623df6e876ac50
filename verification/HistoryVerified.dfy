/** Exactly which stores verify, which can be repaired and which can be reconstructed: for any two stores, on their
    documents and without the loops. */
module HistoryVerified {
  import opened Wrappers
  import opened HistoryModel
  import opened HistoryFacts
  import opened HistoryInvariant
  import opened HistoryRecovery
  import opened HistoryLostHead
  import Appending = HistoryAppend

  /* ---------- documents ---------- */

  predicate Has(store: Store, key: Key, body: Body) {
    key in store.objects && store.objects[key].body == body
  }

  /** The link that the event after number `n` carries. */
  function Tip(ctx: Context, events: seq<HistoryEvent>, n: nat): Link
    requires n <= |events|
  {
    if n == 0 then Link(ctx.genesis, None) else Link(ctx.hash(events[n - 1]), Some(events[n - 1].operationId))
  }

  /** Event number `i` of a chain, in the store under its own operation. */
  predicate ChainsAt(ctx: Context, store: Store, events: seq<HistoryEvent>, i: nat)
    requires 1 <= i <= |events|
  {
    var event := events[i - 1];
    && event.orgId == ctx.orgId && event.sequence == i
    && Link(event.previousDigest, event.previousOperationId) == Tip(ctx, events, i - 1)
    && Has(store, EventKey(event.operationId), Event(event))
  }

  ghost predicate Chains(ctx: Context, store: Store, events: seq<HistoryEvent>) {
    forall i :: 1 <= i <= |events| ==> ChainsAt(ctx, store, events, i)
  }

  /** Receipt `i` of one copy names a key of the primary store that holds `events[i - 1]`, by its digest; the event has
      that number and the link before it, and the backup store holds it under its own operation. */
  predicate TellsAt(ctx: Context, side: Store, primary: Store, backup: Store, events: seq<HistoryEvent>, i: nat)
    requires 1 <= i <= |events|
  {
    var event := events[i - 1];
    && event.sequence == i
    && Link(event.previousDigest, event.previousOperationId) == Tip(ctx, events, i - 1)
    && Has(backup, EventKey(event.operationId), Event(event))
    && ReceiptKey(i) in side.objects
    && var body := side.objects[ReceiptKey(i)].body;
       && body.Receipt? && body.operationId.Some?
       && body == Receipt(ctx.orgId, i, body.operationId, ctx.hash(event))
       && Has(primary, EventKey(body.operationId.value), Event(event))
  }

  /** Every key below the receipt prefix is one of the receipts 0..n, and all of those are there. */
  ghost predicate ReceiptsExactly(side: Store, n: nat) {
    && (forall i :: 0 <= i <= n ==> ReceiptKey(i) in side.objects)
    && (forall key :: key in side.objects && (key.ReceiptKey? || key.StrayReceiptKey?) ==>
          key.ReceiptKey? && 0 <= key.sequence <= n)
  }

  /** One copy is registered and its receipts tell these events. */
  ghost predicate Tells(ctx: Context, side: Store, primary: Store, backup: Store, events: seq<HistoryEvent>) {
    && Has(side, CatalogKey, Registration(ctx.orgId))
    && ReceiptsExactly(side, |events|)
    && Has(side, ReceiptKey(0), Receipt(ctx.orgId, 0, None, ctx.genesis))
    && forall i :: 1 <= i <= |events| ==> TellsAt(ctx, side, primary, backup, events, i)
  }

  /** The head the primary store names: genesis without a head object; else a document with number, digest and
      operation, of a number above zero. */
  predicate Names(ctx: Context, primary: Store, head: HistoryHead) {
    if HeadKey !in primary.objects then head == HistoryHead(0, ctx.genesis, None, None)
    else
      var stored := primary.objects[HeadKey];
      && head.sequence >= 1 && head.operationId.Some? && head.etag == Some(stored.etag)
      && (|| stored.body == Head(head.sequence, head.digest, head.operationId.value)
          || (stored.body.Receipt?
              && stored.body == Receipt(stored.body.orgId, head.sequence, head.operationId, head.digest)))
  }

  lemma NamesIsStored(ctx: Context, primary: Store, head: HistoryHead)
    ensures Names(ctx, primary, head) <==> StoredHead(ctx, primary) == Some(head)
  {
  }

  /* ---------- chains and walks ---------- */

  lemma ChainsIff(ctx: Context, store: Store, events: seq<HistoryEvent>)
    ensures Chains(ctx, store, events) <==> Chained(ctx, events) && Stored(store, events)
  {
    if Chains(ctx, store, events) {
      forall i | 0 <= i < |events|
        ensures ChainedAt(ctx, events, i) && ReadEvent(store, events[i].operationId) == Some(events[i])
      {
        assert ChainsAt(ctx, store, events, i + 1);
      }
    }
    if Chained(ctx, events) && Stored(store, events) {
      forall i | 1 <= i <= |events| ensures ChainsAt(ctx, store, events, i) {
        assert ChainedAt(ctx, events, i - 1);
        assert ReadEvent(store, events[i - 1].operationId) == Some(events[i - 1]);
      }
    }
  }

  lemma KeysExactly(side: Store, n: nat)
    ensures ReceiptsExactly(side, n) <==> side.ReceiptKeys() == ReceiptRange(n)
  {
    if side.ReceiptKeys() == ReceiptRange(n) {
      forall i | 0 <= i <= n ensures ReceiptKey(i) in side.objects {
        assert ReceiptKey(i) in ReceiptRange(n);
      }
      forall key | key in side.objects && (key.ReceiptKey? || key.StrayReceiptKey?)
        ensures key.ReceiptKey? && 0 <= key.sequence <= n
      {
        assert key in side.ReceiptKeys();
      }
    }
    if ReceiptsExactly(side, n) {
      forall key ensures key in side.ReceiptKeys() <==> key in ReceiptRange(n) {
        if key in ReceiptRange(n) {
          assert ReceiptKey(key.sequence) in side.objects;
        }
      }
    }
  }

  /** The tip after `n` events agrees with the head where the head has that number. */
  predicate Meets(ctx: Context, events: seq<HistoryEvent>, n: nat, head: HistoryHead)
    requires n <= |events|
  {
    n == head.sequence ==> Tip(ctx, events, n).digest == head.digest
  }

  /** Receipts that tell the events are passed by the loop of verification. */
  lemma {:induction false} ToldIsWalked(ctx: Context, side: Store, primary: Store, backup: Store, head: HistoryHead,
                                        events: seq<HistoryEvent>, n: nat)
    requires Tells(ctx, side, primary, backup, events) && |events| == head.sequence
    requires Meets(ctx, events, |events|, head) && n <= |events| + 1
    ensures ReceiptWalk(ctx, side, primary, backup, head, n, if n == 0 then GenesisLink(ctx) else Tip(ctx, events, n - 1))
         == Some(Tip(ctx, events, |events|))
    decreases |events| + 1 - n
  {
    if n <= |events| {
      ToldIsWalked(ctx, side, primary, backup, head, events, n + 1);
      if n > 0 {
        assert TellsAt(ctx, side, primary, backup, events, n);
      }
    }
  }

  /** The events that the receipts of one copy name. */
  function Told(side: Store, primary: Store, n: nat): seq<HistoryEvent> {
    seq(n, i requires 0 <= i < n =>
      match ReceiptEvent(side, primary, i + 1)
      case None => BLANK
      case Some(event) => event)
  }

  lemma StepTells(ctx: Context, side: Store, primary: Store, backup: Store, head: HistoryHead,
                  events: seq<HistoryEvent>, i: nat)
    requires 1 <= i <= |events| && ReceiptEvent(side, primary, i) == Some(events[i - 1])
    requires ReceiptStep(ctx, side, primary, backup, head, i, Tip(ctx, events, i - 1)).Some?
    ensures TellsAt(ctx, side, primary, backup, events, i)
    ensures ReceiptStep(ctx, side, primary, backup, head, i, Tip(ctx, events, i - 1)) == Some(Tip(ctx, events, i))
    ensures i == head.sequence ==> Tip(ctx, events, i).digest == head.digest
  {
  }

  /** And the other way round: the loop passes only receipts that tell their events. */
  lemma {:induction false} WalkedIsTold(ctx: Context, side: Store, primary: Store, backup: Store, head: HistoryHead,
                                        events: seq<HistoryEvent>, n: nat)
    requires ReceiptWalk(ctx, side, primary, backup, head, 0, GenesisLink(ctx)).Some?
    requires events == Told(side, primary, head.sequence) && n <= head.sequence
    ensures Has(side, ReceiptKey(0), Receipt(ctx.orgId, 0, None, ctx.genesis))
    ensures forall i :: 1 <= i <= n ==> TellsAt(ctx, side, primary, backup, events, i)
    ensures LinkBefore(ctx, side, primary, backup, head, n + 1) == Some(Tip(ctx, events, n))
    ensures n > 0 ==> Meets(ctx, events, n, head)
  {
    WalkFollowsLinks(ctx, side, primary, backup, head, n);
    WalkFollowsLinks(ctx, side, primary, backup, head, n + 1);
    if n > 0 {
      WalkedIsTold(ctx, side, primary, backup, head, events, n - 1);
      PassedReceipt(ctx, side, primary, backup, head, n);
      StepTells(ctx, side, primary, backup, head, events, n);
    }
  }

  /* ---------- verification ---------- */

  /** `events` are the chain of the head, `x` and `y` what the two copies of the receipts tell. */
  ghost predicate Verifies(ctx: Context, primary: Store, backup: Store, head: HistoryHead, events: seq<HistoryEvent>,
                           x: seq<HistoryEvent>, y: seq<HistoryEvent>)
  {
    && Names(ctx, primary, head)
    && Chains(ctx, primary, events) && |events| == head.sequence
    && Tells(ctx, primary, primary, backup, x) && |x| == head.sequence
    && Tells(ctx, backup, primary, backup, y) && |y| == head.sequence
    && Tip(ctx, events, head.sequence) == Tip(ctx, x, head.sequence) == Tip(ctx, y, head.sequence)
       == Link(head.digest, head.operationId)
  }

  /** `verified_head` in full, for any two stores: it answers a head if and only if the primary store names it and
      three readings end in it: a chain of stored events from genesis, and the events told by the receipts of
      either copy, each of them registered and without any other receipt. */
  lemma VerifiedHeadIff(ctx: Context, primary: Store, backup: Store, head: HistoryHead)
    ensures VerifiedHead(ctx, primary, backup) == Some(head)
       <==> exists events, x, y :: Verifies(ctx, primary, backup, head, events, x, y)
  {
    NamesIsStored(ctx, primary, head);
    KeysExactly(primary, head.sequence);
    KeysExactly(backup, head.sequence);
    if VerifiedHead(ctx, primary, backup) == Some(head) {
      var events := VerifiedChain(ctx, primary, backup);
      ChainsIff(ctx, primary, events);
      var x, y := Told(primary, primary, head.sequence), Told(backup, primary, head.sequence);
      SideTells(ctx, primary, primary, backup, head, x);
      SideTells(ctx, backup, primary, backup, head, y);
      assert Tip(ctx, events, |events|) == LinkOf(ctx, events, |events|);
      assert Verifies(ctx, primary, backup, head, events, x, y);
    }
    if exists events, x, y :: Verifies(ctx, primary, backup, head, events, x, y) {
      var events, x, y :| Verifies(ctx, primary, backup, head, events, x, y);
      ChainsIff(ctx, primary, events);
      WalkComplete(ctx, primary, events);
      ToldIsWalked(ctx, primary, primary, backup, head, x, 0);
      ToldIsWalked(ctx, backup, primary, backup, head, y, 0);
    }
  }

  lemma SideTells(ctx: Context, side: Store, primary: Store, backup: Store, head: HistoryHead, events: seq<HistoryEvent>)
    requires CatalogSideOk(ctx, side, primary, backup, head) && events == Told(side, primary, head.sequence)
    requires head.sequence == 0 ==> head.digest == ctx.genesis
    ensures Tells(ctx, side, primary, backup, events)
    ensures Tip(ctx, events, head.sequence) == Link(head.digest, head.operationId)
  {
    KeysExactly(side, head.sequence);
    WalkedIsTold(ctx, side, primary, backup, head, events, head.sequence);
    WalkFollowsLinks(ctx, side, primary, backup, head, head.sequence + 1);
  }

  /* ---------- reconstruction ---------- */

  /** Both copies hold a document. */
  predicate Both(primary: Store, backup: Store, key: Key, body: Body) {
    Has(primary, key, body) && Has(backup, key, body)
  }

  /** Event `i` and its receipt, in both copies. */
  predicate RecordsAt(ctx: Context, primary: Store, backup: Store, events: seq<HistoryEvent>, i: nat)
    requires 1 <= i <= |events|
  {
    var event := events[i - 1];
    && ChainsAt(ctx, primary, events, i)
    && Both(primary, backup, EventKey(event.operationId), Event(event))
    && Both(primary, backup, ReceiptKey(i), Receipt(ctx.orgId, i, Some(event.operationId), ctx.hash(event)))
  }

  /** Both copies are registered and hold the events, their receipts and no other receipt. */
  ghost predicate Records(ctx: Context, primary: Store, backup: Store, events: seq<HistoryEvent>) {
    && Both(primary, backup, CatalogKey, Registration(ctx.orgId))
    && ReceiptsExactly(primary, |events|) && ReceiptsExactly(backup, |events|)
    && Both(primary, backup, ReceiptKey(0), Receipt(ctx.orgId, 0, None, ctx.genesis))
    && forall i :: 1 <= i <= |events| ==> RecordsAt(ctx, primary, backup, events, i)
  }

  lemma RecordsIff(ctx: Context, primary: Store, backup: Store, events: seq<HistoryEvent>)
    ensures Records(ctx, primary, backup, events) <==> Complete(ctx, primary, backup, events)
  {
    KeysExactly(primary, |events|);
    KeysExactly(backup, |events|);
    if Records(ctx, primary, backup, events) {
      forall i | 0 <= i < |events|
        ensures ChainedAt(ctx, events, i)
        ensures primary.Holds(EventKey(events[i].operationId), Event(events[i]))
        ensures backup.Holds(EventKey(events[i].operationId), Event(events[i]))
      {
        assert RecordsAt(ctx, primary, backup, events, i + 1);
      }
      forall i | 0 <= i <= |events|
        ensures primary.Holds(ReceiptKey(i), ReceiptBody(ctx, events, i))
        ensures backup.Holds(ReceiptKey(i), ReceiptBody(ctx, events, i))
      {
        if i > 0 {
          assert RecordsAt(ctx, primary, backup, events, i);
        }
      }
    }
    if Complete(ctx, primary, backup, events) {
      assert primary.Holds(ReceiptKey(0), ReceiptBody(ctx, events, 0));
      assert backup.Holds(ReceiptKey(0), ReceiptBody(ctx, events, 0));
      forall i | 1 <= i <= |events| ensures RecordsAt(ctx, primary, backup, events, i) {
        assert ChainedAt(ctx, events, i - 1);
        assert primary.Holds(EventKey(events[i - 1].operationId), Event(events[i - 1]));
        assert backup.Holds(EventKey(events[i - 1].operationId), Event(events[i - 1]));
        assert primary.Holds(ReceiptKey(i), ReceiptBody(ctx, events, i));
        assert backup.Holds(ReceiptKey(i), ReceiptBody(ctx, events, i));
      }
    }
  }

  /** A stored head is a document with the number and digest of some event before the last, or with those and the
      operation of the last. */
  predicate HeadFits(ctx: Context, primary: Store, events: seq<HistoryEvent>) {
    HeadKey in primary.objects ==>
      var body := primary.objects[HeadKey].body;
      && (body.Head? || body.Receipt?)
      && 0 <= body.sequence <= |events|
      && body.digest == Tip(ctx, events, body.sequence).digest
      && (body.sequence == |events| ==>
            |events| > 0 && Tip(ctx, events, |events|).operationId == if body.Head? then Some(body.tip) else body.operationId)
  }

  /** The loop of reconstruction passes only records that both copies hold. */
  lemma {:induction false} RebuiltIsRecorded(ctx: Context, primary: Store, backup: Store, events: seq<HistoryEvent>, n: nat)
    requires n <= |events| + 1 && events == Told(primary, primary, |events|)
    requires RebuildWalk(ctx, primary, backup, n, |events| + 1, if n == 0 then GenesisLink(ctx) else Tip(ctx, events, n - 1)).Some?
    ensures n == 0 ==> Both(primary, backup, ReceiptKey(0), Receipt(ctx.orgId, 0, None, ctx.genesis))
    ensures forall i :: n <= i <= |events| && i > 0 ==> RecordsAt(ctx, primary, backup, events, i)
    ensures RebuildWalk(ctx, primary, backup, n, |events| + 1, if n == 0 then GenesisLink(ctx) else Tip(ctx, events, n - 1))
         == Some(Tip(ctx, events, |events|))
    decreases |events| + 1 - n
  {
    if n <= |events| {
      if n > 0 {
        StepRecorded(ctx, primary, backup, events, n);
      }
      RebuiltIsRecorded(ctx, primary, backup, events, n + 1);
    }
  }

  lemma StepRecorded(ctx: Context, primary: Store, backup: Store, events: seq<HistoryEvent>, i: nat)
    requires 1 <= i <= |events| && events == Told(primary, primary, |events|)
    requires RebuildStep(ctx, primary, backup, i, Tip(ctx, events, i - 1)).Some?
    ensures RecordsAt(ctx, primary, backup, events, i)
    ensures RebuildStep(ctx, primary, backup, i, Tip(ctx, events, i - 1)) == Some(Tip(ctx, events, i))
  {
    assert ReceiptEvent(primary, primary, i) == Some(events[i - 1]);
  }

  lemma RebuiltRecords(ctx: Context, primary: Store, backup: Store) returns (events: seq<HistoryEvent>)
    requires Reconstruct(ctx, primary, backup).result.Success?
    ensures Records(ctx, primary, backup, events)
    ensures Reconstruct(ctx, primary, backup) == RestoreHead(ctx, primary, backup, |events|, Tip(ctx, events, |events|))
  {
    var highest := |primary.ReceiptKeys()| - 1;
    events := Told(primary, primary, highest);
    KeysExactly(primary, highest);
    KeysExactly(backup, highest);
    RebuiltIsRecorded(ctx, primary, backup, events, 0);
  }

  /** A head of the last number verifies on these records exactly if it names the last event. */
  lemma LastHeadFits(ctx: Context, primary: Store, backup: Store, events: seq<HistoryEvent>)
    requires Records(ctx, primary, backup, events) && HeadKey in primary.objects
    requires VerifiedHead(ctx, primary, backup).Some? && VerifiedHead(ctx, primary, backup).value.sequence == |events|
    ensures HeadFits(ctx, primary, events)
  {
    var head := VerifiedHead(ctx, primary, backup).value;
    var x := Told(primary, primary, |events|);
    SideTells(ctx, primary, primary, backup, head, x);
    if events != [] {
      assert RecordsAt(ctx, primary, backup, events, |events|);
      assert ReceiptEvent(primary, primary, |events|) == Some(events[|events| - 1]);
      assert Tip(ctx, x, |events|) == Tip(ctx, events, |events|);
    }
  }

  lemma RebuiltFits(ctx: Context, primary: Store, backup: Store, events: seq<HistoryEvent>)
    requires Records(ctx, primary, backup, events)
    requires RestoreHead(ctx, primary, backup, |events|, Tip(ctx, events, |events|)).result.Success?
    ensures HeadFits(ctx, primary, events)
  {
    if HeadKey in primary.objects {
      var position := HeadPosition(primary.objects[HeadKey].body).value;
      if position.0 == |events| {
        LastHeadFits(ctx, primary, backup, events);
      } else {
        assert ReceiptKey(position.0) in primary.objects;
        if position.0 > 0 {
          assert RecordsAt(ctx, primary, backup, events, position.0);
        }
      }
    }
  }

  /** The primary store afterwards: the head of the last event is written unless the log is empty or it is there. */
  function Rebuilt(ctx: Context, primary: Store, events: seq<HistoryEvent>): map<Key, Object>
    requires HeadFits(ctx, primary, events)
  {
    var n := |events|;
    if n == 0 || (HeadKey in primary.objects && primary.objects[HeadKey].body.sequence == n) then primary.objects
    else primary.objects[HeadKey := Object(Head(n, ctx.hash(events[n - 1]), events[n - 1].operationId), primary.clock)]
  }

  lemma FittingRebuilds(ctx: Context, primary: Store, backup: Store, events: seq<HistoryEvent>)
    requires Records(ctx, primary, backup, events) && HeadFits(ctx, primary, events)
    ensures var rebuilt := Reconstruct(ctx, primary, backup);
            && rebuilt.result.Success? && rebuilt.backup == backup
            && rebuilt.primary.objects == Rebuilt(ctx, primary, events)
            && rebuilt.result.value.sequence == |events|
            && Link(rebuilt.result.value.digest, rebuilt.result.value.operationId) == Tip(ctx, events, |events|)
            && VerifiedEvents(ctx, rebuilt.primary, backup) == Some(events)
  {
    RecordsIff(ctx, primary, backup, events);
    ReconstructReachesTip(ctx, primary, backup, events);
    if HeadKey in primary.objects {
      var body := primary.objects[HeadKey].body;
      if body.sequence == |events| {
        CompleteVerifies(ctx, primary, backup, events, StoredHead(ctx, primary).value);
      } else {
        assert primary.Holds(ReceiptKey(body.sequence), ReceiptBody(ctx, events, body.sequence));
        WriteHeadVerifies(ctx, primary, backup, events);
      }
    } else if events == [] {
      CompleteVerifies(ctx, primary, backup, events, GenesisHead(ctx));
    } else {
      WriteHeadVerifies(ctx, primary, backup, events);
    }
  }

  /** `reconstruct_head_from_receipts` in full, for any two stores: it succeeds if and only if both copies hold exactly
      the records of some chain and a stored head fits it. Then it comes back to the last event of that chain, which
      verifies, and writes at most the head; otherwise it is refused and nothing changes. */
  lemma ReconstructIff(ctx: Context, primary: Store, backup: Store)
    ensures var rebuilt := Reconstruct(ctx, primary, backup);
            && (rebuilt.result.Success? <==>
                  exists events :: Records(ctx, primary, backup, events) && HeadFits(ctx, primary, events))
            && (rebuilt.result.Failure? ==> rebuilt == Outcome(primary, backup, Failure(Unverified)))
            && (forall events :: Records(ctx, primary, backup, events) && HeadFits(ctx, primary, events) ==>
                  && rebuilt.result.Success? && rebuilt.backup == backup
                  && rebuilt.primary.objects == Rebuilt(ctx, primary, events)
                  && rebuilt.result.value.sequence == |events|
                  && Link(rebuilt.result.value.digest, rebuilt.result.value.operationId) == Tip(ctx, events, |events|)
                  && VerifiedEvents(ctx, rebuilt.primary, backup) == Some(events))
  {
    var rebuilt := Reconstruct(ctx, primary, backup);
    if rebuilt.result.Success? {
      var events := RebuiltRecords(ctx, primary, backup);
      RebuiltFits(ctx, primary, backup, events);
    }
    forall events | Records(ctx, primary, backup, events) && HeadFits(ctx, primary, events)
      ensures rebuilt.result.Success? && rebuilt.backup == backup
      ensures rebuilt.primary.objects == Rebuilt(ctx, primary, events)
      ensures rebuilt.result.value.sequence == |events|
      ensures Link(rebuilt.result.value.digest, rebuilt.result.value.operationId) == Tip(ctx, events, |events|)
      ensures VerifiedEvents(ctx, rebuilt.primary, backup) == Some(events)
    {
      FittingRebuilds(ctx, primary, backup, events);
    }
    if rebuilt.result.Failure? {
      RefusedUnchanged(ctx, primary, backup);
    }
  }

  lemma RefusedUnchanged(ctx: Context, primary: Store, backup: Store)
    requires Reconstruct(ctx, primary, backup).result.Failure?
    ensures Reconstruct(ctx, primary, backup) == Outcome(primary, backup, Failure(Unverified))
  {
    var highest := |primary.ReceiptKeys()| - 1;
    if highest >= 0 && primary.ReceiptKeys() == ReceiptRange(highest) == backup.ReceiptKeys()
       && Both(primary, backup, CatalogKey, Registration(ctx.orgId))
       && RebuildWalk(ctx, primary, backup, 0, highest + 1, GenesisLink(ctx)).Some?
    {
      var events := Told(primary, primary, highest);
      KeysExactly(primary, highest);
      KeysExactly(backup, highest);
      RebuiltIsRecorded(ctx, primary, backup, events, 0);
      RecordsIff(ctx, primary, backup, events);
      if events != [] {
        WriteHeadVerifies(ctx, primary, backup, events);
      }
    }
  }

  /* ---------- repair and registration ---------- */

  /** The store with a document that it lacked. */
  function With(store: Store, key: Key, body: Body): Store {
    if key in store.objects then store else Store(store.objects[key := Object(body, store.clock)], store.clock + 1)
  }

  predicate FreeOrSame(store: Store, key: Key, body: Body) {
    key in store.objects ==> store.objects[key].body == body
  }

  /** An immutable record is written into both copies if and only if neither holds another document under its key;
      the primary copy comes first, so it is written even where the backup copy then refuses. */
  lemma ImmutableIff(primary: Store, backup: Store, key: Key, body: Body)
    ensures var put := PutImmutable(primary, backup, key, body);
            && (put.result.Success? <==> FreeOrSame(primary, key, body) && FreeOrSame(backup, key, body))
            && (put.result.Failure? ==> put.result.error == Conflict)
            && put.primary == (if FreeOrSame(primary, key, body) then With(primary, key, body) else primary)
            && put.backup == (if put.result.Success? then With(backup, key, body) else backup)
  {
  }

  /** Registration succeeds if and only if neither copy holds another document under either of its two keys, and then
      both copies hold the catalog entry and the genesis receipt. */
  lemma RegisterIff(ctx: Context, primary: Store, backup: Store)
    ensures var done := Appending.Register(ctx, primary, backup);
            var entry, receipt := Registration(ctx.orgId), Receipt(ctx.orgId, 0, None, ctx.genesis);
            && (done.result.Success? <==>
                  && FreeOrSame(primary, CatalogKey, entry) && FreeOrSame(backup, CatalogKey, entry)
                  && FreeOrSame(primary, ReceiptKey(0), receipt) && FreeOrSame(backup, ReceiptKey(0), receipt))
            && (done.result.Failure? ==> done.result.error == Conflict)
            && (done.result.Success? ==>
                  && done.primary == With(With(primary, CatalogKey, entry), ReceiptKey(0), receipt)
                  && done.backup == With(With(backup, CatalogKey, entry), ReceiptKey(0), receipt))
  {
    var entry := PutImmutable(primary, backup, CatalogKey, Registration(ctx.orgId));
    ImmutableIff(primary, backup, CatalogKey, Registration(ctx.orgId));
    ImmutableIff(entry.primary, entry.backup, ReceiptKey(0), GenesisReceipt(ctx));
  }

  /** The last event is the same in both copies and is the one the head describes, and the receipts before it are
      the same in both copies and carry the link that the event names. */
  ghost predicate TailAgrees(ctx: Context, primary: Store, backup: Store, head: HistoryHead) {
    && head.operationId.Some?
    && exists event :: TailAt(ctx, primary, backup, head, event)
  }

  predicate TailAt(ctx: Context, primary: Store, backup: Store, head: HistoryHead, event: HistoryEvent) {
    var before := ReceiptKey(head.sequence - 1);
    && Both(primary, backup, EventKey(event.operationId), Event(event))
    && head.operationId == Some(event.operationId) && head.digest == ctx.hash(event)
    && event.orgId == ctx.orgId && event.sequence == head.sequence
    && before in primary.objects && Has(backup, before, primary.objects[before].body)
    && var body := primary.objects[before].body;
       && (body.Receipt? || body.Head?)
       && body.digest == event.previousDigest
       && event.previousOperationId == if body.Head? then Some(body.tip) else body.operationId
  }

  lemma TailIff(ctx: Context, primary: Store, backup: Store, head: HistoryHead)
    requires head.operationId.Some? && head.sequence >= 1
    ensures TailAgrees(ctx, primary, backup, head) <==> TailVerified(ctx, primary, backup, head)
  {
    if TailVerified(ctx, primary, backup, head) {
      assert TailAt(ctx, primary, backup, head, primary.objects[EventKey(head.operationId.value)].body.event);
    }
  }

  /** `repair_interrupted_receipt` in full, for any two stores. Without a head object, or with the last receipt in both
      copies, there is nothing to repair; a head that is no head, a tail that disagrees or another document under
      the receipt's key is refused; none of these writes. Otherwise exactly the missing copies of the last receipt
      are written, and the answer is whether the stores then verify. */
  lemma RepairDecided(ctx: Context, primary: Store, backup: Store)
    ensures var done := Repair(ctx, primary, backup);
            && (HeadKey !in primary.objects ==> done == Outcome(primary, backup, Success(false)))
            && (HeadKey in primary.objects && (forall head :: !Names(ctx, primary, head)) ==>
                  done == Outcome(primary, backup, Failure(Unverified)))
            && (forall head :: HeadKey in primary.objects && Names(ctx, primary, head) ==>
                  var key := ReceiptKey(head.sequence);
                  var receipt := Receipt(ctx.orgId, head.sequence, head.operationId, head.digest);
                  if key in primary.objects && key in backup.objects then
                    done == Outcome(primary, backup, Success(false))
                  else if TailAgrees(ctx, primary, backup, head)
                          && FreeOrSame(primary, key, receipt) && FreeOrSame(backup, key, receipt) then
                    && done.primary == With(primary, key, receipt) && done.backup == With(backup, key, receipt)
                    && done.result == if VerifiedHead(ctx, done.primary, done.backup).Some? then Success(true)
                                      else Failure(Unverified)
                  else done == Outcome(primary, backup, Failure(Unverified)))
  {
    var stored := StoredHead(ctx, primary);
    forall head ensures Names(ctx, primary, head) <==> stored == Some(head) {
      NamesIsStored(ctx, primary, head);
    }
    if HeadKey in primary.objects && stored.Some? {
      TailIff(ctx, primary, backup, stored.value);
      assert Names(ctx, primary, stored.value);
    }
  }

  /** The restore sequence of one organization, for any two stores: it succeeds if and only if the repair does and
      leaves exactly the records of some chain with a fitting head, and then that chain verifies. A repair that fails
      ends it with the stores and the error of the repair; a reconstruction that fails leaves the repaired stores. */
  lemma RecoverIff(ctx: Context, primary: Store, backup: Store)
    ensures var repaired := Repair(ctx, primary, backup);
            var done := Recover(ctx, primary, backup);
            && (done.result.Success? <==>
                  && repaired.result.Success?
                  && exists events :: Records(ctx, repaired.primary, repaired.backup, events)
                                      && HeadFits(ctx, repaired.primary, events))
            && (done.result.Failure? ==>
                  && done.primary == repaired.primary && done.backup == repaired.backup
                  && done.result.error == if repaired.result.Failure? then repaired.result.error else Unverified)
            && (forall events :: done.result.Success? && Records(ctx, repaired.primary, repaired.backup, events)
                                 && HeadFits(ctx, repaired.primary, events) ==>
                  && done.backup == repaired.backup && done.primary.objects == Rebuilt(ctx, repaired.primary, events)
                  && VerifiedEvents(ctx, done.primary, done.backup) == Some(events))
  {
    var repaired := Repair(ctx, primary, backup);
    ReconstructIff(ctx, repaired.primary, repaired.backup);
  }
}
