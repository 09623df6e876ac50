/** What a successful verification means, for any two stores whatever put them in their state. */
module HistoryFacts {
  import opened Wrappers
  import opened HistoryModel

  /* ---------- chains ---------- */

  /** The link that event number `n + 1` must carry. */
  function LinkOf(ctx: Context, events: seq<HistoryEvent>, n: nat): Link
    requires n <= |events|
  {
    if n == 0 then GenesisLink(ctx) else Link(ctx.hash(events[n - 1]), Some(events[n - 1].operationId))
  }

  predicate ChainedAt(ctx: Context, events: seq<HistoryEvent>, i: nat)
    requires i < |events|
  {
    && events[i].orgId == ctx.orgId
    && events[i].sequence == i + 1
    && events[i].previousDigest == LinkOf(ctx, events, i).digest
    && events[i].previousOperationId == LinkOf(ctx, events, i).operationId
  }

  ghost predicate Chained(ctx: Context, events: seq<HistoryEvent>) {
    forall i :: 0 <= i < |events| ==> ChainedAt(ctx, events, i)
  }

  ghost predicate Stored(store: Store, events: seq<HistoryEvent>) {
    forall i :: 0 <= i < |events| ==> ReadEvent(store, events[i].operationId) == Some(events[i])
  }

  ghost predicate OnChain(events: seq<HistoryEvent>, operationId: Uuid) {
    exists i :: 0 <= i < |events| && events[i].operationId == operationId
  }

  lemma ChainedPrefix(ctx: Context, events: seq<HistoryEvent>, n: nat)
    requires Chained(ctx, events) && n <= |events|
    ensures Chained(ctx, events[..n])
  {
    forall i | 0 <= i < n ensures ChainedAt(ctx, events[..n], i) {
      assert ChainedAt(ctx, events, i);
    }
  }

  lemma ChainedExtend(ctx: Context, events: seq<HistoryEvent>, event: HistoryEvent)
    requires Chained(ctx, events)
    requires event.orgId == ctx.orgId && event.sequence == |events| + 1
    requires Link(event.previousDigest, event.previousOperationId) == LinkOf(ctx, events, |events|)
    ensures Chained(ctx, events + [event])
  {
    var all := events + [event];
    forall i | 0 <= i < |all| ensures ChainedAt(ctx, all, i) {
      if i < |events| {
        assert ChainedAt(ctx, events, i);
      }
    }
  }

  /** The backward walk succeeds exactly on a stored chain that starts at genesis: `sequence` links,
      consecutive sequence numbers, every link digest-checked. */
  lemma {:induction false} WalkSound(ctx: Context, store: Store, cursor: Option<Uuid>, expected: Digest, sequence: nat)
    requires WalkBack(ctx, store, cursor, expected, sequence).Some?
    ensures var events := WalkBack(ctx, store, cursor, expected, sequence).value;
            && |events| == sequence
            && Chained(ctx, events)
            && Stored(store, events)
            && LinkOf(ctx, events, sequence) == Link(expected, cursor)
    decreases sequence
  {
    if sequence > 0 {
      var event := ReadEvent(store, cursor.value).value;
      WalkSound(ctx, store, event.previousOperationId, event.previousDigest, sequence - 1);
      var earlier := WalkBack(ctx, store, event.previousOperationId, event.previousDigest, sequence - 1).value;
      ChainedExtend(ctx, earlier, event);
    }
  }

  lemma {:induction false} WalkComplete(ctx: Context, store: Store, events: seq<HistoryEvent>)
    requires Chained(ctx, events) && Stored(store, events)
    ensures var link := LinkOf(ctx, events, |events|);
            WalkBack(ctx, store, link.operationId, link.digest, |events|) == Some(events)
  {
    if events != [] {
      var n := |events| - 1;
      var earlier := events[..n];
      ChainedPrefix(ctx, events, n);
      WalkComplete(ctx, store, earlier);
      assert ChainedAt(ctx, events, n);
      assert LinkOf(ctx, earlier, n) == LinkOf(ctx, events, n);
      assert events == earlier + [events[n]];
    }
  }

  /** A stored chain never repeats an operation: one key holds one event, and that event one number. */
  lemma StoredDistinct(ctx: Context, store: Store, events: seq<HistoryEvent>, i: nat, j: nat)
    requires Chained(ctx, events) && Stored(store, events)
    requires i < |events| && j < |events| && events[i].operationId == events[j].operationId
    ensures i == j
  {
    assert ChainedAt(ctx, events, i) && ChainedAt(ctx, events, j);
  }

  /** A verified head always has its chain. */
  lemma VerifiedChain(ctx: Context, primary: Store, backup: Store) returns (events: seq<HistoryEvent>)
    requires VerifiedHead(ctx, primary, backup).Some?
    ensures var head := VerifiedHead(ctx, primary, backup).value;
            && WalkHead(ctx, primary, head) == Some(events)
            && |events| == head.sequence
            && Chained(ctx, events) && Stored(primary, events)
            && LinkOf(ctx, events, head.sequence) == Link(head.digest, head.operationId)
  {
    var head := VerifiedHead(ctx, primary, backup).value;
    events := WalkHead(ctx, primary, head).value;
    WalkSound(ctx, primary, head.operationId, head.digest, head.sequence);
  }

  /* ---------- the three readings of one verified head agree ---------- */

  lemma {:induction false} CollectAgrees(ctx: Context, store: Store, events: seq<HistoryEvent>)
    requires Chained(ctx, events) && Stored(store, events)
    ensures Collect(ctx, store, LinkOf(ctx, events, |events|).operationId, |events|) == Some(events)
  {
    if events != [] {
      var n := |events| - 1;
      ChainedPrefix(ctx, events, n);
      CollectAgrees(ctx, store, events[..n]);
      assert ChainedAt(ctx, events, n);
      assert LinkOf(ctx, events[..n], n) == LinkOf(ctx, events, n);
      assert events == events[..n] + [events[n]];
    }
  }

  lemma {:induction false} SearchAgrees(ctx: Context, store: Store, events: seq<HistoryEvent>, operationId: Uuid)
    requires Chained(ctx, events) && Stored(store, events)
    ensures var found := Search(store, LinkOf(ctx, events, |events|).operationId, |events|, operationId);
            && !found.Broken?
            && (found.Present? <==> OnChain(events, operationId))
            && (found.Present? ==> found.event in events && found.event.operationId == operationId)
  {
    if events != [] {
      var n := |events| - 1;
      var earlier := events[..n];
      ChainedPrefix(ctx, events, n);
      SearchAgrees(ctx, store, earlier, operationId);
      assert ChainedAt(ctx, events, n);
      assert LinkOf(ctx, earlier, n) == LinkOf(ctx, events, n);
      assert events == earlier + [events[n]];
      if events[n].operationId == operationId {
        assert OnChain(events, operationId);
      } else if OnChain(events, operationId) {
        var i :| 0 <= i < |events| && events[i].operationId == operationId;
        assert earlier[i].operationId == operationId;
      }
    }
  }

  /** `verified_events` returns the walked chain, in order 1..n. */
  lemma VerifiedEventsAreTheChain(ctx: Context, primary: Store, backup: Store)
    requires VerifiedHead(ctx, primary, backup).Some?
    ensures var head := VerifiedHead(ctx, primary, backup).value;
            var events := VerifiedEvents(ctx, primary, backup);
            && events.Some? && events == WalkHead(ctx, primary, head)
            && |events.value| == head.sequence
            && Chained(ctx, events.value)
  {
    var events := VerifiedChain(ctx, primary, backup);
    CollectAgrees(ctx, primary, events);
  }

  /** `accepted` answers exactly for the operations of the verified chain, each with its own event. */
  lemma AcceptedIffOnChain(ctx: Context, primary: Store, backup: Store, operationId: Uuid)
    requires VerifiedHead(ctx, primary, backup).Some?
    ensures var events := VerifiedEvents(ctx, primary, backup);
            var answer := Accepted(ctx, primary, backup, operationId);
            && events.Some?
            && !answer.Broken?
            && (answer.Present? <==> OnChain(events.value, operationId))
            && (answer.Present? ==>
                  answer.event.operationId == operationId
                  && 1 <= answer.event.sequence <= |events.value|
                  && events.value[answer.event.sequence - 1] == answer.event)
  {
    VerifiedEventsAreTheChain(ctx, primary, backup);
    var events := VerifiedChain(ctx, primary, backup);
    SearchAgrees(ctx, primary, events, operationId);
    var answer := Accepted(ctx, primary, backup, operationId);
    if answer.Present? {
      var i :| 0 <= i < |events| && events[i] == answer.event;
      assert ChainedAt(ctx, events, i);
    }
  }

  /* ---------- the forward receipt walk ---------- */

  /** The link the receipt loop holds when it reaches `sequence`. */
  function LinkBefore(ctx: Context, side: Store, primary: Store, backup: Store, head: HistoryHead, sequence: nat)
    : Option<Link>
  {
    if sequence == 0 then Some(GenesisLink(ctx))
    else
      match LinkBefore(ctx, side, primary, backup, head, sequence - 1)
      case None => None
      case Some(previous) => ReceiptStep(ctx, side, primary, backup, head, sequence - 1, previous)
  }

  lemma {:induction false} WalkFollowsLinks(ctx: Context, side: Store, primary: Store, backup: Store,
                                            head: HistoryHead, sequence: nat)
    requires ReceiptWalk(ctx, side, primary, backup, head, 0, GenesisLink(ctx)).Some?
    requires sequence <= head.sequence + 1
    ensures LinkBefore(ctx, side, primary, backup, head, sequence).Some?
    ensures ReceiptWalk(ctx, side, primary, backup, head, sequence,
                        LinkBefore(ctx, side, primary, backup, head, sequence).value)
         == ReceiptWalk(ctx, side, primary, backup, head, 0, GenesisLink(ctx))
  {
    if sequence > 0 {
      WalkFollowsLinks(ctx, side, primary, backup, head, sequence - 1);
    }
  }

  /** The event that receipt `sequence` of one copy names, read from the primary store. */
  function ReceiptEvent(side: Store, primary: Store, sequence: nat): Option<HistoryEvent> {
    if !side.Has(ReceiptKey(sequence)) then None
    else
      var body := side.objects[ReceiptKey(sequence)].body;
      if body.Receipt? && body.operationId.Some? then ReadEvent(primary, body.operationId.value) else None
  }

  ghost predicate Holds(store: Store, event: HistoryEvent) {
    exists operationId :: ReadEvent(store, operationId) == Some(event)
  }

  /** Two different documents of the given stores with one digest. */
  ghost predicate Collision(ctx: Context, left: Store, right: Store, a: HistoryEvent, b: HistoryEvent) {
    a != b && ctx.hash(a) == ctx.hash(b) && Holds(left, a) && Holds(right, b)
  }

  /** Receipt `i` of one copy names the event that the backward walk found at `i`, and the backup copy
      holds it, for every `i` from `from` up. */
  ghost predicate ReceiptsName(side: Store, primary: Store, backup: Store, events: seq<HistoryEvent>, from: nat) {
    forall i :: from < i <= |events| ==>
      && ReceiptEvent(side, primary, i) == Some(events[i - 1])
      && backup.Holds(EventKey(events[i - 1].operationId), Event(events[i - 1]))
  }

  const BLANK := HistoryEvent(0, 0, 0, None, "", "", "", None, "", "")

  /** What one successful iteration of the receipt loop read. */
  lemma StepReads(ctx: Context, side: Store, primary: Store, backup: Store, head: HistoryHead, sequence: nat, previous: Link)
    requires sequence >= 1
    requires ReceiptStep(ctx, side, primary, backup, head, sequence, previous).Some?
    ensures var next := ReceiptStep(ctx, side, primary, backup, head, sequence, previous).value;
            var found := ReceiptEvent(side, primary, sequence);
            && found.Some? && Holds(primary, found.value)
            && next.digest == ctx.hash(found.value)
            && previous.digest == found.value.previousDigest
            && backup.Holds(EventKey(found.value.operationId), Event(found.value))
            && (sequence == head.sequence ==> next.digest == head.digest)
  {
    var body := side.objects[ReceiptKey(sequence)].body;
    assert ReadEvent(primary, body.operationId.value) == ReceiptEvent(side, primary, sequence);
  }

  /** Every receipt a completed loop passed was read, and the link after it was passed on. */
  lemma LoopReads(ctx: Context, side: Store, primary: Store, backup: Store, head: HistoryHead, sequence: nat)
    requires ReceiptWalk(ctx, side, primary, backup, head, 0, GenesisLink(ctx)).Some?
    requires 1 <= sequence <= head.sequence
    ensures var found := ReceiptEvent(side, primary, sequence);
            var before := LinkBefore(ctx, side, primary, backup, head, sequence);
            var after := LinkBefore(ctx, side, primary, backup, head, sequence + 1);
            && found.Some? && Holds(primary, found.value)
            && before.Some? && before.value.digest == found.value.previousDigest
            && after.Some? && after.value.digest == ctx.hash(found.value)
            && backup.Holds(EventKey(found.value.operationId), Event(found.value))
            && (sequence == head.sequence ==> after.value.digest == head.digest)
  {
    WalkFollowsLinks(ctx, side, primary, backup, head, sequence);
    WalkFollowsLinks(ctx, side, primary, backup, head, sequence + 1);
    StepReads(ctx, side, primary, backup, head, sequence, LinkBefore(ctx, side, primary, backup, head, sequence).value);
  }

  lemma NameOneMore(side: Store, primary: Store, backup: Store, events: seq<HistoryEvent>, from: nat)
    requires from < |events| && ReceiptsName(side, primary, backup, events, from + 1)
    requires ReceiptEvent(side, primary, from + 1) == Some(events[from])
    requires backup.Holds(EventKey(events[from].operationId), Event(events[from]))
    ensures ReceiptsName(side, primary, backup, events, from)
  {
    forall i | from < i <= |events|
      ensures ReceiptEvent(side, primary, i) == Some(events[i - 1])
      ensures backup.Holds(EventKey(events[i - 1].operationId), Event(events[i - 1]))
    {
      assert i == from + 1 || from + 1 < i;
    }
  }

  lemma {:induction false} ReceiptsNameDownTo(ctx: Context, side: Store, primary: Store, backup: Store,
                                              head: HistoryHead, events: seq<HistoryEvent>, from: nat)
    returns (a: HistoryEvent, b: HistoryEvent)
    requires ReceiptWalk(ctx, side, primary, backup, head, 0, GenesisLink(ctx)).Some?
    requires |events| == head.sequence && Chained(ctx, events) && Stored(primary, events)
    requires LinkOf(ctx, events, head.sequence).digest == head.digest
    requires from <= head.sequence
    ensures ReceiptsName(side, primary, backup, events, from) || Collision(ctx, primary, primary, a, b)
    decreases head.sequence - from
  {
    a, b := BLANK, BLANK;
    if from < head.sequence {
      a, b := ReceiptsNameDownTo(ctx, side, primary, backup, head, events, from + 1);
      if ReceiptsName(side, primary, backup, events, from + 1) {
        LoopReads(ctx, side, primary, backup, head, from + 1);
        var found := ReceiptEvent(side, primary, from + 1).value;
        assert ctx.hash(found) == ctx.hash(events[from]) by {
          if from + 1 < head.sequence {
            LoopReads(ctx, side, primary, backup, head, from + 2);
            assert ReceiptEvent(side, primary, from + 2) == Some(events[from + 1]);
            assert ChainedAt(ctx, events, from + 1);
          }
        }
        if found == events[from] {
          NameOneMore(side, primary, backup, events, from);
        } else {
          a, b := found, events[from];
          assert ReadEvent(primary, events[from].operationId) == Some(events[from]);
        }
      }
    }
  }

  /** Whenever `verified_head` succeeds, both copies of the receipts name, one by one and in order, the
      events of the backward walk, and the backup copy holds each of them; otherwise the primary store
      holds two different documents with one digest. */
  lemma ReceiptsAgreeWithWalk(ctx: Context, primary: Store, backup: Store)
    returns (a: HistoryEvent, b: HistoryEvent)
    requires VerifiedHead(ctx, primary, backup).Some?
    ensures var events := VerifiedEvents(ctx, primary, backup);
            && events.Some?
            && (|| (ReceiptsName(primary, primary, backup, events.value, 0)
                    && ReceiptsName(backup, primary, backup, events.value, 0))
                || Collision(ctx, primary, primary, a, b))
  {
    VerifiedEventsAreTheChain(ctx, primary, backup);
    var head := VerifiedHead(ctx, primary, backup).value;
    var events := VerifiedChain(ctx, primary, backup);
    a, b := ReceiptsNameDownTo(ctx, primary, primary, backup, head, events, 0);
    if ReceiptsName(primary, primary, backup, events, 0) {
      a, b := ReceiptsNameDownTo(ctx, backup, primary, backup, head, events, 0);
    }
  }

  /* ---------- tamper evidence ---------- */

  lemma {:induction false} SameTipSameChain(ctx: Context, left: Store, right: Store, x: seq<HistoryEvent>, y: seq<HistoryEvent>)
    returns (a: HistoryEvent, b: HistoryEvent)
    requires |x| == |y|
    requires Chained(ctx, x) && Stored(left, x)
    requires Chained(ctx, y) && Stored(right, y)
    requires LinkOf(ctx, x, |x|).digest == LinkOf(ctx, y, |y|).digest
    ensures x == y || Collision(ctx, left, right, a, b)
  {
    if x == [] {
      a, b := BLANK, BLANK;
    } else {
      var n := |x| - 1;
      if x[n] != y[n] {
        a, b := x[n], y[n];
        assert ReadEvent(left, x[n].operationId) == Some(x[n]);
        assert ReadEvent(right, y[n].operationId) == Some(y[n]);
      } else {
        assert ChainedAt(ctx, x, n) && ChainedAt(ctx, y, n);
        ChainedPrefix(ctx, x, n);
        ChainedPrefix(ctx, y, n);
        assert LinkOf(ctx, x[..n], n) == LinkOf(ctx, x, n) && LinkOf(ctx, y[..n], n) == LinkOf(ctx, y, n);
        a, b := SameTipSameChain(ctx, left, right, x[..n], y[..n]);
        assert x == x[..n] + [x[n]] && y == y[..n] + [y[n]];
      }
    }
  }

  /** Sequence and digest of a verified head pin the whole history: two pairs of stores that verify at the
      same sequence and digest return the same events, or they hold two different documents with one digest. */
  lemma TamperEvidence(ctx: Context, primary: Store, backup: Store, primary': Store, backup': Store)
    returns (a: HistoryEvent, b: HistoryEvent)
    requires VerifiedHead(ctx, primary, backup).Some? && VerifiedHead(ctx, primary', backup').Some?
    requires VerifiedHead(ctx, primary, backup).value.sequence == VerifiedHead(ctx, primary', backup').value.sequence
    requires VerifiedHead(ctx, primary, backup).value.digest == VerifiedHead(ctx, primary', backup').value.digest
    ensures VerifiedEvents(ctx, primary, backup).Some?
    ensures || VerifiedEvents(ctx, primary, backup) == VerifiedEvents(ctx, primary', backup')
            || Collision(ctx, primary, primary', a, b)
  {
    VerifiedEventsAreTheChain(ctx, primary, backup);
    VerifiedEventsAreTheChain(ctx, primary', backup');
    var x := VerifiedChain(ctx, primary, backup);
    var y := VerifiedChain(ctx, primary', backup');
    a, b := SameTipSameChain(ctx, primary, primary', x, y);
  }
}
