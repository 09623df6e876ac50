/** An appender that runs alone, with every call answered, does exactly what the sequential `append` does: the
    steps of the protocol refine the functions of the history, phase by phase. */
module HistorySolo {
  import opened Wrappers
  import opened HistoryModel
  import opened HistoryProtocol
  import opened HistoryRecovery
  import opened HistoryAppend
  import Theorems = HistoryTheorems

  /** The two stores and the program counter of the one appender. */
  datatype Point = Point(primary: Store, backup: Store, pc: Pc)

  function Alone(p: Point): State {
    State(p.primary, p.backup, {}, map[])
  }

  /** One answered step. */
  function SoloStep(ctx: Context, command: Command, p: Point): Point {
    var move := ProcMove(ctx, Alone(p), Proc(command, p.pc), Reply);
    var t := Perform(ctx, Alone(p), move.effect);
    Point(t.primary, t.backup, move.pc)
  }

  function SoloRun(ctx: Context, command: Command, p: Point, n: nat): Point
    decreases n
  {
    if n == 0 then p else SoloRun(ctx, command, SoloStep(ctx, command, p), n - 1)
  }

  ghost predicate Reaches(ctx: Context, command: Command, p: Point, q: Point) {
    exists n: nat :: SoloRun(ctx, command, p, n) == q
  }

  lemma {:induction false} RunAdds(ctx: Context, command: Command, p: Point, m: nat, n: nat)
    ensures SoloRun(ctx, command, p, m + n) == SoloRun(ctx, command, SoloRun(ctx, command, p, m), n)
    decreases m
  {
    if m > 0 {
      RunAdds(ctx, command, SoloStep(ctx, command, p), m - 1, n);
    }
  }

  lemma Transitive(ctx: Context, command: Command, p: Point, q: Point, r: Point)
    requires Reaches(ctx, command, p, q) && Reaches(ctx, command, q, r)
    ensures Reaches(ctx, command, p, r)
  {
    var m: nat :| SoloRun(ctx, command, p, m) == q;
    var n: nat :| SoloRun(ctx, command, q, n) == r;
    RunAdds(ctx, command, p, m, n);
  }

  lemma Stays(ctx: Context, command: Command, p: Point)
    ensures Reaches(ctx, command, p, p)
  {
    assert SoloRun(ctx, command, p, 0) == p;
  }

  lemma OneStep(ctx: Context, command: Command, p: Point)
    ensures Reaches(ctx, command, p, SoloStep(ctx, command, p))
  {
    assert SoloRun(ctx, command, SoloStep(ctx, command, p), 0) == SoloStep(ctx, command, p);
    assert SoloRun(ctx, command, p, 1) == SoloStep(ctx, command, p);
  }

  /** A step, then the rest. */
  lemma StepThen(ctx: Context, command: Command, p: Point, q: Point)
    requires Reaches(ctx, command, SoloStep(ctx, command, p), q)
    ensures Reaches(ctx, command, p, q)
  {
    OneStep(ctx, command, p);
    Transitive(ctx, command, p, SoloStep(ctx, command, p), q);
  }

  /* ---------- verification ---------- */

  lemma {:induction false} WalkRuns(ctx: Context, command: Command, p: Point)
    requires p.pc.WalkingEvents?
    ensures var pc := p.pc;
            var walked := WalkBack(ctx, p.primary, pc.cursor, pc.expected, pc.remaining);
            Reaches(ctx, command, p, p.(pc := if walked.Some? then ReadingEntry(pc.purpose, pc.head, Primary) else Raised))
    decreases p.pc.remaining
  {
    var q := SoloStep(ctx, command, p);
    if q.pc.WalkingEvents? {
      WalkRuns(ctx, command, q);
      StepThen(ctx, command, p, q.(pc :=
        if WalkBack(ctx, q.primary, q.pc.cursor, q.pc.expected, q.pc.remaining).Some?
        then ReadingEntry(p.pc.purpose, p.pc.head, Primary) else Raised));
    } else {
      OneStep(ctx, command, p);
    }
  }

  /** The receipt loop of the same pass at another number. */
  function ReceiptAt(pc: Pc, sequence: nat, previous: Link): Pc
    requires pc.ReadingReceipt?
  {
    ReadingReceipt(pc.purpose, pc.head, pc.side, sequence, previous)
  }

  /** One iteration of the receipt loop takes one step for receipt 0 and three for any other. */
  lemma ReceiptRuns(ctx: Context, command: Command, p: Point)
    requires p.pc.ReadingReceipt? && p.pc.sequence <= p.pc.head.sequence
    ensures var pc := p.pc;
            var step := ReceiptStep(ctx, SideStore(Alone(p), pc.side), p.primary, p.backup, pc.head, pc.sequence, pc.previous);
            Reaches(ctx, command, p, p.(pc := match step
                                              case None => Raised
                                              case Some(next) => ReceiptAt(pc, pc.sequence + 1, next)))
  {
    var q := SoloStep(ctx, command, p);
    OneStep(ctx, command, p);
    if q.pc.ReadingReceiptEvent? {
      var r := SoloStep(ctx, command, q);
      OneStep(ctx, command, q);
      Transitive(ctx, command, p, q, r);
      if r.pc.ReadingReceiptBackup? {
        OneStep(ctx, command, r);
        Transitive(ctx, command, p, r, SoloStep(ctx, command, r));
      }
    }
  }

  lemma {:induction false} ReceiptsRun(ctx: Context, command: Command, p: Point)
    requires p.pc.ReadingReceipt? && p.pc.sequence <= p.pc.head.sequence + 1
    ensures var pc := p.pc;
            var walked := ReceiptWalk(ctx, SideStore(Alone(p), pc.side), p.primary, p.backup, pc.head, pc.sequence, pc.previous);
            Reaches(ctx, command, p, p.(pc := match walked
                                              case None => Raised
                                              case Some(last) => ReceiptAt(pc, pc.head.sequence + 1, last)))
    decreases p.pc.head.sequence + 1 - p.pc.sequence
  {
    var pc := p.pc;
    if pc.sequence == pc.head.sequence + 1 {
      Stays(ctx, command, p);
    } else {
      ReceiptRuns(ctx, command, p);
      var step := ReceiptStep(ctx, SideStore(Alone(p), pc.side), p.primary, p.backup, pc.head, pc.sequence, pc.previous);
      if step.Some? {
        var q := p.(pc := ReceiptAt(pc, pc.sequence + 1, step.value));
        ReceiptsRun(ctx, command, q);
        var walked := ReceiptWalk(ctx, SideStore(Alone(p), pc.side), p.primary, p.backup, pc.head, pc.sequence, pc.previous);
        Transitive(ctx, command, p, q, p.(pc := match walked
                                                case None => Raised
                                                case Some(last) => ReceiptAt(pc, pc.head.sequence + 1, last)));
      }
    }
  }

  function AfterSide(purpose: Purpose, head: HistoryHead, side: Side): Pc {
    if side.Primary? then ReadingEntry(purpose, head, Backup) else AfterVerified(purpose, head)
  }

  lemma SideRuns(ctx: Context, command: Command, p: Point)
    requires p.pc.ReadingEntry?
    ensures var ok := CatalogSideOk(ctx, SideStore(Alone(p), p.pc.side), p.primary, p.backup, p.pc.head);
            Reaches(ctx, command, p, p.(pc := if ok then AfterSide(p.pc.purpose, p.pc.head, p.pc.side) else Raised))
  {
    var q := SoloStep(ctx, command, p);
    OneStep(ctx, command, p);
    if q.pc.ListingReceipts? {
      var r := SoloStep(ctx, command, q);
      OneStep(ctx, command, q);
      Transitive(ctx, command, p, q, r);
      if r.pc.ReadingReceipt? {
        ReceiptsRun(ctx, command, r);
        var walked := ReceiptWalk(ctx, SideStore(Alone(p), p.pc.side), p.primary, p.backup, p.pc.head, 0, GenesisLink(ctx));
        if walked.Some? {
          var last := r.(pc := ReceiptAt(r.pc, p.pc.head.sequence + 1, walked.value));
          Transitive(ctx, command, p, r, last);
          OneStep(ctx, command, last);
          Transitive(ctx, command, p, last, SoloStep(ctx, command, last));
        } else {
          Transitive(ctx, command, p, r, p.(pc := Raised));
        }
      }
    }
  }

  lemma CatalogRuns(ctx: Context, command: Command, p: Point)
    requires p.pc.ReadingEntry? && p.pc.side.Primary?
    ensures Reaches(ctx, command, p, p.(pc := if CatalogOk(ctx, p.primary, p.backup, p.pc.head)
                                              then AfterVerified(p.pc.purpose, p.pc.head) else Raised))
  {
    SideRuns(ctx, command, p);
    if CatalogSideOk(ctx, p.primary, p.primary, p.backup, p.pc.head) {
      var q := p.(pc := ReadingEntry(p.pc.purpose, p.pc.head, Backup));
      SideRuns(ctx, command, q);
      Transitive(ctx, command, p, q, p.(pc := if CatalogOk(ctx, p.primary, p.backup, p.pc.head)
                                              then AfterVerified(p.pc.purpose, p.pc.head) else Raised));
    }
  }

  /** Verification step by step is `verified_head`. */
  lemma VerificationRuns(ctx: Context, command: Command, p: Point)
    requires p.pc.ReadingHead?
    ensures var verified := VerifiedHead(ctx, p.primary, p.backup);
            Reaches(ctx, command, p, p.(pc := match verified
                                              case None => Raised
                                              case Some(head) => AfterVerified(p.pc.purpose, head)))
  {
    var q := SoloStep(ctx, command, p);
    OneStep(ctx, command, p);
    var goal := p.(pc := match VerifiedHead(ctx, p.primary, p.backup)
                         case None => Raised
                         case Some(head) => AfterVerified(p.pc.purpose, head));
    if q.pc.ReadingEntry? {
      CatalogRuns(ctx, command, q);
      Transitive(ctx, command, p, q, goal);
    } else if q.pc.WalkingEvents? {
      WalkRuns(ctx, command, q);
      var head := q.pc.head;
      if WalkHead(ctx, p.primary, head).Some? {
        var r := p.(pc := ReadingEntry(p.pc.purpose, head, Primary));
        Transitive(ctx, command, p, q, r);
        CatalogRuns(ctx, command, r);
        Transitive(ctx, command, p, r, goal);
      } else {
        Transitive(ctx, command, p, q, goal);
      }
    }
  }

  /* ---------- accepted ---------- */

  function Answer(ctx: Context, command: Command, purpose: Purpose, found: Lookup): Pc {
    match found
    case Broken => Raised
    case Absent => Conclude(ctx, command, purpose, None)
    case Present(event) => Conclude(ctx, command, purpose, Some(event))
  }

  lemma {:induction false} SearchRuns(ctx: Context, command: Command, p: Point)
    requires p.pc.SearchingChain?
    ensures Reaches(ctx, command, p,
                    p.(pc := Answer(ctx, command, p.pc.purpose,
                                    Search(p.primary, p.pc.cursor, p.pc.remaining, command.operationId))))
    decreases p.pc.remaining
  {
    var q := SoloStep(ctx, command, p);
    if q.pc.SearchingChain? && p.pc.remaining > 0 && q.pc.remaining == p.pc.remaining - 1 {
      SearchRuns(ctx, command, q);
      StepThen(ctx, command, p, q.(pc := Answer(ctx, command, p.pc.purpose,
        Search(q.primary, q.pc.cursor, q.pc.remaining, command.operationId))));
    } else {
      OneStep(ctx, command, p);
    }
  }

  /** Looking an operation up step by step is `accepted`. */
  lemma AcceptedRuns(ctx: Context, command: Command, p: Point)
    requires p.pc.ReadingHead? && !p.pc.purpose.Opening?
    ensures Reaches(ctx, command, p,
                    p.(pc := Answer(ctx, command, p.pc.purpose,
                                    Accepted(ctx, p.primary, p.backup, command.operationId))))
  {
    VerificationRuns(ctx, command, p);
    var verified := VerifiedHead(ctx, p.primary, p.backup);
    if verified.Some? {
      var q := p.(pc := AfterVerified(p.pc.purpose, verified.value));
      SearchRuns(ctx, command, q);
      Transitive(ctx, command, p, q, p.(pc := Answer(ctx, command, p.pc.purpose,
        Accepted(ctx, p.primary, p.backup, command.operationId))));
    }
  }

  /* ---------- the writes ---------- */

  function Stored(p: Point, side: Side, store: Store, pc: Pc): Point {
    if side.Primary? then Point(store, p.backup, pc) else Point(p.primary, store, pc)
  }

  /** Writing one copy step by step is `put` of one copy: the record is there, or the operation is looked up. */
  lemma CopyRuns(ctx: Context, command: Command, p: Point)
    requires p.pc.ReadingCopy?
    ensures var pc := p.pc;
            var put := PutCopy(SideStore(Alone(p), pc.side), TaskKey(pc.task), TaskBody(ctx, pc.task));
            Reaches(ctx, command, p, match put
                                     case None => p.(pc := ReadingHead(Resolving))
                                     case Some(store) => Stored(p, pc.side, store, AfterCopy(pc.task, pc.side)))
  {
    var q := SoloStep(ctx, command, p);
    OneStep(ctx, command, p);
    if q.pc.WritingCopy? {
      OneStep(ctx, command, q);
      Transitive(ctx, command, p, q, SoloStep(ctx, command, q));
    }
  }

  /** Both copies: `_put_immutable`. */
  lemma BothCopiesRun(ctx: Context, command: Command, p: Point)
    requires p.pc.ReadingCopy? && p.pc.side.Primary?
    ensures var put := PutImmutable(p.primary, p.backup, TaskKey(p.pc.task), TaskBody(ctx, p.pc.task));
            Reaches(ctx, command, p,
                    Point(put.primary, put.backup,
                          if put.result.Success? then AfterCopy(p.pc.task, Backup) else ReadingHead(Resolving)))
  {
    CopyRuns(ctx, command, p);
    var first := PutCopy(p.primary, TaskKey(p.pc.task), TaskBody(ctx, p.pc.task));
    if first.Some? {
      var q := Point(first.value, p.backup, ReadingCopy(p.pc.task, Backup));
      CopyRuns(ctx, command, q);
      var put := PutImmutable(p.primary, p.backup, TaskKey(p.pc.task), TaskBody(ctx, p.pc.task));
      Transitive(ctx, command, p, q,
                 Point(put.primary, put.backup,
                       if put.result.Success? then AfterCopy(p.pc.task, Backup) else ReadingHead(Resolving)));
    }
  }

  /** What a finished appender reports. */
  predicate Reports(pc: Pc, result: Result<HistoryEvent, HistoryError>) {
    match result
    case Success(event) => pc.Returned? && pc.event == event
    case Failure(_) => pc.Raised?
  }

  ghost predicate Finishes(ctx: Context, command: Command, p: Point, outcome: Outcome<HistoryEvent>) {
    exists pc :: Reports(pc, outcome.result) && Reaches(ctx, command, p, Point(outcome.primary, outcome.backup, pc))
  }

  lemma ThenFinishes(ctx: Context, command: Command, p: Point, q: Point, outcome: Outcome<HistoryEvent>)
    requires Reaches(ctx, command, p, q) && Finishes(ctx, command, q, outcome)
    ensures Finishes(ctx, command, p, outcome)
  {
    var pc :| Reports(pc, outcome.result) && Reaches(ctx, command, q, Point(outcome.primary, outcome.backup, pc));
    Transitive(ctx, command, p, q, Point(outcome.primary, outcome.backup, pc));
  }

  lemma ResolveRuns(ctx: Context, command: Command, p: Point)
    requires p.pc == ReadingHead(Resolving)
    ensures Finishes(ctx, command, p, Resolve(ctx, p.primary, p.backup, command.operationId))
  {
    AcceptedRuns(ctx, command, p);
    var pc := Answer(ctx, command, Resolving, Accepted(ctx, p.primary, p.backup, command.operationId));
    assert Reports(pc, Resolve(ctx, p.primary, p.backup, command.operationId).result);
  }

  lemma ConfirmRuns(ctx: Context, command: Command, p: Point, event: HistoryEvent)
    requires p.pc == ReadingHead(Confirming(event)) && event.operationId == command.operationId
    ensures Finishes(ctx, command, p, Confirm(ctx, p.primary, p.backup, event))
  {
    AcceptedRuns(ctx, command, p);
    var pc := Answer(ctx, command, Confirming(event), Accepted(ctx, p.primary, p.backup, command.operationId));
    assert Reports(pc, Confirm(ctx, p.primary, p.backup, event).result);
  }

  lemma PublishRuns(ctx: Context, command: Command, p: Point, head: HistoryHead)
    requires p.pc.WritingHead? && p.pc.etag == head.etag && p.pc.event.operationId == command.operationId
    ensures Finishes(ctx, command, p, Publish(ctx, p.primary, p.backup, head, p.pc.event))
  {
    var event := p.pc.event;
    var outcome := Publish(ctx, p.primary, p.backup, head, event);
    var q := SoloStep(ctx, command, p);
    OneStep(ctx, command, p);
    if p.primary.Put(HeadKey, HeadFor(ctx, event), head.etag).None? {
      ResolveRuns(ctx, command, q);
      ThenFinishes(ctx, command, p, q, outcome);
    } else {
      BothCopiesRun(ctx, command, q);
      var put := PutImmutable(q.primary, q.backup, ReceiptKey(event.sequence), ReceiptFor(ctx, event));
      var r := Point(put.primary, put.backup,
                     if put.result.Success? then ReadingHead(Confirming(event)) else ReadingHead(Resolving));
      if put.result.Success? {
        ConfirmRuns(ctx, command, r, event);
      } else {
        ResolveRuns(ctx, command, r);
      }
      ThenFinishes(ctx, command, q, r, outcome);
      ThenFinishes(ctx, command, p, q, outcome);
    }
  }

  lemma WriteRuns(ctx: Context, command: Command, p: Point, head: HistoryHead, event: HistoryEvent)
    requires p.pc == ReadingCopy(StoreEvent(event, head.etag), Primary) && event.operationId == command.operationId
    ensures Finishes(ctx, command, p, WriteEvent(ctx, p.primary, p.backup, head, event))
  {
    BothCopiesRun(ctx, command, p);
    var put := PutImmutable(p.primary, p.backup, EventKey(event.operationId), Event(event));
    var q := Point(put.primary, put.backup,
                   if put.result.Success? then WritingHead(event, head.etag) else ReadingHead(Resolving));
    if put.result.Success? {
      PublishRuns(ctx, command, q, head);
    } else {
      ResolveRuns(ctx, command, q);
    }
    ThenFinishes(ctx, command, p, q, WriteEvent(ctx, p.primary, p.backup, head, event));
  }

  lemma DecideRuns(ctx: Context, command: Command, p: Point, head: HistoryHead)
    requires p.pc == ReadingHead(Deciding(head)) && VerifiedHead(ctx, p.primary, p.backup) == Some(head)
    ensures Finishes(ctx, command, p, Append(ctx, p.primary, p.backup, command))
  {
    var found := Accepted(ctx, p.primary, p.backup, command.operationId);
    var q := p.(pc := Answer(ctx, command, Deciding(head), found));
    var outcome := Append(ctx, p.primary, p.backup, command);
    AcceptedRuns(ctx, command, p);
    if q.pc.ReadingCopy? {
      WriteRuns(ctx, command, q, head, BuildEvent(ctx, command, head));
    } else {
      Stays(ctx, command, q);
      assert Reports(q.pc, outcome.result);
    }
    ThenFinishes(ctx, command, p, q, outcome);
  }

  /** For every pair of stores and every command: the appender started alone runs to its end, leaves the stores
      as the sequential append does, and returns its event, or raises, exactly as it does. */
  lemma SoloRunIsAppend(ctx: Context, primary: Store, backup: Store, command: Command)
    ensures Finishes(ctx, command, Point(primary, backup, ReadingHead(Opening)), Append(ctx, primary, backup, command))
  {
    var p := Point(primary, backup, ReadingHead(Opening));
    var outcome := Append(ctx, primary, backup, command);
    VerificationRuns(ctx, command, p);
    var verified := VerifiedHead(ctx, primary, backup);
    if verified.Some? {
      var q := p.(pc := ReadingHead(Deciding(verified.value)));
      DecideRuns(ctx, command, q, verified.value);
      ThenFinishes(ctx, command, p, q, outcome);
    } else {
      assert Reports(Raised, outcome.result);
    }
  }

  /* ---------- alone among others ---------- */

  predicate Writing(pc: Pc) {
    pc.ReadingCopy? || pc.WritingCopy? || pc.RereadingCopy? || pc.WritingHead?
  }

  /** The system with this appender at this point. */
  function At(s: State, id: nat, command: Command, p: Point): State {
    State(p.primary, p.backup, s.sent, s.procs[id := Proc(command, p.pc)])
  }

  /** One appender called and answered `n` times. */
  function Turns(id: nat, n: nat): seq<Action> {
    if n == 0 then [] else [Run(id, Reply)] + Turns(id, n - 1)
  }

  lemma VerifyAlone(ctx: Context, s: State, p: Point)
    requires s.primary == p.primary && s.backup == p.backup && !Writing(p.pc)
    requires !p.pc.SearchingChain? && !p.pc.Returned? && !p.pc.Raised?
    ensures VerifyMove(ctx, s, p.pc) == VerifyMove(ctx, Alone(p), p.pc)
  {
  }

  lemma WriteAlone(ctx: Context, s: State, command: Command, p: Point)
    requires s.primary == p.primary && s.backup == p.backup && Writing(p.pc)
    ensures WriteMove(ctx, s, command, p.pc, Reply) == WriteMove(ctx, Alone(p), command, p.pc, Reply)
    ensures !WriteMove(ctx, s, command, p.pc, Reply).effect.Flight?
  {
  }

  /** A step reads the two stores only. */
  lemma MoveAlone(ctx: Context, s: State, command: Command, p: Point)
    requires s.primary == p.primary && s.backup == p.backup
    ensures var move := ProcMove(ctx, s, Proc(command, p.pc), Reply);
            move == ProcMove(ctx, Alone(p), Proc(command, p.pc), Reply) && !move.effect.Flight?
  {
    if Writing(p.pc) {
      WriteAlone(ctx, s, command, p);
    } else if !p.pc.SearchingChain? && !p.pc.Returned? && !p.pc.Raised? {
      VerifyAlone(ctx, s, p);
    }
  }

  lemma PerformAlone(ctx: Context, s: State, p: Point, effect: Effect)
    requires s.primary == p.primary && s.backup == p.backup && !effect.Flight?
    ensures var t, u := Perform(ctx, s, effect), Perform(ctx, Alone(p), effect);
            t == State(u.primary, u.backup, s.sent, s.procs)
  {
  }

  lemma TurnAt(ctx: Context, s: State, id: nat, command: Command, p: Point)
    ensures Exec(ctx, At(s, id, command, p), Run(id, Reply)) == At(s, id, command, SoloStep(ctx, command, p))
  {
    var at := At(s, id, command, p);
    MoveAlone(ctx, at, command, p);
    var move := ProcMove(ctx, at, Proc(command, p.pc), Reply);
    PerformAlone(ctx, at, p, move.effect);
    assert s.procs[id := Proc(command, p.pc)][id := Proc(command, move.pc)] == s.procs[id := Proc(command, move.pc)];
  }

  lemma ExecuteFirst(ctx: Context, s: State, action: Action, rest: seq<Action>)
    ensures Execute(ctx, s, [action] + rest) == Execute(ctx, Exec(ctx, s, action), rest)
  {
    assert [action][..0] == [];
    assert Execute(ctx, s, []) == s;
    Theorems.ExecuteSplit(ctx, s, [action], rest);
  }

  lemma {:induction false} TurnsAt(ctx: Context, s: State, id: nat, command: Command, p: Point, n: nat)
    ensures Execute(ctx, At(s, id, command, p), Turns(id, n)) == At(s, id, command, SoloRun(ctx, command, p, n))
    decreases n
  {
    if n > 0 {
      TurnAt(ctx, s, id, command, p);
      ExecuteFirst(ctx, At(s, id, command, p), Run(id, Reply), Turns(id, n - 1));
      TurnsAt(ctx, s, id, command, SoloStep(ctx, command, p), n - 1);
    }
  }

  /** In the system of all appenders, whatever the others have done: an appender launched and then answered often
      enough, undisturbed, leaves the stores and the answer of the sequential append, and touches nothing else. */
  lemma AppendRuns(ctx: Context, s: State, id: nat, command: Command) returns (n: nat)
    requires id !in s.procs
    ensures var done := Append(ctx, s.primary, s.backup, command);
            var t := Execute(ctx, s, [Launch(id, command)] + Turns(id, n));
            && t.primary == done.primary && t.backup == done.backup && t.sent == s.sent
            && id in t.procs && Reports(t.procs[id].pc, done.result)
            && t.procs == s.procs[id := t.procs[id]] && t.procs[id].command == command
  {
    var p := Point(s.primary, s.backup, ReadingHead(Opening));
    var done := Append(ctx, s.primary, s.backup, command);
    SoloRunIsAppend(ctx, s.primary, s.backup, command);
    var pc :| Reports(pc, done.result) && Reaches(ctx, command, p, Point(done.primary, done.backup, pc));
    n :| SoloRun(ctx, command, p, n) == Point(done.primary, done.backup, pc);
    ExecuteFirst(ctx, s, Launch(id, command), Turns(id, n));
    TurnsAt(ctx, s, id, command, p, n);
  }

  /* ---------- calls that fail ---------- */

  /** The put the appender is about to send. */
  function Pending(pc: Pc): Option<Request> {
    match pc
    case WritingCopy(StoreEvent(event, _), side) => Some(PutEvent(side, event))
    case WritingCopy(StoreReceipt(event), side) => Some(PutReceipt(side, event))
    case WritingHead(event, etag) => Some(PutHead(event, etag))
    case _ => None
  }

  /** A call that fails while the appender writes, or a head that has moved, sends the appender to the chain: from
      there, undisturbed, it answers as the exception handlers do. A put whose answer was lost stays in flight. */
  lemma LostRaceAnswered(ctx: Context, s: State, command: Command, pc: Pc, signal: Signal)
    requires Writing(pc)
    requires || signal.Fault?
             || (signal.Refusal? && !pc.WritingCopy?)
             || (pc.WritingHead? && !s.primary.Admits(HeadKey, pc.etag))
    ensures var move := ProcMove(ctx, s, Proc(command, pc), signal);
            && move.effect == (if signal.Fault? && Pending(pc).Some? then Flight(Pending(pc).value) else Nothing)
            && Finishes(ctx, command, Point(s.primary, s.backup, move.pc),
                        Resolve(ctx, s.primary, s.backup, command.operationId))
  {
    ResolveRuns(ctx, command, Point(s.primary, s.backup, ReadingHead(Resolving)));
  }

  /** In the system of all appenders: a put whose answer was lost is in flight from then on. */
  lemma LostPutInFlight(ctx: Context, s: State, id: nat)
    requires id in s.procs && Pending(s.procs[id].pc).Some?
    ensures var t := Exec(ctx, s, Run(id, Fault));
            && t.sent == s.sent + {Pending(s.procs[id].pc).value}
            && t.primary == s.primary && t.backup == s.backup
            && t.procs == s.procs[id := Proc(s.procs[id].command, ReadingHead(Resolving))]
  {
  }

  /** What the end of a search means. Before the writes a recorded event answers a command that asks for the same; in
      the handlers it answers any command, and the answer is marked as not compared; after the writes it answers by
      its digest. Without a recorded event only a command that expects the verified sequence goes on. */
  lemma SearchConcludes(ctx: Context, s: State, command: Command, purpose: Purpose, head: HistoryHead, remaining: nat)
    requires remaining > 0 && ReadEvent(s.primary, command.operationId).Some?
    ensures var found := ReadEvent(s.primary, command.operationId).value;
            var same := found.action == command.action && found.actorId == command.actorId
                        && found.reason == command.reason && found.data == command.data;
            var next := SearchMove(ctx, s, command, SearchingChain(purpose, head, Some(command.operationId), remaining));
            match purpose
            case Opening => next == Raised
            case Deciding(_) => next == if same then Returned(found, true) else Raised
            case Resolving => next == Returned(found, false)
            case Confirming(event) =>
              next == if ctx.hash(found) == ctx.hash(event) then Returned(found, true) else Raised
    ensures var next := SearchMove(ctx, s, command, SearchingChain(purpose, head, None, 0));
            match purpose
            case Deciding(seen) =>
              if seen.sequence != command.expectedSequence then next == Raised
              else next.ReadingCopy? && next.side == Primary && next.task.StoreEvent? && next.task.etag == seen.etag
            case _ => next == Raised
  {
  }

  /** A refused put of a record changes nothing and the copy is read again: a record that is there by then is compared
      as at first, a missing one sends the appender to the chain. */
  lemma RefusedCopyRereads(ctx: Context, s: State, command: Command, pc: Pc)
    requires pc.WritingCopy?
    ensures var refused := ProcMove(ctx, s, Proc(command, pc), Refusal);
            var again := ProcMove(ctx, s, Proc(command, refused.pc), Reply);
            && refused.effect == Nothing && refused.pc == RereadingCopy(pc.task, pc.side)
            && again == (if SideStore(s, pc.side).Has(TaskKey(pc.task))
                         then ProcMove(ctx, s, Proc(command, ReadingCopy(pc.task, pc.side)), Reply)
                         else Move(ReadingHead(Resolving), Nothing))
  {
  }

  /** Outside the writes a failed call raises; an appender that has finished does nothing more. */
  lemma FailedReadRaises(ctx: Context, s: State, command: Command, pc: Pc, signal: Signal)
    requires !Writing(pc)
    ensures var move := ProcMove(ctx, s, Proc(command, pc), signal);
            && move.effect == Nothing
            && (pc.Returned? || pc.Raised? ==> move.pc == pc)
            && (!pc.Returned? && !signal.Reply? ==> move.pc == Raised)
  {
  }

  /** The document of a put, and the one store it goes to. */
  function Document(ctx: Context, request: Request): (Key, Body) {
    match request
    case PutEvent(_, event) => (EventKey(event.operationId), Event(event))
    case PutHead(event, _) => (HeadKey, Head(event.sequence, ctx.hash(event), event.operationId))
    case PutReceipt(_, event) =>
      (ReceiptKey(event.sequence), Receipt(ctx.orgId, event.sequence, Some(event.operationId), ctx.hash(event)))
  }

  predicate ToPrimary(request: Request) {
    request.PutHead? || request.side == Primary
  }

  /** The store after a put arrives: its document under a fresh tag if the key is free, or, for a head with a tag,
      if the stored head still has it; the same store otherwise. */
  function Arrived(ctx: Context, store: Store, request: Request): Store {
    var (key, body) := Document(ctx, request);
    var admitted := if request.PutHead? && request.expected.Some?
                    then key in store.objects && store.objects[key].etag == request.expected.value
                    else key !in store.objects;
    if admitted then Store(store.objects[key := Object(body, store.clock)], store.clock + 1) else store
  }

  /** A put in flight may arrive at any time, and writes its own document into its own copy under its condition. */
  lemma DeliveredWrites(ctx: Context, s: State, request: Request)
    requires request in s.sent
    ensures var t := Exec(ctx, s, Deliver(request));
            && t.primary == (if ToPrimary(request) then Arrived(ctx, s.primary, request) else s.primary)
            && t.backup == (if ToPrimary(request) then s.backup else Arrived(ctx, s.backup, request))
            && t.sent == s.sent && t.procs == s.procs
  {
  }
}
