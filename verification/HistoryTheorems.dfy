/** What holds over every run of the append protocol: any number of appenders, any interleaving of their
    store calls, lost answers, spurious conflicts, late deliveries, retries and crashes. */
module HistoryTheorems {
  import opened Wrappers
  import opened HistoryModel
  import opened HistoryFacts
  import opened HistoryProtocol
  import opened HistoryInvariant

  /** Nobody has called `append` yet. */
  predicate Fresh(ctx: Context, s: State) {
    Registered(ctx, s.primary) && Registered(ctx, s.backup) && s.sent == {} && s.procs == map[]
  }

  lemma FreshInv(ctx: Context, s: State)
    requires Fresh(ctx, s)
    ensures Inv(ctx, s) && Log(ctx, s.primary) == []
  {
    assert StoredHead(ctx, s.primary) == Some(GenesisHead(ctx));
    assert Log(ctx, s.primary) == [];
    assert forall i :: s.primary.Has(ReceiptKey(i)) ==> ReceiptKey(i) in s.primary.objects.Keys;
  }

  ghost predicate Extends(ctx: Context, s: State, t: State) {
    Kept(s.primary, t.primary) && Kept(s.backup, t.backup) && Log(ctx, s.primary) <= Log(ctx, t.primary)
  }

  lemma {:induction false} ExecuteSplit(ctx: Context, s: State, before: seq<Action>, after: seq<Action>)
    ensures Execute(ctx, s, before + after) == Execute(ctx, Execute(ctx, s, before), after)
    decreases |after|
  {
    if after == [] {
      assert before + after == before;
    } else {
      var n := |after| - 1;
      ExecuteSplit(ctx, s, before, after[..n]);
      assert (before + after)[..|before + after| - 1] == before + after[..n];
    }
  }

  /** Every run keeps the invariant; every later log has every earlier log as a prefix. */
  lemma {:induction false} ExecuteKeepsInv(ctx: Context, s: State, actions: seq<Action>)
    requires Inv(ctx, s)
    ensures Inv(ctx, Execute(ctx, s, actions)) && Extends(ctx, s, Execute(ctx, s, actions))
    decreases |actions|
  {
    if actions != [] {
      var n := |actions| - 1;
      ExecuteKeepsInv(ctx, s, actions[..n]);
      ExecKeepsInv(ctx, Execute(ctx, s, actions[..n]), actions[n]);
    }
  }

  /** In every reachable state the stored head at sequence n reaches genesis in exactly n digest-checked
      steps over consecutive events, and no operation occurs twice on the way. */
  lemma HeadReachesGenesis(ctx: Context, s: State, actions: seq<Action>)
    requires Fresh(ctx, s)
    ensures var primary := Execute(ctx, s, actions).primary;
            var head := StoredHead(ctx, primary);
            && head.Some?
            && var events := WalkHead(ctx, primary, head.value);
            && events.Some? && |events.value| == head.value.sequence
            && Chained(ctx, events.value)
            && (forall i, j :: 0 <= i < j < |events.value| ==>
                  events.value[i].operationId != events.value[j].operationId)
  {
    FreshInv(ctx, s);
    ExecuteKeepsInv(ctx, s, actions);
    var primary := Execute(ctx, s, actions).primary;
    LogShape(ctx, primary);
    var events := Log(ctx, primary);
    forall i, j | 0 <= i < j < |events| ensures events[i].operationId != events[j].operationId {
      if events[i].operationId == events[j].operationId {
        StoredDistinct(ctx, primary, events, i, j);
      }
    }
  }

  /** The log never forks, skips or rewrites: what an earlier head walked is a prefix of what any later head
      walks. */
  lemma LogNeverForks(ctx: Context, s: State, before: seq<Action>, after: seq<Action>)
    requires Fresh(ctx, s)
    ensures var early, late := Execute(ctx, s, before).primary, Execute(ctx, s, before + after).primary;
            && StoredHead(ctx, early).Some? && StoredHead(ctx, late).Some?
            && var x, y := WalkHead(ctx, early, StoredHead(ctx, early).value), WalkHead(ctx, late, StoredHead(ctx, late).value);
            && x.Some? && y.Some? && x.value <= y.value
  {
    FreshInv(ctx, s);
    ExecuteSplit(ctx, s, before, after);
    ExecuteKeepsInv(ctx, s, before);
    ExecuteKeepsInv(ctx, Execute(ctx, s, before), after);
  }

  /** In every reachable state with head n: events 1..n are identical in both stores, receipts 0..n-1 (and
      always receipt 0) are identical in both, receipt n is in the backup only if it is in the primary, no
      receipt exceeds n, and each receipt present is the one of its event. */
  lemma StoresAgree(ctx: Context, s: State, actions: seq<Action>)
    requires Fresh(ctx, s)
    ensures var t := Execute(ctx, s, actions);
            var log := Log(ctx, t.primary);
            var n := |log|;
            && StoredHead(ctx, t.primary).Some? && StoredHead(ctx, t.primary).value.sequence == n
            && (forall i :: 0 <= i < n ==>
                  t.primary.Holds(EventKey(log[i].operationId), Event(log[i]))
                  && t.backup.Holds(EventKey(log[i].operationId), Event(log[i])))
            && (forall i :: 0 <= i < n || i == 0 ==>
                  t.primary.Holds(ReceiptKey(i), ReceiptBody(ctx, log, i))
                  && t.backup.Holds(ReceiptKey(i), ReceiptBody(ctx, log, i)))
            && (t.backup.Has(ReceiptKey(n)) ==> t.primary.Has(ReceiptKey(n)))
            && (forall i :: t.primary.Has(ReceiptKey(i)) || t.backup.Has(ReceiptKey(i)) ==>
                  0 <= i <= n && t.primary.Holds(ReceiptKey(i), ReceiptBody(ctx, log, i)))
  {
    FreshInv(ctx, s);
    ExecuteKeepsInv(ctx, s, actions);
    var t := Execute(ctx, s, actions);
    LogShape(ctx, t.primary);
    var log := Log(ctx, t.primary);
    forall i | 0 <= i < |log| ensures t.primary.Holds(EventKey(log[i].operationId), Event(log[i])) {
      assert ReadEvent(t.primary, log[i].operationId) == Some(log[i]);
    }
    forall i | 0 <= i < |log| || i == 0
      ensures t.primary.Holds(ReceiptKey(i), ReceiptBody(ctx, log, i))
      ensures t.backup.Holds(ReceiptKey(i), ReceiptBody(ctx, log, i))
    {
      assert t.primary.Has(ReceiptKey(i)) && t.backup.Has(ReceiptKey(i));
    }
  }

  lemma ReturnedKept(ctx: Context, s: State, t: State, proc: Proc)
    requires PcSafe(ctx, s.primary, s.backup, proc.command, proc.pc) && proc.pc.Returned? && Extends(ctx, s, t)
    ensures PcSafe(ctx, t.primary, t.backup, proc.command, proc.pc)
  {
  }

  /** An append that returned: its event stays on the log at its number, with every receipt through it in
      both copies, whatever happens afterwards. Outside the lost-race handlers it is the event of the command. */
  lemma ReturnedIsDurable(ctx: Context, s: State, before: seq<Action>, after: seq<Action>, id: nat)
    requires Fresh(ctx, s)
    requires id in Execute(ctx, s, before).procs && Execute(ctx, s, before).procs[id].pc.Returned?
    ensures var proc := Execute(ctx, s, before).procs[id];
            var t := Execute(ctx, s, before + after);
            var event := proc.pc.event;
            && 1 <= event.sequence <= |Log(ctx, t.primary)|
            && Log(ctx, t.primary)[event.sequence - 1] == event
            && event.operationId == proc.command.operationId
            && (proc.pc.matched ==> SameCommand(proc.command, event))
            && ReceiptsThrough(t.primary, t.backup, event.sequence)
  {
    FreshInv(ctx, s);
    ExecuteSplit(ctx, s, before, after);
    ExecuteKeepsInv(ctx, s, before);
    var early := Execute(ctx, s, before);
    ExecuteKeepsInv(ctx, early, after);
    ReturnedKept(ctx, early, Execute(ctx, early, after), early.procs[id]);
  }

  /* ---------- an event record whose number was taken ---------- */

  /** The primary store holds a record of the operation for a number that another operation took. */
  ghost predicate Overtaken(ctx: Context, primary: Store, event: HistoryEvent) {
    var log := Log(ctx, primary);
    && primary.Holds(EventKey(event.operationId), Event(event))
    && 1 <= event.sequence <= |log|
    && log[event.sequence - 1].operationId != event.operationId
  }

  lemma OvertakenKept(ctx: Context, primary: Store, primary': Store, event: HistoryEvent)
    requires Overtaken(ctx, primary, event)
    requires Kept(primary, primary') && Log(ctx, primary) <= Log(ctx, primary')
    ensures Overtaken(ctx, primary', event)
  {
  }

  lemma OvertakenOffChain(ctx: Context, primary: Store, event: HistoryEvent)
    requires Walks(ctx, primary) && Overtaken(ctx, primary, event)
    ensures !OnChain(Log(ctx, primary), event.operationId)
  {
    LogShape(ctx, primary);
    var log := Log(ctx, primary);
    forall i | 0 <= i < |log| ensures log[i].operationId != event.operationId {
      assert ChainedAt(ctx, log, i);
      assert ReadEvent(primary, log[i].operationId) == Some(log[i]);
    }
  }

  /** It never enters the chain, under any continuation. */
  lemma OvertakenNeverEnters(ctx: Context, s: State, before: seq<Action>, after: seq<Action>, event: HistoryEvent)
    requires Fresh(ctx, s)
    requires Overtaken(ctx, Execute(ctx, s, before).primary, event)
    ensures var t := Execute(ctx, s, before + after);
            Overtaken(ctx, t.primary, event) && !OnChain(Log(ctx, t.primary), event.operationId)
  {
    FreshInv(ctx, s);
    ExecuteSplit(ctx, s, before, after);
    ExecuteKeepsInv(ctx, s, before);
    var early := Execute(ctx, s, before);
    ExecuteKeepsInv(ctx, early, after);
    var late := Execute(ctx, early, after);
    OvertakenKept(ctx, early.primary, late.primary, event);
    OvertakenOffChain(ctx, late.primary, event);
  }

  /* ---------- repeating an acknowledged append ---------- */

  predicate QuietPurpose(purpose: Purpose, k: nat) {
    match purpose
    case Opening => true
    case Deciding(head) => head.sequence > k
    case _ => false
  }

  /** An appender whose operation is event `k + 1` of the log, and that knows it or will find out. */
  predicate QuietPc(log: seq<HistoryEvent>, pc: Pc, k: nat)
    requires k < |log|
  {
    match pc
    case ReadingHead(purpose) => QuietPurpose(purpose, k)
    case SearchingChain(purpose, head, _, remaining) => purpose.Deciding? && QuietPurpose(purpose, k) && remaining > k
    case Returned(event, matched) => event == log[k] && matched
    case Raised => true
    case ReadingCopy(_, _) => false
    case WritingCopy(_, _) => false
    case RereadingCopy(_, _) => false
    case WritingHead(_, _) => false
    case _ => QuietPurpose(pc.purpose, k) && pc.head.sequence > k
  }

  ghost predicate Quiet(ctx: Context, s: State, id: nat, k: nat) {
    var log := Log(ctx, s.primary);
    && id in s.procs && k < |log|
    && log[k].operationId == s.procs[id].command.operationId
    && QuietPc(log, s.procs[id].pc, k)
  }

  /** The search meets event `k + 1` before it runs out. */
  lemma QuietSearch(ctx: Context, s: State, command: Command, pc: Pc, k: nat)
    requires Walks(ctx, s.primary) && PcSafe(ctx, s.primary, s.backup, command, pc) && pc.SearchingChain?
    requires k < |Log(ctx, s.primary)| && Log(ctx, s.primary)[k].operationId == command.operationId
    requires QuietPc(Log(ctx, s.primary), pc, k)
    ensures QuietPc(Log(ctx, s.primary), SearchMove(ctx, s, command, pc), k)
  {
    var log := Log(ctx, s.primary);
    SearchReads(ctx, s.primary, pc.remaining);
    var event := log[pc.remaining - 1];
    if event.operationId == command.operationId {
      SearchReads(ctx, s.primary, k + 1);
      assert log[k] == event;
    } else {
      assert pc.remaining - 1 != k;
    }
  }

  lemma QuietVerify(ctx: Context, s: State, pc: Pc, k: nat)
    requires Walks(ctx, s.primary) && k < |Log(ctx, s.primary)|
    requires QuietPc(Log(ctx, s.primary), pc, k) && !pc.SearchingChain? && !pc.Returned? && !pc.Raised?
    ensures QuietPc(Log(ctx, s.primary), VerifyMove(ctx, s, pc), k)
  {
    if pc.ReadingHead? {
      LogShape(ctx, s.primary);
    }
  }

  lemma QuietMove(ctx: Context, s: State, id: nat, k: nat, signal: Signal)
    requires Inv(ctx, s) && Quiet(ctx, s, id, k)
    ensures var move := ProcMove(ctx, s, s.procs[id], signal);
            move.effect == Nothing && QuietPc(Log(ctx, s.primary), move.pc, k)
  {
    var pc := s.procs[id].pc;
    if signal.Reply? && pc.SearchingChain? {
      QuietSearch(ctx, s, s.procs[id].command, pc, k);
    } else if signal.Reply? && !pc.Returned? && !pc.Raised? {
      QuietVerify(ctx, s, pc, k);
    }
  }

  lemma QuietKept(ctx: Context, s: State, t: State, id: nat, k: nat)
    requires Quiet(ctx, s, id, k)
    requires id in t.procs && t.procs[id] == s.procs[id] && Log(ctx, s.primary) <= Log(ctx, t.primary)
    ensures Quiet(ctx, t, id, k)
  {
  }

  /** Its own step writes nothing. */
  lemma QuietOwnStep(ctx: Context, s: State, id: nat, k: nat, signal: Signal)
    requires Inv(ctx, s) && Quiet(ctx, s, id, k)
    ensures Quiet(ctx, Exec(ctx, s, Run(id, signal)), id, k)
  {
    QuietMove(ctx, s, id, k, signal);
    var t := Exec(ctx, s, Run(id, signal));
    assert t.primary == s.primary;
  }

  lemma OtherProcsKept(ctx: Context, s: State, id: nat, action: Action)
    requires id in s.procs && !(action.Run? && action.id == id)
    ensures var t := Exec(ctx, s, action);
            id in t.procs && t.procs[id] == s.procs[id]
  {
  }

  lemma CommandKept(ctx: Context, s: State, id: nat, action: Action)
    requires id in s.procs
    ensures var t := Exec(ctx, s, action);
            id in t.procs && t.procs[id].command == s.procs[id].command
  {
  }

  lemma QuietExec(ctx: Context, s: State, id: nat, k: nat, action: Action)
    requires Inv(ctx, s) && Quiet(ctx, s, id, k)
    ensures Quiet(ctx, Exec(ctx, s, action), id, k)
  {
    if action.Run? && action.id == id {
      QuietOwnStep(ctx, s, id, k, action.signal);
    } else {
      ExecKeepsInv(ctx, s, action);
      OtherProcsKept(ctx, s, id, action);
      QuietKept(ctx, s, Exec(ctx, s, action), id, k);
    }
  }

  lemma {:induction false} QuietExecute(ctx: Context, s: State, id: nat, k: nat, actions: seq<Action>)
    requires Inv(ctx, s) && Quiet(ctx, s, id, k)
    ensures var t := Execute(ctx, s, actions);
            Inv(ctx, t) && Quiet(ctx, t, id, k) && t.procs[id].command == s.procs[id].command
    decreases |actions|
  {
    if actions != [] {
      var n := |actions| - 1;
      QuietExecute(ctx, s, id, k, actions[..n]);
      var u := Execute(ctx, s, actions[..n]);
      QuietExec(ctx, u, id, k, actions[n]);
      ExecKeepsInv(ctx, u, actions[n]);
      CommandKept(ctx, u, id, actions[n]);
    }
  }

  lemma QuietStart(ctx: Context, s: State, id: nat, command: Command, k: nat)
    requires id !in s.procs && k < |Log(ctx, s.primary)| && Log(ctx, s.primary)[k].operationId == command.operationId
    ensures Quiet(ctx, Exec(ctx, s, Launch(id, command)), id, k)
  {
  }

  /** A quiet appender never writes; if it returned, it returned the recorded event, which its command matches. */
  lemma QuietMeans(ctx: Context, s: State, id: nat, k: nat)
    requires Inv(ctx, s) && Quiet(ctx, s, id, k)
    ensures forall signal :: ProcMove(ctx, s, s.procs[id], signal).effect == Nothing
    ensures s.procs[id].pc.Returned? ==>
              s.procs[id].pc.event == Log(ctx, s.primary)[k] && SameCommand(s.procs[id].command, Log(ctx, s.primary)[k])
  {
    forall signal ensures ProcMove(ctx, s, s.procs[id], signal).effect == Nothing {
      QuietMove(ctx, s, id, k, signal);
    }
    if s.procs[id].pc.Returned? {
      assert PcSafe(ctx, s.primary, s.backup, s.procs[id].command, s.procs[id].pc);
    }
  }

  /** Repeating an append whose operation is already on the log: whatever else runs, none of its steps ever
      writes or sends anything, and if it returns, it returns the recorded event and its command agrees with
      it; a different command under the same operation can only be refused. */
  lemma RepeatWritesNothing(ctx: Context, s: State, before: seq<Action>, after: seq<Action>,
                            id: nat, command: Command, k: nat)
    requires Fresh(ctx, s)
    requires id !in Execute(ctx, s, before).procs
    requires k < |Log(ctx, Execute(ctx, s, before).primary)|
    requires Log(ctx, Execute(ctx, s, before).primary)[k].operationId == command.operationId
    ensures var first := Log(ctx, Execute(ctx, s, before).primary)[k];
            var t := Execute(ctx, s, before + [Launch(id, command)] + after);
            && id in t.procs && t.procs[id].command == command
            && (forall signal :: ProcMove(ctx, t, t.procs[id], signal).effect == Nothing)
            && (t.procs[id].pc.Returned? ==> t.procs[id].pc.event == first && SameCommand(command, first))
  {
    FreshInv(ctx, s);
    ExecuteKeepsInv(ctx, s, before);
    var u := Execute(ctx, s, before);
    var launched := Exec(ctx, u, Launch(id, command));
    var all := before + [Launch(id, command)];
    assert all[..|all| - 1] == before;
    assert Execute(ctx, s, all) == launched;
    ExecuteSplit(ctx, s, all, after);
    ExecKeepsInv(ctx, u, Launch(id, command));
    QuietStart(ctx, u, id, command, k);
    QuietExecute(ctx, launched, id, k, after);
    ExecuteKeepsInv(ctx, launched, after);
    QuietMeans(ctx, Execute(ctx, launched, after), id, k);
  }
}
