/** `append` as a small-step protocol. Any number of appenders share the two stores; one step is one store
    call. A call may be answered, may fail, may be refused with a spurious conflict, and a put that failed
    may still take effect at any later time. A crashed appender is one that is never scheduled again. */
module HistoryProtocol {
  import opened Wrappers
  import opened HistoryModel
  import opened HistoryFacts

  datatype Command = Command(operationId: Uuid, expectedSequence: int, action: string, acceptedAt: string,
                             actorId: Option<Uuid>, reason: string, data: string)

  datatype Side = Primary | Backup

  /** The puts of an append. */
  datatype Request =
    | PutEvent(side: Side, event: HistoryEvent)
    | PutHead(event: HistoryEvent, expected: Option<nat>)
    | PutReceipt(side: Side, event: HistoryEvent)

  /** Why the head is being verified: line 470, line 471, the two exception handlers, line 509. */
  datatype Purpose =
    | Opening
    | Deciding(head: HistoryHead)
    | Resolving
    | Confirming(event: HistoryEvent)

  /** A record on its way into both copies. */
  datatype Task =
    | StoreEvent(event: HistoryEvent, etag: Option<nat>)
    | StoreReceipt(event: HistoryEvent)

  /** The program counter: which store call comes next, with the local variables it needs. */
  datatype Pc =
    | ReadingHead(purpose: Purpose)
    | WalkingEvents(purpose: Purpose, head: HistoryHead, cursor: Option<Uuid>, expected: Digest, remaining: nat)
    | ReadingEntry(purpose: Purpose, head: HistoryHead, side: Side)
    | ListingReceipts(purpose: Purpose, head: HistoryHead, side: Side)
    | ReadingReceipt(purpose: Purpose, head: HistoryHead, side: Side, sequence: nat, previous: Link)
    | ReadingReceiptEvent(purpose: Purpose, head: HistoryHead, side: Side, sequence: nat, previous: Link,
                          named: Uuid, digest: Digest)
    | ReadingReceiptBackup(purpose: Purpose, head: HistoryHead, side: Side, sequence: nat,
                           event: HistoryEvent, digest: Digest)
    | SearchingChain(purpose: Purpose, head: HistoryHead, cursor: Option<Uuid>, remaining: nat)
    | ReadingCopy(task: Task, side: Side)
    | WritingCopy(task: Task, side: Side)
    | RereadingCopy(task: Task, side: Side)
    | WritingHead(event: HistoryEvent, etag: Option<nat>)
    | Returned(event: HistoryEvent, matched: bool)
    | Raised

  datatype Proc = Proc(command: Command, pc: Pc)

  datatype State = State(primary: Store, backup: Store, sent: set<Request>, procs: map<nat, Proc>)

  datatype Signal = Reply | Fault | Refusal

  datatype Action =
    | Launch(id: nat, command: Command)
    | Run(id: nat, signal: Signal)
    | Deliver(request: Request)

  datatype Effect = Nothing | Write(request: Request) | Flight(request: Request)

  datatype Move = Move(pc: Pc, effect: Effect)

  /* ---------- requests ---------- */

  function RequestSide(request: Request): Side {
    match request
    case PutEvent(side, _) => side
    case PutHead(_, _) => Primary
    case PutReceipt(side, _) => side
  }

  function RequestKey(request: Request): Key {
    match request
    case PutEvent(_, event) => EventKey(event.operationId)
    case PutHead(_, _) => HeadKey
    case PutReceipt(_, event) => ReceiptKey(event.sequence)
  }

  function RequestBody(ctx: Context, request: Request): Body {
    match request
    case PutEvent(_, event) => Event(event)
    case PutHead(event, _) => HeadFor(ctx, event)
    case PutReceipt(_, event) => ReceiptFor(ctx, event)
  }

  function RequestExpected(request: Request): Option<nat> {
    match request
    case PutHead(_, expected) => expected
    case _ => None
  }

  function SideStore(s: State, side: Side): Store {
    if side.Primary? then s.primary else s.backup
  }

  predicate Admitted(s: State, request: Request) {
    SideStore(s, RequestSide(request)).Admits(RequestKey(request), RequestExpected(request))
  }

  /** A request reaches its store: a conditional put. */
  function Apply(ctx: Context, s: State, request: Request): State {
    var store := SideStore(s, RequestSide(request));
    match store.Put(RequestKey(request), RequestBody(ctx, request), RequestExpected(request))
    case None => s
    case Some(written) =>
      if RequestSide(request).Primary? then s.(primary := written) else s.(backup := written)
  }

  /* ---------- one step of one appender ---------- */

  function TaskRequest(task: Task, side: Side): Request {
    match task
    case StoreEvent(event, _) => PutEvent(side, event)
    case StoreReceipt(event) => PutReceipt(side, event)
  }

  function TaskKey(task: Task): Key {
    RequestKey(TaskRequest(task, Primary))
  }

  function TaskBody(ctx: Context, task: Task): Body {
    RequestBody(ctx, TaskRequest(task, Primary))
  }

  /** What follows a record that one copy now holds. */
  function AfterCopy(task: Task, side: Side): Pc {
    if side.Primary? then ReadingCopy(task, Backup)
    else
      match task
      case StoreEvent(event, etag) => WritingHead(event, etag)
      case StoreReceipt(event) => ReadingHead(Confirming(event))
  }

  predicate Matches(command: Command, event: HistoryEvent) {
    event.action == command.action && event.actorId == command.actorId
    && event.reason == command.reason && event.data == command.data
  }

  function BuildEvent(ctx: Context, command: Command, head: HistoryHead): HistoryEvent {
    HistoryEvent(ctx.orgId, command.operationId, head.sequence + 1, head.operationId, head.digest,
                 command.action, command.acceptedAt, command.actorId, command.reason, command.data)
  }

  function AfterVerified(purpose: Purpose, head: HistoryHead): Pc {
    if purpose.Opening? then ReadingHead(Deciding(head))
    else SearchingChain(purpose, head, head.operationId, head.sequence)
  }

  /** The answer of `accepted` is known. */
  function Conclude(ctx: Context, command: Command, purpose: Purpose, found: Option<HistoryEvent>): Pc {
    match purpose
    case Opening => Raised
    case Deciding(head) =>
      if found.Some? then
        if Matches(command, found.value) then Returned(found.value, true) else Raised
      else if head.sequence != command.expectedSequence then Raised
      else ReadingCopy(StoreEvent(BuildEvent(ctx, command, head), head.etag), Primary)
    case Resolving =>
      if found.Some? then Returned(found.value, false) else Raised
    case Confirming(event) =>
      if found.Some? && ctx.hash(found.value) == ctx.hash(event) then Returned(found.value, true) else Raised
  }

  function VerifyMove(ctx: Context, s: State, pc: Pc): Pc
    requires !pc.SearchingChain? && !pc.ReadingCopy? && !pc.WritingCopy? && !pc.RereadingCopy?
    requires !pc.WritingHead? && !pc.Returned? && !pc.Raised?
  {
    match pc
    case ReadingHead(purpose) =>
      (match StoredHead(ctx, s.primary)
       case None => Raised
       case Some(head) =>
         if head.sequence == 0 then ReadingEntry(purpose, head, Primary)
         else WalkingEvents(purpose, head, head.operationId, head.digest, head.sequence))
    case WalkingEvents(purpose, head, cursor, expected, remaining) =>
      if remaining == 0 then
        if cursor == None && expected == ctx.genesis then ReadingEntry(purpose, head, Primary) else Raised
      else if cursor.None? then Raised
      else
        (match ReadEvent(s.primary, cursor.value)
         case None => Raised
         case Some(event) =>
           if LinksTo(ctx, event, cursor.value, expected, remaining)
           then WalkingEvents(purpose, head, event.previousOperationId, event.previousDigest, remaining - 1)
           else Raised)
    case ReadingEntry(purpose, head, side) =>
      if SideStore(s, side).Holds(CatalogKey, Registration(ctx.orgId)) then ListingReceipts(purpose, head, side)
      else Raised
    case ListingReceipts(purpose, head, side) =>
      if SideStore(s, side).ReceiptKeys() == ReceiptRange(head.sequence)
      then ReadingReceipt(purpose, head, side, 0, GenesisLink(ctx))
      else Raised
    case ReadingReceipt(purpose, head, side, sequence, previous) =>
      if sequence > head.sequence then
        if previous.operationId != head.operationId then Raised
        else if side.Primary? then ReadingEntry(purpose, head, Backup)
        else AfterVerified(purpose, head)
      else
        (match SideStore(s, side).Read(ReceiptKey(sequence))
         case None => Raised
         case Some(found) =>
           var body := found.body;
           if !ReceiptIdentified(ctx, body, sequence) then Raised
           else if sequence == 0 then
             if body.digest != ctx.genesis || body.operationId != None then Raised
             else if head.sequence == 0 && body.digest != head.digest then Raised
             else ReadingReceipt(purpose, head, side, 1, previous)
           else if body.operationId.None? then Raised
           else ReadingReceiptEvent(purpose, head, side, sequence, previous, body.operationId.value, body.digest))
    case ReadingReceiptEvent(purpose, head, side, sequence, previous, named, digest) =>
      (match ReadEvent(s.primary, named)
       case None => Raised
       case Some(event) =>
         if ReceiptMatches(ctx, event, sequence, digest, previous)
         then ReadingReceiptBackup(purpose, head, side, sequence, event, digest)
         else Raised)
    case ReadingReceiptBackup(purpose, head, side, sequence, event, digest) =>
      if !s.backup.Holds(EventKey(event.operationId), Event(event)) then Raised
      else if sequence == head.sequence && digest != head.digest then Raised
      else ReadingReceipt(purpose, head, side, sequence + 1, Link(ctx.hash(event), Some(event.operationId)))
  }

  function SearchMove(ctx: Context, s: State, command: Command, pc: Pc): Pc
    requires pc.SearchingChain?
  {
    if pc.remaining == 0 then Conclude(ctx, command, pc.purpose, None)
    else if pc.cursor.None? then Raised
    else
      match ReadEvent(s.primary, pc.cursor.value)
      case None => Raised
      case Some(event) =>
        if pc.cursor.value == command.operationId then Conclude(ctx, command, pc.purpose, Some(event))
        else SearchingChain(pc.purpose, pc.head, event.previousOperationId, pc.remaining - 1)
  }

  function WriteMove(ctx: Context, s: State, command: Command, pc: Pc, signal: Signal): Move
    requires pc.ReadingCopy? || pc.WritingCopy? || pc.RereadingCopy? || pc.WritingHead?
  {
    match pc
    case ReadingCopy(task, side) =>
      if !signal.Reply? then Move(ReadingHead(Resolving), Nothing)
      else
        (match SideStore(s, side).Read(TaskKey(task))
         case None => Move(WritingCopy(task, side), Nothing)
         case Some(found) =>
           Move(if found.body == TaskBody(ctx, task) then AfterCopy(task, side) else ReadingHead(Resolving), Nothing))
    case WritingCopy(task, side) =>
      var request := TaskRequest(task, side);
      if signal.Fault? then Move(ReadingHead(Resolving), Flight(request))
      else if signal.Refusal? || !Admitted(s, request) then Move(RereadingCopy(task, side), Nothing)
      else Move(AfterCopy(task, side), Write(request))
    case RereadingCopy(task, side) =>
      if signal.Reply? && SideStore(s, side).Holds(TaskKey(task), TaskBody(ctx, task))
      then Move(AfterCopy(task, side), Nothing)
      else Move(ReadingHead(Resolving), Nothing)
    case WritingHead(event, etag) =>
      var request := PutHead(event, etag);
      if signal.Fault? then Move(ReadingHead(Resolving), Flight(request))
      else if signal.Refusal? || !Admitted(s, request) then Move(ReadingHead(Resolving), Nothing)
      else Move(ReadingCopy(StoreReceipt(event), Primary), Write(request))
  }

  function ProcMove(ctx: Context, s: State, proc: Proc, signal: Signal): Move {
    if proc.pc.Returned? || proc.pc.Raised? then Move(proc.pc, Nothing)
    else if proc.pc.ReadingCopy? || proc.pc.WritingCopy? || proc.pc.RereadingCopy? || proc.pc.WritingHead? then
      WriteMove(ctx, s, proc.command, proc.pc, signal)
    else if !signal.Reply? then Move(Raised, Nothing)
    else if proc.pc.SearchingChain? then Move(SearchMove(ctx, s, proc.command, proc.pc), Nothing)
    else Move(VerifyMove(ctx, s, proc.pc), Nothing)
  }

  function Perform(ctx: Context, s: State, effect: Effect): State {
    match effect
    case Nothing => s
    case Write(request) => Apply(ctx, s, request)
    case Flight(request) => s.(sent := s.sent + {request})
  }

  /** One action of the system. An action that is not enabled changes nothing. */
  function Exec(ctx: Context, s: State, action: Action): State {
    match action
    case Launch(id, command) =>
      if id in s.procs then s else s.(procs := s.procs[id := Proc(command, ReadingHead(Opening))])
    case Run(id, signal) =>
      if id !in s.procs then s
      else
        var move := ProcMove(ctx, s, s.procs[id], signal);
        var t := Perform(ctx, s, move.effect);
        t.(procs := t.procs[id := s.procs[id].(pc := move.pc)])
    case Deliver(request) =>
      if request in s.sent then Apply(ctx, s, request) else s
  }

  /** A run: any interleaving of launches, steps and late deliveries. */
  function Execute(ctx: Context, s: State, actions: seq<Action>): State
    decreases |actions|
  {
    if actions == [] then s else Exec(ctx, Execute(ctx, s, actions[..|actions| - 1]), actions[|actions| - 1])
  }
}
