/** The lifecycle history of one organization as values: the records, the two object stores that hold
    them, and what each read of `LifecycleHistory` decides about a pair of stores.

    Every key of an organization carries its identifier, so the model names the keys of one organization
    only. Documents are values; the digest is an arbitrary function of the event document. */
module HistoryModel {
  import opened Wrappers

  type Uuid = nat
  type Digest = string

  /** What is fixed for one organization: its identifier, the digest function and the digest of nothing. */
  datatype Context = Context(orgId: Uuid, hash: HistoryEvent -> Digest, genesis: Digest)

  datatype HistoryEvent = HistoryEvent(
    orgId: Uuid,
    operationId: Uuid,
    sequence: int,
    previousOperationId: Option<Uuid>,
    previousDigest: Digest,
    action: string,
    acceptedAt: string,
    actorId: Option<Uuid>,
    reason: string,
    data: string)

  /** A stored document. `Malformed` stands for a body that no parser of the source accepts. */
  datatype Body =
    | Registration(orgId: Uuid)
    | Receipt(orgId: Uuid, sequence: int, operationId: Option<Uuid>, digest: Digest)
    | Head(sequence: int, digest: Digest, tip: Uuid)
    | Event(event: HistoryEvent)
    | Malformed(text: string)

  /** `StrayReceiptKey` is any other key below the receipt prefix. */
  datatype Key =
    | CatalogKey
    | ReceiptKey(sequence: int)
    | StrayReceiptKey(name: string)
    | HeadKey
    | EventKey(operationId: Uuid)

  datatype Object = Object(body: Body, etag: nat)

  /** An object store. The entity tag of an object is the clock value of the put that wrote it. */
  datatype Store = Store(objects: map<Key, Object>, clock: nat) {

    predicate Holds(key: Key, body: Body) {
      key in objects && objects[key].body == body
    }

    predicate Has(key: Key) {
      key in objects
    }

    function Read(key: Key): Option<Object> {
      if key in objects then Some(objects[key]) else None
    }

    /** The precondition of a conditional put: If-Match with a tag, If-None-Match: * without one
        (sections 13.1.1 and 13.1.2 of RFC 9110). */
    predicate Admits(key: Key, expected: Option<nat>) {
      match expected
      case None => key !in objects
      case Some(etag) => key in objects && objects[key].etag == etag
    }

    /** A conditional put: `None` when the precondition fails. */
    function Put(key: Key, body: Body, expected: Option<nat>): (r: Option<Store>) {
      if Admits(key, expected) then Some(Store(objects[key := Object(body, clock)], clock + 1)) else None
    }

    function ReceiptKeys(): set<Key> {
      set key | key in objects && (key.ReceiptKey? || key.StrayReceiptKey?)
    }
  }

  datatype HistoryHead = HistoryHead(sequence: nat, digest: Digest, operationId: Option<Uuid>, etag: Option<nat>)

  /** Digest and operation of the record that the next event must name as its predecessor. */
  datatype Link = Link(digest: Digest, operationId: Option<Uuid>)

  datatype Lookup = Broken | Absent | Present(event: HistoryEvent)

  function GenesisHead(ctx: Context): HistoryHead {
    HistoryHead(0, ctx.genesis, None, None)
  }

  function GenesisLink(ctx: Context): Link {
    Link(ctx.genesis, None)
  }

  function GenesisReceipt(ctx: Context): Body {
    Receipt(ctx.orgId, 0, None, ctx.genesis)
  }

  function ReceiptFor(ctx: Context, event: HistoryEvent): Body {
    Receipt(ctx.orgId, event.sequence, Some(event.operationId), ctx.hash(event))
  }

  function HeadFor(ctx: Context, event: HistoryEvent): Body {
    Head(event.sequence, ctx.hash(event), event.operationId)
  }

  /** The fields a head document must have. A receipt document has them too. */
  function ParseHead(body: Body, etag: nat): Option<HistoryHead> {
    match body
    case Head(sequence, digest, tip) =>
      if sequence < 1 then None else Some(HistoryHead(sequence, digest, Some(tip), Some(etag)))
    case Receipt(_, sequence, Some(operationId), digest) =>
      if sequence < 1 then None else Some(HistoryHead(sequence, digest, Some(operationId), Some(etag)))
    case _ => None
  }

  /** The head a store names: genesis without a head object, nothing for an unreadable one. */
  function StoredHead(ctx: Context, primary: Store): Option<HistoryHead> {
    if HeadKey !in primary.objects then Some(GenesisHead(ctx))
    else ParseHead(primary.objects[HeadKey].body, primary.objects[HeadKey].etag)
  }

  function ReadEvent(store: Store, operationId: Uuid): Option<HistoryEvent> {
    if store.Has(EventKey(operationId)) && store.objects[EventKey(operationId)].body.Event?
    then Some(store.objects[EventKey(operationId)].body.event)
    else None
  }

  /* ---------- the backward walk ---------- */

  /** The check of one step of the backward walk. */
  predicate LinksTo(ctx: Context, event: HistoryEvent, operationId: Uuid, digest: Digest, sequence: int) {
    && event.orgId == ctx.orgId
    && event.operationId == operationId
    && event.sequence == sequence
    && ctx.hash(event) == digest
  }

  /** Walk back `sequence` digest-checked steps and require genesis there. Oldest event first. */
  function WalkBack(ctx: Context, store: Store, cursor: Option<Uuid>, expected: Digest, sequence: nat)
    : (r: Option<seq<HistoryEvent>>)
    decreases sequence
  {
    if sequence == 0 then
      if cursor == None && expected == ctx.genesis then Some([]) else None
    else if cursor.None? then None
    else
      match ReadEvent(store, cursor.value)
      case None => None
      case Some(event) =>
        if !LinksTo(ctx, event, cursor.value, expected, sequence) then None
        else
          match WalkBack(ctx, store, event.previousOperationId, event.previousDigest, sequence - 1)
          case None => None
          case Some(earlier) => Some(earlier + [event])
  }

  function WalkHead(ctx: Context, primary: Store, head: HistoryHead): Option<seq<HistoryEvent>> {
    WalkBack(ctx, primary, head.operationId, head.digest, head.sequence)
  }

  /* ---------- the forward walk over one copy of the receipts ---------- */

  function ReceiptRange(last: nat): set<Key> {
    set sequence: int | 0 <= sequence <= last :: ReceiptKey(sequence)
  }

  predicate ReceiptIdentified(ctx: Context, body: Body, sequence: int) {
    body.Receipt? && body.orgId == ctx.orgId && body.sequence == sequence
  }

  predicate ReceiptMatches(ctx: Context, event: HistoryEvent, sequence: int, digest: Digest, previous: Link) {
    && event.sequence == sequence
    && ctx.hash(event) == digest
    && event.previousDigest == previous.digest
    && event.previousOperationId == previous.operationId
  }

  /** One iteration of the receipt loop: the link after it, or nothing when a check fails. */
  function ReceiptStep(ctx: Context, side: Store, primary: Store, backup: Store, head: HistoryHead,
                       sequence: nat, previous: Link): (r: Option<Link>)
  {
    if !side.Has(ReceiptKey(sequence)) then None
    else
      var body := side.objects[ReceiptKey(sequence)].body;
      if !ReceiptIdentified(ctx, body, sequence) then None
      else if sequence == 0 then
        if body.digest != ctx.genesis || body.operationId != None then None
        else if head.sequence == 0 && body.digest != head.digest then None
        else Some(previous)
      else if body.operationId.None? then None
      else
        match ReadEvent(primary, body.operationId.value)
        case None => None
        case Some(event) =>
          if !ReceiptMatches(ctx, event, sequence, body.digest, previous) then None
          else if !backup.Holds(EventKey(event.operationId), Event(event)) then None
          else if sequence == head.sequence && body.digest != head.digest then None
          else Some(Link(ctx.hash(event), Some(event.operationId)))
  }

  function ReceiptWalk(ctx: Context, side: Store, primary: Store, backup: Store, head: HistoryHead,
                       sequence: nat, previous: Link): (r: Option<Link>)
    requires sequence <= head.sequence + 1
    decreases head.sequence + 1 - sequence
  {
    if sequence == head.sequence + 1 then Some(previous)
    else
      match ReceiptStep(ctx, side, primary, backup, head, sequence, previous)
      case None => None
      case Some(next) => ReceiptWalk(ctx, side, primary, backup, head, sequence + 1, next)
  }

  predicate CatalogSideOk(ctx: Context, side: Store, primary: Store, backup: Store, head: HistoryHead) {
    && side.Holds(CatalogKey, Registration(ctx.orgId))
    && side.ReceiptKeys() == ReceiptRange(head.sequence)
    && var last := ReceiptWalk(ctx, side, primary, backup, head, 0, GenesisLink(ctx));
       last.Some? && last.value.operationId == head.operationId
  }

  predicate CatalogOk(ctx: Context, primary: Store, backup: Store, head: HistoryHead) {
    CatalogSideOk(ctx, primary, primary, backup, head) && CatalogSideOk(ctx, backup, primary, backup, head)
  }

  /* ---------- the reads of the public interface ---------- */

  /** `verified_head`: nothing stands for HistoryUnverified. */
  function VerifiedHead(ctx: Context, primary: Store, backup: Store): (r: Option<HistoryHead>) {
    match StoredHead(ctx, primary)
    case None => None
    case Some(head) =>
      if head.sequence > 0 && WalkHead(ctx, primary, head).None? then None
      else if CatalogOk(ctx, primary, backup, head) then Some(head)
      else None
  }

  /** The loop of `accepted`, which follows keys without checking digests. */
  function Search(store: Store, cursor: Option<Uuid>, remaining: nat, operationId: Uuid): (r: Lookup)
    decreases remaining
  {
    if remaining == 0 then Absent
    else if cursor.None? then Broken
    else
      match ReadEvent(store, cursor.value)
      case None => Broken
      case Some(event) =>
        if cursor.value == operationId then Present(event)
        else Search(store, event.previousOperationId, remaining - 1, operationId)
  }

  function Accepted(ctx: Context, primary: Store, backup: Store, operationId: Uuid): (r: Lookup) {
    match VerifiedHead(ctx, primary, backup)
    case None => Broken
    case Some(head) => Search(primary, head.operationId, head.sequence, operationId)
  }

  /** The loop of `verified_events`, which checks sequence and organization only. Oldest event first. */
  function Collect(ctx: Context, store: Store, cursor: Option<Uuid>, remaining: nat): (r: Option<seq<HistoryEvent>>)
    decreases remaining
  {
    if remaining == 0 then Some([])
    else if cursor.None? then None
    else
      match ReadEvent(store, cursor.value)
      case None => None
      case Some(event) =>
        if event.sequence != remaining || event.orgId != ctx.orgId then None
        else
          match Collect(ctx, store, event.previousOperationId, remaining - 1)
          case None => None
          case Some(earlier) => Some(earlier + [event])
  }

  function VerifiedEvents(ctx: Context, primary: Store, backup: Store): (r: Option<seq<HistoryEvent>>) {
    match VerifiedHead(ctx, primary, backup)
    case None => None
    case Some(head) => Collect(ctx, primary, head.operationId, head.sequence)
  }
}
