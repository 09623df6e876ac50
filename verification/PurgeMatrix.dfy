/** Batching of an organization purge: coverage, order and reference safety. */
module PurgeMatrix {
  type RowKey = string

  datatype Step =
    | Capabilities | Objects | DeliveryConsents | OpsFaults | CallScoring | Training | Hiring
    | KnowledgeDrills | Accounts | Derived | EvidenceMinimize | OrgFinalize

  datatype Table =
    | IdempotencyRecord
    | EmailDeliverySecret | EmailSend | ConsentRecord | TermsAcceptance
    | OpsFault
    | Moment | DimensionScore | Scorecard | TranscriptEntry | Attempt
    | CoachFeedbackItem | BadgeAward | AssignmentRecipient | Assignment
    | CandidateToken | ShortlistCandidate | Shortlist | CandidateReport
    | Candidate | AssessmentStage | HrContact | Position
    | ProductFact | FactSet | DocumentUpload | ProductDocument | RubricDimension | DrillConcealed | Drill
    | PasswordResetToken | Account
    | OrgServiceTerm | OrgRetentionPolicy | Org

  datatype Entry = Entry(step: Step, table: Table)

  datatype Batch = Batch(step: Step, table: Table, index: nat, keys: seq<RowKey>)

  type Inventory = map<Table, seq<RowKey>>

  const STEP_ORDER: seq<Step> := [
    Capabilities, Objects, DeliveryConsents, OpsFaults, CallScoring, Training, Hiring,
    KnowledgeDrills, Accounts, Derived, EvidenceMinimize, OrgFinalize]

  const BATCH_SIZE := 1000

  function StepTables(step: Step): seq<Table> {
    match step
    case Capabilities => [IdempotencyRecord]
    case DeliveryConsents => [EmailDeliverySecret, EmailSend, ConsentRecord, TermsAcceptance]
    case OpsFaults => [OpsFault]
    case CallScoring => [Moment, DimensionScore, Scorecard, TranscriptEntry, Attempt]
    case Training => [CoachFeedbackItem, BadgeAward, AssignmentRecipient, Assignment]
    case Hiring => [CandidateToken, ShortlistCandidate, Shortlist, CandidateReport,
                    Candidate, AssessmentStage, HrContact, Position]
    case KnowledgeDrills => [ProductFact, FactSet, DocumentUpload, ProductDocument,
                             RubricDimension, DrillConcealed, Drill]
    case Accounts => [PasswordResetToken, Account]
    case OrgFinalize => [OrgServiceTerm, OrgRetentionPolicy, Org]
    case _ => []
  }

  /** Every table of the matrix is inventoried. */
  predicate Complete(inventory: Inventory) {
    forall table: Table :: table in inventory
  }

  /* ---------- batches ---------- */

  function Smaller(x: int, y: int): int {
    if x < y then x else y
  }

  function BatchCount(rows: seq<RowKey>): nat {
    (|rows| + BATCH_SIZE - 1) / BATCH_SIZE
  }

  function Slice(rows: seq<RowKey>, index: nat): seq<RowKey>
    requires index < BatchCount(rows)
  {
    rows[index * BATCH_SIZE..Smaller((index + 1) * BATCH_SIZE, |rows|)]
  }

  function TableBatches(entry: Entry, rows: seq<RowKey>): seq<Batch> {
    seq(BatchCount(rows), index requires 0 <= index < BatchCount(rows) =>
      Batch(entry.step, entry.table, index, Slice(rows, index)))
  }

  function StepEntries(step: Step, tables: seq<Table>): seq<Entry> {
    seq(|tables|, i requires 0 <= i < |tables| => Entry(step, tables[i]))
  }

  function Entries(steps: seq<Step>): seq<Entry> {
    if steps == [] then []
    else
      var last := steps[|steps| - 1];
      Entries(steps[..|steps| - 1]) + StepEntries(last, StepTables(last))
  }

  function EntryBatches(inventory: Inventory, entries: seq<Entry>): seq<Batch>
    requires Complete(inventory)
  {
    if entries == [] then []
    else
      var last := entries[|entries| - 1];
      EntryBatches(inventory, entries[..|entries| - 1]) + TableBatches(last, inventory[last.table])
  }

  function Batches(inventory: Inventory): seq<Batch>
    requires Complete(inventory)
  {
    EntryBatches(inventory, Entries(STEP_ORDER))
  }

  lemma EntryBatchesAppend(inventory: Inventory, entries: seq<Entry>, entry: Entry)
    requires Complete(inventory)
    ensures EntryBatches(inventory, entries + [entry])
         == EntryBatches(inventory, entries) + TableBatches(entry, inventory[entry.table])
  {
    assert (entries + [entry])[..|entries|] == entries;
  }

  lemma {:induction false} EntryBatchesSplit(inventory: Inventory, before: seq<Entry>, after: seq<Entry>)
    requires Complete(inventory)
    ensures EntryBatches(inventory, before + after) == EntryBatches(inventory, before) + EntryBatches(inventory, after)
    decreases |after|
  {
    if after == [] {
      assert before + after == before;
    } else {
      var n := |after| - 1;
      EntryBatchesSplit(inventory, before, after[..n]);
      assert (before + after)[..|before + after| - 1] == before + after[..n];
    }
  }

  /** The innermost loop of `batch_keys`: one batch for every offset of one table. */
  method BatchTable(step: Step, table: Table, rows: seq<RowKey>) returns (batches: seq<Batch>)
    ensures batches == TableBatches(Entry(step, table), rows)
  {
    batches := [];
    var offset := 0;
    while offset < |rows|
      invariant 0 <= offset && offset % BATCH_SIZE == 0 && offset / BATCH_SIZE == |batches| <= BatchCount(rows)
      invariant forall k :: 0 <= k < |batches| ==> batches[k] == Batch(step, table, k, Slice(rows, k))
    {
      batches := batches + [Batch(step, table, offset / BATCH_SIZE, rows[offset..Smaller(offset + BATCH_SIZE, |rows|)])];
      offset := offset + BATCH_SIZE;
    }
  }

  /** The middle loop: the tables of one step. */
  method BatchStep(inventory: Inventory, step: Step, tables: seq<Table>) returns (batches: seq<Batch>)
    requires Complete(inventory)
    ensures batches == EntryBatches(inventory, StepEntries(step, tables))
  {
    batches := [];
    ghost var entries := StepEntries(step, tables);
    for j := 0 to |tables|
      invariant batches == EntryBatches(inventory, entries[..j])
    {
      var more := BatchTable(step, tables[j], inventory[tables[j]]);
      EntryBatchesAppend(inventory, entries[..j], entries[j]);
      assert entries[..j + 1] == entries[..j] + [entries[j]];
      batches := batches + more;
    }
    assert entries[..|tables|] == entries;
  }

  /** `batch_keys` over the steps in the given order. */
  method BatchSteps(inventory: Inventory, order: seq<Step>) returns (batches: seq<Batch>)
    requires Complete(inventory)
    ensures batches == EntryBatches(inventory, Entries(order))
  {
    batches := [];
    for i := 0 to |order|
      invariant batches == EntryBatches(inventory, Entries(order[..i]))
    {
      var more := BatchStep(inventory, order[i], StepTables(order[i]));
      EntryBatchesSplit(inventory, Entries(order[..i]), StepEntries(order[i], StepTables(order[i])));
      assert order[..i + 1][..i] == order[..i];
      batches := batches + more;
    }
    assert order[..|order|] == order;
  }

  method BatchKeys(inventory: Inventory) returns (batches: seq<Batch>)
    requires Complete(inventory)
    ensures batches == Batches(inventory)
  {
    batches := BatchSteps(inventory, STEP_ORDER);
  }

  /* ---------- the order of the matrix ---------- */

  /** The place of a table in the deletion order. */
  function Rank(table: Table): nat {
    match table
    case IdempotencyRecord => 0
    case EmailDeliverySecret => 1 case EmailSend => 2 case ConsentRecord => 3 case TermsAcceptance => 4
    case OpsFault => 5
    case Moment => 6 case DimensionScore => 7 case Scorecard => 8 case TranscriptEntry => 9 case Attempt => 10
    case CoachFeedbackItem => 11 case BadgeAward => 12 case AssignmentRecipient => 13 case Assignment => 14
    case CandidateToken => 15 case ShortlistCandidate => 16 case Shortlist => 17 case CandidateReport => 18
    case Candidate => 19 case AssessmentStage => 20 case HrContact => 21 case Position => 22
    case ProductFact => 23 case FactSet => 24 case DocumentUpload => 25 case ProductDocument => 26
    case RubricDimension => 27 case DrillConcealed => 28 case Drill => 29
    case PasswordResetToken => 30 case Account => 31
    case OrgServiceTerm => 32 case OrgRetentionPolicy => 33 case Org => 34
  }

  /** The place of the first table of a step. */
  function StepStart(step: Step): nat {
    match step
    case Capabilities => 0
    case Objects => 1
    case DeliveryConsents => 1
    case OpsFaults => 5
    case CallScoring => 6
    case Training => 11
    case Hiring => 15
    case KnowledgeDrills => 23
    case Accounts => 30
    case Derived => 32
    case EvidenceMinimize => 32
    case OrgFinalize => 32
  }

  lemma HiringRanks(j: nat)
    requires j < |StepTables(Hiring)|
    ensures Rank(StepTables(Hiring)[j]) == 15 + j
  {
  }

  lemma KnowledgeRanks(j: nat)
    requires j < |StepTables(KnowledgeDrills)|
    ensures Rank(StepTables(KnowledgeDrills)[j]) == 23 + j
  {
  }

  lemma ScoringRanks(j: nat)
    requires j < |StepTables(CallScoring)|
    ensures Rank(StepTables(CallScoring)[j]) == 6 + j
  {
  }

  lemma StepRanks(step: Step, j: nat)
    requires j < |StepTables(step)|
    ensures Rank(StepTables(step)[j]) == StepStart(step) + j
  {
    match step
    case Hiring => HiringRanks(j);
    case KnowledgeDrills => KnowledgeRanks(j);
    case CallScoring => ScoringRanks(j);
    case _ =>
  }

  /** How many tables the first `n` steps have. */
  function TablesBefore(n: nat): nat
    requires n <= |STEP_ORDER|
  {
    if n == |STEP_ORDER| then 35 else StepStart(STEP_ORDER[n])
  }

  lemma NextStart(n: nat)
    requires 0 < n <= |STEP_ORDER|
    ensures TablesBefore(n) == TablesBefore(n - 1) + |StepTables(STEP_ORDER[n - 1])|
  {
  }

  /** The entries of the first steps are numbered by their tables' places. */
  lemma {:induction false} EntriesRanked(n: nat)
    requires n <= |STEP_ORDER|
    ensures |Entries(STEP_ORDER[..n])| == TablesBefore(n)
    ensures forall i :: 0 <= i < |Entries(STEP_ORDER[..n])| ==> Rank(Entries(STEP_ORDER[..n])[i].table) == i
  {
    if n > 0 {
      EntriesRanked(n - 1);
      NextStart(n);
      assert STEP_ORDER[..n][..n - 1] == STEP_ORDER[..n - 1];
      var entries := Entries(STEP_ORDER[..n]);
      forall i | 0 <= i < |entries| ensures Rank(entries[i].table) == i {
        if i >= TablesBefore(n - 1) {
          StepRanks(STEP_ORDER[n - 1], i - TablesBefore(n - 1));
        }
      }
    }
  }

  /** Every table is deleted in exactly one place: entry number `Rank(table)`. */
  lemma EntryOf(table: Table)
    ensures |Entries(STEP_ORDER)| == 35
    ensures Rank(table) < 35 && Entries(STEP_ORDER)[Rank(table)].table == table
  {
    EntriesRanked(|STEP_ORDER|);
    assert STEP_ORDER[..|STEP_ORDER|] == STEP_ORDER;
    SameRankSameTable(table, Entries(STEP_ORDER)[Rank(table)].table);
  }

  lemma SameRankSameTable(x: Table, y: Table)
    requires Rank(x) == Rank(y)
    ensures x == y
  {
  }

  /* ---------- what the batches are ---------- */

  /** Earlier in the purge: an earlier table, or an earlier batch of the same table. */
  predicate Before(x: Batch, y: Batch) {
    Rank(x.table) < Rank(y.table) || (x.table == y.table && x.index < y.index)
  }

  ghost predicate Sorted(batches: seq<Batch>) {
    forall i, j :: 0 <= i < j < |batches| ==> Before(batches[i], batches[j])
  }

  predicate Genuine(inventory: Inventory, entries: seq<Entry>, batch: Batch)
    requires Complete(inventory)
  {
    && Entry(batch.step, batch.table) in entries
    && batch.index < BatchCount(inventory[batch.table])
    && batch.keys == Slice(inventory[batch.table], batch.index)
  }

  /** The batch with this table and index is in the list. */
  ghost predicate Listed(batches: seq<Batch>, table: Table, index: nat) {
    exists k :: 0 <= k < |batches| && batches[k].table == table && batches[k].index == index
  }

  predicate Ranked(entries: seq<Entry>) {
    forall i :: 0 <= i < |entries| ==> Rank(entries[i].table) == i
  }

  ghost predicate BatchAccount(inventory: Inventory, entries: seq<Entry>, batches: seq<Batch>)
    requires Complete(inventory)
  {
    && Sorted(batches)
    && (forall k :: 0 <= k < |batches| ==> Genuine(inventory, entries, batches[k]))
    && (forall entry, index: nat :: entry in entries && index < BatchCount(inventory[entry.table]) ==>
          Listed(batches, entry.table, index))
  }

  lemma GenuineRank(inventory: Inventory, entries: seq<Entry>, batch: Batch)
    requires Complete(inventory) && Ranked(entries) && Genuine(inventory, entries, batch)
    ensures Rank(batch.table) < |entries|
  {
    var i :| 0 <= i < |entries| && entries[i] == Entry(batch.step, batch.table);
  }

  lemma SortedAppend(inventory: Inventory, entries: seq<Entry>, before: seq<Batch>, entry: Entry)
    requires Complete(inventory) && Ranked(entries) && Rank(entry.table) == |entries|
    requires Sorted(before) && forall k :: 0 <= k < |before| ==> Genuine(inventory, entries, before[k])
    ensures Sorted(before + TableBatches(entry, inventory[entry.table]))
  {
    var more := TableBatches(entry, inventory[entry.table]);
    var all := before + more;
    forall i, j | 0 <= i < j < |all| ensures Before(all[i], all[j]) {
      if i < |before| <= j {
        GenuineRank(inventory, entries, before[i]);
      }
    }
  }

  lemma ListedAppend(before: seq<Batch>, entry: Entry, rows: seq<RowKey>)
    ensures forall table, index :: Listed(before, table, index) ==> Listed(before + TableBatches(entry, rows), table, index)
    ensures forall index: nat :: index < BatchCount(rows) ==>
              Listed(before + TableBatches(entry, rows), entry.table, index)
  {
    var all := before + TableBatches(entry, rows);
    forall table, index | Listed(before, table, index) ensures Listed(all, table, index) {
      var k :| 0 <= k < |before| && before[k].table == table && before[k].index == index;
      assert all[k] == before[k];
    }
    forall index: nat | index < BatchCount(rows) ensures Listed(all, entry.table, index) {
      assert all[|before| + index] == TableBatches(entry, rows)[index];
    }
  }

  lemma {:induction false} EntryBatchesAccount(inventory: Inventory, entries: seq<Entry>)
    requires Complete(inventory) && Ranked(entries)
    ensures BatchAccount(inventory, entries, EntryBatches(inventory, entries))
    decreases |entries|
  {
    if entries != [] {
      var n := |entries| - 1;
      var earlier, last := entries[..n], entries[n];
      EntryBatchesAccount(inventory, earlier);
      var before := EntryBatches(inventory, earlier);
      SortedAppend(inventory, earlier, before, last);
      ListedAppend(before, last, inventory[last.table]);
      assert entries == earlier + [last];
    }
  }

  lemma BatchesAccount(inventory: Inventory)
    requires Complete(inventory)
    ensures Ranked(Entries(STEP_ORDER)) && BatchAccount(inventory, Entries(STEP_ORDER), Batches(inventory))
  {
    EntriesRanked(|STEP_ORDER|);
    assert STEP_ORDER[..|STEP_ORDER|] == STEP_ORDER;
    EntryBatchesAccount(inventory, Entries(STEP_ORDER));
  }

  /** Every batch holds 1 to 1000 rows, the consecutive ones its index names, fewer than 1000 only at the end of its
      table, under the step of its table; batches come in the order of the matrix, so no two share table and index;
      and every index up to the last of a table occurs. */
  lemma BatchesBounded(inventory: Inventory)
    requires Complete(inventory)
    ensures var batches := Batches(inventory);
            && (forall k :: 0 <= k < |batches| ==>
                  && 1 <= |batches[k].keys| <= 1000
                  && batches[k].index * 1000 + |batches[k].keys| <= |inventory[batches[k].table]|
                  && (|batches[k].keys| < 1000 ==>
                        batches[k].index * 1000 + |batches[k].keys| == |inventory[batches[k].table]|)
                  && batches[k].keys == inventory[batches[k].table][batches[k].index * 1000..][..|batches[k].keys|]
                  && batches[k].table in StepTables(batches[k].step))
            && (forall i, j :: 0 <= i < j < |batches| ==>
                  Rank(batches[i].table) <= Rank(batches[j].table)
                  && (batches[i].table, batches[i].index) != (batches[j].table, batches[j].index))
            && (forall table: Table, index: nat :: index * 1000 < |inventory[table]| ==> Listed(batches, table, index))
  {
    BatchesAccount(inventory);
    var batches := Batches(inventory);
    forall k | 0 <= k < |batches|
      ensures 1 <= |batches[k].keys| <= 1000
      ensures batches[k].index * 1000 + |batches[k].keys| <= |inventory[batches[k].table]|
      ensures |batches[k].keys| < 1000 ==> batches[k].index * 1000 + |batches[k].keys| == |inventory[batches[k].table]|
      ensures batches[k].keys == inventory[batches[k].table][batches[k].index * 1000..][..|batches[k].keys|]
      ensures batches[k].table in StepTables(batches[k].step)
    {
      assert Genuine(inventory, Entries(STEP_ORDER), batches[k]);
      EntryStep(STEP_ORDER, Entry(batches[k].step, batches[k].table));
    }
    forall i, j | 0 <= i < j < |batches|
      ensures Rank(batches[i].table) <= Rank(batches[j].table)
      ensures (batches[i].table, batches[i].index) != (batches[j].table, batches[j].index)
    {
      assert Before(batches[i], batches[j]);
    }
    forall table: Table, index: nat | index * 1000 < |inventory[table]| ensures Listed(batches, table, index) {
      EntryOf(table);
      assert Entries(STEP_ORDER)[Rank(table)] in Entries(STEP_ORDER);
    }
  }

  /* ---------- every row once, in order ---------- */

  /** The rows of one table, over all its batches. */
  function KeysOf(batches: seq<Batch>, table: Table): seq<RowKey> {
    if batches == [] then []
    else
      var last := batches[|batches| - 1];
      KeysOf(batches[..|batches| - 1], table) + if last.table == table then last.keys else []
  }

  lemma {:induction false} KeysOfSplit(before: seq<Batch>, after: seq<Batch>, table: Table)
    ensures KeysOf(before + after, table) == KeysOf(before, table) + KeysOf(after, table)
    decreases |after|
  {
    if after == [] {
      assert before + after == before;
    } else {
      var n := |after| - 1;
      KeysOfSplit(before, after[..n], table);
      assert (before + after)[..|before + after| - 1] == before + after[..n];
      assert KeysOf(before + after, table)
          == KeysOf(before + after[..n], table) + if after[n].table == table then after[n].keys else [];
    }
  }

  lemma {:induction false} TableKeys(entry: Entry, rows: seq<RowKey>, n: nat, table: Table)
    requires n <= BatchCount(rows)
    ensures KeysOf(TableBatches(entry, rows)[..n], table)
         == if entry.table == table then rows[..Smaller(n * BATCH_SIZE, |rows|)] else []
    decreases n
  {
    if n > 0 {
      var batches := TableBatches(entry, rows);
      TableKeys(entry, rows, n - 1, table);
      assert batches[..n][..n - 1] == batches[..n - 1];
      assert rows[..Smaller(n * BATCH_SIZE, |rows|)] == rows[..(n - 1) * BATCH_SIZE] + Slice(rows, n - 1);
    }
  }

  lemma OneTableKeys(entry: Entry, rows: seq<RowKey>, table: Table)
    ensures KeysOf(TableBatches(entry, rows), table) == if entry.table == table then rows else []
  {
    TableKeys(entry, rows, BatchCount(rows), table);
    assert TableBatches(entry, rows)[..BatchCount(rows)] == TableBatches(entry, rows);
  }

  /** Only entry number `m` brings rows of its table. */
  lemma {:induction false} EntryKeys(inventory: Inventory, entries: seq<Entry>, m: nat, n: nat)
    requires Complete(inventory) && m < |entries| && n <= |entries|
    requires forall i :: 0 <= i < |entries| && i != m ==> entries[i].table != entries[m].table
    ensures KeysOf(EntryBatches(inventory, entries[..n]), entries[m].table)
         == if m < n then inventory[entries[m].table] else []
    decreases n
  {
    if n > 0 {
      var last := entries[n - 1];
      EntryKeys(inventory, entries, m, n - 1);
      assert entries[..n] == entries[..n - 1] + [last];
      EntryBatchesAppend(inventory, entries[..n - 1], last);
      KeysOfSplit(EntryBatches(inventory, entries[..n - 1]), TableBatches(last, inventory[last.table]), entries[m].table);
      OneTableKeys(last, inventory[last.table], entries[m].table);
    }
  }

  /** Concatenating the batches of a table gives back exactly its rows, in order. */
  lemma BatchesCoverOnce(inventory: Inventory, table: Table)
    requires Complete(inventory)
    ensures KeysOf(Batches(inventory), table) == inventory[table]
  {
    var entries := Entries(STEP_ORDER);
    BatchesAccount(inventory);
    EntryOf(table);
    forall i | 0 <= i < |entries| && i != Rank(table) ensures entries[i].table != table {
      assert Rank(entries[i].table) == i;
    }
    EntryKeys(inventory, entries, Rank(table), |entries|);
    assert entries[..|entries|] == entries;
  }

  /* ---------- reference safety ---------- */

  datatype Row = Row(table: Table, key: RowKey)

  datatype Ref = Ref(child: Row, parent: Row)

  /** The tables a table's foreign keys name, but for the reference that a deletion sets to null
      (`product_fact.prior_fact_id`). */
  function Parents(table: Table): set<Table> {
    match table
    case IdempotencyRecord => {Org, Account}
    case EmailDeliverySecret => {Org, EmailSend}
    case EmailSend => {Org, Account, Candidate, CandidateToken, Shortlist}
    case ConsentRecord => {Org, Account, Candidate}
    case TermsAcceptance => {Org, Account, Candidate}
    case OpsFault => {Org, Attempt}
    case Moment => {Scorecard, TranscriptEntry, RubricDimension}
    case DimensionScore => {Scorecard, RubricDimension}
    case Scorecard => {Attempt}
    case TranscriptEntry => {Attempt}
    case Attempt => {Org, Account, Drill, Candidate, AssessmentStage}
    case CoachFeedbackItem => {Org, Account}
    case BadgeAward => {Org, Account}
    case AssignmentRecipient => {Assignment, Account}
    case Assignment => {Drill, Account}
    case CandidateToken => {Candidate}
    case ShortlistCandidate => {Shortlist, Candidate}
    case Shortlist => {Position, Account}
    case CandidateReport => {Candidate}
    case Candidate => {Org, Account, Position}
    case AssessmentStage => {Position, Drill}
    case HrContact => {Org, Account}
    case Position => {Org, Account}
    case ProductFact => {FactSet}
    case FactSet => {ProductDocument, Account}
    case DocumentUpload => {ProductDocument, Account}
    case ProductDocument => {Org, Account}
    case RubricDimension => {Drill}
    case DrillConcealed => {Drill}
    case Drill => {Org, Account}
    case PasswordResetToken => {Account}
    case Account => {Org, Account}
    case OrgServiceTerm => {Org}
    case OrgRetentionPolicy => {Org}
    case Org => {OrgServiceTerm}
  }

  /** Every reference goes down the matrix, except an account's team and the organization's current term. */
  lemma ParentsLater(child: Table, parent: Table)
    requires parent in Parents(child)
    ensures || Rank(child) < Rank(parent)
            || (child == Account && parent == Account)
            || (child == Org && parent == OrgServiceTerm)
  {
  }

  predicate Inventoried(inventory: Inventory, row: Row) {
    row.table in inventory && row.key in inventory[row.table]
  }

  /** An account's team is its own row for a manager and a manager's row for a rep. */
  predicate TeamIsManager(managers: set<RowKey>, ref: Ref) {
    ref.child == ref.parent || (ref.child.key !in managers && ref.parent.key in managers)
  }

  /** A reference-consistent instance whose rows are the inventory. */
  ghost predicate Consistent(inventory: Inventory, managers: set<RowKey>, refs: set<Ref>) {
    && Complete(inventory)
    && (forall ref :: ref in refs ==>
          && Inventoried(inventory, ref.child) && Inventoried(inventory, ref.parent)
          && ref.parent.table in Parents(ref.child.table)
          && (ref.child.table == Account && ref.parent.table == Account ==> TeamIsManager(managers, ref)))
    && RepsFirst(inventory[Account], managers)
  }

  /** `order by (role='manager'), id` */
  ghost predicate RepsFirst(rows: seq<RowKey>, managers: set<RowKey>) {
    forall i, j :: 0 <= i < j < |rows| && rows[i] in managers ==> rows[j] in managers
  }

  predicate InBatch(batch: Batch, row: Row) {
    batch.table == row.table && row.key in batch.keys
  }

  /** The row is gone after the first `k` batches. */
  ghost predicate Deleted(batches: seq<Batch>, k: nat, row: Row)
    requires k <= |batches|
  {
    exists b :: 0 <= b < k && InBatch(batches[b], row)
  }

  /** No row that is left refers to a row that is gone. */
  ghost predicate NothingDangles(batches: seq<Batch>, k: nat, refs: set<Ref>)
    requires k <= |batches|
  {
    forall ref :: ref in refs && Deleted(batches, k, ref.parent) ==> Deleted(batches, k, ref.child)
  }

  lemma RowInSlice(rows: seq<RowKey>, p: nat)
    requires p < |rows|
    ensures p / BATCH_SIZE < BatchCount(rows) && rows[p] in Slice(rows, p / BATCH_SIZE)
  {
    var index := p / BATCH_SIZE;
    assert index * BATCH_SIZE <= p < (index + 1) * BATCH_SIZE;
    assert Slice(rows, index)[p - index * BATCH_SIZE] == rows[p];
  }

  /** The batch of the row at one position of its table. */
  lemma BatchOfRow(inventory: Inventory, batches: seq<Batch>, table: Table, p: nat) returns (b: nat)
    requires Complete(inventory) && batches == Batches(inventory) && p < |inventory[table]|
    ensures b < |batches| && batches[b].table == table && batches[b].index == p / BATCH_SIZE
    ensures inventory[table][p] in batches[b].keys
  {
    RowInSlice(inventory[table], p);
    BatchesBounded(inventory);
    assert Listed(batches, table, p / BATCH_SIZE);
    b :| 0 <= b < |batches| && batches[b].table == table && batches[b].index == p / BATCH_SIZE;
    BatchIsGenuine(inventory, batches, b);
  }

  lemma BatchIsGenuine(inventory: Inventory, batches: seq<Batch>, b: nat)
    requires Complete(inventory) && batches == Batches(inventory) && b < |batches|
    ensures Genuine(inventory, Entries(STEP_ORDER), batches[b])
  {
    BatchesAccount(inventory);
  }

  /** And back: where a row of a batch stands in its table. */
  lemma RowOfBatch(rows: seq<RowKey>, index: nat, key: RowKey) returns (p: nat)
    requires index < BatchCount(rows) && key in Slice(rows, index)
    ensures p < |rows| && rows[p] == key && p / BATCH_SIZE == index
  {
    var i :| 0 <= i < |Slice(rows, index)| && Slice(rows, index)[i] == key;
    p := index * BATCH_SIZE + i;
  }

  lemma NotLater(inventory: Inventory, batches: seq<Batch>, c: nat, b: nat)
    requires Complete(inventory) && batches == Batches(inventory) && b < |batches| && c < |batches|
    requires Rank(batches[c].table) < Rank(batches[b].table)
             || (batches[c].table == batches[b].table && batches[c].index <= batches[b].index)
    ensures c <= b
  {
    BatchesAccount(inventory);
    assert !Before(batches[b], batches[c]);
  }

  /** A rep stands before a manager, so in no later batch. */
  lemma RepBeforeManager(rows: seq<RowKey>, managers: set<RowKey>, p: nat, q: nat)
    requires RepsFirst(rows, managers) && p < |rows| && q < |rows|
    requires rows[p] !in managers && rows[q] in managers
    ensures p / BATCH_SIZE <= q / BATCH_SIZE
  {
    assert p <= q;
  }

  /** The child of a reference goes no later than its parent. */
  lemma ChildNoLater(inventory: Inventory, managers: set<RowKey>, refs: set<Ref>, ref: Ref, batches: seq<Batch>, b: nat)
    returns (c: nat)
    requires Consistent(inventory, managers, refs) && ref in refs && batches == Batches(inventory)
    requires b < |batches| && InBatch(batches[b], ref.parent)
    requires !(ref.child.table == Org && ref.parent.table == OrgServiceTerm)
    ensures c <= b && InBatch(batches[c], ref.child)
  {
    if ref.child == ref.parent {
      c := b;
    } else {
      ParentsLater(ref.child.table, ref.parent.table);
      var rows := inventory[ref.child.table];
      var p: nat :| p < |rows| && rows[p] == ref.child.key;
      c := BatchOfRow(inventory, batches, ref.child.table, p);
      if ref.child.table == ref.parent.table {
        BatchIsGenuine(inventory, batches, b);
        var q := RowOfBatch(rows, batches[b].index, ref.parent.key);
        RepBeforeManager(rows, managers, p, q);
      }
      NotLater(inventory, batches, c, b);
    }
  }

  /** Reference safety: on every consistent instance, deleting any prefix of the batches before `org_finalize`
      leaves no dangling foreign key. Reps go before the managers their team names. */
  lemma PrefixLeavesNothingDangling(inventory: Inventory, managers: set<RowKey>, refs: set<Ref>, k: nat)
    requires Consistent(inventory, managers, refs) && k <= |Batches(inventory)|
    requires forall b :: 0 <= b < k ==> Batches(inventory)[b].step != OrgFinalize
    ensures NothingDangles(Batches(inventory), k, refs)
  {
    var batches := Batches(inventory);
    forall ref | ref in refs && Deleted(batches, k, ref.parent) ensures Deleted(batches, k, ref.child) {
      var b :| 0 <= b < k && InBatch(batches[b], ref.parent);
      TermStep(inventory, batches, b);
      var c := ChildNoLater(inventory, managers, refs, ref, batches, b);
    }
  }

  lemma {:induction false} EntryStep(steps: seq<Step>, entry: Entry)
    requires entry in Entries(steps)
    ensures entry.table in StepTables(entry.step)
    decreases |steps|
  {
    var n := |steps| - 1;
    if entry in Entries(steps[..n]) {
      EntryStep(steps[..n], entry);
    }
  }

  lemma TermStep(inventory: Inventory, batches: seq<Batch>, b: nat)
    requires Complete(inventory) && batches == Batches(inventory) && b < |batches|
    ensures batches[b].table == OrgServiceTerm ==> batches[b].step == OrgFinalize
  {
    BatchIsGenuine(inventory, batches, b);
    EntryStep(STEP_ORDER, Entry(batches[b].step, batches[b].table));
  }

  predicate NamesTerm(ref: Ref) {
    ref.child.table == Org && ref.parent.table == OrgServiceTerm
  }

  /** The whole purge is safe at every point if and only if no organization row names its current term: the
      terms go before the organization, so that reference must be cleared first. */
  lemma WholePurgeSafeIff(inventory: Inventory, managers: set<RowKey>, refs: set<Ref>)
    requires Consistent(inventory, managers, refs)
    ensures (forall k: nat :: k <= |Batches(inventory)| ==> NothingDangles(Batches(inventory), k, refs))
       <==> (forall ref :: ref in refs ==> !NamesTerm(ref))
  {
    if forall ref :: ref in refs ==> !NamesTerm(ref) {
      forall k: nat | k <= |Batches(inventory)| ensures NothingDangles(Batches(inventory), k, refs) {
        NoTermNoDangling(inventory, managers, refs, k);
      }
    } else {
      var ref :| ref in refs && NamesTerm(ref);
      var k := TermGoesFirst(inventory, Batches(inventory), ref);
      assert !NothingDangles(Batches(inventory), k, refs);
    }
  }

  lemma NoTermNoDangling(inventory: Inventory, managers: set<RowKey>, refs: set<Ref>, k: nat)
    requires Consistent(inventory, managers, refs) && k <= |Batches(inventory)|
    requires forall ref :: ref in refs ==> !NamesTerm(ref)
    ensures NothingDangles(Batches(inventory), k, refs)
  {
    var batches := Batches(inventory);
    forall ref | ref in refs && Deleted(batches, k, ref.parent) ensures Deleted(batches, k, ref.child) {
      var b :| 0 <= b < k && InBatch(batches[b], ref.parent);
      var c := ChildNoLater(inventory, managers, refs, ref, batches, b);
    }
  }

  lemma TermGoesFirst(inventory: Inventory, batches: seq<Batch>, ref: Ref) returns (k: nat)
    requires Complete(inventory) && Inventoried(inventory, ref.parent) && NamesTerm(ref) && batches == Batches(inventory)
    ensures k <= |batches| && Deleted(batches, k, ref.parent) && !Deleted(batches, k, ref.child)
  {
    var rows := inventory[OrgServiceTerm];
    var p: nat :| p < |rows| && rows[p] == ref.parent.key;
    var b := BatchOfRow(inventory, batches, OrgServiceTerm, p);
    k := b + 1;
    assert InBatch(batches[b], ref.parent);
    forall c | 0 <= c < k ensures !InBatch(batches[c], ref.child) {
      if batches[c].table == Org {
        NotLater(inventory, batches, b, c);
      }
    }
  }
}
