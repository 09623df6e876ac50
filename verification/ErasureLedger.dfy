/** The two-copy erasure ledger: concurrent, crashed and retried arming of markers.

    One step is one bucket call. A put whose answer was lost may still take effect later; an armer that is
    never scheduled again has crashed. */
module ErasureLedger {
  import opened Wrappers

  type Uuid = nat

  datatype Marker = Marker(requestId: Uuid, orgId: Uuid, subjectKind: string, subjectId: Uuid, requestedAt: string,
                           armedAt: string, executedBy: Uuid)

  type Bucket = map<Uuid, Marker>

  datatype Side = Live | Backup

  datatype Pc =
    | PuttingLive
    | GettingLive
    | PuttingBackup(canonical: Marker)
    | GettingBackup(canonical: Marker)
    | Armed
    | Conflict
    | Failed

  datatype Armer = Armer(marker: Marker, pc: Pc)

  datatype Put = Put(side: Side, marker: Marker)

  datatype State = State(live: Bucket, backup: Bucket, sent: set<Put>, armers: map<nat, Armer>)

  datatype Action = Launch(id: nat, marker: Marker) | Run(id: nat, answered: bool) | Deliver(put: Put)

  /** Equal in every field but the arming time. */
  predicate SameIdentity(a: Marker, b: Marker) {
    a == b.(armedAt := a.armedAt)
  }

  /** One erasure request: the same subject, organization, request time and executor. */
  predicate SameRequest(a: Marker, b: Marker) {
    && a.requestId == b.requestId && a.orgId == b.orgId
    && a.subjectKind == b.subjectKind && a.subjectId == b.subjectId
    && a.requestedAt == b.requestedAt && a.executedBy == b.executedBy
  }

  /** A put under If-None-Match: * (section 13.1.2 of RFC 9110) never overwrites. */
  function PutNew(bucket: Bucket, marker: Marker): Bucket {
    if marker.requestId in bucket then bucket else bucket[marker.requestId := marker]
  }

  function Apply(s: State, put: Put): State {
    if put.side.Live? then s.(live := PutNew(s.live, put.marker)) else s.(backup := PutNew(s.backup, put.marker))
  }

  function Send(s: State, put: Put): State {
    s.(sent := s.sent + {put})
  }

  /** One bucket call of an armer; `answered` is false when the call fails or its answer is lost. */
  function Step(s: State, armer: Armer, answered: bool): (State, Pc) {
    var marker := armer.marker;
    var key := marker.requestId;
    match armer.pc
    case PuttingLive =>
      if !answered then (Send(s, Put(Live, marker)), Failed)
      else if key in s.live then (s, GettingLive)
      else (Apply(s, Put(Live, marker)), PuttingBackup(marker))
    case GettingLive =>
      if !answered || key !in s.live then (s, Failed)
      else (s, if SameIdentity(s.live[key], marker) then PuttingBackup(s.live[key]) else Conflict)
    case PuttingBackup(canonical) =>
      if !answered then (Send(s, Put(Backup, canonical)), Failed)
      else if key in s.backup then (s, GettingBackup(canonical))
      else (Apply(s, Put(Backup, canonical)), Armed)
    case GettingBackup(canonical) =>
      if !answered || key !in s.backup then (s, Failed)
      else (s, if s.backup[key] == canonical then Armed else Conflict)
    case _ => (s, armer.pc)
  }

  function Exec(s: State, action: Action): State {
    match action
    case Launch(id, marker) =>
      if id in s.armers then s else s.(armers := s.armers[id := Armer(marker, PuttingLive)])
    case Run(id, answered) =>
      if id !in s.armers then s
      else
        var (t, pc) := Step(s, s.armers[id], answered);
        t.(armers := t.armers[id := Armer(s.armers[id].marker, pc)])
    case Deliver(put) => if put in s.sent then Apply(s, put) else s
  }

  function Execute(s: State, actions: seq<Action>): State
    decreases |actions|
  {
    if actions == [] then s else Exec(Execute(s, actions[..|actions| - 1]), actions[|actions| - 1])
  }

  predicate Start(s: State) {
    s == State(map[], map[], {}, map[])
  }

  /* ---------- the invariant ---------- */

  /** The live copy holds exactly this marker. */
  predicate Canonical(s: State, marker: Marker) {
    marker.requestId in s.live && s.live[marker.requestId] == marker
  }

  predicate PcInv(s: State, armer: Armer) {
    var key := armer.marker.requestId;
    match armer.pc
    case PuttingLive => true
    case GettingLive => key in s.live
    case PuttingBackup(canonical) => Canonical(s, canonical) && SameIdentity(canonical, armer.marker)
    case GettingBackup(canonical) =>
      Canonical(s, canonical) && SameIdentity(canonical, armer.marker) && key in s.backup
    case Armed =>
      key in s.live && key in s.backup && s.live[key] == s.backup[key] && SameIdentity(s.live[key], armer.marker)
    case Conflict => key in s.live && !SameIdentity(s.live[key], armer.marker)
    case Failed => true
  }

  ghost predicate Copies(s: State) {
    && (forall key :: key in s.live ==> s.live[key].requestId == key)
    && (forall key :: key in s.backup ==> key in s.live && s.backup[key] == s.live[key])
  }

  ghost predicate Inv(s: State) {
    && Copies(s)
    && (forall put :: put in s.sent ==> put.side.Backup? ==> Canonical(s, put.marker))
    && (forall id :: id in s.armers ==> PcInv(s, s.armers[id]))
  }

  /** No marker is ever replaced or removed. */
  ghost predicate Kept(before: Bucket, after: Bucket) {
    forall key :: key in before ==> key in after && after[key] == before[key]
  }

  ghost predicate Grows(s: State, t: State) {
    Kept(s.live, t.live) && Kept(s.backup, t.backup)
  }

  lemma ApplyKeeps(s: State, put: Put)
    requires Copies(s) && (put.side.Backup? ==> Canonical(s, put.marker))
    ensures Copies(Apply(s, put)) && Grows(s, Apply(s, put))
  {
  }

  lemma PcKept(s: State, t: State, armer: Armer)
    requires Grows(s, t) && PcInv(s, armer)
    ensures PcInv(t, armer)
  {
  }

  /** An armer's own step. The read of the backup copy always meets the canonical marker. */
  lemma OwnStep(s: State, armer: Armer, answered: bool)
    requires Copies(s) && PcInv(s, armer)
    ensures var (t, pc) := Step(s, armer, answered);
            && Copies(t) && Grows(s, t) && PcInv(t, Armer(armer.marker, pc)) && t.armers == s.armers
            && (forall put :: put in t.sent && put !in s.sent && put.side.Backup? ==> Canonical(t, put.marker))
    ensures armer.pc.GettingBackup? && answered ==> Step(s, armer, answered).1 == Armed
  {
    match armer.pc
    case PuttingLive => ApplyKeeps(s, Put(Live, armer.marker));
    case PuttingBackup(canonical) => ApplyKeeps(s, Put(Backup, canonical));
    case _ =>
  }

  lemma RunKeepsInv(s: State, id: nat, answered: bool)
    requires Inv(s) && id in s.armers
    ensures Inv(Exec(s, Run(id, answered))) && Grows(s, Exec(s, Run(id, answered)))
  {
    var t := Exec(s, Run(id, answered));
    assert PcInv(s, s.armers[id]);
    OwnStep(s, s.armers[id], answered);
    forall other | other in t.armers ensures PcInv(t, t.armers[other]) {
      if other != id {
        PcKept(s, t, s.armers[other]);
      }
    }
  }

  lemma ExecKeepsInv(s: State, action: Action)
    requires Inv(s)
    ensures Inv(Exec(s, action)) && Grows(s, Exec(s, action))
  {
    match action
    case Launch(_, _) =>
    case Run(id, answered) =>
      if id in s.armers {
        RunKeepsInv(s, id, answered);
      }
    case Deliver(put) =>
      if put in s.sent {
        ApplyKeeps(s, put);
        var t := Apply(s, put);
        forall id | id in t.armers ensures PcInv(t, t.armers[id]) {
          PcKept(s, t, s.armers[id]);
        }
      }
  }

  lemma {:induction false} ExecuteKeepsInv(s: State, actions: seq<Action>)
    requires Inv(s)
    ensures Inv(Execute(s, actions)) && Grows(s, Execute(s, actions))
    decreases |actions|
  {
    if actions != [] {
      ExecuteKeepsInv(s, actions[..|actions| - 1]);
      ExecKeepsInv(Execute(s, actions[..|actions| - 1]), actions[|actions| - 1]);
    }
  }

  lemma {:induction false} ExecuteSplit(s: State, before: seq<Action>, after: seq<Action>)
    ensures Execute(s, before + after) == Execute(Execute(s, before), after)
    decreases |after|
  {
    if after == [] {
      assert before + after == before;
    } else {
      var n := |after| - 1;
      ExecuteSplit(s, before, after[..n]);
      assert (before + after)[..|before + after| - 1] == before + after[..n];
    }
  }

  /* ---------- the theorems ---------- */

  /** Once written, the marker of a request never changes in either copy, so a request once armed stays armed. */
  lemma MarkersNeverChange(s: State, before: seq<Action>, after: seq<Action>, key: Uuid)
    requires Start(s)
    ensures var early, late := Execute(s, before), Execute(s, before + after);
            && (key in early.live ==> key in late.live && late.live[key] == early.live[key])
            && (key in early.backup ==> key in late.backup && late.backup[key] == early.backup[key])
            && (key in early.live || key in early.backup ==> key in late.live || key in late.backup)
  {
    ExecuteSplit(s, before, after);
    ExecuteKeepsInv(s, before);
    ExecuteKeepsInv(Execute(s, before), after);
  }

  /** A backup marker is always identical to the live one. An arm that returned left both copies identical,
      with its own identity; an arm that raised a conflict met a live marker of another identity. */
  lemma CopiesIdentical(s: State, actions: seq<Action>)
    requires Start(s)
    ensures var t := Execute(s, actions);
            && (forall key :: key in t.backup ==> key in t.live && t.live[key] == t.backup[key])
            && (forall id :: id in t.armers && t.armers[id].pc.Armed? ==>
                  var marker := t.armers[id].marker;
                  && marker.requestId in t.live && marker.requestId in t.backup
                  && t.live[marker.requestId] == t.backup[marker.requestId]
                  && SameRequest(t.live[marker.requestId], marker))
            && (forall id :: id in t.armers && t.armers[id].pc.Conflict? ==>
                  var marker := t.armers[id].marker;
                  marker.requestId in t.live && !SameRequest(t.live[marker.requestId], marker))
  {
    ExecuteKeepsInv(s, actions);
    var t := Execute(s, actions);
    forall id | id in t.armers ensures PcInv(t, t.armers[id]) {
    }
  }

  /** An arm with another identity than the live marker never changes either copy, whatever its step. */
  lemma OtherIdentityWritesNothing(s: State, actions: seq<Action>, id: nat, answered: bool)
    requires Start(s)
    requires id in Execute(s, actions).armers
    requires var t := Execute(s, actions);
             var marker := t.armers[id].marker;
             marker.requestId in t.live && !SameRequest(t.live[marker.requestId], marker)
    ensures var t := Execute(s, actions);
            var u := Exec(t, Run(id, answered));
            && u.live == t.live && u.backup == t.backup
            && (forall put :: put in u.sent && put !in t.sent ==> Apply(u, put) == u)
            && !u.armers[id].pc.Armed?
  {
    ExecuteKeepsInv(s, actions);
    var t := Execute(s, actions);
    assert PcInv(t, t.armers[id]);
  }

  /** A call that is not answered ends its armer without touching a copy; a finished armer does nothing more, and none
      is launched twice. */
  lemma LostAnswerFails(s: State, id: nat, other: Marker)
    requires id in s.armers
    ensures Exec(s, Launch(id, other)) == s
    ensures var pc := s.armers[id].pc;
            var t := Exec(s, Run(id, false));
            && t.live == s.live && t.backup == s.backup
            && t.armers == s.armers[id := Armer(s.armers[id].marker,
                                                if pc.Armed? || pc.Conflict? then pc else Failed)]
            && (t.sent != s.sent ==> pc.PuttingLive? || pc.PuttingBackup?)
  {
  }

  /** A put whose answer was lost is as if it had only been late: whenever it arrives, it writes its marker where
      its copy has none. */
  lemma LostPutMayLand(s: State, id: nat)
    requires id in s.armers && (s.armers[id].pc.PuttingLive? || s.armers[id].pc.PuttingBackup?)
    ensures var live := s.armers[id].pc.PuttingLive?;
            var marker := if live then s.armers[id].marker else s.armers[id].pc.canonical;
            var key := marker.requestId;
            var lost := Exec(s, Run(id, false));
            var landed := Exec(lost, Deliver(Put(if live then Live else Backup, marker)));
            && lost.live == s.live && lost.backup == s.backup && lost.armers[id].pc == Failed
            && landed.live == (if live && key !in s.live then s.live[key := marker] else s.live)
            && landed.backup == (if !live && key !in s.backup then s.backup[key := marker] else s.backup)
  {
  }

  /* ---------- arming without interruption ---------- */

  datatype Arming = Arming(live: Bucket, backup: Bucket, ok: bool)

  /** `arm` as a function of the two buckets. */
  function Arm(live: Bucket, backup: Bucket, marker: Marker): Arming {
    var key := marker.requestId;
    if key in live && !SameIdentity(live[key], marker) then Arming(live, backup, false)
    else
      var written := PutNew(live, marker);
      var canonical := written[key];
      if key in backup then Arming(written, backup, backup[key] == canonical)
      else Arming(written, PutNew(backup, canonical), true)
  }

  lemma ArmedBoth(live: Bucket, backup: Bucket, marker: Marker)
    requires Copies(State(live, backup, {}, map[]))
    ensures var key := marker.requestId;
            var done := Arm(live, backup, marker);
            && (done.ok <==> key !in live || SameIdentity(live[key], marker))
            && (done.ok ==> key in done.live && key in done.backup && done.live[key] == done.backup[key])
            && (!done.ok ==> done.live == live && done.backup == backup)
  {
  }

  /** From every reachable state of the ledger an undisturbed arm succeeds exactly when the live copy has no
      marker of another identity, and then it completes whatever an earlier arm left half done: both copies
      hold the marker, and arming again changes nothing. */
  lemma RetryCompletes(s: State, actions: seq<Action>, marker: Marker, armedAt: string)
    requires Start(s)
    ensures var t := Execute(s, actions);
            var key := marker.requestId;
            var done := Arm(t.live, t.backup, marker);
            && (done.ok <==> key !in t.live || SameRequest(t.live[key], marker))
            && (done.ok ==>
                  && key in done.live && key in done.backup && done.live[key] == done.backup[key]
                  && done.live[key] == (if key in t.live then t.live[key] else marker)
                  && Arm(done.live, done.backup, marker.(armedAt := armedAt)) == done)
            && (!done.ok ==> done.live == t.live && done.backup == t.backup)
  {
    ExecuteKeepsInv(s, actions);
    var t := Execute(s, actions);
    ArmedBoth(t.live, t.backup, marker);
  }

  /** The state and program counter after `n` answered steps of one armer. */
  function Answered(s: State, armer: Armer, n: nat): (State, Pc)
    decreases n
  {
    if n == 0 then (s, armer.pc)
    else
      var (t, pc) := Step(s, armer, true);
      Answered(t, Armer(armer.marker, pc), n - 1)
  }

  lemma {:induction false} FinishedStays(s: State, armer: Armer, n: nat)
    requires armer.pc.Armed? || armer.pc.Conflict?
    ensures Answered(s, armer, n) == (s, armer.pc)
    decreases n
  {
    if n > 0 {
      FinishedStays(s, Armer(armer.marker, armer.pc), n - 1);
    }
  }

  /** The backup copy: written if it has no marker, compared if it has one. */
  lemma BackupRuns(s: State, marker: Marker, canonical: Marker, n: nat)
    requires n >= 2
    ensures var key := marker.requestId;
            Answered(s, Armer(marker, PuttingBackup(canonical)), n)
            == if key !in s.backup then (s.(backup := PutNew(s.backup, canonical)), Armed)
               else (s, if s.backup[key] == canonical then Armed else Conflict)
  {
    var (t, pc) := Step(s, Armer(marker, PuttingBackup(canonical)), true);
    if pc.Armed? {
      FinishedStays(t, Armer(marker, pc), n - 1);
    } else {
      var (u, last) := Step(t, Armer(marker, pc), true);
      FinishedStays(u, Armer(marker, last), n - 2);
    }
  }

  /** An armer that runs alone, with every call answered, does what the sequential arm does. */
  lemma SoloRunIsArm(s: State, marker: Marker)
    ensures var done := Arm(s.live, s.backup, marker);
            Answered(s, Armer(marker, PuttingLive), 4)
            == (s.(live := done.live, backup := done.backup), if done.ok then Armed else Conflict)
  {
    var (t, pc) := Step(s, Armer(marker, PuttingLive), true);
    if pc.PuttingBackup? {
      BackupRuns(t, marker, marker, 3);
    } else {
      var (u, next) := Step(t, Armer(marker, pc), true);
      if next.PuttingBackup? {
        BackupRuns(u, marker, next.canonical, 2);
      } else {
        FinishedStays(u, Armer(marker, next), 2);
      }
    }
  }

  /** The state with one armer as given. */
  function At(s: State, id: nat, armer: Armer): State {
    s.(armers := s.armers[id := armer])
  }

  /** One armer called and answered `n` times. */
  function Turns(id: nat, n: nat): seq<Action> {
    if n == 0 then [] else [Run(id, true)] + Turns(id, n - 1)
  }

  lemma ExecuteFirst(s: State, action: Action, rest: seq<Action>)
    ensures Execute(s, [action] + rest) == Execute(Exec(s, action), rest)
  {
    assert [action][..0] == [];
    assert Execute(s, []) == s;
    ExecuteSplit(s, [action], rest);
  }

  lemma TurnAt(s: State, id: nat, armer: Armer)
    ensures var (t, pc) := Step(s, armer, true);
            Exec(At(s, id, armer), Run(id, true)) == At(t, id, Armer(armer.marker, pc))
  {
    var next := Armer(armer.marker, Step(s, armer, true).1);
    assert s.armers[id := armer][id := next] == s.armers[id := next];
  }

  lemma {:induction false} TurnsAt(s: State, id: nat, armer: Armer, n: nat)
    ensures var (t, pc) := Answered(s, armer, n);
            Execute(At(s, id, armer), Turns(id, n)) == At(t, id, Armer(armer.marker, pc))
    decreases n
  {
    if n > 0 {
      var (t, pc) := Step(s, armer, true);
      TurnAt(s, id, armer);
      ExecuteFirst(At(s, id, armer), Run(id, true), Turns(id, n - 1));
      TurnsAt(t, id, Armer(armer.marker, pc), n - 1);
    }
  }

  /** An armer launched among any others and then answered four times arms as the sequential arm does, and touches
      no other armer and nothing in flight. */
  lemma ArmingRuns(s: State, id: nat, marker: Marker)
    requires id !in s.armers
    ensures var done := Arm(s.live, s.backup, marker);
            Execute(s, [Launch(id, marker)] + Turns(id, 4))
            == State(done.live, done.backup, s.sent,
                     s.armers[id := Armer(marker, if done.ok then Armed else Conflict)])
  {
    ExecuteFirst(s, Launch(id, marker), Turns(id, 4));
    TurnsAt(s, id, Armer(marker, PuttingLive), 4);
    SoloRunIsArm(s, marker);
  }

  /** The buckets and the ledger's own methods. */
  class S3Ledger {
    var live: Bucket
    var backup: Bucket

    constructor ()
      ensures live == map[] && backup == map[]
    {
      live, backup := map[], map[];
    }

    /** The inner `put`: the stored body, or nothing on a conflict. */
    method PutCopy(side: Side, body: Marker, allowSameIdentity: bool) returns (stored: Option<Marker>)
      modifies this
      ensures var bucket := if side.Live? then old(live) else old(backup);
              var key := body.requestId;
              && live == (if side.Live? && key !in old(live) then old(live)[key := body] else old(live))
              && backup == (if side.Backup? && key !in old(backup) then old(backup)[key := body] else old(backup))
              && stored == if key !in bucket then Some(body)
                           else if bucket[key] == body || (allowSameIdentity && SameRequest(bucket[key], body))
                           then Some(bucket[key])
                           else None
    {
      var key := body.requestId;
      var bucket := if side.Live? then live else backup;
      if key !in bucket {
        if side.Live? {
          live := live[key := body];
        } else {
          backup := backup[key := body];
        }
        return Some(body);
      }
      var existing := bucket[key];
      var sameIdentity := allowSameIdentity && SameIdentity(existing, body);
      stored := if existing != body && !sameIdentity then None else Some(existing);
    }

    method ArmMarker(marker: Marker) returns (ok: bool)
      requires forall key :: key in live ==> live[key].requestId == key
      modifies this
      ensures Arming(live, backup, ok) == Arm(old(live), old(backup), marker)
    {
      assert SameIdentity(marker, marker);
      var canonical := PutCopy(Live, marker, true);
      if canonical.None? {
        return false;
      }
      var copied := PutCopy(Backup, canonical.value, false);
      ok := copied.Some?;
    }

    /** Both copies are asked; a marker in either counts. */
    method CheckArmed(requestId: Uuid) returns (found: bool)
      ensures found <==> requestId in live || requestId in backup
    {
      found := false;
      var buckets := [live, backup];
      for i := 0 to |buckets|
        invariant found == exists j :: 0 <= j < i && requestId in buckets[j]
      {
        if requestId in buckets[i] {
          found := true;
        }
      }
      assert buckets[0] == live && buckets[1] == backup;
    }

    /** `markers`: the backup copy, page by page, in the order of the listing. */
    method Markers(pages: seq<seq<Uuid>>) returns (markers: seq<Marker>)
      requires forall i, j :: 0 <= i < |pages| && 0 <= j < |pages[i]| ==> pages[i][j] in backup
      ensures |markers| == |Flat(pages)|
      ensures forall k :: 0 <= k < |markers| ==> Flat(pages)[k] in backup && markers[k] == backup[Flat(pages)[k]]
    {
      markers := [];
      for i := 0 to |pages|
        invariant |markers| == |Flat(pages[..i])|
        invariant forall k :: 0 <= k < |markers| ==>
                    Flat(pages[..i])[k] in backup && markers[k] == backup[Flat(pages[..i])[k]]
      {
        ghost var before := Flat(pages[..i]);
        for j := 0 to |pages[i]|
          invariant |markers| == |before| + j
          invariant forall k :: 0 <= k < |markers| ==>
                      (before + pages[i])[k] in backup && markers[k] == backup[(before + pages[i])[k]]
        {
          markers := markers + [backup[pages[i][j]]];
        }
        assert pages[..i + 1][..i] == pages[..i];
        assert Flat(pages[..i + 1]) == before + pages[i];
      }
      assert pages[..|pages|] == pages;
    }
  }

  /** The keys of all pages, in order. */
  function Flat(pages: seq<seq<Uuid>>): seq<Uuid> {
    if pages == [] then [] else Flat(pages[..|pages| - 1]) + pages[|pages| - 1]
  }

  /** A listing names every key of a copy once. */
  ghost predicate ListsOnce(pages: seq<seq<Uuid>>, bucket: Bucket) {
    && (forall key :: key in bucket ==> key in Flat(pages))
    && (forall i, j :: 0 <= i < j < |Flat(pages)| ==> Flat(pages)[i] != Flat(pages)[j])
  }

  /** Over every run, the markers of a full listing of the backup copy hold the live marker of every returned
      arm, at exactly one place. */
  lemma ReturnedIsListed(s: State, actions: seq<Action>, id: nat, pages: seq<seq<Uuid>>)
    requires Start(s)
    requires id in Execute(s, actions).armers && Execute(s, actions).armers[id].pc.Armed?
    requires ListsOnce(pages, Execute(s, actions).backup)
    ensures var t := Execute(s, actions);
            var key := t.armers[id].marker.requestId;
            && key in t.live && key in t.backup && t.backup[key] == t.live[key]
            && exists k :: 0 <= k < |Flat(pages)| && Flat(pages)[k] == key
                 && forall j :: 0 <= j < |Flat(pages)| && Flat(pages)[j] == key ==> j == k
  {
    CopiesIdentical(s, actions);
  }
}
