/** The reconciliation sweep over due calls, as one more reporter of endings. */
module CallSweep {
  import opened Wrappers
  import opened CallModel
  import opened CallInvariants
  import opened CallTables

  datatype SessionState = Pending | Established | Terminal

  /** A registry row; a rehearsal call has no attempt. */
  datatype Session = Session(attempt: Option<Uuid>, state: SessionState)

  /** What the sweep reports about one due session. */
  function SessionEndings(session: Session): seq<Action> {
    if session.state.Terminal? || session.attempt.None? then []
    else [ReportEnding(session.attempt.value, session.state.Pending?)]
  }

  function SweepEndings(due: seq<Session>): seq<Action>
    decreases |due|
  {
    if due == [] then [] else SweepEndings(due[..|due| - 1]) + SessionEndings(due[|due| - 1])
  }

  function LiveCount(due: seq<Session>): nat
    decreases |due|
  {
    if due == [] then 0 else LiveCount(due[..|due| - 1]) + if due[|due| - 1].state.Terminal? then 0 else 1
  }

  /** One due session, and all of them in order. */
  function SweepOne(db: Db, session: Session): Db {
    if session.state.Terminal? || session.attempt.None? then db
    else Interrupt(db, session.attempt.value, session.state.Pending?).db
  }

  function Swept(db: Db, due: seq<Session>): Db
    decreases |due|
  {
    if due == [] then db else SweepOne(Swept(db, due[..|due| - 1]), due[|due| - 1])
  }

  lemma ExecuteAppend(db: Db, actions: seq<Action>, session: Session)
    ensures Execute(db, actions + SessionEndings(session)) == SweepOne(Execute(db, actions), session)
  {
    var all := actions + SessionEndings(session);
    if SessionEndings(session) == [] {
      assert all == actions;
    } else {
      assert all[..|all| - 1] == actions;
    }
  }

  /** The sweep is a run of reported endings. */
  lemma {:induction false} SweptIsRun(db: Db, due: seq<Session>)
    ensures Swept(db, due) == Execute(db, SweepEndings(due))
    decreases |due|
  {
    if due != [] {
      var n := |due| - 1;
      SweptIsRun(db, due[..n]);
      ExecuteAppend(db, SweepEndings(due[..n]), due[n]);
    }
  }

  /** The due calls of `run_once`: an ending for every session not yet terminal, which is then terminal. */
  method SweepDueCalls(tables: Tables, due: seq<Session>) returns (after: seq<Session>, processed: nat)
    modifies tables
    ensures tables.View() == Swept(old(tables.View()), due)
    ensures processed == LiveCount(due)
    ensures |after| == |due|
    ensures forall i :: 0 <= i < |due| ==> after[i] == due[i].(state := Terminal)
  {
    after, processed := [], 0;
    for i := 0 to |due|
      invariant tables.View() == Swept(old(tables.View()), due[..i])
      invariant processed == LiveCount(due[..i]) && |after| == i
      invariant forall k :: 0 <= k < i ==> after[k] == due[k].(state := Terminal)
    {
      var call := due[i];
      assert due[..i + 1][..i] == due[..i];
      if !call.state.Terminal? {
        if call.attempt.Some? {
          var _ := tables.Interrupt(call.attempt.value, call.state.Pending?);
        }
        processed := processed + 1;
      }
      after := after + [call.(state := Terminal)];
    }
    assert due[..|due|] == due;
  }

  /** The sweep counts every due session that was not terminal, rehearsals included. */
  lemma {:induction false} LiveCounted(due: seq<Session>)
    ensures LiveCount(due) == |set i | 0 <= i < |due| && due[i].state != Terminal|
    decreases |due|
  {
    var live := set i | 0 <= i < |due| && due[i].state != Terminal;
    if due != [] {
      var n := |due| - 1;
      LiveCounted(due[..n]);
      var earlier := set i | 0 <= i < n && due[..n][i].state != Terminal;
      assert live == earlier + if due[n].state != Terminal then {n} else {};
    } else {
      assert live == {};
    }
  }

  lemma EndingEnds(db: Db, session: Session)
    requires !session.state.Terminal? && session.attempt.Some?
    ensures var t := SweepOne(db, session);
            session.attempt.value in t.attempts ==> !t.attempts[session.attempt.value].status.InProgress?
  {
    var a := session.attempt.value;
    if Interrupt(db, a, session.state.Pending?).ending.Won? {
      InterruptWon(db, a, session.state.Pending?);
    }
  }

  lemma {:induction false} EndingsSplit(due: seq<Session>, m: nat) returns (rest: seq<Action>)
    requires m <= |due|
    ensures SweepEndings(due) == SweepEndings(due[..m]) + rest
    decreases |due|
  {
    if m == |due| {
      rest := [];
      assert due[..m] == due;
    } else {
      var n := |due| - 1;
      assert due[..n][..m] == due[..m];
      rest := EndingsSplit(due[..n], m);
      rest := rest + SessionEndings(due[n]);
    }
  }

  lemma EndedStays(s: Db, t: Db, a: Uuid)
    requires EndsKept(s, t) && Ended(s, a)
    ensures Ended(t, a)
  {
  }

  lemma SweptKeepsEnds(db: Db, due: seq<Session>)
    requires IdsFresh(db)
    ensures IdsFresh(Swept(db, due)) && EndsKept(db, Swept(db, due))
  {
    SweptIsRun(db, due);
    ExecuteKeepsEnds(db, SweepEndings(due));
  }

  lemma SweepGoesOn(db: Db, due: seq<Session>, m: nat)
    requires IdsFresh(db) && m <= |due|
    ensures EndsKept(Swept(db, due[..m]), Swept(db, due))
  {
    var rest := EndingsSplit(due, m);
    SweptIsRun(db, due);
    SweptIsRun(db, due[..m]);
    SweptKeepsEnds(db, due[..m]);
    ExecuteSplit(db, SweepEndings(due[..m]), rest);
    ExecuteKeepsEnds(Swept(db, due[..m]), rest);
  }

  lemma EndedAtOnce(db: Db, due: seq<Session>)
    requires IdsFresh(db) && due != []
    requires var last := due[|due| - 1]; !last.state.Terminal? && last.attempt.Some? && last.attempt.value in db.attempts
    ensures Ended(Swept(db, due), due[|due| - 1].attempt.value)
  {
    SweptKeepsEnds(db, due);
    EndingEnds(Swept(db, due[..|due| - 1]), due[|due| - 1]);
  }

  /** After the sweep the attempt of every due session that was not terminal has ended, and every attempt that had
      already ended keeps its end and its transcript. */
  lemma SweepEndsEverything(db: Db, due: seq<Session>, i: nat)
    requires IdsFresh(db) && i < |due| && !due[i].state.Terminal? && due[i].attempt.Some?
    requires due[i].attempt.value in db.attempts
    ensures EndsKept(db, Swept(db, due)) && Ended(Swept(db, due), due[i].attempt.value)
  {
    SweptKeepsEnds(db, due);
    EndedAtOnce(db, due[..i + 1]);
    SweepGoesOn(db, due, i + 1);
    EndedStays(Swept(db, due[..i + 1]), Swept(db, due), due[i].attempt.value);
  }

  /** No live due session before the `i`-th names the attempt. */
  predicate FirstNamed(due: seq<Session>, i: nat, a: Uuid)
    requires i <= |due|
  {
    forall j :: 0 <= j < i ==> due[j].state.Terminal? || due[j].attempt != Some(a)
  }

  lemma {:induction false} UnnamedKept(db: Db, due: seq<Session>, a: Uuid)
    requires a in db.attempts && FirstNamed(due, |due|, a)
    ensures a in Swept(db, due).attempts && Swept(db, due).attempts[a] == db.attempts[a]
    decreases |due|
  {
    if due != [] {
      var n := |due| - 1;
      UnnamedKept(db, due[..n], a);
      var mid := Swept(db, due[..n]);
      if !due[n].state.Terminal? && due[n].attempt.Some?
         && Interrupt(mid, due[n].attempt.value, due[n].state.Pending?).ending.Won?
      {
        InterruptWon(mid, due[n].attempt.value, due[n].state.Pending?);
      }
    }
  }

  lemma EndedAs(db: Db, session: Session)
    requires session.attempt.Some? && session.attempt.value in db.attempts && !session.state.Terminal?
    requires db.attempts[session.attempt.value].status.InProgress?
    ensures var t := SweepOne(db, session);
            t.attempts == if session.state == Pending then db.attempts - {session.attempt.value}
                          else db.attempts[session.attempt.value :=
                                 db.attempts[session.attempt.value].(status := Interrupted)]
  {
    InterruptWon(db, session.attempt.value, session.state.Pending?);
  }

  /** How a due call ends is decided by the first live session that names it: a call that never established leaves
      no attempt behind, an established one a voided attempt, whatever the rest of the sweep does. */
  lemma SweepEndsAs(db: Db, due: seq<Session>, i: nat)
    requires IdsFresh(db) && i < |due| && !due[i].state.Terminal? && due[i].attempt.Some?
    requires due[i].attempt.value in db.attempts && db.attempts[due[i].attempt.value].status.InProgress?
    requires FirstNamed(due, i, due[i].attempt.value)
    ensures var a := due[i].attempt.value;
            var t := Swept(db, due);
            && (due[i].state == Pending ==> a !in t.attempts)
            && (due[i].state == Established ==>
                  a in t.attempts && t.attempts[a] == db.attempts[a].(status := Interrupted))
  {
    var a := due[i].attempt.value;
    UnnamedKept(db, due[..i], a);
    var mid, ended := Swept(db, due[..i]), Swept(db, due[..i + 1]);
    assert due[..i + 1][..i] == due[..i];
    assert ended == SweepOne(mid, due[i]);
    EndedAs(mid, due[i]);
    SweepGoesOn(db, due, i + 1);
    SweptKeepsEnds(db, due[..i + 1]);
    SweptKeepsEnds(db, due[..i]);
    assert Ended(ended, a);
  }
}
