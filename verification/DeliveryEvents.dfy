/** Reconciliation of provider delivery events with one recorded send. */
module DeliveryEvents {
  import opened Wrappers

  datatype Status = Queued | Sent | Delivered | Bounced | Delayed | Failed

  /** Times are instants; the source compares them in UTC. */
  datatype Send = Send(status: Status, lastEventAt: Option<int>)

  datatype State = DeliveredState | BouncedState | DelayedState

  datatype Event = Event(state: State, at: int)

  datatype Outcome = Updated | Idempotent | NotFound | Stale

  function StatusOf(state: State): Status {
    match state
    case DeliveredState => Delivered
    case BouncedState => Bounced
    case DelayedState => Delayed
  }

  predicate Terminal(status: Status) {
    status.Delivered? || status.Bounced?
  }

  predicate IsTerminal(event: Event) {
    Terminal(StatusOf(event.state))
  }

  function After(event: Event): Send {
    Send(StatusOf(event.state), Some(event.at))
  }

  /** `reconcile_delivery_event` on the locked row. */
  function Reconcile(send: Option<Send>, event: Event): (Option<Send>, Outcome) {
    if send.None? then (send, NotFound)
    else if send.value.status == StatusOf(event.state) then (send, Idempotent)
    else if send.value.lastEventAt.Some? && event.at < send.value.lastEventAt.value then (send, Stale)
    else if Terminal(send.value.status) then (send, Stale)
    else if !send.value.status.Sent? && !send.value.status.Delayed? then (send, Stale)
    else (Some(After(event)), Updated)
  }

  /** The row already has the status the event reports. */
  predicate Reported(status: Status, state: State) {
    || (status == Delivered && state == DeliveredState)
    || (status == Bounced && state == BouncedState)
    || (status == Delayed && state == DelayedState)
  }

  /** Every answer, told apart by the row and the event: nothing was sent; the status is known; the row is sent or
      delayed and its last event is not later; or the event is stale. Only the third changes the row, to the
      status and the time of the event. */
  lemma AnswersDecided(send: Option<Send>, event: Event)
    ensures var (row, outcome) := Reconcile(send, event);
            && (outcome.NotFound? <==> send.None?)
            && (outcome.Idempotent? <==> send.Some? && Reported(send.value.status, event.state))
            && (outcome.Updated? <==>
                  && send.Some? && send.value.status in {Sent, Delayed} && !Reported(send.value.status, event.state)
                  && (send.value.lastEventAt.Some? ==> send.value.lastEventAt.value <= event.at))
            && (outcome.Updated? ==>
                  row.Some? && Reported(row.value.status, event.state) && row.value.lastEventAt == Some(event.at))
            && (outcome.Updated? <==> row != send)
  {
  }

  function Run(send: Option<Send>, events: seq<Event>): Option<Send>
    decreases |events|
  {
    if events == [] then send else Reconcile(Run(send, events[..|events| - 1]), events[|events| - 1]).0
  }

  /* ---------- every run ---------- */

  /** The event time never goes back, a terminal row never changes again, and no row appears or disappears. */
  predicate Progress(before: Option<Send>, after: Option<Send>) {
    && (before.None? <==> after.None?)
    && (before.Some? ==>
          && (Terminal(before.value.status) ==> after == before)
          && (before.value.lastEventAt.Some? ==>
                after.value.lastEventAt.Some? && before.value.lastEventAt.value <= after.value.lastEventAt.value))
  }

  lemma {:induction false} RunProgresses(send: Option<Send>, before: seq<Event>, after: seq<Event>)
    ensures Progress(Run(send, before), Run(send, before + after))
    decreases |after|
  {
    if after == [] {
      assert before + after == before;
    } else {
      var n := |after| - 1;
      RunProgresses(send, before, after[..n]);
      assert (before + after)[..|before + after| - 1] == before + after[..n];
    }
  }

  /* ---------- the result of any sequence ---------- */

  /** The event that decides: the first terminal one that is not earlier than the first event of all. */
  predicate Decides(events: seq<Event>, i: nat) {
    && i < |events| && IsTerminal(events[i]) && events[0].at <= events[i].at
    && forall j :: 0 <= j < i ==> !IsTerminal(events[j]) || events[j].at < events[0].at
  }

  predicate Undecided(events: seq<Event>) {
    forall i :: 0 <= i < |events| ==> !IsTerminal(events[i]) || events[i].at < events[0].at
  }

  /** From a send without events, for every sequence: the row ends as the deciding event says; with none, as the
      first event, which was a delay. So a delay that arrives first locks out every earlier terminal event. */
  lemma {:induction false} RunDecided(events: seq<Event>)
    requires events != []
    ensures var result := Run(Some(Send(Sent, None)), events);
            && (Undecided(events) ==> events[0].state.DelayedState? && result == Some(After(events[0])))
            && (forall i: nat :: Decides(events, i) ==> result == Some(After(events[i])))
    decreases |events|
  {
    var n := |events| - 1;
    var earlier := events[..n];
    if n == 0 {
      assert Run(Some(Send(Sent, None)), earlier) == Some(Send(Sent, None));
    } else {
      RunDecided(earlier);
      forall i: nat | Decides(events, i) ensures Run(Some(Send(Sent, None)), events) == Some(After(events[i])) {
        if i < n {
          assert Decides(earlier, i);
        } else {
          assert Undecided(earlier);
        }
      }
    }
  }

  lemma {:induction false} DecidedOrNot(events: seq<Event>) returns (i: nat)
    requires events != []
    ensures Undecided(events) || Decides(events, i)
    decreases |events|
  {
    i := 0;
    if |events| > 1 {
      var n := |events| - 1;
      i := DecidedOrNot(events[..n]);
      if Undecided(events[..n]) {
        i := n;
        assert forall j :: 0 <= j < n ==> events[j] == events[..n][j];
      }
    }
  }

  /** Delays and copies of one terminal event. */
  ghost predicate DelaysAround(events: seq<Event>, terminal: Event) {
    && IsTerminal(terminal) && terminal in events
    && forall event :: event in events ==> event == terminal || event.state.DelayedState?
  }

  /** With one terminal event among delays, duplicates included, the row ends in that status and at that time
      if and only if the event that arrived first is not later than it. */
  lemma TerminalWinsIff(events: seq<Event>, terminal: Event)
    requires DelaysAround(events, terminal)
    ensures Run(Some(Send(Sent, None)), events) == Some(After(terminal)) <==> events[0].at <= terminal.at
  {
    var i := DecidedOrNot(events);
    RunDecided(events);
    var k :| 0 <= k < |events| && events[k] == terminal;
    if Decides(events, i) {
      assert events[i] in events;
    } else {
      assert events[0] in events;
    }
  }

  /** Confluence: if no delay is later than the terminal event, every order and every multiplicity of the same
      events ends the same way. */
  lemma OrderDoesNotMatter(events: seq<Event>, events': seq<Event>, terminal: Event)
    requires DelaysAround(events, terminal)
    requires forall event :: event in events ==> event.at <= terminal.at
    requires forall event :: event in events <==> event in events'
    ensures Run(Some(Send(Sent, None)), events') == Run(Some(Send(Sent, None)), events) == Some(After(terminal))
  {
    assert events[0] in events && events'[0] in events';
    TerminalWinsIff(events, terminal);
    TerminalWinsIff(events', terminal);
  }

  /* ---------- the row ---------- */

  class SendTable {
    var rows: map<string, Send>

    constructor ()
      ensures rows == map[]
    {
      rows := map[];
    }

    function Row(messageId: string): Option<Send>
      reads this
    {
      if messageId in rows then Some(rows[messageId]) else None
    }

    method ReconcileEvent(messageId: string, event: Event) returns (outcome: Outcome)
      modifies this
      ensures (Row(messageId), outcome) == Reconcile(old(Row(messageId)), event)
      ensures forall other :: other != messageId ==> Row(other) == old(Row(other))
    {
      if messageId !in rows {
        return NotFound;
      }
      var send := rows[messageId];
      if send.status == StatusOf(event.state) {
        return Idempotent;
      }
      if send.lastEventAt.Some? && event.at < send.lastEventAt.value {
        return Stale;
      }
      if send.status.Delivered? || send.status.Bounced? {
        return Stale;
      }
      if !send.status.Sent? && !send.status.Delayed? {
        return Stale;
      }
      rows := rows[messageId := Send(StatusOf(event.state), Some(event.at))];
      outcome := Updated;
    }
  }
}
