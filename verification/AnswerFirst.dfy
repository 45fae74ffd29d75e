/** When the CSMS is answered before anything else is sent. */
module AnswerFirst {
  import opened Messages
  import opened QueueSpec
  import opened Overflow
  import opened Synchronicity
  import opened WholeRun

  /** The CALLs of the CSMS since the last restart that have not been answered; a restart closes the connection they came over. */
  function Unanswered(log: seq<Entry>): set<MessageId> {
    if log == [] then {}
    else
      var e, before := log[|log| - 1], log[..|log| - 1];
      if e.CallReceived? then Unanswered(before) + {e.id}
      else if e.ReplySent? then Unanswered(before) - {e.id}
      else if e.Restarted? then {}
      else Unanswered(before)
  }

  /** The gate stands for every unanswered CALL. */
  predicate GateComplete(log: seq<Entry>) {
    Unanswered(log) == if Gate(log).Some? then {Gate(log).value} else {}
  }

  /** Nothing went out while a CALL was unanswered, but for a message with the id of that CALL. */
  predicate NothingEarly(log: seq<Entry>) {
    log == [] ||
    (var e, before := log[|log| - 1], log[..|log| - 1];
     NothingEarly(before) && (e.Sent? ==> Unanswered(before) <= {e.m.call.id}))
  }

  /** The step receives a CALL while another one is unanswered, or lifts the hold while any is. */
  predicate Untimely(s: State, e: Event) {
    match e
    case ReceiveCall(id) => !(Unanswered(s.store.log) <= {id})
    case ReceiveResult(_) => Unanswered(s.store.log) != {}
    case ReceiveError(_, _, _) => Unanswered(s.store.log) != {}
    case ResetNextMessage => Unanswered(s.store.log) != {}
    case _ => false
  }

  // ---------------------------------------------------------------- what a step does to the gate

  predicate GateIs(log: seq<Entry>, g: Option<MessageId>, u: set<MessageId>, b: bool) {
    Gate(log) == g && Unanswered(log) == u && NothingEarly(log) == b
  }

  lemma OtherEntry(log: seq<Entry>, e: Entry, g: Option<MessageId>, u: set<MessageId>, b: bool)
    requires GateIs(log, g, u, b) && !IsNote(e)
    ensures GateIs(log + [e], g, u, b && (e.Sent? ==> u <= {e.m.call.id}))
  {
    LogStep(log, e);
  }

  lemma NoteEntry(log: seq<Entry>, e: Entry)
    requires IsNote(e)
    ensures e.CallReceived? ==> GateIs(log + [e], Some(e.id), Unanswered(log) + {e.id}, NothingEarly(log))
    ensures e.ReplySent? ==>
      GateIs(log + [e], if Gate(log) == Some(e.id) then None else Gate(log), Unanswered(log) - {e.id}, NothingEarly(log))
    ensures e.ReplyReceived? || e.GateReset? ==> GateIs(log + [e], None, Unanswered(log), NothingEarly(log))
    ensures e.Restarted? ==> GateIs(log + [e], None, {}, NothingEarly(log))
  {
    LogStep(log, e);
  }

  lemma OverflowGate(c: Config, s: Store, g: Option<MessageId>, u: set<MessageId>, b: bool)
    requires GateIs(s.log, g, u, b)
    ensures GateIs(CheckQueueSizes(c, s).log, g, u, b)
  {
    var P := (t: Store) => GateIs(t.log, g, u, b);
    forall t: Store | P(t) && t.normal != [] ensures P(DropFront(c, t)) {
      OtherEntry(t.log, Overflowed(t.normal[0]), g, u, b);
    }
    forall t: Store, i: nat | P(t) && i < |t.tx| && Droppable(c, t, i) ensures P(DropUpdate(t, i)) {
      OtherEntry(t.log, Overflowed(t.tx[i]), g, u, b);
    }
    OverflowKeeps(P, c, s);
  }

  lemma InsertGate(c: Config, s: Store, m: Msg, g: Option<MessageId>, u: set<MessageId>, b: bool)
    requires GateIs(s.log, g, u, b)
    ensures GateIs(Insert(c, s, m).log, g, u, b)
  {
    OtherEntry(s.log, Accepted(m), g, u, b);
    OverflowGate(c, if IsTx(c.protocol, m) then InsertTx(s, m) else InsertNormal(c, s, m), g, u, b);
  }

  lemma TransmitGate(c: Config, s: Store, sel: Selection, m: Msg, ok: bool, g: Option<MessageId>, u: set<MessageId>, b: bool)
    requires GateIs(s.log, g, u, b) && Selectable(s, sel)
    ensures GateIs(Transmit(c, s, sel, m, ok).log, g, u, b && u <= {m.call.id})
  {
    hide GateIs;
    OtherEntry(s.log, Sent(m, ok), g, u, b);
    if !ok && !sel.FromTx? && !Persistent(c, m) {
      var l, q := s.log + [Sent(m, false)], s.normal[sel.index := m];
      OtherEntry(l, Refused(m), g, u, b && u <= {m.call.id});
      OtherEntry(l + [Refused(m)], Popped(q[0]), g, u, b && u <= {m.call.id});
      assert Transmit(c, s, sel, m, ok).log == l + [Refused(m)] + [Popped(q[0])];
    }
  }

  lemma FailGate(c: Config, s: Store, now: Instant, newId: MessageId, g: Option<MessageId>, u: set<MessageId>, b: bool)
    requires GateIs(s.log, g, u, b) && s.inFlight.Some?
    ensures GateIs(Fail(c, s, now, newId).log, g, u, b)
  {
    hide GateIs;
    var m := s.inFlight.value;
    OtherEntry(s.log, Retried(m, newId), g, u, b);
    OtherEntry(s.log, GivenUp(m, c.attempts), g, u, b);
    OtherEntry(s.log, Expired(m), g, u, b);
  }

  lemma {:induction false} RereadGate(log: seq<Entry>, more: seq<Entry>, g: Option<MessageId>, u: set<MessageId>, b: bool)
    requires GateIs(log, g, u, b) && RereadOnly(more)
    ensures GateIs(log + more, g, u, b)
    decreases |more|
  {
    if more == [] {
      assert log + more == log;
    } else {
      var n := |more| - 1;
      RereadGate(log, more[..n], g, u, b);
      assert log + more == (log + more[..n]) + [more[n]];
      OtherEntry(log + more[..n], more[n], g, u, b);
    }
  }

  /** The message a worker step hands to the transport. */
  function Offered(s: State, now: Instant): Msg
    requires Attempts(s, now)
  {
    Prepare(s.control.stopIds, Pick(s.store, Choice(s, now)))
  }

  /** The gate and the unanswered CALLs after a step. */
  function GateAfter(s: State, e: Event): Option<MessageId> {
    var g := Gate(s.store.log);
    match e
    case ReceiveCall(id) => Some(id)
    case PushReply(id) => if s.control.running && g == Some(id) then None else g
    case ReceiveResult(_) => None
    case ReceiveError(_, _, _) => None
    case ResetNextMessage => None
    case Crash(_, _) => None
    case _ => g
  }

  function UnansweredAfter(s: State, e: Event): set<MessageId> {
    var u := Unanswered(s.store.log);
    match e
    case ReceiveCall(id) => u + {id}
    case PushReply(id) => if s.control.running then u - {id} else u
    case Crash(_, _) => {}
    case _ => u
  }

  predicate NothingEarlyAfter(s: State, e: Event) {
    e.Crash? ||
    (NothingEarly(s.store.log) &&
     (e.Worker? && Attempts(s, e.now) ==> Unanswered(s.store.log) <= {Offered(s, e.now).call.id}))
  }

  lemma ReplyGate(s: State, e: Event)
    requires Enabled(s, e) && (e.ReceiveResult? || e.ReceiveError?)
    ensures GateIs(Next(s, e).store.log, None, Unanswered(s.store.log), NothingEarly(s.store.log))
  {
    hide Fail, Gate, Unanswered, NothingEarly;
    var u, b := Unanswered(s.store.log), NothingEarly(s.store.log);
    var t := ClearGate(s, e.id).store;
    NoteEntry(s.store.log, ReplyReceived(e.id));
    if Matches(s, e.id) {
      OtherEntry(t.log, Answered(s.store.inFlight.value), None, u, b);
      if e.ReceiveError? {
        FailGate(s.config, t, e.now, e.newId, None, u, b);
      }
    }
  }

  lemma NextGate(s: State, e: Event)
    requires Enabled(s, e)
    ensures GateIs(Next(s, e).store.log, GateAfter(s, e), UnansweredAfter(s, e), NothingEarlyAfter(s, e))
  {
    hide Insert, WorkerPass, Fail, BootStore, Gate, Unanswered, NothingEarly, Attempts, Offered;
    var c, st, g, u, b := s.config, s.store, Gate(s.store.log), Unanswered(s.store.log), NothingEarly(s.store.log);
    match e
    case PushReply(id) => NoteEntry(st.log, ReplySent(id));
    case ReceiveCall(id) => NoteEntry(st.log, CallReceived(id));
    case ResetNextMessage => NoteEntry(st.log, GateReset);
    case PushCall(call, stall, now) => InsertGate(c, st, NewMsg(s.serial, call, stall, now), g, u, b);
    case PushCallAsync(call, now) =>
      InsertGate(c, st, NewMsg(s.serial, call, false, now), g, u, b);
      OtherEntry(st.log, Offline(NewMsg(s.serial, call, false, now)), g, u, b);
    case ReceiveResult(_) => ReplyGate(s, e);
    case ReceiveError(_, _, _) => ReplyGate(s, e);
    case Timeout(now, newId) => FailGate(c, st, now, newId, g, u, b);
    case Worker(now, ok) => WorkerGate(s, now, ok, g, u, b);
    case Crash(config, ign) => CrashGate(config, st, ign);
    case _ =>
  }

  lemma WorkerGate(s: State, now: Instant, ok: bool, g: Option<MessageId>, u: set<MessageId>, b: bool)
    requires GateIs(s.store.log, g, u, b)
    ensures GateIs(WorkerPass(s, now, ok).store.log, g, u, b && (Attempts(s, now) ==> u <= {Offered(s, now).call.id}))
  {
    hide GateIs, Transmit, Choice;
    if Attempts(s, now) {
      TransmitGate(s.config, s.store, Choice(s, now), Offered(s, now), ok, g, u, b);
    }
  }

  lemma CrashGate(config: Config, s: Store, ign: bool)
    ensures GateIs(BootStore(config, s.txTable, s.normalTable, ign).log, None, {}, true)
  {
    var b := BootStore(config, s.txTable, s.normalTable, ign);
    assert GateIs([], None, {}, true) && RereadOnly(b.log);
    hide GateIs, Load, Purge;
    RereadGate([], b.log, None, {}, true);
    assert [] + b.log == b.log;
  }

  /** Exactly when the gate goes on standing for every unanswered CALL: a second
      CALL overwrites it, and any received reply clears it. */
  lemma GateCompleteStep(s: State, e: Event)
    requires Enabled(s, e) && GateComplete(s.store.log)
    ensures GateComplete(Next(s, e).store.log) <==> !Untimely(s, e)
  {
    NextGate(s, e);
    var u := Unanswered(s.store.log);
    hide Gate, Unanswered, Next;
    match e
    case ReceiveCall(id) => assert u + {id} == {id} <==> u <= {id};
    case _ =>
  }

  // ---------------------------------------------------------------- every run

  /** No step of the run is untimely. */
  predicate Timely(s: State, events: seq<Event>)
    requires Legal(s, events)
    decreases |events|
  {
    events == [] || (!Untimely(s, events[0]) && Timely(Next(s, events[0]), events[1..]))
  }

  /** The gate stands for every unanswered CALL in every state of the run. */
  predicate AlwaysComplete(s: State, events: seq<Event>)
    requires Legal(s, events)
    decreases |events|
  {
    GateComplete(s.store.log) && (events == [] || AlwaysComplete(Next(s, events[0]), events[1..]))
  }

  predicate Watched(s: State) {
    Gated(s) && GateComplete(s.store.log) && NothingEarly(s.store.log)
  }

  lemma WatchedStep(s: State, e: Event)
    requires Watched(s) && Enabled(s, e)
    ensures GateComplete(Next(s, e).store.log) <==> !Untimely(s, e)
    ensures !Untimely(s, e) ==> Watched(Next(s, e))
  {
    NextGated(s, e);
    NextGate(s, e);
    GateCompleteStep(s, e);
    hide Next, Gate, Unanswered, NothingEarly;
  }

  lemma {:induction false} RunComplete(s: State, events: seq<Event>)
    requires Watched(s) && Legal(s, events)
    ensures AlwaysComplete(s, events) <==> Timely(s, events)
    ensures Timely(s, events) ==> Watched(Run(s, events))
    decreases |events|
  {
    if events == [] {
      hide Gate, Unanswered;
    } else {
      WatchedStep(s, events[0]);
      hide Watched, GateComplete, Next, Enabled, Untimely;
      if !Untimely(s, events[0]) {
        RunComplete(Next(s, events[0]), events[1..]);
      }
    }
  }

  lemma FirstWatched(config: Config)
    ensures Watched(Initial(config))
  {
    assert Initial(config).store.log == [];
  }

  /** In every run, over all its boots: the gate stands for every unanswered CALL
      of the current boot all the time if, and only if, no CALL arrives while
      another one is unanswered, and no reply or reset while any is. */
  lemma GateAlwaysComplete(config: Config, events: seq<Event>)
    requires Legal(Initial(config), events)
    ensures AlwaysComplete(Initial(config), events) <==> Timely(Initial(config), events)
  {
    FirstWatched(config);
    hide Watched, Initial;
    RunComplete(Initial(config), events);
  }

  lemma {:induction false} EarlyAt(log: seq<Entry>, j: nat)
    requires NothingEarly(log) && j < |log| && log[j].Sent?
    ensures Unanswered(log[..j]) <= {log[j].m.call.id}
    decreases |log|
  {
    if j < |log| - 1 {
      EarlyAt(log[..|log| - 1], j);
      assert log[..|log| - 1][..j] == log[..j];
    }
  }

  lemma RebootWatched(w: State, e: Event)
    requires Watched(w) && Enabled(w, e) && e.Crash?
    ensures Watched(Rebooted(w, e))
  {
    RebootLog(w, e);
    RebootGated(w, e);
    NoteEntry(w.store.log, Restarted);
    RereadGate(w.store.log + [Restarted], Reread(w, e), None, {}, NothingEarly(w.store.log));
    hide Reread, Rebooted, RereadOnly, Gate, Unanswered, NothingEarly;
  }

  /** The history before the current boot does not matter for what is timely. */
  lemma SameUntimely(past: seq<Entry>, s: State, e: Event)
    requires Watched(s) && Watched(After(past, s))
    ensures Untimely(After(past, s), e) <==> Untimely(s, e)
  {
    hide Gate, Unanswered, NothingEarly, GateRespected;
  }

  lemma StepWatched(past: seq<Entry>, s: State, e: Event)
    requires Watched(s) && Watched(After(past, s)) && Enabled(s, e) && !Untimely(s, e)
    ensures Watched(Next(s, e)) && Watched(After(Onward(past, s, e), Next(s, e)))
  {
    WatchedStep(s, e);
    SameUntimely(past, s, e);
    hide Watched, Next, Enabled, Untimely, Rebooted, Break, After;
    if e.Crash? {
      RebootAfter(past, s, e);
      RebootWatched(After(past, s), e);
    } else {
      NextAfter(past, s, e);
      WatchedStep(After(past, s), e);
    }
  }

  lemma {:induction false} ChronicleWatched(past: seq<Entry>, s: State, events: seq<Event>)
    requires Watched(s) && Watched(After(past, s)) && Legal(s, events) && Timely(s, events)
    ensures NothingEarly(past + Chronicle(s, events))
    decreases |events|
  {
    if events == [] {
      hide Gate, Unanswered, NothingEarly, GateRespected;
    } else {
      hide Watched, Next, Enabled, Untimely, Onward, After;
      StepWatched(past, s, events[0]);
      ChronicleStep(past, s, events);
      ChronicleWatched(Onward(past, s, events[0]), Next(s, events[0]), events[1..]);
    }
  }

  /** In such a run, over all its boots, nothing is sent while a CALL of the CSMS
      is unanswered, unless it has the id of that CALL. */
  lemma AnsweredBeforeSending(config: Config, events: seq<Event>, j: nat)
    requires Legal(Initial(config), events) && Timely(Initial(config), events)
    requires j < |Chronicle(Initial(config), events)| && Chronicle(Initial(config), events)[j].Sent?
    ensures var log := Chronicle(Initial(config), events); Unanswered(log[..j]) <= {log[j].m.call.id}
  {
    FirstWatched(config);
    hide Watched, Initial, Run, Legal, Timely, Unanswered, NothingEarly, Chronicle;
    NothingBefore(Initial(config), events);
    ChronicleWatched([], Initial(config), events);
    assert [] + Chronicle(Initial(config), events) == Chronicle(Initial(config), events);
    EarlyAt(Chronicle(Initial(config), events), j);
  }
}
