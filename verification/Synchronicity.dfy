/** One CALL at a time. */
module Synchronicity {
  import opened Messages
  import opened QueueSpec
  import opened Overflow
  import opened WholeRun

  // One outstanding CALL at a time (section 4.1.1 of the OCPP-J 1.6 specification), and the rule that a CALL
  // of the CSMS is answered first.

  // ---------------------------------------------------------------- one outstanding call

  /** The call is over: answered, or timed out or refused with a CALLERROR. */
  predicate Closes(e: Entry) {
    e.Answered? || e.Retried? || e.GivenUp? || e.Expired?
  }

  /** The message that was transmitted and not closed yet, read off the history; a restart forgets it. */
  function OpenCall(log: seq<Entry>): Option<Msg> {
    if log == [] then None
    else
      var e := log[|log| - 1];
      if e.Sent? && e.ok then Some(e.m) else if Closes(e) || e.Restarted? then None else OpenCall(log[..|log| - 1])
  }

  /** Nothing is handed to the transport while a call is open; only the open call is closed. */
  predicate Alternates(log: seq<Entry>) {
    log == [] ||
    (var e, before := log[|log| - 1], log[..|log| - 1];
     && Alternates(before)
     && (e.Sent? ==> OpenCall(before) == None)
     && (Closes(e) ==> OpenCall(before) == Some(e.m)))
  }

  predicate Synchronous(s: Store) {
    OpenCall(s.log) == s.inFlight && Alternates(s.log)
  }

  predicate Neutral(e: Entry) {
    !e.Sent? && !Closes(e) && !e.Restarted?
  }

  lemma LogStep(log: seq<Entry>, e: Entry)
    ensures (log + [e])[..|log|] == log && (log + [e])[|log|] == e
  {
  }

  lemma NeutralLog(log: seq<Entry>, e: Entry)
    requires Alternates(log) && Neutral(e)
    ensures OpenCall(log + [e]) == OpenCall(log) && Alternates(log + [e])
  {
    LogStep(log, e);
  }

  lemma NeutralEntry(s: Store, e: Entry)
    requires Synchronous(s) && Neutral(e)
    ensures OpenCall(s.log + [e]) == s.inFlight && Alternates(s.log + [e])
  {
    NeutralLog(s.log, e);
  }

  lemma OverflowSynchronous(c: Config, s: Store)
    requires Synchronous(s)
    ensures Synchronous(CheckQueueSizes(c, s))
  {
    forall t: Store | Synchronous(t) && t.normal != [] ensures Synchronous(DropFront(c, t)) {
      NeutralEntry(t, Overflowed(t.normal[0]));
    }
    forall t: Store, i: nat | Synchronous(t) && i < |t.tx| && Droppable(c, t, i) ensures Synchronous(DropUpdate(t, i)) {
      NeutralEntry(t, Overflowed(t.tx[i]));
    }
    OverflowKeeps(Synchronous, c, s);
  }

  lemma TransmitSynchronous(c: Config, s: Store, sel: Selection, m: Msg, ok: bool)
    requires Synchronous(s) && Selectable(s, sel) && s.inFlight.None?
    ensures Synchronous(Transmit(c, s, sel, m, ok))
  {
    LogStep(s.log, Sent(m, ok));
    if !ok && !sel.FromTx? && !Persistent(c, m) {
      var q := s.normal[sel.index := m];
      var l1 := s.log + [Sent(m, false)];
      NeutralLog(l1, Refused(m));
      NeutralLog(l1 + [Refused(m)], Popped(q[0]));
      assert Transmit(c, s, sel, m, ok).log == l1 + [Refused(m)] + [Popped(q[0])];
    }
  }

  lemma FailSynchronous(c: Config, s: Store, now: Instant, newId: MessageId)
    requires Synchronous(s) && s.inFlight.Some?
    ensures Synchronous(Fail(c, s, now, newId))
  {
    var m := s.inFlight.value;
    LogStep(s.log, Retried(m, newId));
    LogStep(s.log, GivenUp(m, c.attempts));
    LogStep(s.log, Expired(m));
  }

  /** Entries that are read back open and close nothing. */
  lemma {:induction false} RereadNeutral(log: seq<Entry>, more: seq<Entry>)
    requires Alternates(log) && RereadOnly(more)
    ensures Alternates(log + more) && OpenCall(log + more) == OpenCall(log)
    decreases |more|
  {
    if more == [] {
      assert log + more == log;
    } else {
      var n := |more| - 1;
      RereadNeutral(log, more[..n]);
      assert log + more == (log + more[..n]) + [more[n]];
      NeutralLog(log + more[..n], more[n]);
    }
  }

  lemma NextSynchronous(s: State, e: Event)
    requires Synchronous(s.store) && Enabled(s, e)
    ensures Synchronous(Next(s, e).store)
  {
    hide OpenCall, Alternates, Insert, BootStore, Transmit, Fail, Answer;
    var c, st := s.config, s.store;
    if Quiet(e) {
      QuietStep(s, e);
      if Next(s, e).store != st {
        var n :| IsNote(n) && !n.Restarted? && Next(s, e).store == st.(log := st.log + [n]);
        NeutralEntry(st, n);
      }
    } else {
      match e
      case PushCall(call, stall, now) => InsertSynchronous(c, st, NewMsg(s.serial, call, stall, now));
      case PushCallAsync(call, now) =>
        InsertSynchronous(c, st, NewMsg(s.serial, call, false, now));
        NeutralEntry(st, Offline(NewMsg(s.serial, call, false, now)));
      case ReceiveResult(id) =>
        NeutralEntry(st, ReplyReceived(id));
        if Matches(s, id) {
          AnswerSynchronous(c, ClearGate(s, id).store);
        }
      case ReceiveError(id, now, newId) =>
        NeutralEntry(st, ReplyReceived(id));
        if Matches(s, id) {
          FailSynchronous(c, ClearGate(s, id).store, now, newId);
        }
      case Timeout(now, newId) => FailSynchronous(c, st, now, newId);
      case Worker(now, ok) =>
        if Attempts(s, now) {
          TransmitSynchronous(c, st, Choice(s, now), Prepare(s.control.stopIds, Pick(st, Choice(s, now))), ok);
        }
      case StartHandled(start, t) =>
      case Crash(config, ign) => BootSynchronous(config, st, ign);
    }
  }

  lemma AnswerSynchronous(c: Config, s: Store)
    requires Synchronous(s) && s.inFlight.Some?
    ensures Synchronous(Answer(c, s))
  {
    LogStep(s.log, Answered(s.inFlight.value));
  }

  lemma BootSynchronous(c: Config, s: Store, ign: bool)
    ensures Synchronous(BootStore(c, s.txTable, s.normalTable, ign))
  {
    var b := BootStore(c, s.txTable, s.normalTable, ign);
    assert RereadOnly(b.log);
    RereadNeutral([], b.log);
    assert [] + b.log == b.log;
  }

  lemma RebootSynchronous(w: State, e: Event)
    requires Synchronous(w.store) && Enabled(w, e) && e.Crash?
    ensures Synchronous(Rebooted(w, e).store)
  {
    RebootLog(w, e);
    LogStep(w.store.log, Restarted);
    RereadNeutral(w.store.log + [Restarted], Reread(w, e));
    assert Rebooted(w, e).store.inFlight == None;
    hide Reread, Rebooted, RereadOnly;
  }

  lemma InsertSynchronous(c: Config, s: Store, m: Msg)
    requires Synchronous(s)
    ensures Synchronous(Insert(c, s, m))
  {
    NeutralEntry(s, Accepted(m));
    OverflowSynchronous(c, if IsTx(c.protocol, m) then InsertTx(s, m) else InsertNormal(c, s, m));
  }

  lemma ChronicleSynchronous(config: Config, events: seq<Event>)
    requires Legal(Initial(config), events)
    ensures Alternates(Chronicle(Initial(config), events))
  {
    var s := Initial(config);
    assert Synchronous(s.store);
    hide Initial, Legal, Chronicle, Run, Next, Enabled, OpenCall, Alternates;
    NothingBefore(s, events);
    var P := (w: State) => Synchronous(w.store);
    forall w: State, e: Event | P(w) && Enabled(w, e) && !e.Crash? ensures P(Next(w, e)) { NextSynchronous(w, e); }
    forall w: State, e: Event | P(w) && Enabled(w, e) && e.Crash? ensures P(Rebooted(w, e)) { RebootSynchronous(w, e); }
    ChronicleKeeps(P, [], s, events);
  }

  /** The call is over, or the process that made it is. */
  predicate Ends(e: Entry, call: Msg) {
    (Closes(e) && e.m == call) || e.Restarted?
  }

  /** Once transmitted, a call stays open until its own closing entry, or a restart. */
  lemma {:induction false} OpenUntilClosed(log: seq<Entry>, i: nat, j: nat)
    requires Alternates(log) && i < j <= |log| && log[i].Sent? && log[i].ok
    ensures OpenCall(log[..j]) == Some(log[i].m) || exists k :: i < k < j && Ends(log[k], log[i].m)
    decreases j
  {
    AlternatesPrefix(log, j);
    var l := log[..j];
    assert l[..j - 1] == log[..j - 1] && l[j - 1] == log[j - 1];
    if j > i + 1 {
      OpenUntilClosed(log, i, j - 1);
      AlternatesPrefix(log, j - 1);
    }
  }

  lemma {:induction false} AlternatesPrefix(log: seq<Entry>, j: nat)
    requires Alternates(log) && j <= |log|
    ensures Alternates(log[..j])
    decreases |log| - j
  {
    if j == |log| {
      assert log[..j] == log;
    } else {
      AlternatesPrefix(log, j + 1);
      assert log[..j + 1][..j] == log[..j];
    }
  }

  lemma ClosedBetween(log: seq<Entry>, i: nat, j: nat)
    requires Alternates(log) && i < j < |log| && log[i].Sent? && log[i].ok && log[j].Sent?
    ensures exists k :: i < k < j && Ends(log[k], log[i].m)
  {
    OpenUntilClosed(log, i, j);
    AlternatesPrefix(log, j + 1);
    assert log[..j + 1][..j] == log[..j];
  }

  /** In every run, over all its boots: between a successful transmission and the
      next offer to the transport the first call was answered, refused or timed
      out, or the station was restarted. */
  lemma OneCallAtATime(config: Config, events: seq<Event>, i: nat, j: nat)
    requires Legal(Initial(config), events)
    requires i < j < |Chronicle(Initial(config), events)|
    requires var log := Chronicle(Initial(config), events); log[i].Sent? && log[i].ok && log[j].Sent?
    ensures var log := Chronicle(Initial(config), events); exists k :: i < k < j && Ends(log[k], log[i].m)
  {
    hide Initial, Legal, Chronicle, Alternates, Ends;
    ChronicleSynchronous(config, events);
    ClosedBetween(Chronicle(Initial(config), events), i, j);
  }

  // ---------------------------------------------------------------- what a transmission needs

  predicate Extends(log: seq<Entry>, log': seq<Entry>) {
    |log| <= |log'| && log'[..|log|] == log
  }

  /** No entry from index k on hands a message to the transport. */
  predicate SilentFrom(log: seq<Entry>, k: nat) {
    forall i :: k <= i < |log| ==> !log[i].Sent?
  }

  lemma OverflowSilent(c: Config, s: Store, log: seq<Entry>)
    requires Extends(log, s.log) && SilentFrom(s.log, |log|)
    ensures var t := CheckQueueSizes(c, s); Extends(log, t.log) && SilentFrom(t.log, |log|)
  {
    var P := (t: Store) => Extends(log, t.log) && SilentFrom(t.log, |log|);
    forall t: Store | P(t) && t.normal != [] ensures P(DropFront(c, t)) {
      assert DropFront(c, t).log[..|log|] == t.log[..|log|];
    }
    forall t: Store, i: nat | P(t) && i < |t.tx| && Droppable(c, t, i) ensures P(DropUpdate(t, i)) {
      assert DropUpdate(t, i).log[..|log|] == t.log[..|log|];
    }
    OverflowKeeps(P, c, s);
  }

  lemma InsertSilent(c: Config, s: Store, m: Msg)
    ensures var t := Insert(c, s, m); Extends(s.log, t.log) && SilentFrom(t.log, |s.log|)
  {
    OverflowSilent(c, if IsTx(c.protocol, m) then InsertTx(s, m) else InsertNormal(c, s, m), s.log);
  }

  /** Message m may go out in state s at time now. */
  predicate MaySend(s: State, m: Msg, now: Instant) {
    && s.store.inFlight.None?
    && !s.pausing.paused
    && !(m.stall && !s.control.registered)
    && m.timestamp <= now
    && (s.control.nextToSend.None? || s.control.nextToSend == Some(m.call.id))
  }

  /** The queues hold a message that is m except for the attempt now being made. */
  predicate IsHead(s: State, m: Msg) {
    s.store.tx != [] && m.serial == s.store.tx[0].serial && m == Prepare(s.control.stopIds, s.store.tx[0])
  }

  predicate IsFirstAllowed(s: State, m: Msg, now: Instant) {
    exists k :: 0 <= k < |s.store.normal| && m == Prepare(s.control.stopIds, s.store.normal[k]) &&
      forall j :: 0 <= j < k ==> !Allowed(s.store.normal[j], now, s.control.registered)
  }

  /** A message reaches the transport only in a worker step, only if it may be
      sent, and only from the head of the transaction queue or as the first
      allowed normal message; no allowed transaction head is older than a
      normal message that goes out, unless that is a BootNotification. */
  lemma TransmissionRule(s: State, e: Event, i: nat)
    requires Enabled(s, e) && !e.Crash?
    ensures Extends(s.store.log, Next(s, e).store.log)
    ensures |s.store.log| <= i < |Next(s, e).store.log| && Next(s, e).store.log[i].Sent? ==>
      var m := Next(s, e).store.log[i].m;
      && e.Worker? && MaySend(s, m, e.now) && (IsHead(s, m) || IsFirstAllowed(s, m, e.now))
      && (!IsHead(s, m) && s.store.tx != [] && Allowed(s.store.tx[0], e.now, s.control.registered) ==>
          m.call.action == BootNotification || m.timestamp < s.store.tx[0].timestamp)
  {
    var st := s.store;
    if Quiet(e) {
      QuietStep(s, e);
    } else {
      match e
      case PushCall(call, stall, now) => InsertSilent(s.config, st, NewMsg(s.serial, call, stall, now));
      case PushCallAsync(call, now) => InsertSilent(s.config, st, NewMsg(s.serial, call, false, now));
      case Worker(now, ok) =>
        if Attempts(s, now) {
          WorkerSends(s, now, ok, i);
        }
      case _ =>
    }
  }

  lemma WorkerSends(s: State, now: Instant, ok: bool, i: nat)
    requires Attempts(s, now)
    ensures var m := Prepare(s.control.stopIds, Pick(s.store, Choice(s, now)));
      var log := Attempt(s, Choice(s, now), ok).store.log;
      && Extends(s.store.log, log)
      && (|s.store.log| <= i < |log| && log[i].Sent? ==> log[i].m == m)
      && MaySend(s, m, now) && (IsHead(s, m) || IsFirstAllowed(s, m, now))
      && (!IsHead(s, m) && s.store.tx != [] && Allowed(s.store.tx[0], now, s.control.registered) ==>
          m.call.action == BootNotification || m.timestamp < s.store.tx[0].timestamp)
  {
    var sel := Choice(s, now);
    if sel.FromNormal? {
      assert IsFirstAllowed(s, Prepare(s.control.stopIds, s.store.normal[sel.index]), now);
    }
  }

  // ---------------------------------------------------------------- the CSMS is answered first

  /** The CALL of the CSMS that holds back the queue, read off the history; a restart forgets it. */
  function Gate(log: seq<Entry>): Option<MessageId> {
    if log == [] then None
    else
      var e, before := log[|log| - 1], log[..|log| - 1];
      match e
      case CallReceived(id) => Some(id)
      case ReplyReceived(_) => None
      case GateReset => None
      case Restarted => None
      case ReplySent(id) => if Gate(before) == Some(id) then None else Gate(before)
      case _ => Gate(before)
  }

  /** Every transmission found the gate open or was meant by it. */
  predicate GateRespected(log: seq<Entry>) {
    log == [] ||
    (var e, before := log[|log| - 1], log[..|log| - 1];
     GateRespected(before) && (e.Sent? ==> Gate(before) == None || Gate(before) == Some(e.m.call.id)))
  }

  predicate Gated(s: State) {
    Gate(s.store.log) == s.control.nextToSend && GateRespected(s.store.log)
  }

  predicate LogGated(g: Option<MessageId>, log: seq<Entry>) {
    Gate(log) == g && GateRespected(log)
  }

  lemma GateStep(log: seq<Entry>, e: Entry)
    requires GateRespected(log) && (e.Sent? ==> Gate(log) == None || Gate(log) == Some(e.m.call.id))
    ensures GateRespected(log + [e])
    ensures !IsNote(e) ==> Gate(log + [e]) == Gate(log)
  {
    LogStep(log, e);
  }

  lemma OverflowGated(g: Option<MessageId>, c: Config, s: Store)
    requires LogGated(g, s.log)
    ensures LogGated(g, CheckQueueSizes(c, s).log)
  {
    var P := (t: Store) => LogGated(g, t.log);
    forall t: Store | P(t) && t.normal != [] ensures P(DropFront(c, t)) {
      GateStep(t.log, Overflowed(t.normal[0]));
    }
    forall t: Store, i: nat | P(t) && i < |t.tx| && Droppable(c, t, i) ensures P(DropUpdate(t, i)) {
      GateStep(t.log, Overflowed(t.tx[i]));
    }
    OverflowKeeps(P, c, s);
  }

  lemma InsertGated(g: Option<MessageId>, c: Config, s: Store, m: Msg)
    requires LogGated(g, s.log)
    ensures LogGated(g, Insert(c, s, m).log)
  {
    GateStep(s.log, Accepted(m));
    OverflowGated(g, c, if IsTx(c.protocol, m) then InsertTx(s, m) else InsertNormal(c, s, m));
  }

  lemma TransmitGated(c: Config, s: Store, sel: Selection, m: Msg, ok: bool, g: Option<MessageId>)
    requires LogGated(g, s.log) && Selectable(s, sel) && (g == None || g == Some(m.call.id))
    ensures LogGated(g, Transmit(c, s, sel, m, ok).log)
  {
    GateStep(s.log, Sent(m, ok));
    hide Gate, GateRespected, Persistent;
    if !ok && !sel.FromTx? && !Persistent(c, m) {
      var q := s.normal[sel.index := m];
      var l1 := s.log + [Sent(m, false)];
      GateStep(l1, Refused(m));
      GateStep(l1 + [Refused(m)], Popped(q[0]));
      assert Transmit(c, s, sel, m, ok).log == l1 + [Refused(m)] + [Popped(q[0])];
    }
  }

  lemma FailGated(c: Config, s: Store, now: Instant, newId: MessageId, g: Option<MessageId>)
    requires LogGated(g, s.log) && s.inFlight.Some?
    ensures LogGated(g, Fail(c, s, now, newId).log)
  {
    var m := s.inFlight.value;
    GateStep(s.log, Retried(m, newId));
    GateStep(s.log, GivenUp(m, c.attempts));
    GateStep(s.log, Expired(m));
  }

  lemma {:induction false} RereadGated(g: Option<MessageId>, log: seq<Entry>, more: seq<Entry>)
    requires LogGated(g, log) && RereadOnly(more)
    ensures LogGated(g, log + more)
    decreases |more|
  {
    if more == [] {
      assert log + more == log;
    } else {
      var n := |more| - 1;
      RereadGated(g, log, more[..n]);
      assert log + more == (log + more[..n]) + [more[n]];
      GateStep(log + more[..n], more[n]);
    }
  }

  lemma BootGated(c: Config, s: Store, ign: bool)
    ensures LogGated(None, BootStore(c, s.txTable, s.normalTable, ign).log)
  {
    var b := BootStore(c, s.txTable, s.normalTable, ign);
    assert RereadOnly(b.log);
    RereadGated(None, [], b.log);
    assert [] + b.log == b.log;
  }

  lemma RebootGated(w: State, e: Event)
    requires Gated(w) && Enabled(w, e) && e.Crash?
    ensures Gated(Rebooted(w, e))
  {
    RebootLog(w, e);
    GateNote(w.store.log, Restarted);
    RereadGated(None, w.store.log + [Restarted], Reread(w, e));
    assert Rebooted(w, e).control.nextToSend == None;
    hide Reread, Rebooted, RereadOnly;
  }

  lemma GateNote(log: seq<Entry>, e: Entry)
    requires GateRespected(log) && IsNote(e)
    ensures GateRespected(log + [e])
    ensures Gate(log + [e]) ==
      match e
      case CallReceived(id) => Some(id)
      case ReplySent(id) => if Gate(log) == Some(id) then None else Gate(log)
      case _ => None
  {
    LogStep(log, e);
  }

  lemma QuietGated(s: State, e: Event)
    requires Gated(s) && Enabled(s, e) && Quiet(e)
    ensures Gated(Next(s, e))
  {
    hide Gate, GateRespected;
    match e
    case PushReply(id) => GateNote(s.store.log, ReplySent(id));
    case ReceiveCall(id) => GateNote(s.store.log, CallReceived(id));
    case ResetNextMessage => GateNote(s.store.log, GateReset);
    case _ =>
  }

  lemma ClearGateGated(s: State, id: MessageId)
    requires Gated(s)
    ensures Gated(ClearGate(s, id)) && ClearGate(s, id).control.nextToSend == None
  {
    GateNote(s.store.log, ReplyReceived(id));
  }

  lemma WorkerGated(s: State, now: Instant, ok: bool)
    requires Gated(s)
    ensures Gated(WorkerPass(s, now, ok))
  {
    if Attempts(s, now) {
      var sel := Choice(s, now);
      TransmitGated(s.config, s.store, sel, Prepare(s.control.stopIds, Pick(s.store, sel)), ok, s.control.nextToSend);
    }
  }

  lemma NextGated(s: State, e: Event)
    requires Gated(s) && Enabled(s, e)
    ensures Gated(Next(s, e))
  {
    hide Insert, WorkerPass;
    var c, st, g := s.config, s.store, s.control.nextToSend;
    if Quiet(e) {
      QuietGated(s, e);
    } else {
      match e
      case PushCall(call, stall, now) => InsertGated(g, c, st, NewMsg(s.serial, call, stall, now));
      case PushCallAsync(call, now) =>
        InsertGated(g, c, st, NewMsg(s.serial, call, false, now));
        GateStep(st.log, Offline(NewMsg(s.serial, call, false, now)));
      case ReceiveResult(id) =>
        ClearGateGated(s, id);
        if Matches(s, id) {
          GateStep(ClearGate(s, id).store.log, Answered(st.inFlight.value));
        }
      case ReceiveError(id, now, newId) =>
        ClearGateGated(s, id);
        if Matches(s, id) {
          FailGated(c, ClearGate(s, id).store, now, newId, None);
        }
      case Timeout(now, newId) => FailGated(c, st, now, newId, g);
      case Worker(now, ok) => WorkerGated(s, now, ok);
      case StartHandled(start, t) =>
      case Crash(config, ign) =>
        BootGated(config, st, ign);
    }
  }

  lemma {:induction false} RunGated(s: State, events: seq<Event>)
    requires Gated(s) && Legal(s, events)
    ensures Gated(Run(s, events))
    decreases |events|
  {
    hide Gated, Next, Enabled;
    if events != [] {
      NextGated(s, events[0]);
      RunGated(Next(s, events[0]), events[1..]);
    }
  }

  lemma {:induction false} GatePrefix(log: seq<Entry>, j: nat)
    requires GateRespected(log) && j <= |log|
    ensures GateRespected(log[..j])
    decreases |log| - j
  {
    if j == |log| {
      assert log[..j] == log;
    } else {
      GatePrefix(log, j + 1);
      assert log[..j + 1][..j] == log[..j];
    }
  }

  /** What lifts the hold of the CALL c. */
  predicate Lifts(e: Entry, c: MessageId) {
    e == ReplySent(c) || e.ReplyReceived? || e.GateReset? || e.Restarted?
  }

  lemma {:induction false} HeldUntilLifted(log: seq<Entry>, i: nat, j: nat)
    requires i < j <= |log| && log[i].CallReceived?
    requires forall k :: i < k < j ==> !log[k].CallReceived?
    ensures Gate(log[..j]) == Some(log[i].id) || exists k :: i < k < j && Lifts(log[k], log[i].id)
    decreases j
  {
    var l := log[..j];
    assert l[..j - 1] == log[..j - 1] && l[j - 1] == log[j - 1];
    if j > i + 1 {
      HeldUntilLifted(log, i, j - 1);
    }
  }

  lemma LiftedBetween(log: seq<Entry>, i: nat, j: nat)
    requires GateRespected(log) && i < j < |log|
    requires log[i].CallReceived? && log[j].Sent? && log[j].m.call.id != log[i].id
    requires forall k :: i < k < j ==> !log[k].CallReceived?
    ensures exists k :: i < k < j && Lifts(log[k], log[i].id)
  {
    HeldUntilLifted(log, i, j);
    GatePrefix(log, j + 1);
    assert log[..j + 1][..j] == log[..j];
  }

  lemma ChronicleGated(config: Config, events: seq<Event>)
    requires Legal(Initial(config), events)
    ensures GateRespected(Chronicle(Initial(config), events))
  {
    var s := Initial(config);
    assert Gated(s);
    hide Initial, Legal, Chronicle, Run, Next, Enabled, Gate, GateRespected;
    NothingBefore(s, events);
    forall w: State, e: Event | Gated(w) && Enabled(w, e) && !e.Crash? ensures Gated(Next(w, e)) { NextGated(w, e); }
    forall w: State, e: Event | Gated(w) && Enabled(w, e) && e.Crash? ensures Gated(Rebooted(w, e)) { RebootGated(w, e); }
    ChronicleKeeps(Gated, [], s, events);
  }

  /** In every run, over all its boots: after the latest CALL of the CSMS, no
      queued message with another id goes out before that CALL was answered, a
      reply was received, the hold was reset, or the station was restarted. */
  lemma CsmsAnsweredFirst(config: Config, events: seq<Event>, i: nat, j: nat)
    requires Legal(Initial(config), events)
    requires i < j < |Chronicle(Initial(config), events)|
    requires var log := Chronicle(Initial(config), events);
      && log[i].CallReceived? && log[j].Sent? && log[j].m.call.id != log[i].id
      && (forall k :: i < k < j ==> !log[k].CallReceived?)
    ensures var log := Chronicle(Initial(config), events); exists k :: i < k < j && Lifts(log[k], log[i].id)
  {
    hide Initial, Legal, Chronicle, GateRespected, Lifts;
    ChronicleGated(config, events);
    LiftedBetween(Chronicle(Initial(config), events), i, j);
  }
}
