/** The history of a whole run, across restarts. */
module WholeRun {
  import opened Messages
  import opened QueueSpec

  /** The messages of a table that a restart does not queue again. */
  function SkippedOf(table: seq<Row>, ignoreSecurity: bool): seq<Entry> {
    if table == [] then []
    else (if Ignored(table[0], ignoreSecurity) then [Skipped(FromRow(table[0]))] else []) + SkippedOf(table[1..], ignoreSecurity)
  }

  /** What stands between the histories of two boots. */
  function Break(s: Store, ignoreSecurity: bool): seq<Entry> {
    [Restarted] + SkippedOf(s.txTable, ignoreSecurity) + SkippedOf(s.normalTable, ignoreSecurity)
  }

  /** The histories of all boots of the run, one after the other. */
  function Chronicle(s: State, events: seq<Event>): seq<Entry>
    requires Legal(s, events)
    decreases |events|
  {
    if events == [] then s.store.log
    else
      (if events[0].Crash? then s.store.log + Break(s.store, events[0].ignoreSecurity) else []) +
      Chronicle(Next(s, events[0]), events[1..])
  }

  /** The state after the run, with the history of the whole run. */
  function WholeState(past: seq<Entry>, s: State, events: seq<Event>): State
    requires Legal(s, events)
  {
    Run(s, events).(store := Run(s, events).store.(log := past + Chronicle(s, events)))
  }

  /** A restart with the history of the whole run. */
  function Rebooted(w: State, e: Event): State
    requires Enabled(w, e) && e.Crash?
  {
    After(w.store.log + Break(w.store, e.ignoreSecurity), Next(w, e))
  }

  /** The history before the current boot, after one more step. */
  function Onward(past: seq<Entry>, s: State, e: Event): seq<Entry> {
    if e.Crash? then past + s.store.log + Break(s.store, e.ignoreSecurity) else past
  }

  lemma StepKeeps(P: State -> bool, past: seq<Entry>, s: State, e: Event)
    requires P(After(past, s)) && Enabled(s, e)
    requires forall w: State, e: Event :: P(w) && Enabled(w, e) && !e.Crash? ==> P(Next(w, e))
    requires forall w: State, e: Event :: P(w) && Enabled(w, e) && e.Crash? ==> P(Rebooted(w, e))
    ensures P(After(Onward(past, s, e), Next(s, e)))
  {
    hide Break, Next, Enabled, After, Rebooted;
    if e.Crash? {
      RebootAfter(past, s, e);
    } else {
      NextAfter(past, s, e);
    }
  }

  lemma ChronicleStep(past: seq<Entry>, s: State, events: seq<Event>)
    requires Legal(s, events) && events != []
    ensures past + Chronicle(s, events) == Onward(past, s, events[0]) + Chronicle(Next(s, events[0]), events[1..])
  {
    hide Break, Next, Enabled;
  }

  /** What every step and every restart keeps holds of the whole run. */
  lemma {:induction false} ChronicleKeeps(P: State -> bool, past: seq<Entry>, s: State, events: seq<Event>)
    requires P(After(past, s)) && Legal(s, events)
    requires forall w: State, e: Event :: P(w) && Enabled(w, e) && !e.Crash? ==> P(Next(w, e))
    requires forall w: State, e: Event :: P(w) && Enabled(w, e) && e.Crash? ==> P(Rebooted(w, e))
    ensures P(WholeState(past, s, events))
    decreases |events|
  {
    hide Next, Enabled, Onward, Rebooted;
    if events != [] {
      StepKeeps(P, past, s, events[0]);
      ChronicleStep(past, s, events);
      hide After, Chronicle;
      ChronicleKeeps(P, Onward(past, s, events[0]), Next(s, events[0]), events[1..]);
    }
  }

  lemma RebootAfter(past: seq<Entry>, s: State, e: Event)
    requires Enabled(s, e) && e.Crash?
    ensures Enabled(After(past, s), e)
    ensures Rebooted(After(past, s), e) == After(past + s.store.log + Break(s.store, e.ignoreSecurity), Next(s, e))
  {
    hide BootStore;
  }

  lemma NothingBefore(s: State, events: seq<Event>)
    requires Legal(s, events)
    ensures After([], s) == s && WholeState([], s, events).store.log == Chronicle(s, events)
  {
    assert [] + s.store.log == s.store.log;
    assert [] + Chronicle(s, events) == Chronicle(s, events);
  }

  lemma {:induction false} SkippedEntries(table: seq<Row>, ign: bool)
    ensures forall i :: 0 <= i < |SkippedOf(table, ign)| ==> SkippedOf(table, ign)[i].Skipped?
  {
    if table != [] {
      SkippedEntries(table[1..], ign);
    }
  }

  /** What a restart writes after the entry for itself. */
  function Reread(w: State, e: Event): seq<Entry>
    requires e.Crash?
  {
    SkippedOf(w.store.txTable, e.ignoreSecurity) + SkippedOf(w.store.normalTable, e.ignoreSecurity) +
    BootStore(e.config, w.store.txTable, w.store.normalTable, e.ignoreSecurity).log
  }

  predicate RereadOnly(log: seq<Entry>) {
    forall i :: 0 <= i < |log| ==> log[i].Skipped? || log[i].Accepted?
  }

  lemma RereadEntries(w: State, e: Event)
    requires e.Crash?
    ensures RereadOnly(Reread(w, e))
  {
    SkippedEntries(w.store.txTable, e.ignoreSecurity);
    SkippedEntries(w.store.normalTable, e.ignoreSecurity);
    hide SkippedOf, Load, Purge;
  }

  lemma RebootLog(w: State, e: Event)
    requires Enabled(w, e) && e.Crash?
    ensures Rebooted(w, e).store.log == w.store.log + [Restarted] + Reread(w, e) && RereadOnly(Reread(w, e))
  {
    RereadEntries(w, e);
    hide SkippedOf, BootStore, RereadOnly;
  }

  /** The history of the current boot comes last. */
  lemma {:induction false} EndsWithHistory(s: State, events: seq<Event>)
    requires Legal(s, events)
    ensures var all, log := Chronicle(s, events), Run(s, events).store.log;
      |all| >= |log| && all[|all| - |log|..] == log
    decreases |events|
  {
    hide Next, Enabled;
    if events != [] {
      EndsWithHistory(Next(s, events[0]), events[1..]);
    }
  }

  // ---------------------------------------------------------------- steps do not read the history

  function Pre(past: seq<Entry>, s: Store): Store {
    s.(log := past + s.log)
  }

  function After(past: seq<Entry>, s: State): State {
    s.(store := Pre(past, s.store))
  }

  lemma PreAdd(past: seq<Entry>, log: seq<Entry>, more: seq<Entry>)
    ensures (past + log) + more == past + (log + more)
  {
  }

  lemma PreDropFront(past: seq<Entry>, c: Config, s: Store)
    requires s.normal != []
    ensures DropFront(c, Pre(past, s)) == Pre(past, DropFront(c, s))
  {
    PreAdd(past, s.log, [Overflowed(s.normal[0])]);
  }

  lemma {:induction false} PreDropFronts(past: seq<Entry>, c: Config, s: Store, n: nat)
    requires n <= |s.normal|
    ensures DropFronts(c, Pre(past, s), n) == Pre(past, DropFronts(c, s, n))
    decreases n
  {
    if n > 0 {
      PreDropFront(past, c, s);
      hide DropFront, Pre;
      PreDropFronts(past, c, DropFront(c, s), n - 1);
    }
  }

  lemma {:induction false} PreDropNormals(past: seq<Entry>, c: Config, s: Store)
    ensures DropNormals(c, Pre(past, s)) == Pre(past, DropNormals(c, s))
    decreases |s.normal|
  {
    hide DropFronts;
    if Exceeds(c, s) && s.normal != [] {
      PreDropFronts(past, c, s, BatchSize(c, s));
      PreDropNormals(past, c, DropFronts(c, s, BatchSize(c, s)));
    }
  }

  lemma {:induction false} PreDropPass(past: seq<Entry>, c: Config, s: Store, i: nat, removeNext: bool)
    requires i <= |s.tx|
    ensures DropPass(c, Pre(past, s), i, removeNext) == Pre(past, DropPass(c, s, i, removeNext))
    decreases |s.tx| - i
  {
    if i == |s.tx| {
    } else if removeNext && Droppable(c, s, i) {
      PreAdd(past, s.log, [Overflowed(s.tx[i])]);
      assert DropUpdate(Pre(past, s), i) == Pre(past, DropUpdate(s, i));
      PreDropPass(past, c, DropUpdate(s, i), i, false);
    } else {
      PreDropPass(past, c, s, i + 1, true);
    }
  }

  lemma {:induction false} PreDropUpdates(past: seq<Entry>, c: Config, s: Store)
    ensures DropUpdates(c, Pre(past, s)) == Pre(past, DropUpdates(c, s))
    decreases |s.tx|
  {
    hide DropPass;
    if Exceeds(c, s) {
      PreDropPass(past, c, s, 0, true);
      var t := DropPass(c, s, 0, true);
      if |t.tx| < |s.tx| {
        PreDropUpdates(past, c, t);
      }
    }
  }

  lemma PreInsert(past: seq<Entry>, c: Config, s: Store, m: Msg)
    ensures Insert(c, Pre(past, s), m) == Pre(past, Insert(c, s, m))
  {
    PreAdd(past, s.log, [Accepted(m)]);
    hide DropNormals, DropUpdates;
    var t := if IsTx(c.protocol, m) then InsertTx(s, m) else InsertNormal(c, s, m);
    PreDropNormals(past, c, t);
    PreDropUpdates(past, c, DropNormals(c, t));
  }

  lemma PreTransmit(past: seq<Entry>, c: Config, s: Store, sel: Selection, m: Msg, ok: bool)
    requires Selectable(s, sel)
    ensures Transmit(c, Pre(past, s), sel, m, ok) == Pre(past, Transmit(c, s, sel, m, ok))
  {
    PreAdd(past, s.log, [Sent(m, ok)]);
    if sel.FromNormal? {
      PreAdd(past, s.log, [Sent(m, false), Refused(m), Popped(s.normal[sel.index := m][0])]);
    }
  }

  lemma PreFail(past: seq<Entry>, c: Config, s: Store, now: Instant, newId: MessageId)
    requires s.inFlight.Some?
    ensures Fail(c, Pre(past, s), now, newId) == Pre(past, Fail(c, s, now, newId))
  {
    var m := s.inFlight.value;
    PreAdd(past, s.log, [Retried(m, newId)]);
    PreAdd(past, s.log, [GivenUp(m, c.attempts)]);
    PreAdd(past, s.log, [Expired(m)]);
  }

  lemma PreReply(past: seq<Entry>, s: State, e: Event)
    requires Enabled(s, e) && (e.ReceiveResult? || e.ReceiveError?)
    ensures Next(After(past, s), e) == After(past, Next(s, e))
  {
    PreAdd(past, s.store.log, [ReplyReceived(e.id)]);
    var t := ClearGate(s, e.id).store;
    assert ClearGate(After(past, s), e.id) == After(past, ClearGate(s, e.id));
    if Matches(s, e.id) {
      PreAdd(past, t.log, [Answered(s.store.inFlight.value)]);
      hide Fail;
      if e.ReceiveError? {
        PreFail(past, s.config, t, e.now, e.newId);
      }
    }
  }

  lemma PrePush(past: seq<Entry>, s: State, e: Event)
    requires Enabled(s, e) && (e.PushCall? || e.PushCallAsync?)
    ensures Next(After(past, s), e) == After(past, Next(s, e))
  {
    hide Insert;
    var m := NewMsg(s.serial, e.call, if e.PushCall? then e.stall else false, e.now);
    PreInsert(past, s.config, s.store, m);
    PreAdd(past, s.store.log, [Offline(m)]);
  }

  lemma PreWorker(past: seq<Entry>, s: State, now: Instant, ok: bool)
    ensures WorkerPass(After(past, s), now, ok) == After(past, WorkerPass(s, now, ok))
  {
    hide Select, Transmit;
    var a := After(past, s);
    PreSelect(past, s.store, now, s.control.registered);
    if Attempts(s, now) {
      PreTransmit(past, s.config, s.store, Choice(s, now), Prepare(s.control.stopIds, Pick(s.store, Choice(s, now))), ok);
    }
  }

  lemma PreSelect(past: seq<Entry>, s: Store, now: Instant, registered: bool)
    ensures Select(Pre(past, s), now, registered) == Select(s, now, registered)
  {
    hide FirstAllowed;
  }

  /** A step is the same whatever happened before. */
  lemma NextAfter(past: seq<Entry>, s: State, e: Event)
    requires Enabled(s, e) && !e.Crash?
    ensures Enabled(After(past, s), e) && Next(After(past, s), e) == After(past, Next(s, e))
  {
    if e.ReceiveResult? || e.ReceiveError? {
      PreReply(past, s, e);
    } else if e.PushCall? || e.PushCallAsync? {
      PrePush(past, s, e);
    } else if e.Worker? {
      PreWorker(past, s, e.now, e.ok);
      hide WorkerPass;
    } else if e.Timeout? {
      PreFail(past, s.config, s.store, e.now, e.newId);
      hide Fail;
    } else {
      PreQuiet(past, s, e);
    }
  }

  lemma PreNote(past: seq<Entry>, s: State, e: Event)
    requires e.PushReply? || e.ReceiveCall? || e.ResetNextMessage?
    ensures Next(After(past, s), e) == After(past, Next(s, e))
  {
    match e
    case PushReply(id) => PreAdd(past, s.store.log, [ReplySent(id)]);
    case ReceiveCall(id) => PreAdd(past, s.store.log, [CallReceived(id)]);
    case ResetNextMessage => PreAdd(past, s.store.log, [GateReset]);
  }

  lemma PreQuiet(past: seq<Entry>, s: State, e: Event)
    requires Enabled(s, e) && (Quiet(e) || e.StartHandled?)
    ensures Next(After(past, s), e) == After(past, Next(s, e))
  {
    if e.PushReply? || e.ReceiveCall? || e.ResetNextMessage? {
      PreNote(past, s, e);
    } else {
      hide PauseNow, ResumeLater, ResumeFires, SubstituteAll, RegisterMeter, Max, Fail, WorkerPass, Push, PushAsync, OnResult, OnError, BootStore;
    }
  }
}
