/** The order of sending. */
module SendOrder {
  import opened Messages
  import opened QueueSpec
  import opened Overflow
  import opened TransactionOrder
  import opened WholeRun

  // Transaction messages go out in the order in which they were accepted.

  predicate SentTx(p: Protocol, e: Entry) {
    e.Sent? && IsTx(p, e.m)
  }

  /** The serial of the transaction message offered to the transport last; -1 if there was none. */
  function LastSent(p: Protocol, log: seq<Entry>): int {
    if log == [] then -1
    else if SentTx(p, log[|log| - 1]) then log[|log| - 1].m.serial
    else LastSent(p, log[..|log| - 1])
  }

  /** No transaction message is offered after a later one. */
  predicate Monotone(p: Protocol, log: seq<Entry>) {
    log == [] ||
    (var e, before := log[|log| - 1], log[..|log| - 1];
     Monotone(p, before) && (SentTx(p, e) ==> LastSent(p, before) <= e.m.serial))
  }

  /** What was sent last is not younger than the oldest unresolved transaction message. */
  predicate InOrder(p: Protocol, s: Store, serial: nat) {
    && Monotone(p, s.log)
    && LastSent(p, s.log) < serial
    && (TxAll(p, s) != [] ==> LastSent(p, s.log) <= TxAll(p, s)[0].serial)
  }

  predicate OrderInv(p: Protocol, s: Store, serial: nat, used: set<MessageId>) {
    TxInv(p, s, serial, used) && InOrder(p, s, serial)
  }

  predicate OrderOk(s: State) {
    OrderInv(s.config.protocol, s.store, s.serial, s.used)
  }

  lemma OtherEntry(p: Protocol, log: seq<Entry>, e: Entry)
    requires Monotone(p, log) && (SentTx(p, e) ==> LastSent(p, log) <= e.m.serial)
    ensures Monotone(p, log + [e])
    ensures LastSent(p, log + [e]) == if SentTx(p, e) then e.m.serial else LastSent(p, log)
  {
    assert (log + [e])[..|log|] == log;
  }

  lemma TxOrder(p: Protocol, s: Store, serial: nat, used: set<MessageId>)
    requires TxInv(p, s, serial, used)
    ensures forall i, j :: 0 <= i < j < |TxAll(p, s)| ==> TxAll(p, s)[i].serial < TxAll(p, s)[j].serial
    ensures forall i :: 0 <= i < |TxAll(p, s)| ==> IsTx(p, TxAll(p, s)[i]) && TxAll(p, s)[i].serial < serial
  {
    var q := TxAll(p, s);
    forall i | 0 <= i < |q| ensures q[i].serial < serial {
      assert RowFor(s.txTable[i], q[i]) && RowOk(s.txTable[i], serial, used);
    }
  }

  lemma DropFrontOrder(c: Config, s: Store, serial: nat, used: set<MessageId>)
    requires OrderInv(c.protocol, s, serial, used) && s.normal != []
    ensures OrderInv(c.protocol, DropFront(c, s), serial, used)
  {
    hide TxInv;
    DropFrontKeeps(c, s, serial, used);
    OtherEntry(c.protocol, s.log, Overflowed(s.normal[0]));
    assert TxAll(c.protocol, DropFront(c, s)) == TxAll(c.protocol, s);
  }

  lemma DropUpdateOrder(p: Protocol, s: Store, i: nat, serial: nat, used: set<MessageId>)
    requires OrderInv(p, s, serial, used) && i < |s.tx|
    ensures OrderInv(p, DropUpdate(s, i), serial, used)
  {
    hide TxInv, Monotone, LastSent;
    DropUpdateKeeps(p, s, i, serial, used);
    OtherEntry(p, s.log, Overflowed(s.tx[i]));
    TxOrder(p, s, serial, used);
    WithoutUpdate(p, s, i);
    RemovedAt(TxAll(p, s), |TxFlight(p, s)| + i);
    hide TxAll, RemoveAt;
  }

  lemma WithoutUpdate(p: Protocol, s: Store, i: nat)
    requires i < |s.tx|
    ensures |TxFlight(p, s)| + i < |TxAll(p, s)|
    ensures TxAll(p, DropUpdate(s, i)) == RemoveAt(TxAll(p, s), |TxFlight(p, s)| + i)
  {
    hide RemoveRow;
  }

  lemma OverflowOrder(c: Config, s: Store, serial: nat, used: set<MessageId>)
    requires OrderInv(c.protocol, s, serial, used)
    ensures OrderInv(c.protocol, CheckQueueSizes(c, s), serial, used)
  {
    var P := (t: Store) => OrderInv(c.protocol, t, serial, used);
    forall t: Store | P(t) && t.normal != [] ensures P(DropFront(c, t)) { DropFrontOrder(c, t, serial, used); }
    forall t: Store, i: nat | P(t) && i < |t.tx| && Droppable(c, t, i) ensures P(DropUpdate(t, i)) {
      DropUpdateOrder(c.protocol, t, i, serial, used);
    }
    OverflowKeeps(P, c, s);
  }

  lemma InsertOrder(c: Config, s: Store, m: Msg, serial: nat, used: set<MessageId>)
    requires OrderInv(c.protocol, s, serial, used) && New(m, serial, used)
    ensures OrderInv(c.protocol, Insert(c, s, m), serial + 1, used + {m.call.id})
  {
    hide TxInv, CheckQueueSizes;
    var p, q := c.protocol, TxAll(c.protocol, s);
    OtherEntry(p, s.log, Accepted(m));
    if IsTx(p, m) {
      InsertTxKeeps(p, s, m, serial, used);
      assert TxAll(p, InsertTx(s, m)) == q + [m];
      OverflowOrder(c, InsertTx(s, m), serial + 1, used + {m.call.id});
    } else {
      InsertNormalKeeps(c, s, m, serial, used);
      assert TxAll(p, InsertNormal(c, s, m)) == q;
      OverflowOrder(c, InsertNormal(c, s, m), serial + 1, used + {m.call.id});
    }
  }

  /** An attempt at the first unresolved transaction message, or at a normal message. */
  lemma TransmitOrder(c: Config, s: Store, sel: Selection, m: Msg, ok: bool, serial: nat)
    requires InOrder(c.protocol, s, serial) && Selectable(s, sel) && s.inFlight.None?
    requires m.serial == Pick(s, sel).serial && IsTx(c.protocol, m) == sel.FromTx? && (sel.FromTx? ==> m.serial < serial)
    ensures InOrder(c.protocol, Transmit(c, s, sel, m, ok), serial)
  {
    hide Monotone, LastSent;
    var p, t := c.protocol, Transmit(c, s, sel, m, ok);
    assert TxAll(p, s) == s.tx;
    OtherEntry(p, s.log, Sent(m, ok));
    if ok {
      assert TxAll(p, t) == if sel.FromTx? then [m] + s.tx[1..] else s.tx;
    } else {
      assert TxAll(p, t) == t.tx;
      if sel.FromNormal? && !Persistent(c, m) {
        RefusedOrder(c, s, sel.index, m);
      }
    }
  }

  lemma RefusedOrder(c: Config, s: Store, k: nat, m: Msg)
    requires k < |s.normal| && !Persistent(c, m)
    requires Monotone(c.protocol, s.log + [Sent(m, false)])
    ensures var t := Undelivered(c, s, FromNormal(k), m);
      Monotone(c.protocol, t.log) && LastSent(c.protocol, t.log) == LastSent(c.protocol, s.log + [Sent(m, false)])
  {
    hide Monotone, LastSent, Persistent;
    var l, q := s.log + [Sent(m, false)], s.normal[k := m];
    OtherEntry(c.protocol, l, Refused(m));
    OtherEntry(c.protocol, l + [Refused(m)], Popped(q[0]));
    assert Undelivered(c, s, FromNormal(k), m).log == l + [Refused(m)] + [Popped(q[0])];
  }

  lemma ResolveOrder(c: Config, s: Store, e: Entry, serial: nat, used: set<MessageId>)
    requires OrderInv(c.protocol, s, serial, used) && s.inFlight.Some? && !e.Sent?
    ensures OrderInv(c.protocol, Resolve(c, s, e), serial, used)
  {
    hide TxInv;
    var p := c.protocol;
    ResolveKeeps(c, s, e, serial, used);
    OtherEntry(p, s.log, e);
    TxOrder(p, s, serial, used);
    var t := Resolve(c, s, e);
    assert TxAll(p, t) == TxAll(p, s)[|TxFlight(p, s)|..];
  }

  lemma FailOrder(c: Config, s: Store, now: Instant, newId: MessageId, serial: nat, used: set<MessageId>)
    requires OrderInv(c.protocol, s, serial, used) && s.inFlight.Some?
    ensures OrderInv(c.protocol, Fail(c, s, now, newId), serial, used + {newId})
  {
    hide TxInv;
    var p, m := c.protocol, s.inFlight.value;
    FailKeeps(c, s, now, newId, serial, used);
    if Retries(c, m) {
      OtherEntry(p, s.log, Retried(m, newId));
      var t, r := Retry(c, s, now, newId), Renewed(c, m, now, newId);
      assert TxAll(p, t) == if IsTx(p, m) then [r] + s.tx else s.tx;
    } else {
      ResolveOrder(c, s, if Persistent(c, m) then GivenUp(m, c.attempts) else Expired(m), serial, used);
    }
  }

  lemma NoteOrder(p: Protocol, s: Store, e: Entry, serial: nat, used: set<MessageId>, serial': nat, used': set<MessageId>)
    requires OrderInv(p, s, serial, used) && !e.Sent? && serial <= serial' && used <= used'
    ensures OrderInv(p, s.(log := s.log + [e]), serial', used')
  {
    hide TxInv;
    OtherEntry(p, s.log, e);
    GrowKeeps(p, s, serial, used, serial', used');
    LogKeeps(p, s, s.log + [e], serial', used');
    assert TxAll(p, s.(log := s.log + [e])) == TxAll(p, s);
  }

  lemma WorkerOrder(s: State, now: Instant, ok: bool)
    requires OrderOk(s)
    ensures OrderOk(WorkerPass(s, now, ok))
  {
    hide OrderInv, Attempt, Choice, WorkerPass, Attempts;
    PassShape(s, now, ok);
    if Attempts(s, now) {
      AttemptOrder(s, Choice(s, now), ok);
    } else {
      PassKeepsSerial(s, now, ok);
    }
  }

  lemma PassKeepsSerial(s: State, now: Instant, ok: bool)
    ensures WorkerPass(s, now, ok).serial == s.serial
  {
  }

  lemma AttemptOrder(s: State, sel: Selection, ok: bool)
    requires OrderOk(s) && Selectable(s.store, sel) && s.store.inFlight.None?
    ensures OrderOk(Attempt(s, sel, ok))
  {
    PickedOrder(s.config.protocol, s.store, sel, s.serial, s.used);
    hide TxInv, InOrder, Transmit;
    TransmitOrder(s.config, s.store, sel, Prepare(s.control.stopIds, Pick(s.store, sel)), ok, s.serial);
    if sel.FromTx? {
      TransmitTx(s.config, s.store, s.control.stopIds, ok, s.serial, s.used);
    } else {
      TransmitNormal(s.config, s.store, s.control.stopIds, sel.index, ok, s.serial, s.used);
    }
  }

  lemma PickedOrder(p: Protocol, s: Store, sel: Selection, serial: nat, used: set<MessageId>)
    requires TxInv(p, s, serial, used) && Selectable(s, sel) && s.inFlight.None?
    ensures IsTx(p, Pick(s, sel)) == sel.FromTx? && (sel.FromTx? ==> Pick(s, sel).serial < serial)
  {
    TxOrder(p, s, serial, used);
    assert sel.FromTx? ==> s.tx[0] == TxAll(p, s)[0];
    hide Tracked, NormalRows, Disjoint;
  }

  lemma SubstituteOrder(p: Protocol, s: Store, ids: seq<MessageId>, t: int, serial: nat, used: set<MessageId>)
    requires OrderInv(p, s, serial, used)
    ensures OrderInv(p, s.(tx := SubstituteAll(s.tx, ids, t)), serial, used)
  {
    hide TxInv;
    SubstituteKeeps(p, s, ids, t, serial, used);
    var s' := s.(tx := SubstituteAll(s.tx, ids, t));
    assert TxFlight(p, s') == TxFlight(p, s);
    assert s.tx != [] ==> s'.tx[0].serial == s.tx[0].serial;
  }

  lemma QuietOrder(s: State, e: Event)
    requires OrderOk(s) && Enabled(s, e) && Quiet(e)
    ensures OrderOk(Next(s, e))
  {
    QuietStep(s, e);
    if Next(s, e).store != s.store {
      var x :| IsNote(x) && Next(s, e).store == s.store.(log := s.store.log + [x]);
      NoteOrder(s.config.protocol, s.store, x, s.serial, s.used, s.serial, s.used);
    }
  }

  lemma ReplyOrder(s: State, e: Event)
    requires OrderOk(s) && Enabled(s, e) && (e.ReceiveResult? || e.ReceiveError?)
    ensures OrderOk(Next(s, e))
  {
    var t := ClearGate(s, e.id);
    NoteOrder(s.config.protocol, s.store, ReplyReceived(e.id), s.serial, s.used, s.serial, s.used);
    if Matches(s, e.id) {
      if e.ReceiveResult? {
        ResolveOrder(s.config, t.store, Answered(s.store.inFlight.value), s.serial, s.used);
      } else {
        FailOrder(s.config, t.store, e.now, e.newId, s.serial, s.used);
      }
    }
  }

  lemma NextOrder(s: State, e: Event)
    requires OrderOk(s) && Enabled(s, e) && !e.Crash?
    ensures OrderOk(Next(s, e))
  {
    hide OrderInv, TxInv, Insert, WorkerPass, BootStore, CheckQueueSizes;
    var c, st, n, u := s.config, s.store, s.serial, s.used;
    if Quiet(e) {
      QuietOrder(s, e);
    } else if e.ReceiveResult? || e.ReceiveError? {
      ReplyOrder(s, e);
    } else {
      match e
      case PushCall(call, stall, now) => InsertOrder(c, st, NewMsg(n, call, stall, now), n, u);
      case PushCallAsync(call, now) => PushAsyncOrder(s, call, now);
      case Timeout(now, newId) => FailOrder(c, st, now, newId, n, u);
      case Worker(now, ok) => WorkerOrder(s, now, ok);
      case StartHandled(start, t) =>
        if start in s.control.meterIds {
          SubstituteOrder(c.protocol, st, s.control.meterIds[start], t, n, u);
        }
    }
  }

  lemma PushAsyncOrder(s: State, call: Call, now: Instant)
    requires OrderOk(s) && call.id !in s.used
    ensures OrderOk(PushAsync(s, call, now))
  {
    hide TxInv, InOrder, Insert;
    var m := NewMsg(s.serial, call, false, now);
    InsertOrder(s.config, s.store, m, s.serial, s.used);
    NoteOrder(s.config.protocol, s.store, Offline(m), s.serial, s.used, s.serial + 1, s.used + {call.id});
  }

  lemma {:induction false} MonotonePairs(p: Protocol, log: seq<Entry>, i: nat, j: nat)
    requires Monotone(p, log) && i < j < |log| && SentTx(p, log[i]) && SentTx(p, log[j])
    ensures log[i].m.serial <= log[j].m.serial
    decreases |log|
  {
    var before := log[..|log| - 1];
    if j < |log| - 1 {
      MonotonePairs(p, before, i, j);
    } else {
      LastSentBound(p, before, i);
    }
  }

  lemma {:induction false} LastSentBound(p: Protocol, log: seq<Entry>, i: nat)
    requires Monotone(p, log) && i < |log| && SentTx(p, log[i])
    ensures log[i].m.serial <= LastSent(p, log)
    decreases |log|
  {
    if i < |log| - 1 {
      LastSentBound(p, log[..|log| - 1], i);
    }
  }

  // ---------------------------------------------------------------- whole runs, across restarts

  predicate Silent(log: seq<Entry>) {
    forall i :: 0 <= i < |log| ==> !log[i].Sent?
  }

  lemma {:induction false} AppendSilent(p: Protocol, log: seq<Entry>, more: seq<Entry>)
    requires Monotone(p, log) && Silent(more)
    ensures Monotone(p, log + more) && LastSent(p, log + more) == LastSent(p, log)
    decreases |more|
  {
    if more == [] {
      assert log + more == log;
    } else {
      var n := |more| - 1;
      AppendSilent(p, log, more[..n]);
      assert log + more == (log + more[..n]) + [more[n]];
      OtherEntry(p, log + more[..n], more[n]);
    }
  }

  /** Nothing older than the oldest unresolved transaction message is read back. */
  lemma LoadedHead(p: Protocol, q: seq<Msg>, table: seq<Row>, serial: nat, used: set<MessageId>, ign: bool)
    requires Tracked(p, q, table, serial, used) && Load(table, ign) != []
    ensures q != [] && q[0].serial <= Load(table, ign)[0].serial
  {
    hide Load, KeptRows, RowOk, Untried, AsMade;
    LoadIsKept(table, ign);
    var a := KeptIndex(table, ign, 0);
    assert RowFor(table[a], q[a]);
  }

  lemma BreakSilent(s: Store, ign: bool)
    ensures Silent(Break(s, ign))
  {
    SkippedEntries(s.txTable, ign);
    SkippedEntries(s.normalTable, ign);
  }

  lemma BootOrder(log: seq<Entry>, config: Config, s: Store, serial: nat, used: set<MessageId>, ign: bool)
    requires OrderInv(config.protocol, s.(log := log), serial, used)
    ensures OrderInv(config.protocol, Pre(log, BootStore(config, s.txTable, s.normalTable, ign)), serial, used)
  {
    hide TxInv, BootStore, Monotone, LastSent;
    var p, b := config.protocol, BootStore(config, s.txTable, s.normalTable, ign);
    LogKeeps(p, s.(log := log), s.log, serial, used);
    assert s.(log := log).(log := s.log) == s && TxAll(p, s) == TxAll(p, s.(log := log));
    CrashKeeps(config, s, serial, used, ign);
    LogKeeps(p, b, log + b.log, serial, used);
    CrashOrder(log, config, s, serial, used, ign);
  }

  lemma BrokenOrder(p: Protocol, s: Store, serial: nat, used: set<MessageId>, ign: bool)
    requires OrderInv(p, s, serial, used)
    ensures OrderInv(p, s.(log := s.log + Break(s, ign)), serial, used)
  {
    BreakSilent(s, ign);
    hide TxInv, Break, Monotone, LastSent, Silent;
    AppendSilent(p, s.log, Break(s, ign));
    LogKeeps(p, s, s.log + Break(s, ign), serial, used);
    assert TxAll(p, s.(log := s.log + Break(s, ign))) == TxAll(p, s);
  }

  /** A restart continues the order. */
  lemma RebootOrder(w: State, e: Event)
    requires OrderOk(w) && Enabled(w, e) && e.Crash?
    ensures OrderOk(Rebooted(w, e))
  {
    hide OrderInv, BootStore, Break;
    BrokenOrder(w.config.protocol, w.store, w.serial, w.used, e.ignoreSecurity);
    BootOrder(w.store.log + Break(w.store, e.ignoreSecurity), e.config, w.store, w.serial, w.used, e.ignoreSecurity);
  }

  lemma CrashOrder(log: seq<Entry>, config: Config, s: Store, serial: nat, used: set<MessageId>, ign: bool)
    requires TxInv(config.protocol, s, serial, used) && Monotone(config.protocol, log)
    requires LastSent(config.protocol, log) < serial
    requires TxAll(config.protocol, s) != [] ==> LastSent(config.protocol, log) <= TxAll(config.protocol, s)[0].serial
    ensures InOrder(config.protocol, Pre(log, BootStore(config, s.txTable, s.normalTable, ign)), serial)
  {
    hide Load, Purge, Monotone, LastSent, Tracked, NormalRows, Disjoint, NoTx, TxAll;
    var p, b := config.protocol, BootStore(config, s.txTable, s.normalTable, ign);
    AcceptedInOrder(p, log, b.normal, b.tx);
    if b.tx != [] {
      LoadedHead(p, TxAll(p, s), s.txTable, serial, used, ign);
    }
    NothingInFlight(p, Pre(log, b));
  }

  lemma AcceptedInOrder(p: Protocol, log: seq<Entry>, q: seq<Msg>, r: seq<Msg>)
    requires Monotone(p, log)
    ensures var l := log + (AcceptAll(q) + AcceptAll(r)); Monotone(p, l) && LastSent(p, l) == LastSent(p, log)
  {
    hide Monotone, LastSent;
    AppendSilent(p, log, AcceptAll(q) + AcceptAll(r));
  }

  lemma NothingInFlight(p: Protocol, s: Store)
    requires s.inFlight.None?
    ensures TxAll(p, s) == s.tx
  {
  }

  lemma ReachedOrder(config: Config, events: seq<Event>)
    requires Legal(Initial(config), events)
    ensures Monotone(config.protocol, Chronicle(Initial(config), events))
  {
    var s := Initial(config);
    InitialTx(config);
    ReachedTx(config, events);
    hide OrderInv, TxInv, Initial, Legal, Chronicle, Run, Next, Enabled;
    NothingBefore(s, events);
    InitialOrder(config);
    forall w: State, e: Event | OrderOk(w) && Enabled(w, e) && !e.Crash? ensures OrderOk(Next(w, e)) { NextOrder(w, e); }
    forall w: State, e: Event | OrderOk(w) && Enabled(w, e) && e.Crash? ensures OrderOk(Rebooted(w, e)) { RebootOrder(w, e); }
    ChronicleKeeps(OrderOk, [], s, events);
    OrderedLog(WholeState([], s, events));
  }

  lemma OrderedLog(w: State)
    requires OrderOk(w)
    ensures Monotone(w.config.protocol, w.store.log)
  {
  }

  lemma InitialOrder(config: Config)
    ensures OrderOk(Initial(config))
  {
    InitialTx(config);
    hide TxInv;
  }

  lemma MonotoneTriple(p: Protocol, log: seq<Entry>, i: nat, j: nat, k: nat)
    requires Monotone(p, log) && i <= k <= j < |log| && SentTx(p, log[i]) && SentTx(p, log[j]) && SentTx(p, log[k])
    ensures log[i].m.serial <= log[k].m.serial <= log[j].m.serial
  {
    if i < k { MonotonePairs(p, log, i, k); }
    if k < j { MonotonePairs(p, log, k, j); }
  }

  /** In every run, through retries, failed sends, overflow, restarts and normal
      messages in between: transaction messages are offered to the transport in
      the order in which they were accepted, and between two attempts at one of
      them no other one is offered. */
  lemma TransactionsInOrder(config: Config, events: seq<Event>, i: nat, j: nat, k: nat)
    requires Legal(Initial(config), events)
    requires i <= k <= j < |Chronicle(Initial(config), events)|
    requires var log := Chronicle(Initial(config), events);
      SentTx(config.protocol, log[i]) && SentTx(config.protocol, log[j]) && SentTx(config.protocol, log[k])
    ensures var log := Chronicle(Initial(config), events);
      && log[i].m.serial <= log[k].m.serial <= log[j].m.serial
      && (log[i].m.serial == log[j].m.serial ==> log[k].m.serial == log[i].m.serial)
  {
    hide Initial, Legal, Chronicle, Monotone;
    ReachedOrder(config, events);
    MonotoneTriple(config.protocol, Chronicle(Initial(config), events), i, j, k);
  }
}
