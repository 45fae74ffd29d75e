/** What becomes of a message. */
module Lifetimes {
  import opened Messages
  import opened QueueSpec
  import opened Overflow
  import opened Ledger
  import opened Delivery
  import opened WholeRun
  import Guarantees
  import MeterValueIds
  import NormalRecovery
  import Synchronicity
  import TransactionOrder

  // Over a whole run, restarts included, every accepted transaction message is unresolved or has met exactly
  // one of four fates: an answer, its last attempt, overflow, or a restart that no longer sends it.

  // ---------------------------------------------------------------- rows come from messages

  predicate HasRow(s: Store, r: Row) {
    r in s.txTable || r in s.normalTable
  }

  ghost predicate RowsFrom(t: Store, s: Store) {
    forall r :: HasRow(t, r) ==> HasRow(s, r)
  }

  lemma {:induction false} RemoveRowSub(table: seq<Row>, id: MessageId, r: Row)
    requires r in RemoveRow(table, id)
    ensures r in table
  {
    if table[0].uniqueId == id || r != table[0] {
      RemoveRowSub(table[1..], id, r);
    }
  }

  lemma RemovedRows(s: Store, t: Store, a: MessageId, b: MessageId)
    requires t.txTable == s.txTable || t.txTable == RemoveRow(s.txTable, a)
    requires t.normalTable == s.normalTable || t.normalTable == RemoveRow(s.normalTable, b)
    ensures RowsFrom(t, s)
  {
    forall r | HasRow(t, r) ensures HasRow(s, r) {
      if r in RemoveRow(s.txTable, a) { RemoveRowSub(s.txTable, a, r); }
      if r in RemoveRow(s.normalTable, b) { RemoveRowSub(s.normalTable, b, r); }
    }
  }

  lemma OverflowRows(c: Config, s: Store)
    ensures RowsFrom(CheckQueueSizes(c, s), s)
  {
    var P := (t: Store) => RowsFrom(t, s);
    forall t: Store | P(t) && t.normal != [] ensures P(DropFront(c, t)) {
      RemovedRows(t, DropFront(c, t), 0, t.normal[0].initialId);
    }
    forall t: Store, i: nat | P(t) && i < |t.tx| && Droppable(c, t, i) ensures P(DropUpdate(t, i)) {
      RemovedRows(t, DropUpdate(t, i), t.tx[i].initialId, 0);
    }
    OverflowKeeps(P, c, s);
  }

  lemma InsertRows(c: Config, s: Store, m: Msg, r: Row)
    requires HasRow(Insert(c, s, m), r)
    ensures HasRow(s, r) || r == RowOf(m)
  {
    OverflowRows(c, if IsTx(c.protocol, m) then InsertTx(s, m) else InsertNormal(c, s, m));
    hide CheckQueueSizes;
  }

  lemma FailRows(c: Config, s: Store, now: Instant, newId: MessageId)
    requires s.inFlight.Some?
    ensures RowsFrom(Fail(c, s, now, newId), s)
  {
    var id := s.inFlight.value.initialId;
    RemovedRows(s, Fail(c, s, now, newId), id, id);
  }

  function Made(s: State, e: Event): Msg
    requires e.PushCall? || e.PushCallAsync?
  {
    NewMsg(s.serial, e.call, if e.PushCall? then e.stall else false, e.now)
  }

  /** A step only adds the row of a message it accepts. */
  lemma NextRows(s: State, e: Event, r: Row)
    requires Enabled(s, e) && !e.Crash? && HasRow(Next(s, e).store, r)
    ensures HasRow(s.store, r) || (MeterValueIds.Accepts(s, e, s.serial) && r == RowOf(Made(s, e)))
  {
    var c, st := s.config, s.store;
    if Quiet(e) {
      QuietStep(s, e);
    } else {
      hide Insert, Fail, Choice;
      match e
      case PushCall(_, _, _) => if HasRow(Insert(c, st, Made(s, e)), r) { InsertRows(c, st, Made(s, e), r); }
      case PushCallAsync(_, _) => if HasRow(Insert(c, st, Made(s, e)), r) { InsertRows(c, st, Made(s, e), r); }
      case ReceiveResult(id) =>
        if Matches(s, id) { RemovedRows(st, Next(s, e).store, st.inFlight.value.initialId, st.inFlight.value.initialId); }
      case ReceiveError(id, now, newId) =>
        if Matches(s, id) { FailRows(c, ClearGate(s, id).store, now, newId); }
      case Timeout(now, newId) => FailRows(c, st, now, newId);
      case Worker(_, _) =>
      case StartHandled(_, _) =>
    }
  }

  lemma {:induction false} PurgeSub(table: seq<Row>, rows: seq<Row>, ign: bool, r: Row)
    requires r in Purge(table, rows, ign)
    ensures r in table
    decreases |rows|
  {
    if rows != [] {
      PurgeSub(if Ignored(rows[0], ign) then RemoveRow(table, rows[0].uniqueId) else table, rows[1..], ign, r);
      if Ignored(rows[0], ign) {
        RemoveRowSub(table, rows[0].uniqueId, r);
      }
    }
  }

  lemma BootRows(c: Config, s: Store, ign: bool)
    ensures RowsFrom(BootStore(c, s.txTable, s.normalTable, ign), s)
  {
    var b := BootStore(c, s.txTable, s.normalTable, ign);
    forall r | HasRow(b, r) ensures HasRow(s, r) {
      if r in b.txTable { PurgeSub(s.txTable, s.txTable, ign, r); }
      if r in b.normalTable { PurgeSub(s.normalTable, s.normalTable, ign, r); }
    }
  }

  // ---------------------------------------------------------------- the identity behind a serial

  lemma {:induction false} NoId(log: seq<Entry>, n: nat)
    requires MeterValueIds.CurrentId(log, n) == None
    ensures Origin(log, n) == None && Number(log, Enters, n) == 0
  {
    if log != [] {
      NoId(log[..|log| - 1], n);
    }
  }

  lemma {:induction false} NoAbout(log: seq<Entry>, n: nat)
    requires forall i :: 0 <= i < |log| ==> !About(log[i], n)
    ensures MeterValueIds.CurrentId(log, n) == None
  {
    if log != [] {
      NoAbout(log[..|log| - 1], n);
    }
  }

  lemma {:induction false} OriginEntry(log: seq<Entry>, n: nat) returns (i: nat)
    requires Origin(log, n).Some?
    ensures i < |log| && log[i].Accepted? && log[i].m.serial == n
  {
    var k := |log| - 1;
    if log[k].Accepted? && log[k].m.serial == n {
      i := k;
    } else {
      i := OriginEntry(log[..k], n);
    }
  }

  /** An accepted message in the history of a boot. */
  lemma AcceptedOnce(s: State, n: nat, i: nat)
    requires Sound(s, n) && i < |s.store.log| && s.store.log[i].Accepted? && s.store.log[i].m.serial == n
    ensures Number(s.store.log, Enters, n) == 1 && Origin(s.store.log, n) == Some(IdentityOf(s.store.log[i].m)) && n < s.serial
  {
    Guarantees.NumberOfEntry(s.store.log, i, Enters, n);
    hide Number, Origin, QueueOk, Justified, TransactionOrder.TxOk;
    assert About(s.store.log[i], n);
  }

  /** The history of a boot knows nothing of n. */
  predicate Unheard(log: seq<Entry>, n: nat) {
    Origin(log, n) == None && Number(log, Enters, n) == 0
  }

  lemma NothingKnown(s: State, n: nat)
    requires Sound(s, n) && Origin(s.store.log, n) == None
    ensures MeterValueIds.CurrentId(s.store.log, n) == None && Unheard(s.store.log, n)
    ensures s.store.inFlight.Some? ==> s.store.inFlight.value.serial != n
  {
    hide Number, Origin, QueueOk, Justified, TransactionOrder.TxOk;
    NoAbout(s.store.log, n);
    NoId(s.store.log, n);
  }

  /** What a boot knows of a serial does not change unless the message is accepted. */
  lemma OriginKept(s: State, e: Event, n: nat)
    requires Sound(s, n) && Enabled(s, e) && Sound(Next(s, e), n) && !e.Crash? && !MeterValueIds.Accepts(s, e, n)
    ensures Origin(Next(s, e).store.log, n) == Origin(s.store.log, n)
    ensures Number(Next(s, e).store.log, Enters, n) == Number(s.store.log, Enters, n)
  {
    hide Sound, Next, Enabled, Origin, Number;
    var t := Next(s, e);
    if Origin(s.store.log, n).Some? {
      var i := OriginEntry(s.store.log, n);
      Synchronicity.TransmissionRule(s, e, 0);
      assert t.store.log[i] == t.store.log[..|s.store.log|][i];
      AcceptedOnce(s, n, i);
      AcceptedOnce(t, n, i);
    } else {
      NothingKnown(s, n);
      MeterValueIds.NextId(s, e, n);
      NoId(t.store.log, n);
    }
  }

  ghost predicate RowsAre(s: Store, n: nat, d: Identity) {
    forall r :: HasRow(s, r) && r.serial == n ==> NormalRecovery.RowId(r) == d
  }

  /** Whatever the queue knows under serial n is about the message with identity d. */
  ghost predicate Known(s: State, n: nat, d: Identity) {
    && n < s.serial && RowsAre(s.store, n, d)
    && (Origin(s.store.log, n).Some? ==> Origin(s.store.log, n) == Some(d))
  }

  lemma StepKnown(s: State, e: Event, n: nat, d: Identity)
    requires Known(s, n, d) && Sound(s, n) && Enabled(s, e) && Sound(Next(s, e), n) && !e.Crash?
    ensures Known(Next(s, e), n, d) && Number(Next(s, e).store.log, Enters, n) == Number(s.store.log, Enters, n)
  {
    OriginKept(s, e, n);
    SerialGrows(s, e);
    hide Sound, Next, Enabled, Origin, Number;
    var t := Next(s, e);
    forall r | HasRow(t.store, r) && r.serial == n ensures NormalRecovery.RowId(r) == d {
      NextRows(s, e, r);
    }
  }

  lemma SerialGrows(s: State, e: Event)
    requires Enabled(s, e)
    ensures s.serial <= Next(s, e).serial <= s.serial + 1
    ensures MeterValueIds.Accepts(s, e, s.serial) ==> Next(s, e).serial == s.serial + 1
  {
  }

  lemma RowsSound(s: State, r: Row)
    requires TransactionOrder.TxOk(s) && HasRow(s.store, r)
    ensures TransactionOrder.RowOk(r, s.serial, s.used)
    ensures r in s.store.normalTable ==> !IsTransaction(s.config.protocol, r.call.action)
  {
  }

  lemma LoadedIs(s: State, table: seq<Row>, ign: bool, i: nat, n: nat, d: Identity)
    requires Known(s, n, d) && TransactionOrder.TxOk(s) && (table == s.store.txTable || table == s.store.normalTable)
    requires i < |Load(table, ign)| && Load(table, ign)[i].serial == n
    ensures IdentityOf(Load(table, ign)[i]) == d
  {
    TransactionOrder.LoadIsKept(table, ign);
    var r := table[TransactionOrder.KeptIndex(table, ign, i)];
    RowsSound(s, r);
    hide TransactionOrder.TxOk, Load, Origin;
    assert HasRow(s.store, r);
  }

  lemma CrashKnown(s: State, e: Event, n: nat, d: Identity)
    requires Known(s, n, d) && TransactionOrder.TxOk(s) && Enabled(s, e) && e.Crash?
    ensures Known(Next(s, e), n, d)
  {
    var b := BootStore(e.config, s.store.txTable, s.store.normalTable, e.ignoreSecurity);
    BootRows(e.config, s.store, e.ignoreSecurity);
    BootOrigin(s, e, n, d);
    hide TransactionOrder.TxOk, BootStore, Origin;
    assert Next(s, e).store == b && Next(s, e).serial == s.serial;
  }

  lemma BootOrigin(s: State, e: Event, n: nat, d: Identity)
    requires Known(s, n, d) && TransactionOrder.TxOk(s) && Enabled(s, e) && e.Crash?
    ensures var log := BootStore(e.config, s.store.txTable, s.store.normalTable, e.ignoreSecurity).log;
      Origin(log, n).Some? ==> Origin(log, n) == Some(d)
  {
    var ign := e.ignoreSecurity;
    var a, b := Load(s.store.normalTable, ign), Load(s.store.txTable, ign);
    LoadedDistinct(s.config.protocol, s.store, s.serial, s.used, ign);
    hide TransactionOrder.TxOk, Load, Origin, Purge, Known;
    var q: seq<Msg> := a + b;
    forall j: nat | j < |q| && q[j].serial == n ensures IdentityOf(q[j]) == d {
      if j < |a| {
        LoadedIs(s, s.store.normalTable, ign, j, n, d);
      } else {
        LoadedIs(s, s.store.txTable, ign, j - |a|, n, d);
      }
    }
    OriginOfAll(a, b, n, d);
  }

  lemma OriginOfAll(a: seq<Msg>, b: seq<Msg>, n: nat, d: Identity)
    requires Distinct(SerialsOf(a + b))
    requires forall j: nat :: j < |a + b| && (a + b)[j].serial == n ==> IdentityOf((a + b)[j]) == d
    ensures var log := AcceptAll(a) + AcceptAll(b); Origin(log, n).Some? ==> Origin(log, n) == Some(d)
  {
    var log := AcceptAll(a) + AcceptAll(b);
    AcceptAllOrigin(a, b, |a + b|, n);
    hide Origin, Distinct, SerialsOf;
    assert log[..|a + b|] == log;
  }

  // ---------------------------------------------------------------- a restart loses nothing but what it skips

  lemma {:induction false} NumberConcat(a: seq<Entry>, b: seq<Entry>, x: Aspect, n: nat)
    ensures Number(a + b, x, n) == Number(a, x, n) + Number(b, x, n)
    decreases |b|
  {
    if b == [] {
      assert a + b == a;
    } else {
      var k := |b| - 1;
      assert a + b == (a + b[..k]) + [b[k]];
      NumberConcat(a, b[..k], x, n);
      LogAdd(a + b[..k], b[k], x, n);
    }
  }

  lemma NumberOne(e: Entry, x: Aspect, n: nat)
    ensures Number([e], x, n) == Counts(e, x, n)
  {
    assert [] + [e] == [e];
    LogAdd([], e, x, n);
  }

  /** The messages a table is read back into and those that are skipped are its rows. */
  lemma {:induction false} ReadOrSkipped(table: seq<Row>, ign: bool, q: seq<Msg>, n: nat)
    requires |table| == |q| && forall i :: 0 <= i < |q| ==> table[i].serial == q[i].serial
    ensures Tally(Load(table, ign), Serial(n)) + Number(SkippedOf(table, ign), Skips, n) == Tally(q, Serial(n))
    ensures Number(SkippedOf(table, ign), Leaves, n) == 0
  {
    if table != [] {
      ReadOrSkipped(table[1..], ign, q[1..], n);
      var first := if Ignored(table[0], ign) then [Skipped(FromRow(table[0]))] else [];
      NumberConcat(first, SkippedOf(table[1..], ign), Skips, n);
      NumberConcat(first, SkippedOf(table[1..], ign), Leaves, n);
      NumberOne(Skipped(FromRow(table[0])), Skips, n);
      NumberOne(Skipped(FromRow(table[0])), Leaves, n);
      hide Number;
      assert Number([], Skips, n) == 0 && Number([], Leaves, n) == 0 by { NoEntries(n); }
      assert !Ignored(table[0], ign) ==> Load(table, ign)[1..] == Load(table[1..], ign);
    }
  }

  lemma NoEntries(n: nat)
    ensures Number([], Skips, n) == 0 && Number([], Leaves, n) == 0
  {
  }

  function AsMessages(table: seq<Row>): seq<Msg> {
    seq(|table|, i requires 0 <= i < |table| => FromRow(table[i]))
  }

  lemma {:induction false} NoneWith(q: seq<Msg>, n: nat)
    requires forall i :: 0 <= i < |q| ==> q[i].serial != n
    ensures Tally(q, Serial(n)) == 0
  {
    if q != [] {
      assert forall i :: 0 <= i < |q[1..]| ==> q[1..][i] == q[i + 1];
      NoneWith(q[1..], n);
    }
  }

  predicate IsTxId(s: State, d: Identity) {
    IsTransaction(s.config.protocol, d.action)
  }

  /** A transaction message is in none of the places of normal messages. */
  lemma OnlyAmongTx(s: State, n: nat, d: Identity)
    requires Known(s, n, d) && Sound(s, n) && IsTxId(s, d)
    ensures Pending(s.store, Serial(n)) == Tally(TransactionOrder.TxAll(s.config.protocol, s.store), Serial(n))
    ensures Tally(AsMessages(s.store.normalTable), Serial(n)) == 0
  {
    var p, st := s.config.protocol, s.store;
    forall i | 0 <= i < |st.normal| ensures st.normal[i].serial != n {
      NormalIsOther(s, n, d, st.normal[i]);
    }
    NoneWith(st.normal, n);
    forall i | 0 <= i < |st.normalTable| ensures st.normalTable[i].serial != n {
      RowsSound(s, st.normalTable[i]);
      assert HasRow(st, st.normalTable[i]);
    }
    NoneWith(AsMessages(st.normalTable), n);
    TallyConcat(TransactionOrder.TxFlight(p, st), st.tx, Serial(n));
    FlightTally(s, n, d);
    hide Sound, Known;
  }

  /** Every unresolved message with serial n has the identity. */
  lemma MessageIs(s: State, n: nat, d: Identity, m: Msg)
    requires Known(s, n, d) && Sound(s, n) && m.serial == n
    requires m in s.store.normal || s.store.inFlight == Some(m)
    ensures IdentityOf(m) == d
  {
    hide Number, LogOk, CountOk, Origin;
    if m in s.store.normal {
      var i :| 0 <= i < |s.store.normal| && s.store.normal[i] == m;
    }
  }

  lemma NoTxIn(p: Protocol, q: seq<Msg>, m: Msg)
    requires TransactionOrder.NoTx(p, q) && m in q
    ensures !IsTx(p, m)
  {
  }

  /** A message that is no transaction message has another serial. */
  lemma NormalIsOther(s: State, n: nat, d: Identity, m: Msg)
    requires Known(s, n, d) && Sound(s, n) && IsTxId(s, d)
    requires m in s.store.normal || (s.store.inFlight == Some(m) && !IsTx(s.config.protocol, m))
    ensures m.serial != n
  {
    if m in s.store.normal {
      NoTxIn(s.config.protocol, s.store.normal, m);
    }
    hide Sound, Known;
    if m.serial == n {
      MessageIs(s, n, d, m);
    }
  }

  lemma FlightTally(s: State, n: nat, d: Identity)
    requires Known(s, n, d) && Sound(s, n) && IsTxId(s, d)
    ensures Tally(TransactionOrder.TxFlight(s.config.protocol, s.store), Serial(n)) == InFlight(s.store, Serial(n))
  {
    if s.store.inFlight.Some? && !IsTx(s.config.protocol, s.store.inFlight.value) {
      NormalIsOther(s, n, d, s.store.inFlight.value);
    }
    hide Sound, Known;
  }

  /** After a restart a transaction message is unresolved, or it was skipped. */
  lemma CrashSum(s: State, e: Event, n: nat, d: Identity)
    requires Known(s, n, d) && Sound(s, n) && IsTxId(s, d) && Enabled(s, e) && e.Crash?
    ensures var more := Break(s.store, e.ignoreSecurity);
      && Number(more, Skips, n) + Pending(Next(s, e).store, Serial(n)) == Pending(s.store, Serial(n))
      && Number(more, Leaves, n) == 0
  {
    var ign, st, q := e.ignoreSecurity, s.store, TransactionOrder.TxAll(s.config.protocol, s.store);
    OnlyAmongTx(s, n, d);
    SameSerials(s);
    hide Sound, Known, IsTxId, TransactionOrder.TxAll, AsMessages, Number, Load, SkippedOf, Break, Tally, Pending, Next, Enabled;
    ReadOrSkipped(st.txTable, ign, q, n);
    ReadOrSkipped(st.normalTable, ign, AsMessages(st.normalTable), n);
    BreakCounts(st, ign, n);
    BootPending(s, e, n);
  }

  lemma BootPending(s: State, e: Event, n: nat)
    requires Enabled(s, e) && e.Crash?
    ensures Pending(Next(s, e).store, Serial(n)) ==
      Tally(Load(s.store.txTable, e.ignoreSecurity), Serial(n)) + Tally(Load(s.store.normalTable, e.ignoreSecurity), Serial(n))
  {
    hide Load, Purge, Tally, AcceptAll;
  }

  lemma SameSerials(s: State)
    requires TransactionOrder.TxOk(s)
    ensures var q := TransactionOrder.TxAll(s.config.protocol, s.store);
      |s.store.txTable| == |q| && forall i :: 0 <= i < |q| ==> s.store.txTable[i].serial == q[i].serial
    ensures var q := AsMessages(s.store.normalTable);
      |s.store.normalTable| == |q| && forall i :: 0 <= i < |q| ==> s.store.normalTable[i].serial == q[i].serial
  {
    hide TransactionOrder.TxAll;
  }

  lemma BreakCounts(s: Store, ign: bool, n: nat)
    ensures Number(Break(s, ign), Skips, n) ==
      Number(SkippedOf(s.txTable, ign), Skips, n) + Number(SkippedOf(s.normalTable, ign), Skips, n)
    ensures Number(Break(s, ign), Leaves, n) ==
      Number(SkippedOf(s.txTable, ign), Leaves, n) + Number(SkippedOf(s.normalTable, ign), Leaves, n)
  {
    hide Number, SkippedOf;
    var a, b := SkippedOf(s.txTable, ign), SkippedOf(s.normalTable, ign);
    NumberConcat([Restarted] + a, b, Skips, n);
    NumberConcat([Restarted] + a, b, Leaves, n);
    NumberConcat([Restarted], a, Skips, n);
    NumberConcat([Restarted], a, Leaves, n);
    NumberOne(Restarted, Skips, n);
    NumberOne(Restarted, Leaves, n);
  }

  // ---------------------------------------------------------------- whole runs

  /** Departures, skips and unresolved copies of n, over the whole run. */
  function Whereabouts(s: State, events: seq<Event>, n: nat): nat
    requires Legal(s, events)
  {
    Number(Chronicle(s, events), Leaves, n) + Number(Chronicle(s, events), Skips, n) + Pending(Run(s, events).store, Serial(n))
  }

  lemma {:induction false} NoSkips(log: seq<Entry>, n: nat)
    requires forall i :: 0 <= i < |log| && About(log[i], n) ==> !log[i].Skipped?
    ensures Number(log, Skips, n) == 0
  {
    if log != [] {
      NoSkips(log[..|log| - 1], n);
    }
  }

  lemma BootBalance(s: State, n: nat)
    requires Sound(s, n)
    ensures Number(s.store.log, Leaves, n) + Pending(s.store, Serial(n)) == Number(s.store.log, Enters, n)
    ensures Number(s.store.log, Skips, n) == 0
  {
    hide Number, QueueOk, Origin, Pending;
    assert forall i :: 0 <= i < |s.store.log| && About(s.store.log[i], n) ==> Justified(s.config.protocol, s.store.log[i]);
    NoSkips(s.store.log, n);
  }

  lemma {:induction false} RunSum(s: State, events: seq<Event>, n: nat, d: Identity)
    requires Known(s, n, d) && Sound(s, n) && IsTxId(s, d) && Legal(s, events)
    ensures Whereabouts(s, events, n) == Number(s.store.log, Enters, n)
    decreases |events|
  {
    hide Known, Sound, Next, Enabled, Number, Pending, Break;
    if events == [] {
      BootBalance(s, n);
    } else {
      var e, t := events[0], Next(s, events[0]);
      NextSound(s, e, n);
      SameProtocol(s, e, d);
      if e.Crash? {
        TxPart(s, n);
        CrashKnown(s, e, n, d);
        RunSum(t, events[1..], n, d);
        CrashWhereabouts(s, events, n, d);
      } else {
        StepKnown(s, e, n, d);
        RunSum(t, events[1..], n, d);
        assert Chronicle(s, events) == Chronicle(t, events[1..]);
      }
    }
  }

  lemma CrashWhereabouts(s: State, events: seq<Event>, n: nat, d: Identity)
    requires Known(s, n, d) && Sound(s, n) && IsTxId(s, d) && Legal(s, events) && events != [] && events[0].Crash?
    requires var t := Next(s, events[0]);
      Sound(t, n) && Whereabouts(t, events[1..], n) == Number(t.store.log, Enters, n)
    ensures Whereabouts(s, events, n) == Number(s.store.log, Enters, n)
  {
    hide Known, Sound, Next, Enabled, Number, Pending, Break;
    var e, t := events[0], Next(s, events[0]);
    BootBalance(s, n);
    CrashSum(s, e, n, d);
    BootBalance(t, n);
    BootLeaves(s, e, n);
    var more, c := Break(s.store, e.ignoreSecurity), Chronicle(t, events[1..]);
    assert Chronicle(s, events) == s.store.log + more + c;
    hide Chronicle;
    AllParts(s.store.log, more, c, n);
  }

  lemma TxPart(s: State, n: nat)
    requires Sound(s, n)
    ensures TransactionOrder.TxOk(s)
  {
  }

  lemma SameProtocol(s: State, e: Event, d: Identity)
    requires Enabled(s, e)
    ensures IsTxId(Next(s, e), d) == IsTxId(s, d)
  {
    TransactionOrder.NextKeepsProtocol(s, e);
  }

  /** Nothing has left yet when a boot begins. */
  lemma BootLeaves(s: State, e: Event, n: nat)
    requires Enabled(s, e) && e.Crash?
    ensures Number(Next(s, e).store.log, Leaves, n) == 0
  {
    var b := Next(s, e).store;
    AcceptAllNumber(b.normal, b.tx, |b.normal + b.tx|, Leaves, n);
    hide Number, Load, Purge;
    assert b.log[..|b.normal + b.tx|] == b.log;
  }

  lemma AllParts(a: seq<Entry>, b: seq<Entry>, c: seq<Entry>, n: nat)
    ensures Number(a + b + c, Leaves, n) == Number(a, Leaves, n) + Number(b, Leaves, n) + Number(c, Leaves, n)
    ensures Number(a + b + c, Skips, n) == Number(a, Skips, n) + Number(b, Skips, n) + Number(c, Skips, n)
  {
    hide Number;
    NumberConcat(a + b, c, Leaves, n);
    NumberConcat(a, b, Leaves, n);
    NumberConcat(a + b, c, Skips, n);
    NumberConcat(a, b, Skips, n);
  }

  // ---------------------------------------------------------------- every entry about a message

  predicate EntryOk(p: Protocol, e: Entry, n: nat, d: Identity) {
    About(e, n) ==> IdentityOf(e.m) == d && if e.Skipped? then d.action == SecurityEventNotification else Justified(p, e)
  }

  /** All entries about n are about the message with identity d, and each of its endings is justified. */
  predicate EntriesOk(p: Protocol, log: seq<Entry>, n: nat, d: Identity) {
    forall i :: 0 <= i < |log| ==> EntryOk(p, log[i], n, d)
  }

  lemma EntriesConcat(p: Protocol, a: seq<Entry>, b: seq<Entry>, n: nat, d: Identity)
    requires EntriesOk(p, a, n, d) && EntriesOk(p, b, n, d)
    ensures EntriesOk(p, a + b, n, d)
  {
    hide EntryOk;
  }

  lemma BootEntries(s: State, n: nat, d: Identity)
    requires Known(s, n, d) && Sound(s, n)
    ensures EntriesOk(s.config.protocol, s.store.log, n, d)
  {
    hide Number, Origin, QueueOk, CountOk, TransactionOrder.TxOk;
    forall i | 0 <= i < |s.store.log| ensures EntryOk(s.config.protocol, s.store.log[i], n, d) {
    }
  }

  lemma {:induction false} SkippedEntriesOk(s: State, table: seq<Row>, ign: bool, n: nat, d: Identity)
    requires RowsAre(s.store, n, d) && forall r :: r in table ==> HasRow(s.store, r) && r.call.id == r.uniqueId
    ensures EntriesOk(s.config.protocol, SkippedOf(table, ign), n, d)
  {
    if table != [] {
      SkippedEntriesOk(s, table[1..], ign, n, d);
      assert table[0] in table;
      var first := if Ignored(table[0], ign) then [Skipped(FromRow(table[0]))] else [];
      assert EntriesOk(s.config.protocol, first, n, d);
      EntriesConcat(s.config.protocol, first, SkippedOf(table[1..], ign), n, d);
    }
  }

  lemma BreakEntriesOk(s: State, ign: bool, n: nat, d: Identity)
    requires Known(s, n, d) && TransactionOrder.TxOk(s)
    ensures EntriesOk(s.config.protocol, Break(s.store, ign), n, d)
  {
    forall r | HasRow(s.store, r) ensures r.call.id == r.uniqueId { RowsSound(s, r); }
    var p, a, b := s.config.protocol, SkippedOf(s.store.txTable, ign), SkippedOf(s.store.normalTable, ign);
    hide TransactionOrder.TxOk, Origin;
    SkippedEntriesOk(s, s.store.txTable, ign, n, d);
    SkippedEntriesOk(s, s.store.normalTable, ign, n, d);
    assert EntriesOk(p, [Restarted], n, d);
    hide EntriesOk;
    EntriesConcat(p, [Restarted], a, n, d);
    EntriesConcat(p, [Restarted] + a, b, n, d);
  }

  lemma {:induction false} RunEntries(s: State, events: seq<Event>, n: nat, d: Identity)
    requires Known(s, n, d) && Sound(s, n) && Legal(s, events)
    ensures EntriesOk(s.config.protocol, Chronicle(s, events), n, d)
    decreases |events|
  {
    hide Known, Sound, Next, Enabled, EntriesOk, Break;
    if events == [] {
      BootEntries(s, n, d);
    } else {
      var e, t := events[0], Next(s, events[0]);
      NextSound(s, e, n);
      TransactionOrder.NextKeepsProtocol(s, e);
      if e.Crash? {
        TxPart(s, n);
        BootEntries(s, n, d);
        BreakEntriesOk(s, e.ignoreSecurity, n, d);
        CrashKnown(s, e, n, d);
        RunEntries(t, events[1..], n, d);
        EntriesConcat(s.config.protocol, s.store.log, Break(s.store, e.ignoreSecurity), n, d);
        EntriesConcat(s.config.protocol, s.store.log + Break(s.store, e.ignoreSecurity), Chronicle(t, events[1..]), n, d);
      } else {
        StepKnown(s, e, n, d);
        RunEntries(t, events[1..], n, d);
        assert Chronicle(s, events) == Chronicle(t, events[1..]);
      }
    }
  }

  // ---------------------------------------------------------------- from the acceptance on

  lemma Unaccepted(s: State, n: nat)
    requires Sound(s, n) && n >= s.serial
    ensures Origin(s.store.log, n) == None
    ensures forall i :: 0 <= i < |s.store.log| ==> !(s.store.log[i].Accepted? && s.store.log[i].m.serial == n)
  {
    forall i | 0 <= i < |s.store.log| && s.store.log[i].Accepted? && s.store.log[i].m.serial == n ensures false {
      AcceptedOnce(s, n, i);
    }
    hide Number, QueueOk, LogOk;
  }

  lemma NoRowYet(s: State, n: nat, r: Row)
    requires TransactionOrder.TxOk(s) && n >= s.serial && HasRow(s.store, r)
    ensures r.serial != n
  {
    RowsSound(s, r);
    hide TransactionOrder.TxOk;
  }

  lemma AcceptedEntry(s: State, e: Event)
    requires Enabled(s, e) && MeterValueIds.Accepts(s, e, s.serial)
    ensures var log := Next(s, e).store.log; |s.store.log| < |log| && log[|s.store.log|] == Accepted(Made(s, e))
  {
    var c, st, m := s.config, s.store, Made(s, e);
    var t := if IsTx(c.protocol, m) then InsertTx(st, m) else InsertNormal(c, st, m);
    assert t.log == st.log + [Accepted(m)];
    OverflowExtends(c, t);
    hide CheckQueueSizes;
    var log := Next(s, e).store.log;
    assert log[..|t.log|] == t.log;
    assert log[|st.log|] == t.log[|st.log|];
  }

  lemma OverflowExtends(c: Config, s: Store)
    ensures Synchronicity.Extends(s.log, CheckQueueSizes(c, s).log)
  {
    var P := (t: Store) => Synchronicity.Extends(s.log, t.log);
    forall t: Store | P(t) && t.normal != [] ensures P(DropFront(c, t)) {
      assert DropFront(c, t).log[..|s.log|] == t.log[..|s.log|];
    }
    forall t: Store, i: nat | P(t) && i < |t.tx| && Droppable(c, t, i) ensures P(DropUpdate(t, i)) {
      assert DropUpdate(t, i).log[..|s.log|] == t.log[..|s.log|];
    }
    OverflowKeeps(P, c, s);
  }

  lemma AcceptKnown(s: State, e: Event)
    requires Sound(s, s.serial) && Enabled(s, e) && Sound(Next(s, e), s.serial) && MeterValueIds.Accepts(s, e, s.serial)
    ensures Known(Next(s, e), s.serial, IdentityOf(Made(s, e))) && Number(Next(s, e).store.log, Enters, s.serial) == 1
  {
    var n, t := s.serial, Next(s, e);
    AcceptedEntry(s, e);
    AcceptedOnce(t, n, |s.store.log|);
    TxPart(s, n);
    hide Sound, TransactionOrder.TxOk, Next, Enabled, Origin, Number;
    forall r | HasRow(t.store, r) && r.serial == n ensures NormalRecovery.RowId(r) == IdentityOf(Made(s, e)) {
      NextRows(s, e, r);
      if HasRow(s.store, r) { NoRowYet(s, n, r); }
    }
  }

  lemma NoRowAfter(s: State, e: Event, n: nat, r: Row)
    requires TransactionOrder.TxOk(s) && Enabled(s, e) && !e.Crash? && n >= s.serial && HasRow(Next(s, e).store, r)
    requires !MeterValueIds.Accepts(s, e, s.serial)
    ensures r.serial != n
  {
    NextRows(s, e, r);
    NoRowYet(s, n, r);
  }

  lemma NoRowsAfter(s: State, e: Event, n: nat, d: Identity)
    requires TransactionOrder.TxOk(s) && Enabled(s, e) && !e.Crash? && n >= s.serial && !MeterValueIds.Accepts(s, e, s.serial)
    ensures RowsAre(Next(s, e).store, n, d)
  {
    hide TransactionOrder.TxOk, Next, Enabled, HasRow, MeterValueIds.Accepts;
    forall r | HasRow(Next(s, e).store, r) ensures r.serial != n {
      NoRowAfter(s, e, n, r);
    }
  }

  /** A serial that was given to a message that is not queued belongs to no message at all. */
  lemma RejectKnown(s: State, e: Event, d: Identity)
    requires Sound(s, s.serial) && Enabled(s, e) && Sound(Next(s, e), s.serial) && !e.Crash?
    requires !MeterValueIds.Accepts(s, e, s.serial) && Next(s, e).serial > s.serial
    ensures Known(Next(s, e), s.serial, d)
  {
    hide Sound, TransactionOrder.TxOk, Next, Enabled, Origin, Number, RowsAre, MeterValueIds.Accepts;
    Unaccepted(s, s.serial);
    OriginKept(s, e, s.serial);
    TxPart(s, s.serial);
    NoRowsAfter(s, e, s.serial, d);
  }

  /** A step within a boot does not change the history of the whole run. */
  lemma SameStory(s: State, events: seq<Event>)
    requires Legal(s, events) && events != [] && !events[0].Crash?
    ensures var t := Next(s, events[0]); Chronicle(s, events) == Chronicle(t, events[1..]) && Run(s, events) == Run(t, events[1..])
  {
    hide Next, Enabled, Break;
  }

  /** The run from s on tells of n what it should. */
  predicate Told(s: State, events: seq<Event>, n: nat, d: Identity)
    requires Legal(s, events)
  {
    EntriesOk(s.config.protocol, Chronicle(s, events), n, d) && (IsTxId(s, d) ==> Whereabouts(s, events, n) == 1)
  }

  /** Entry i accepts n, as the message with identity d. */
  predicate Accepts(log: seq<Entry>, i: nat, n: nat, d: Identity) {
    i < |log| && log[i].Accepted? && log[i].m.serial == n && IdentityOf(log[i].m) == d
  }

  lemma EntryIs(p: Protocol, log: seq<Entry>, i: nat, n: nat, d: Identity, d': Identity)
    requires EntriesOk(p, log, n, d) && Accepts(log, i, n, d')
    ensures d == d'
  {
    assert EntryOk(p, log[i], n, d);
  }

  lemma AcceptTold(s: State, events: seq<Event>, i: nat, d: Identity)
    requires Legal(s, events) && events != [] && !events[0].Crash? && MeterValueIds.Accepts(s, events[0], s.serial)
    requires Accepts(Chronicle(s, events), i, s.serial, d) && Sound(s, s.serial)
    ensures Told(s, events, s.serial, d)
  {
    var n, e, t, rest, made := s.serial, events[0], Next(s, events[0]), events[1..], IdentityOf(Made(s, events[0]));
    hide Sound, Known, Next, Enabled, Number, Pending, EntriesOk, Chronicle, Run, MeterValueIds.Accepts, Made, Accepts;
    NextSound(s, e, n);
    SameProtocol(s, e, d);
    TransactionOrder.NextKeepsProtocol(s, e);
    SameStory(s, events);
    AcceptKnown(s, e);
    RunEntries(t, rest, n, made);
    EntryIs(t.config.protocol, Chronicle(t, rest), i, n, made, d);
    if IsTxId(t, d) {
      RunSum(t, rest, n, d);
    }
  }

  lemma AnyIdentity(s: State, events: seq<Event>, i: nat, d: Identity, d': Identity)
    requires Legal(s, events) && events != [] && !events[0].Crash? && !MeterValueIds.Accepts(s, events[0], s.serial)
    requires Next(s, events[0]).serial > s.serial
    requires Accepts(Chronicle(s, events), i, s.serial, d) && Sound(s, s.serial)
    ensures d == d'
  {
    hide Sound, Known, Next, Enabled, EntriesOk, Chronicle, Run, MeterValueIds.Accepts, Accepts;
    var n, e, t, rest := s.serial, events[0], Next(s, events[0]), events[1..];
    NextSound(s, e, n);
    SameStory(s, events);
    RejectKnown(s, e, d');
    RunEntries(t, rest, n, d');
    EntryIs(t.config.protocol, Chronicle(t, rest), i, n, d', d);
  }

  lemma NextTold(s: State, events: seq<Event>, i: nat, d: Identity)
    requires Legal(s, events) && events != [] && !events[0].Crash? && Next(s, events[0]).serial > s.serial
    requires Accepts(Chronicle(s, events), i, s.serial, d) && Sound(s, s.serial)
    ensures Told(s, events, s.serial, d)
  {
    hide Sound, Next, Enabled, Chronicle, Run, Told, MeterValueIds.Accepts, Accepts;
    if MeterValueIds.Accepts(s, events[0], s.serial) {
      AcceptTold(s, events, i, d);
    } else {
      AnyIdentity(s, events, i, d, Identity(0, 0, BootNotification, false));
      AnyIdentity(s, events, i, d, Identity(0, 0, MeterValues, false));
    }
  }

  /** No entry is about n. */
  predicate Mute(log: seq<Entry>, n: nat) {
    forall i :: 0 <= i < |log| ==> !About(log[i], n)
  }

  lemma {:induction false} MuteCounts(log: seq<Entry>, n: nat)
    requires Mute(log, n)
    ensures Number(log, Leaves, n) == 0 && Number(log, Skips, n) == 0
  {
    if log != [] {
      MuteCounts(log[..|log| - 1], n);
    }
  }

  lemma {:induction false} SkippedMute(table: seq<Row>, ign: bool, n: nat)
    requires forall r :: r in table ==> r.serial != n
    ensures Mute(SkippedOf(table, ign), n)
  {
    if table != [] {
      SkippedMute(table[1..], ign, n);
      assert table[0] in table;
    }
  }

  /** Before n is accepted, nothing is about it. */
  lemma PastMute(s: State, ign: bool, n: nat)
    requires Sound(s, n) && n >= s.serial
    ensures Mute(s.store.log + Break(s.store, ign), n)
  {
    Unaccepted(s, n);
    TxPart(s, n);
    LogMute(s, n);
    hide Sound, TransactionOrder.TxOk, Origin;
    forall r | HasRow(s.store, r) ensures r.serial != n { NoRowYet(s, n, r); }
    SkippedMute(s.store.txTable, ign, n);
    SkippedMute(s.store.normalTable, ign, n);
  }

  lemma LogMute(s: State, n: nat)
    requires Sound(s, n) && Origin(s.store.log, n) == None
    ensures Mute(s.store.log, n)
  {
    hide Number, Origin, QueueOk, Justified, TransactionOrder.TxOk;
  }

  lemma MuteTold(s: State, events: seq<Event>, past: seq<Entry>, n: nat, d: Identity)
    requires Legal(s, events) && events != [] && Mute(past, n)
    requires var t := Next(s, events[0]);
      && Chronicle(s, events) == past + Chronicle(t, events[1..]) && Told(t, events[1..], n, d)
      && t.config.protocol == s.config.protocol
    ensures Told(s, events, n, d)
  {
    var t := Next(s, events[0]);
    MuteCounts(past, n);
    assert EntriesOk(s.config.protocol, past, n, d);
    hide Next, Enabled, Number, Pending, EntriesOk, Mute;
    var c := Chronicle(t, events[1..]);
    EntriesConcat(s.config.protocol, past, c, n, d);
    assert Run(s, events) == Run(t, events[1..]);
    hide Chronicle, Run;
    NumberConcat(past, c, Leaves, n);
    NumberConcat(past, c, Skips, n);
  }

  lemma SkipPast(past: seq<Entry>, log: seq<Entry>, i: nat, n: nat, d: Identity)
    requires Mute(past, n) && Accepts(past + log, i, n, d)
    ensures i >= |past| && Accepts(log, i - |past|, n, d)
  {
    forall k: nat | k < |past| ensures !Accepts(past + log, k, n, d) {
      assert (past + log)[k] == past[k] && !About(past[k], n);
    }
  }

  lemma CrashStory(s: State, events: seq<Event>)
    requires Legal(s, events) && events != [] && events[0].Crash?
    ensures var t := Next(s, events[0]);
      && Chronicle(s, events) == (s.store.log + Break(s.store, events[0].ignoreSecurity)) + Chronicle(t, events[1..])
      && t.serial == s.serial
  {
    hide Break, BootStore;
  }

  lemma NotYet(s: State, events: seq<Event>, i: nat, n: nat, d: Identity)
    requires Sound(s, n) && n >= s.serial
    ensures events == [] && Legal(s, events) ==> !Accepts(Chronicle(s, events), i, n, d)
  {
    Unaccepted(s, n);
    hide Sound;
  }

  lemma {:induction false} FromAcceptance(s: State, events: seq<Event>, i: nat, n: nat, d: Identity)
    requires Legal(s, events) && Accepts(Chronicle(s, events), i, n, d) && n >= s.serial && Sound(s, n)
    ensures Told(s, events, n, d)
    decreases |events|
  {
    hide Sound, Next, Enabled, Told, Break, Chronicle, Run, Mute, MeterValueIds.Accepts, Accepts;
    NotYet(s, events, i, n, d);
    if events != [] {
      var e, t, rest := events[0], Next(s, events[0]), events[1..];
      NextSound(s, e, n);
      TransactionOrder.NextKeepsProtocol(s, e);
      if e.Crash? {
        var past := s.store.log + Break(s.store, e.ignoreSecurity);
        PastMute(s, e.ignoreSecurity, n);
        CrashStory(s, events);
        SkipPast(past, Chronicle(t, rest), i, n, d);
        FromAcceptance(t, rest, i - |past|, n, d);
        MuteTold(s, events, past, n, d);
      } else if n >= t.serial {
        SameStory(s, events);
        NothingMute(Chronicle(s, events), n);
        FromAcceptance(t, rest, i, n, d);
        MuteTold(s, events, [], n, d);
      } else {
        SerialGrows(s, e);
        NextTold(s, events, i, d);
      }
    }
  }

  lemma NothingMute(log: seq<Entry>, n: nat)
    ensures Mute([], n) && log == [] + log
  {
  }

  // ---------------------------------------------------------------- what becomes of a transaction message

  lemma ToldOfAll(config: Config, events: seq<Event>, i: nat)
    requires Legal(Initial(config), events)
    requires i < |Chronicle(Initial(config), events)| && Chronicle(Initial(config), events)[i].Accepted?
    ensures var m := Chronicle(Initial(config), events)[i].m; Told(Initial(config), events, m.serial, IdentityOf(m))
  {
    var n := Chronicle(Initial(config), events)[i].m.serial;
    InitialSound(config, n);
    assert Initial(config).serial == 0;
    hide Sound, Initial, Legal, Chronicle, Told;
    FromAcceptance(Initial(config), events, i, n, IdentityOf(Chronicle(Initial(config), events)[i].m));
  }

  /** In every run, over all its boots: a transaction message that was accepted in
      any of them is unresolved, or has departed, or was skipped at a restart,
      exactly one of these and exactly once. So its departures and what is
      unresolved of it make one if, and only if, no restart skipped it. */
  lemma Conservation(config: Config, events: seq<Event>, i: nat)
    requires Legal(Initial(config), events)
    requires i < |Chronicle(Initial(config), events)| && Chronicle(Initial(config), events)[i].Accepted?
    requires IsTx(config.protocol, Chronicle(Initial(config), events)[i].m)
    ensures var log, s := Chronicle(Initial(config), events), Reached(config, events).store;
      var n := log[i].m.serial;
      && Number(log, Leaves, n) + Number(log, Skips, n) + Pending(s, Serial(n)) == 1
      && (Number(log, Leaves, n) + Pending(s, Serial(n)) == 1 <==> Number(log, Skips, n) == 0)
  {
    ToldOfAll(config, events, i);
    assert Initial(config).config == config;
    hide Initial, Run, Legal, Chronicle, EntriesOk, Number, Pending;
  }

  /** How a transaction message may end. */
  predicate Fate(p: Protocol, e: Entry) {
    || e.Answered?
    || (e.GivenUp? && e.m.attempts >= e.limit)
    || (e.Overflowed? && IsUpdate(p, e.m.call))
    || (e.Skipped? && e.m.call.action == SecurityEventNotification)
  }

  lemma EndsOk(p: Protocol, log: seq<Entry>, j: nat, n: nat, d: Identity)
    requires EntriesOk(p, log, n, d) && IsTransaction(p, d.action) && j < |log|
    requires (Departs(log[j]) || log[j].Skipped?) && log[j].m.serial == n
    ensures IdentityOf(log[j].m) == d && Fate(p, log[j])
  {
    assert EntryOk(p, log[j], n, d);
  }

  /** In every run, over all its boots: an entry that ends a transaction message
      accepted in any of them is about the same message, and says that it was
      answered, that all its attempts were used, that it was an update and the
      queues were too long, or that it was a security notification and a restart
      was told to ignore those. */
  lemma Fates(config: Config, events: seq<Event>, i: nat, j: nat)
    requires Legal(Initial(config), events)
    requires i < |Chronicle(Initial(config), events)| && j < |Chronicle(Initial(config), events)|
    requires var log := Chronicle(Initial(config), events);
      && log[i].Accepted? && IsTx(config.protocol, log[i].m)
      && (Departs(log[j]) || log[j].Skipped?) && log[j].m.serial == log[i].m.serial
    ensures var log := Chronicle(Initial(config), events);
      IdentityOf(log[j].m) == IdentityOf(log[i].m) && Fate(config.protocol, log[j])
  {
    ToldOfAll(config, events, i);
    assert Initial(config).config == config;
    hide Initial, Run, Legal, Chronicle, Whereabouts;
    var log := Chronicle(Initial(config), events);
    EndsOk(config.protocol, log, j, log[i].m.serial, IdentityOf(log[i].m));
  }
}
