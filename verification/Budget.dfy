/** A measure for delivery. */
module Budget {
  import opened Messages
  import opened QueueSpec
  import opened Overflow
  import opened Ledger
  import opened Delivery
  import TransactionOrder

  // Every handover of a bounded message uses up one unit, and only pushes, raised limits and restarts grant
  // new ones.

  /** How often the message may still reach the transport; 0 where there is no bound. */
  function Remaining(c: Config, peak: int, log: seq<Entry>, m: Msg): int {
    if Cap(c, peak, m.call.action) == -1 then 0
    else Cap(c, peak, m.call.action) - Number(log, Delivers, m.serial)
  }

  function Sum(c: Config, peak: int, log: seq<Entry>, q: seq<Msg>): int {
    if q == [] then 0 else Remaining(c, peak, log, q[0]) + Sum(c, peak, log, q[1..])
  }

  function FlightSum(c: Config, peak: int, s: Store): int {
    if s.inFlight.Some? then Remaining(c, peak, s.log, s.inFlight.value) else 0
  }

  /** What all unresolved messages together may still cost. */
  function Total(c: Config, peak: int, s: Store): int {
    FlightSum(c, peak, s) + Sum(c, peak, s.log, s.tx) + Sum(c, peak, s.log, s.normal)
  }

  // ---------------------------------------------------------------- sums

  lemma {:induction false} SumConcat(c: Config, peak: int, log: seq<Entry>, a: seq<Msg>, b: seq<Msg>)
    ensures Sum(c, peak, log, a + b) == Sum(c, peak, log, a) + Sum(c, peak, log, b)
  {
    hide Remaining;
    if a == [] {
      assert a + b == b;
    } else {
      assert (a + b)[1..] == a[1..] + b;
      SumConcat(c, peak, log, a[1..], b);
    }
  }

  lemma SumSplit(c: Config, peak: int, log: seq<Entry>, q: seq<Msg>, i: nat)
    requires i < |q|
    ensures Sum(c, peak, log, q) == Sum(c, peak, log, RemoveAt(q, i)) + Remaining(c, peak, log, q[i])
  {
    hide Remaining;
    assert q == q[..i] + ([q[i]] + q[i + 1..]);
    SumConcat(c, peak, log, q[..i], [q[i]] + q[i + 1..]);
    SumConcat(c, peak, log, q[..i], q[i + 1..]);
  }

  lemma SumPlus(c: Config, peak: int, log: seq<Entry>, q: seq<Msg>, m: Msg)
    ensures Sum(c, peak, log, q + [m]) == Sum(c, peak, log, q) + Remaining(c, peak, log, m)
    ensures Sum(c, peak, log, [m] + q) == Sum(c, peak, log, q) + Remaining(c, peak, log, m)
  {
    hide Remaining;
    SumConcat(c, peak, log, q, [m]);
    SumConcat(c, peak, log, [m], q);
    assert Sum(c, peak, log, [m]) == Remaining(c, peak, log, m);
  }

  predicate SameKind(a: Msg, b: Msg) {
    a.serial == b.serial && a.call.action == b.call.action
  }

  lemma SumReplace(c: Config, peak: int, log: seq<Entry>, q: seq<Msg>, i: nat, m: Msg)
    requires i < |q| && SameKind(m, q[i])
    ensures Sum(c, peak, log, q[i := m]) == Sum(c, peak, log, q)
  {
    SumSplit(c, peak, log, q, i);
    SumSplit(c, peak, log, q[i := m], i);
    assert RemoveAt(q[i := m], i) == RemoveAt(q, i);
  }

  /** An entry only matters for the messages it delivers. */
  predicate NoDelivery(e: Entry) {
    !(e.Sent? && e.ok)
  }

  lemma {:induction false} SumLog(c: Config, peak: int, log: seq<Entry>, e: Entry, q: seq<Msg>)
    requires NoDelivery(e) || (!IsNote(e) && Tally(q, Serial(e.m.serial)) == 0)
    ensures Sum(c, peak, log + [e], q) == Sum(c, peak, log, q)
  {
    if q != [] {
      LogAdd(log, e, Delivers, q[0].serial);
      SumLog(c, peak, log, e, q[1..]);
    }
  }

  lemma TotalLog(c: Config, peak: int, s: Store, e: Entry)
    requires NoDelivery(e)
    ensures Total(c, peak, s.(log := s.log + [e])) == Total(c, peak, s)
  {
    SumLog(c, peak, s.log, e, s.tx);
    SumLog(c, peak, s.log, e, s.normal);
    if s.inFlight.Some? {
      LogAdd(s.log, e, Delivers, s.inFlight.value.serial);
    }
  }

  // ---------------------------------------------------------------- no unresolved message is overdrawn

  ghost predicate Alive(c: Config, peak: int, s: Store, serial: nat) {
    forall n: nat :: LifeInv(c, peak, s, serial, n)
  }

  lemma QueuedRemaining(c: Config, peak: int, s: Store, serial: nat, m: Msg)
    requires LifeInv(c, peak, s, serial, m.serial)
    requires (exists i :: 0 <= i < |s.tx| && s.tx[i] == m) || (exists i :: 0 <= i < |s.normal| && s.normal[i] == m)
    ensures Remaining(c, peak, s.log, m) >= 0
  {
    hide Number, Origin, LogOk, CountOk, FlightOk, Tries;
    assert QueuedOk(c, peak, s.log, m);
  }

  lemma FlightRemaining(c: Config, peak: int, s: Store, serial: nat)
    requires s.inFlight.Some? && LifeInv(c, peak, s, serial, s.inFlight.value.serial)
    ensures Remaining(c, peak, s.log, s.inFlight.value) >= 0
  {
    hide Number, Origin, LogOk, QueueOk, Tries;
  }

  lemma {:induction false} SumNonNegative(c: Config, peak: int, log: seq<Entry>, q: seq<Msg>)
    requires forall i :: 0 <= i < |q| ==> Remaining(c, peak, log, q[i]) >= 0
    ensures Sum(c, peak, log, q) >= 0
  {
    hide Remaining;
    if q != [] {
      assert forall i :: 0 <= i < |q[1..]| ==> q[1..][i] == q[i + 1];
      SumNonNegative(c, peak, log, q[1..]);
    }
  }

  lemma TotalNonNegative(c: Config, peak: int, s: Store, serial: nat)
    requires Alive(c, peak, s, serial)
    ensures Total(c, peak, s) >= 0
  {
    hide LifeInv, Remaining;
    forall i | 0 <= i < |s.tx| ensures Remaining(c, peak, s.log, s.tx[i]) >= 0 { QueuedRemaining(c, peak, s, serial, s.tx[i]); }
    forall i | 0 <= i < |s.normal| ensures Remaining(c, peak, s.log, s.normal[i]) >= 0 {
      QueuedRemaining(c, peak, s, serial, s.normal[i]);
    }
    SumNonNegative(c, peak, s.log, s.tx);
    SumNonNegative(c, peak, s.log, s.normal);
    if s.inFlight.Some? {
      FlightRemaining(c, peak, s, serial);
    }
  }

  // ---------------------------------------------------------------- steps

  lemma DropFrontTotal(c: Config, peak: int, s: Store, serial: nat)
    requires Alive(c, peak, s, serial) && s.normal != []
    ensures Total(c, peak, DropFront(c, s)) <= Total(c, peak, s)
  {
    hide LifeInv, Remaining;
    QueuedRemaining(c, peak, s, serial, s.normal[0]);
    TotalLog(c, peak, DropFront(c, s).(log := s.log), Overflowed(s.normal[0]));
  }

  lemma DropUpdateTotal(c: Config, peak: int, s: Store, i: nat, serial: nat)
    requires Alive(c, peak, s, serial) && i < |s.tx|
    ensures Total(c, peak, DropUpdate(s, i)) <= Total(c, peak, s)
  {
    hide LifeInv, Remaining;
    QueuedRemaining(c, peak, s, serial, s.tx[i]);
    SumSplit(c, peak, s.log, s.tx, i);
    TotalLog(c, peak, DropUpdate(s, i).(log := s.log), Overflowed(s.tx[i]));
  }

  lemma OverflowTotal(c: Config, peak: int, s: Store, serial: nat)
    requires Alive(c, peak, s, serial) && TransactionOrder.NoTx(c.protocol, s.normal)
    ensures Total(c, peak, CheckQueueSizes(c, s)) <= Total(c, peak, s)
  {
    hide LifeInv, TransactionOrder.NoTx, Total;
    var P := (t: Store) => Alive(c, peak, t, serial) && TransactionOrder.NoTx(c.protocol, t.normal) && Total(c, peak, t) <= Total(c, peak, s);
    forall t: Store | P(t) && t.normal != [] ensures P(DropFront(c, t)) {
      DropFrontTotal(c, peak, t, serial);
      forall n: nat ensures LifeInv(c, peak, DropFront(c, t), serial, n) { DropFrontLife(c, peak, t, serial, n); }
      DropFrontLife(c, peak, t, serial, 0);
    }
    forall t: Store, i: nat | P(t) && i < |t.tx| && Droppable(c, t, i) ensures P(DropUpdate(t, i)) {
      DropUpdateTotal(c, peak, t, i, serial);
      forall n: nat ensures LifeInv(c, peak, DropUpdate(t, i), serial, n) { DropUpdateLife(c, peak, t, i, serial, n); }
    }
    OverflowKeeps(P, c, s);
  }

  /** What one accepted message may cost in all. */
  function Grant(c: Config, peak: int, a: Action): int {
    if Cap(c, peak, a) == -1 then 0 else Cap(c, peak, a)
  }

  /** A message just accepted may cost all that its kind may. */
  lemma NewRemaining(c: Config, peak: int, s: Store, m: Msg, serial: nat)
    requires LifeInv(c, peak, s, serial, serial) && Balance(s, serial, serial) && m.serial == serial
    ensures Remaining(c, peak, s.log + [Accepted(m)], m) == Grant(c, peak, m.call.action)
  {
    Unknown(c, peak, s, serial);
    hide LifeInv, Balance, Number, Cap;
    LogAdd(s.log, Accepted(m), Delivers, serial);
  }

  lemma InsertedTotal(c: Config, peak: int, s: Store, m: Msg, serial: nat)
    requires LifeInv(c, peak, s, serial, serial) && Balance(s, serial, serial) && m.serial == serial
    ensures var t := if IsTx(c.protocol, m) then InsertTx(s, m) else InsertNormal(c, s, m);
      Total(c, peak, t) == Total(c, peak, s) + Grant(c, peak, m.call.action)
  {
    hide LifeInv, Balance, Remaining, Grant, Sum, CheckQueue;
    NewRemaining(c, peak, s, m, serial);
    TotalLog(c, peak, s, Accepted(m));
    var log := s.log + [Accepted(m)];
    if IsTx(c.protocol, m) {
      SumPlus(c, peak, log, s.tx, m);
    } else {
      SumPlus(c, peak, log, s.normal, m);
    }
  }

  lemma InsertTotal(c: Config, peak: int, s: Store, m: Msg, serial: nat)
    requires Alive(c, peak, s, serial) && (forall n: nat :: Balance(s, serial, n)) && TransactionOrder.NoTx(c.protocol, s.normal)
    requires m.serial == serial && m.attempts == 0
    ensures Total(c, peak, Insert(c, s, m)) <= Total(c, peak, s) + Grant(c, peak, m.call.action)
  {
    var t := if IsTx(c.protocol, m) then InsertTx(s, m) else InsertNormal(c, s, m);
    assert TransactionOrder.NoTx(c.protocol, t.normal);
    hide LifeInv, Balance, Total, TransactionOrder.NoTx;
    InsertedTotal(c, peak, s, m, serial);
    var next := serial + 1;
    forall n: nat ensures LifeInv(c, peak, t, next, n) {
      assert Balance(s, serial, n) && LifeInv(c, peak, s, serial, n);
      if n == serial { NewLife(c, peak, s, m, serial); } else { OldLife(c, peak, s, m, serial, n); }
    }
    OverflowTotal(c, peak, t, serial + 1);
  }

  lemma DeliveredTotal(c: Config, peak: int, s: Store, sel: Selection, m: Msg, serial: nat)
    requires LifeInv(c, peak, s, serial, m.serial) && Balance(s, serial, m.serial)
    requires Selectable(s, sel) && SameKind(m, Pick(s, sel)) && s.inFlight.None?
    ensures Total(c, peak, Delivered(s, sel, m)) ==
      Total(c, peak, s) - (if Cap(c, peak, m.call.action) == -1 then 0 else 1)
  {
    PickedAlone(c, peak, s, sel, serial, m.serial);
    hide LifeInv, Balance, Number, Sum, Tally, QueuedOk;
    var e := Sent(m, true);
    LogAdd(s.log, e, Delivers, m.serial);
    if sel.FromTx? {
      SumSplit(c, peak, s.log, s.tx, 0);
      assert RemoveAt(s.tx, 0) == s.tx[1..];
      SumLog(c, peak, s.log, e, s.tx[1..]);
      SumLog(c, peak, s.log, e, s.normal);
    } else {
      SumSplit(c, peak, s.log, s.normal, sel.index);
      SumLog(c, peak, s.log, e, s.tx);
      SumLog(c, peak, s.log, e, RemoveAt(s.normal, sel.index));
    }
  }

  lemma BouncedTotal(c: Config, peak: int, s: Store, sel: Selection, m: Msg, serial: nat)
    requires Alive(c, peak, s, serial) && Selectable(s, sel) && SameKind(m, Pick(s, sel)) && s.inFlight.None?
    ensures Total(c, peak, Undelivered(c, s, sel, m)) <= Total(c, peak, s)
  {
    hide LifeInv, Remaining;
    var kept := if IsTx(c.protocol, m) then MarkOffline(m) else m;
    if sel.FromTx? {
      SumReplace(c, peak, s.log, s.tx, 0, kept);
      TotalLog(c, peak, s.(tx := s.tx[0 := kept]), Sent(m, false));
    } else if Persistent(c, m) {
      SumReplace(c, peak, s.log, s.normal, sel.index, kept);
      TotalLog(c, peak, s.(normal := s.normal[sel.index := kept]), Sent(m, false));
    } else {
      RefusedTotal(c, peak, s, sel, m, serial);
    }
  }

  lemma RefusedTotal(c: Config, peak: int, s: Store, sel: Selection, m: Msg, serial: nat)
    requires Alive(c, peak, s, serial) && sel.FromNormal? && Selectable(s, sel) && SameKind(m, Pick(s, sel)) && !Persistent(c, m)
    ensures Total(c, peak, Undelivered(c, s, sel, m)) <= Total(c, peak, s)
  {
    var q := s.normal[sel.index := m];
    QueuedRemaining(c, peak, s, serial, s.normal[0]);
    assert SameKind(q[0], s.normal[0]);
    assert Remaining(c, peak, s.log, q[0]) >= 0;
    hide LifeInv, Remaining;
    SumReplace(c, peak, s.log, s.normal, sel.index, m);
    var t := s.(normal := q[1..]);
    TotalLog(c, peak, t, Sent(m, false));
    TotalLog(c, peak, t.(log := s.log + [Sent(m, false)]), Refused(m));
    TotalLog(c, peak, t.(log := s.log + [Sent(m, false)] + [Refused(m)]), Popped(q[0]));
    assert Undelivered(c, s, sel, m).log == s.log + [Sent(m, false)] + [Refused(m)] + [Popped(q[0])];
  }

  lemma ResolveTotal(c: Config, peak: int, s: Store, e: Entry, serial: nat)
    requires Alive(c, peak, s, serial) && s.inFlight.Some? && NoDelivery(e)
    ensures Total(c, peak, Resolve(c, s, e)) <= Total(c, peak, s)
  {
    FlightRemaining(c, peak, s, serial);
    hide LifeInv, Remaining, Number;
    TotalLog(c, peak, s.(inFlight := None), e);
  }

  lemma FailTotal(c: Config, peak: int, s: Store, now: Instant, newId: MessageId, serial: nat)
    requires Alive(c, peak, s, serial) && s.inFlight.Some?
    ensures Total(c, peak, Fail(c, s, now, newId)) <= Total(c, peak, s)
  {
    var m := s.inFlight.value;
    if Retries(c, m) {
      var r := Renewed(c, m, now, newId);
      assert Remaining(c, peak, s.log, r) == Remaining(c, peak, s.log, m);
      hide LifeInv, Remaining, Number;
      SumPlus(c, peak, s.log, s.tx, r);
      SumPlus(c, peak, s.log, s.normal, r);
      TotalLog(c, peak, Retry(c, s, now, newId).(log := s.log), Retried(m, newId));
    } else {
      ResolveTotal(c, peak, s, if Persistent(c, m) then GivenUp(m, c.attempts) else Expired(m), serial);
    }
  }

  lemma {:induction false} SubstituteSum(c: Config, peak: int, log: seq<Entry>, q: seq<Msg>, ids: seq<MessageId>, t: int)
    ensures Sum(c, peak, log, SubstituteAll(q, ids, t)) == Sum(c, peak, log, q)
  {
    if q != [] {
      SubstituteSum(c, peak, log, q[1..], ids, t);
      assert SubstituteAll(q, ids, t)[1..] == SubstituteAll(q[1..], ids, t);
    }
  }

  // ---------------------------------------------------------------- a raised limit and a restart

  /** d for every message that is kept. */
  function Extra(c: Config, d: int, q: seq<Msg>): int {
    if q == [] then 0 else (if Keeps(c, q[0].call.action) then d else 0) + Extra(c, d, q[1..])
  }

  /** What the messages may cost in all when none has been delivered. */
  function GrantSum(c: Config, peak: int, q: seq<Msg>): int {
    if q == [] then 0 else Grant(c, peak, q[0].call.action) + GrantSum(c, peak, q[1..])
  }

  lemma {:induction false} RaisedSum(c: Config, c': Config, peak: int, peak': int, log: seq<Entry>, q: seq<Msg>)
    requires c' == c.(attempts := c'.attempts, retryInterval := c'.retryInterval)
    ensures Sum(c', peak', log, q) == Sum(c, peak, log, q) + Extra(c, Max(1, peak') - Max(1, peak), q)
  {
    hide Number;
    if q != [] {
      RaisedSum(c, c', peak, peak', log, q[1..]);
    }
  }

  lemma {:induction false} NothingExtra(c: Config, q: seq<Msg>)
    ensures Extra(c, 0, q) == 0
  {
    if q != [] {
      NothingExtra(c, q[1..]);
    }
  }

  lemma {:induction false} FreshSum(c: Config, peak: int, log: seq<Entry>, q: seq<Msg>)
    requires forall i :: 0 <= i < |q| ==> Number(log, Delivers, q[i].serial) == 0
    ensures Sum(c, peak, log, q) == GrantSum(c, peak, q)
  {
    hide Number;
    if q != [] {
      assert forall i :: 0 <= i < |q[1..]| ==> q[1..][i] == q[i + 1];
      FreshSum(c, peak, log, q[1..]);
    }
  }

  lemma BootTotal(c: Config, txTable: seq<Row>, normalTable: seq<Row>, ign: bool)
    ensures Total(c, c.attempts, BootStore(c, txTable, normalTable, ign)) ==
      GrantSum(c, c.attempts, Load(txTable, ign)) + GrantSum(c, c.attempts, Load(normalTable, ign))
  {
    var b := BootStore(c, txTable, normalTable, ign);
    assert b.log[..|b.normal + b.tx|] == b.log;
    hide Sum, Number, Load, Purge;
    forall n: nat ensures Number(b.log, Delivers, n) == 0 {
      AcceptAllNumber(b.normal, b.tx, |b.normal + b.tx|, Delivers, n);
    }
    FreshSum(c, c.attempts, b.log, b.tx);
    FreshSum(c, c.attempts, b.log, b.normal);
  }

  // ---------------------------------------------------------------- runs

  function Budget(s: State): int {
    Total(s.config, s.peak, s.store)
  }

  /** 1 if the step hands a bounded message to the transport, which takes it. */
  function Handover(s: State, e: Event): int {
    if e.Worker? && e.ok && Attempts(s, e.now) && Cap(s.config, s.peak, Pick(s.store, Choice(s, e.now)).call.action) != -1
    then 1 else 0
  }

  function FlightQueue(s: Store): seq<Msg> {
    if s.inFlight.Some? then [s.inFlight.value] else []
  }

  /** What a push, a raised limit or a restart adds. A raised limit allows every unresolved message that is
      kept as many more attempts; a restart lets every message it reads back start anew. */
  function Granted(s: State, e: Event): int {
    match e
    case PushCall(call, _, _) => if Takes(s, call.action) then Grant(s.config, s.peak, call.action) else 0
    case PushCallAsync(call, _) => if Takes(s, call.action) then Grant(s.config, s.peak, call.action) else 0
    case SetAttempts(n) =>
      var d := Max(1, Max(s.peak, n)) - Max(1, s.peak);
      Extra(s.config, d, FlightQueue(s.store)) + Extra(s.config, d, s.store.tx) + Extra(s.config, d, s.store.normal)
    case Crash(config, ign) =>
      GrantSum(config, config.attempts, Load(s.store.txTable, ign)) + GrantSum(config, config.attempts, Load(s.store.normalTable, ign))
    case _ => 0
  }

  ghost predicate AllSound(s: State) {
    forall n: nat :: Sound(s, n)
  }

  lemma SoundParts(s: State)
    requires AllSound(s)
    ensures Alive(s.config, s.peak, s.store, s.serial)
    ensures forall n: nat :: Balance(s.store, s.serial, n)
    ensures TransactionOrder.NoTx(s.config.protocol, s.store.normal)
  {
    hide LifeInv, Balance, TransactionOrder.NoTx, TransactionOrder.Tracked, TransactionOrder.NormalRows;
    assert Sound(s, 0);
    forall n: nat ensures LifeInv(s.config, s.peak, s.store, s.serial, n) && Balance(s.store, s.serial, n) {
      assert Sound(s, n);
    }
  }

  lemma RaisedTotal(c: Config, c': Config, peak: int, peak': int, s: Store)
    requires c' == c.(attempts := c'.attempts, retryInterval := c'.retryInterval)
    ensures var d := Max(1, peak') - Max(1, peak);
      Total(c', peak', s) == Total(c, peak, s) + Extra(c, d, FlightQueue(s)) + Extra(c, d, s.tx) + Extra(c, d, s.normal)
  {
    hide Number;
    RaisedSum(c, c', peak, peak', s.log, FlightQueue(s));
    assert FlightSum(c, peak, s) == Sum(c, peak, s.log, FlightQueue(s));
    assert FlightSum(c', peak', s) == Sum(c', peak', s.log, FlightQueue(s));
    RaisedSum(c, c', peak, peak', s.log, s.tx);
    RaisedSum(c, c', peak, peak', s.log, s.normal);
  }

  lemma QuietBudget(s: State, e: Event)
    requires Enabled(s, e) && Quiet(e)
    ensures Budget(Next(s, e)) == Budget(s) + Granted(s, e)
  {
    QuietStep(s, e);
    var t := Next(s, e);
    assert t.peak == if e.SetAttempts? then Max(s.peak, e.attempts) else s.peak;
    assert e.SetAttempts? ==> t.store == s.store;
    hide Next, Total, Number, Extra;
    if t.store != s.store {
      var x :| IsNote(x) && t.store == s.store.(log := s.store.log + [x]);
      TotalLog(s.config, s.peak, s.store, x);
    }
    RaisedTotal(s.config, t.config, s.peak, t.peak, t.store);
    if !e.SetAttempts? {
      NothingExtra(s.config, FlightQueue(t.store));
      NothingExtra(s.config, t.store.tx);
      NothingExtra(s.config, t.store.normal);
    }
  }

  lemma WorkerBudget(s: State, now: Instant, ok: bool)
    requires AllSound(s)
    ensures Budget(WorkerPass(s, now, ok)) + Handover(s, Worker(now, ok)) <= Budget(s)
  {
    SoundParts(s);
    if Attempts(s, now) {
      var sel := Choice(s, now);
      var m := Prepare(s.control.stopIds, Pick(s.store, sel));
      hide LifeInv, Balance, Delivered, Undelivered, Total, Sound;
      assert LifeInv(s.config, s.peak, s.store, s.serial, m.serial) && Balance(s.store, s.serial, m.serial);
      if ok {
        DeliveredTotal(s.config, s.peak, s.store, sel, m, s.serial);
      } else {
        BouncedTotal(s.config, s.peak, s.store, sel, m, s.serial);
      }
    }
  }

  lemma ReplyBudget(s: State, e: Event)
    requires AllSound(s) && Enabled(s, e) && (e.ReceiveResult? || e.ReceiveError?)
    ensures Budget(Next(s, e)) <= Budget(s)
  {
    var t := ClearGate(s, e.id);
    TotalLog(s.config, s.peak, s.store, ReplyReceived(e.id));
    SoundParts(s);
    forall n: nat ensures LifeInv(s.config, s.peak, t.store, s.serial, n) {
      assert LifeInv(s.config, s.peak, s.store, s.serial, n);
      hide LifeInv;
      PlainKeeps(s.config, s.peak, s.store, ReplyReceived(e.id), s.serial, n);
    }
    hide LifeInv, Sound, Balance, Total;
    if Matches(s, e.id) {
      if e.ReceiveResult? {
        ResolveTotal(s.config, s.peak, t.store, Answered(s.store.inFlight.value), s.serial);
      } else {
        FailTotal(s.config, s.peak, t.store, e.now, e.newId, s.serial);
      }
    }
  }

  lemma PushBudget(s: State, m: Msg)
    requires AllSound(s) && m.serial == s.serial && m.attempts == 0
    ensures Budget(Accept(s, m)) <= Budget(s) + Grant(s.config, s.peak, m.call.action)
    ensures Budget(Reject(s, m)) == Budget(s)
  {
    SoundParts(s);
    hide LifeInv, Balance, Total, Insert, Sound;
    InsertTotal(s.config, s.peak, s.store, m, s.serial);
    TotalLog(s.config, s.peak, s.store, Offline(m));
  }

  lemma NextBudget(s: State, e: Event)
    requires AllSound(s) && Enabled(s, e)
    ensures Budget(Next(s, e)) + Handover(s, e) <= Budget(s) + Granted(s, e)
  {
    if Quiet(e) {
      QuietBudget(s, e);
    } else if e.ReceiveResult? || e.ReceiveError? {
      ReplyBudget(s, e);
    } else {
      SoundParts(s);
      hide LifeInv, Balance, Sound, Total, Accept, Reject, WorkerPass, Fail, BootStore;
      match e
      case PushCall(call, stall, now) => PushBudget(s, NewMsg(s.serial, call, stall, now));
      case PushCallAsync(call, now) => PushBudget(s, NewMsg(s.serial, call, false, now));
      case Timeout(now, newId) => FailTotal(s.config, s.peak, s.store, now, newId, s.serial);
      case Worker(now, ok) => WorkerBudget(s, now, ok);
      case StartHandled(start, t) => StartHandledBudget(s, start, t);
      case Crash(config, ign) =>
        BootTotal(config, s.store.txTable, s.store.normalTable, ign);
        TotalNonNegative(s.config, s.peak, s.store, s.serial);
    }
  }

  lemma StartHandledBudget(s: State, start: MessageId, t: int)
    ensures Budget(HandleStart(s, start, t)) == Budget(s)
  {
    if start in s.control.meterIds {
      SubstituteSum(s.config, s.peak, s.store.log, s.store.tx, s.control.meterIds[start], t);
    }
  }

  /** The handovers and the grants of a run. */
  function Handovers(s: State, events: seq<Event>): int
    requires Legal(s, events)
    decreases |events|
  {
    if events == [] then 0 else Handover(s, events[0]) + Handovers(Next(s, events[0]), events[1..])
  }

  function Grants(s: State, events: seq<Event>): int
    requires Legal(s, events)
    decreases |events|
  {
    if events == [] then 0 else Granted(s, events[0]) + Grants(Next(s, events[0]), events[1..])
  }

  lemma NextAllSound(s: State, e: Event)
    requires AllSound(s) && Enabled(s, e)
    ensures AllSound(Next(s, e))
  {
    hide Sound, Next, Enabled;
    forall n: nat ensures Sound(Next(s, e), n) { assert Sound(s, n); NextSound(s, e, n); }
  }

  lemma {:induction false} RunBudget(s: State, events: seq<Event>)
    requires AllSound(s) && Legal(s, events)
    ensures Handovers(s, events) + Budget(Run(s, events)) <= Budget(s) + Grants(s, events)
    ensures Budget(Run(s, events)) >= 0
    decreases |events|
  {
    hide AllSound, Next, Enabled, Budget, Handover, Granted;
    if events != [] {
      NextAllSound(s, events[0]);
      NextBudget(s, events[0]);
      RunBudget(Next(s, events[0]), events[1..]);
    } else {
      BudgetNonNegative(s);
    }
  }

  lemma BudgetNonNegative(s: State)
    requires AllSound(s)
    ensures Budget(s) >= 0
  {
    hide Sound, LifeInv, Total;
    SoundParts(s);
    TotalNonNegative(s.config, s.peak, s.store, s.serial);
  }

  /** From any reachable state on: the handovers of bounded messages never exceed
      the budget of that state plus what later pushes, raised limits and
      restarts grant; so without those there are only finitely many, and each one
      lowers the budget. */
  lemma HandoversBounded(config: Config, before: seq<Event>, after: seq<Event>)
    requires Legal(Initial(config), before) && Legal(Reached(config, before), after)
    ensures Handovers(Reached(config, before), after) <= Budget(Reached(config, before)) + Grants(Reached(config, before), after)
  {
    hide Sound, Next, Enabled, Budget, Run, Initial, Handovers, Grants;
    forall n: nat ensures Sound(Reached(config, before), n) { ReachedSound(config, before, n); }
    RunBudget(Reached(config, before), after);
  }
}
