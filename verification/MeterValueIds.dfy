/** Which meter values get the transaction id of their start. */
module MeterValueIds {
  import opened Messages
  import opened QueueSpec
  import opened Overflow
  import opened LateTransactionIds
  import TransactionOrder

  // A meter value is registered under the wire id its StartTransaction has at that time. A retry renames
  // the StartTransaction, and its answer is handled under the last of its ids.

  /** The last wire id of the message accepted under serial n. */
  function CurrentId(log: seq<Entry>, n: nat): Option<MessageId> {
    if log == [] then None
    else
      var e, before := log[|log| - 1], log[..|log| - 1];
      if e.Accepted? && e.m.serial == n then Some(e.m.call.id)
      else if e.Retried? && e.m.serial == n then Some(e.newId)
      else CurrentId(before, n)
  }

  /** The ids registered for a start since it was accepted or handled, and those registered since its last
      retry and the last restart. */
  datatype Book = Book(all: set<MessageId>, current: set<MessageId>)

  const BLANK := Book({}, {})

  /** The step sends the message in flight, which is n, back to its queue under a new id. */
  predicate Renames(s: State, e: Event, n: nat) {
    && (e.Timeout? || (e.ReceiveError? && Matches(s, e.id)))
    && s.store.inFlight.Some? && s.store.inFlight.value.serial == n && Retries(s.config, s.store.inFlight.value)
  }

  /** The step accepts the message with serial n. */
  predicate Accepts(s: State, e: Event, n: nat) {
    (e.PushCall? || e.PushCallAsync?) && Takes(s, e.call.action) && s.serial == n
  }

  function Track(b: Book, s: State, e: Event, n: nat): Book {
    match e
    case AddMeterValue(start, meter) =>
      if CurrentId(s.store.log, n) == Some(start) then Book(b.all + {meter}, b.current + {meter}) else b
    case StartHandled(start, _) => if CurrentId(s.store.log, n) == Some(start) then BLANK else b
    case Crash(_, _) => b.(current := {})
    case _ => if Accepts(s, e, n) then BLANK else if Renames(s, e, n) then b.(current := {}) else b
  }

  function TrackRun(b: Book, s: State, events: seq<Event>, n: nat): Book
    requires Legal(s, events)
    decreases |events|
  {
    if events == [] then b else TrackRun(Track(b, s, events[0], n), Next(s, events[0]), events[1..], n)
  }

  /** Meter values are registered under ids that were handed out. */
  predicate Registers(s: State, e: Event) {
    e.AddMeterValue? ==> e.start in s.used
  }

  predicate RegistersRun(s: State, events: seq<Event>)
    requires Legal(s, events)
    decreases |events|
  {
    events == [] || (Registers(s, events[0]) && RegistersRun(Next(s, events[0]), events[1..]))
  }

  // ---------------------------------------------------------------- what a step does to the last id

  predicate IdIs(log: seq<Entry>, n: nat, v: Option<MessageId>) {
    CurrentId(log, n) == v
  }

  lemma IdEntry(log: seq<Entry>, e: Entry, n: nat)
    ensures CurrentId(log + [e], n) ==
      if e.Accepted? && e.m.serial == n then Some(e.m.call.id)
      else if e.Retried? && e.m.serial == n then Some(e.newId)
      else CurrentId(log, n)
  {
    assert (log + [e])[..|log|] == log;
  }

  lemma OverflowId(c: Config, s: Store, n: nat)
    ensures CurrentId(CheckQueueSizes(c, s).log, n) == CurrentId(s.log, n)
  {
    var v := CurrentId(s.log, n);
    var P := (t: Store) => IdIs(t.log, n, v);
    forall t: Store | P(t) && t.normal != [] ensures P(DropFront(c, t)) {
      IdEntry(t.log, Overflowed(t.normal[0]), n);
    }
    forall t: Store, i: nat | P(t) && i < |t.tx| && Droppable(c, t, i) ensures P(DropUpdate(t, i)) {
      IdEntry(t.log, Overflowed(t.tx[i]), n);
    }
    OverflowKeeps(P, c, s);
  }

  lemma InsertId(c: Config, s: Store, m: Msg, n: nat)
    ensures CurrentId(Insert(c, s, m).log, n) == if m.serial == n then Some(m.call.id) else CurrentId(s.log, n)
  {
    IdEntry(s.log, Accepted(m), n);
    OverflowId(c, if IsTx(c.protocol, m) then InsertTx(s, m) else InsertNormal(c, s, m), n);
  }

  lemma TransmitId(c: Config, s: Store, sel: Selection, m: Msg, ok: bool, n: nat)
    requires Selectable(s, sel)
    ensures CurrentId(Transmit(c, s, sel, m, ok).log, n) == CurrentId(s.log, n)
  {
    IdEntry(s.log, Sent(m, ok), n);
    if !ok && !sel.FromTx? && !Persistent(c, m) {
      var l, q := s.log + [Sent(m, false)], s.normal[sel.index := m];
      IdEntry(l, Refused(m), n);
      IdEntry(l + [Refused(m)], Popped(q[0]), n);
      assert Transmit(c, s, sel, m, ok).log == l + [Refused(m)] + [Popped(q[0])];
    }
    hide CurrentId;
  }

  lemma FailId(c: Config, s: Store, now: Instant, newId: MessageId, n: nat)
    requires s.inFlight.Some?
    ensures CurrentId(Fail(c, s, now, newId).log, n) ==
      if s.inFlight.value.serial == n && Retries(c, s.inFlight.value) then Some(newId) else CurrentId(s.log, n)
  {
    var m := s.inFlight.value;
    IdEntry(s.log, Retried(m, newId), n);
    IdEntry(s.log, GivenUp(m, c.attempts), n);
    IdEntry(s.log, Expired(m), n);
  }

  lemma ReplyId(s: State, e: Event, n: nat)
    requires Enabled(s, e) && (e.ReceiveResult? || e.ReceiveError?)
    ensures CurrentId(Next(s, e).store.log, n) == if Renames(s, e, n) then Some(e.newId) else CurrentId(s.store.log, n)
  {
    hide Fail, CurrentId;
    var t := ClearGate(s, e.id).store;
    IdEntry(s.store.log, ReplyReceived(e.id), n);
    if Matches(s, e.id) {
      IdEntry(t.log, Answered(s.store.inFlight.value), n);
      if e.ReceiveError? {
        FailId(s.config, t, e.now, e.newId, n);
      }
    }
  }

  function IdAfter(s: State, e: Event, n: nat): Option<MessageId> {
    if Accepts(s, e, n) then Some(e.call.id)
    else if Renames(s, e, n) then Some(e.newId)
    else CurrentId(s.store.log, n)
  }

  lemma NextId(s: State, e: Event, n: nat)
    requires Enabled(s, e) && !e.Crash?
    ensures CurrentId(Next(s, e).store.log, n) == IdAfter(s, e, n)
  {
    hide Insert, Fail, Transmit, CurrentId;
    var c, st := s.config, s.store;
    if Quiet(e) {
      QuietStep(s, e);
      if Next(s, e).store != st {
        var x :| IsNote(x) && Next(s, e).store == st.(log := st.log + [x]);
        IdEntry(st.log, x, n);
      }
    } else if e.ReceiveResult? || e.ReceiveError? {
      ReplyId(s, e, n);
    } else {
      match e
      case PushCall(call, stall, now) => InsertId(c, st, NewMsg(s.serial, call, stall, now), n);
      case PushCallAsync(call, now) =>
        InsertId(c, st, NewMsg(s.serial, call, false, now), n);
        IdEntry(st.log, Offline(NewMsg(s.serial, call, false, now)), n);
      case Timeout(now, newId) => FailId(c, st, now, newId, n);
      case Worker(now, ok) =>
        if Attempts(s, now) {
          TransmitId(c, st, Choice(s, now), Prepare(s.control.stopIds, Pick(st, Choice(s, now))), ok, n);
        }
      case StartHandled(start, t) =>
    }
  }

  // ---------------------------------------------------------------- the book is right

  predicate KeysUsed(s: State) {
    forall k :: k in s.control.meterIds ==> k in s.used
  }

  ghost predicate Lists(s: State, a: MessageId, ids: set<MessageId>) {
    forall x :: x in ids <==> x in Registered(s, a)
  }

  /** What is registered under the current id is what was registered since the last retry and restart. */
  ghost predicate BookOk(s: State, b: Book, n: nat) {
    && KeysUsed(s)
    && b.current <= b.all
    && match CurrentId(s.store.log, n)
       case None => b.current == {}
       case Some(a) => Lists(s, a, b.current)
  }

  /** What a step does to the registrations. */
  lemma NextRegistered(s: State, e: Event)
    requires Enabled(s, e)
    ensures s.used <= Next(s, e).used
    ensures Next(s, e).control.meterIds ==
      match e
      case AddMeterValue(start, meter) => RegisterMeter(s.control.meterIds, start, meter)
      case StartHandled(start, _) => s.control.meterIds - {start}
      case Crash(_, _) => map[]
      case _ => s.control.meterIds
  {
    hide Insert, Transmit, Fail, BootStore, Choice, RegisterMeter;
  }

  lemma FreshUnregistered(s: State, id: MessageId)
    requires KeysUsed(s) && id !in s.used
    ensures Registered(s, id) == []
  {
  }

  lemma NextBook(s: State, e: Event, b: Book, n: nat)
    requires BookOk(s, b, n) && Enabled(s, e) && !e.Crash? && Registers(s, e)
    ensures BookOk(Next(s, e), Track(b, s, e, n), n)
  {
    NextId(s, e, n);
    NextRegistered(s, e);
    if Accepts(s, e, n) {
      FreshUnregistered(s, e.call.id);
    } else if Renames(s, e, n) {
      FreshUnregistered(s, e.newId);
    }
    hide CurrentId, Next, Enabled, Renames, Takes;
  }

  /** The registrations are not persisted: a restart forgets them. */
  lemma CrashBook(s: State, e: Event, b: Book, n: nat)
    requires Enabled(s, e) && e.Crash?
    ensures BookOk(Next(s, e), Track(b, s, e, n), n)
  {
    hide Load, Purge, CurrentId;
  }

  lemma {:induction false} RunBook(s: State, events: seq<Event>, b: Book, n: nat)
    requires BookOk(s, b, n) && Legal(s, events) && RegistersRun(s, events)
    ensures BookOk(Run(s, events), TrackRun(b, s, events, n), n)
    decreases |events|
  {
    hide BookOk, Next, Enabled, Registers, Track;
    if events != [] {
      var e := events[0];
      if e.Crash? {
        CrashBook(s, e, b, n);
      } else {
        NextBook(s, e, b, n);
      }
      RunBook(Next(s, e), events[1..], Track(b, s, e, n), n);
    }
  }

  /** What was registered for start n, in a run from the first boot on. */
  function BookOf(config: Config, events: seq<Event>, n: nat): Book
    requires Legal(Initial(config), events)
  {
    TrackRun(BLANK, Initial(config), events, n)
  }

  lemma ReachedBook(config: Config, events: seq<Event>, n: nat)
    requires Legal(Initial(config), events) && RegistersRun(Initial(config), events)
    ensures BookOk(Reached(config, events), BookOf(config, events, n), n)
  {
    assert Initial(config).store.log == [];
    RunBook(Initial(config), events, BLANK, n);
  }

  // ---------------------------------------------------------------- the answer is handled

  function WithId(m: Msg, ids: set<MessageId>, transactionId: int): Msg {
    if m.initialId in ids then m.(call := m.call.(transactionId := Some(transactionId))) else m
  }

  /** Every queued message with one of the ids, and no other, gets the transaction id; nothing else changes
      but that the registration is gone. */
  predicate Served(s: State, t: State, start: MessageId, ids: set<MessageId>, transactionId: int) {
    && |t.store.tx| == |s.store.tx|
    && (forall i :: 0 <= i < |s.store.tx| ==> t.store.tx[i] == WithId(s.store.tx[i], ids, transactionId))
    && t == s.(store := s.store.(tx := t.store.tx), control := s.control.(meterIds := s.control.meterIds - {start}))
  }

  /** No queued message was registered before the last retry of its start, or the last restart, only. */
  predicate NoneStranded(q: seq<Msg>, b: Book, transactionId: int) {
    forall i :: 0 <= i < |q| && q[i].call.id == q[i].initialId && q[i].initialId in b.all ==>
      q[i].initialId in b.current || q[i].call.transactionId == Some(transactionId)
  }

  /** A head that was renamed itself is not taken for another message, or missed. */
  predicate HeadKnown(q: seq<Msg>, b: Book, transactionId: int) {
    q != [] && q[0].call.id != q[0].initialId ==>
      (q[0].call.id in b.current <==> q[0].initialId in b.all) || q[0].call.transactionId == Some(transactionId)
  }

  lemma HandledExactly(s: State, b: Book, n: nat, transactionId: int)
    requires BookOk(s, b, n) && CurrentId(s.store.log, n).Some?
    requires forall i :: 1 <= i < |s.store.tx| ==> TransactionOrder.Untried(s.store.tx[i])
    ensures var a := CurrentId(s.store.log, n).value;
      Served(s, HandleStart(s, a, transactionId), a, b.all, transactionId) <==>
      NoneStranded(s.store.tx, b, transactionId) && HeadKnown(s.store.tx, b, transactionId)
  {
    hide CurrentId, KeysUsed;
    var a := CurrentId(s.store.log, n).value;
    var q, t := s.store.tx, HandleStart(s, a, transactionId);
    forall i | 0 <= i < |q| ensures t.store.tx[i] == Substitute(q[i], Registered(s, a), transactionId) {
    }
    hide HandleStart, Registered;
    assert t == s.(store := s.store.(tx := t.store.tx), control := s.control.(meterIds := s.control.meterIds - {a})) by {
      HandleStartShape(s, a, transactionId);
    }
    forall i | 0 <= i < |q|
      ensures t.store.tx[i] == WithId(q[i], b.all, transactionId) <==>
        (q[i].call.id in b.current <==> q[i].initialId in b.all) || q[i].call.transactionId == Some(transactionId)
    {
    }
  }

  lemma HandleStartShape(s: State, start: MessageId, transactionId: int)
    ensures var t := HandleStart(s, start, transactionId);
      |t.store.tx| == |s.store.tx| &&
      t == s.(store := s.store.(tx := t.store.tx), control := s.control.(meterIds := s.control.meterIds - {start}))
  {
  }

  /** In every run, restarts included: when the answer to start n is handled
      under the last of its ids, every queued message that was registered for
      it under any of its ids gets the transaction id, and nothing else changes,
      if and only if no such message was registered before the last retry of the
      start, or the last restart, only, and the head of the queue was not renamed
      out of reach. */
  lemma MeterValuesArrive(config: Config, events: seq<Event>, n: nat, transactionId: int)
    requires Legal(Initial(config), events) && RegistersRun(Initial(config), events)
    requires CurrentId(History(config, events), n).Some?
    ensures var s, b, a := Reached(config, events), BookOf(config, events, n), CurrentId(History(config, events), n).value;
      Served(s, HandleStart(s, a, transactionId), a, b.all, transactionId) <==>
      NoneStranded(s.store.tx, b, transactionId) && HeadKnown(s.store.tx, b, transactionId)
  {
    hide Initial, Run, Legal, RegistersRun, BookOk, Served, CurrentId, NoneStranded, HeadKnown, TransactionOrder.TxOk, BookOf;
    ReachedBook(config, events, n);
    TransactionOrder.ReachedTx(config, events);
    TailOfQueue(Reached(config, events));
    HandledExactly(Reached(config, events), BookOf(config, events, n), n, transactionId);
  }

  // ---------------------------------------------------------------- starts that are not retried too late

  /** The step renames a start that has registrations, or it is a restart. */
  predicate Strands(b: Book, s: State, e: Event, n: nat) {
    (Renames(s, e, n) || e.Crash?) && b.current != {}
  }

  predicate NeverStrands(b: Book, s: State, events: seq<Event>, n: nat)
    requires Legal(s, events)
    decreases |events|
  {
    events == [] ||
    (!Strands(b, s, events[0], n) && NeverStrands(Track(b, s, events[0], n), Next(s, events[0]), events[1..], n))
  }

  lemma {:induction false} NothingStranded(b: Book, s: State, events: seq<Event>, n: nat)
    requires Legal(s, events) && b.all == b.current && NeverStrands(b, s, events, n)
    ensures TrackRun(b, s, events, n).all == TrackRun(b, s, events, n).current
    decreases |events|
  {
    hide Next, Enabled, Renames, CurrentId;
    if events != [] {
      NothingStranded(Track(b, s, events[0], n), Next(s, events[0]), events[1..], n);
    }
  }

  /** So a start that is never retried after a registration, in a queue that is not
      restarted after one, serves all of its meter values, as long as the head of the queue was not renamed. */
  lemma EarlyRetriesDoNoHarm(config: Config, events: seq<Event>, n: nat, transactionId: int)
    requires Legal(Initial(config), events) && RegistersRun(Initial(config), events)
    requires NeverStrands(BLANK, Initial(config), events, n)
    requires CurrentId(History(config, events), n).Some?
    requires var q := Reached(config, events).store.tx; q != [] ==> q[0].call.id == q[0].initialId
    ensures var s, a := Reached(config, events), CurrentId(History(config, events), n).value;
      Served(s, HandleStart(s, a, transactionId), a, BookOf(config, events, n).all, transactionId)
  {
    MeterValuesArrive(config, events, n, transactionId);
    hide Initial, Run, Legal, RegistersRun, Served, CurrentId, NeverStrands, TrackRun;
    NothingStranded(BLANK, Initial(config), events, n);
  }
}
