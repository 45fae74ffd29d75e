/** When promises are set. */
module Promises {
  import opened Messages
  import opened QueueSpec
  import opened Overflow
  import opened Ledger
  import opened Delivery
  import TransactionOrder

  // They are set at most once, and unset while the message is unresolved, exactly as long as no failed send
  // removes a message other than its own.

  /** The promise of message n is set at most once, and not while n is unresolved. */
  predicate PromiseAt(s: Store, serial: nat, n: nat) {
    Number(s.log, Promises, n) + Pending(s, Serial(n)) <= 1 && (n >= serial ==> Number(s.log, Promises, n) == 0)
  }

  ghost predicate Unset(s: State) {
    forall n: nat :: PromiseAt(s.store, s.serial, n)
  }

  /** The front of the normal queue may not be sent yet. */
  predicate FrontBlocked(s: State, now: Instant) {
    s.store.normal != [] && !Allowed(s.store.normal[0], now, s.control.registered)
  }

  /** The transport refuses a normal message that is not kept, while the front of its queue is blocked. */
  predicate Misfires(s: State, e: Event) {
    e.Worker? && !e.ok && Attempts(s, e.now) && Choice(s, e.now).FromNormal? &&
    !Persistent(s.config, Pick(s.store, Choice(s, e.now))) && FrontBlocked(s, e.now)
  }

  lemma OverflowPromise(c: Config, s: Store, serial: nat, n: nat)
    requires PromiseAt(s, serial, n)
    ensures PromiseAt(CheckQueueSizes(c, s), serial, n)
  {
    hide Number;
    var P := (t: Store) => PromiseAt(t, serial, n);
    forall t: Store | P(t) && t.normal != [] ensures P(DropFront(c, t)) {
      LogAdd(t.log, Overflowed(t.normal[0]), Promises, n);
    }
    forall t: Store, i: nat | P(t) && i < |t.tx| && Droppable(c, t, i) ensures P(DropUpdate(t, i)) {
      LogAdd(t.log, Overflowed(t.tx[i]), Promises, n);
      TallySplit(t.tx, i, Serial(n));
    }
    OverflowKeeps(P, c, s);
  }

  lemma InsertPromise(c: Config, s: Store, m: Msg, serial: nat, n: nat)
    requires PromiseAt(s, serial, n) && Balance(s, serial, n) && m.serial == serial
    ensures PromiseAt(Insert(c, s, m), serial + 1, n)
  {
    LogAdd(s.log, Accepted(m), Promises, n);
    TallyBack(s.tx, m, Serial(n));
    TallyBack(s.normal, m, Serial(n));
    var t := if IsTx(c.protocol, m) then InsertTx(s, m) else InsertNormal(c, s, m);
    assert PromiseAt(t, serial + 1, n);
    OverflowPromise(c, t, serial + 1, n);
  }

  lemma DeliveredPromise(s: Store, sel: Selection, m: Msg, serial: nat, n: nat)
    requires PromiseAt(s, serial, n) && Picked(s, sel, m) && s.inFlight.None?
    ensures PromiseAt(Delivered(s, sel, m), serial, n)
  {
    LogAdd(s.log, Sent(m, true), Promises, n);
    if sel.FromNormal? {
      TallySplit(s.normal, sel.index, Serial(n));
    }
  }

  lemma UndeliveredPromises(c: Config, s: Store, sel: Selection, m: Msg, n: nat)
    requires Selectable(s, sel)
    ensures Number(Undelivered(c, s, sel, m).log, Promises, n) ==
      Number(s.log, Promises, n) + (if sel.FromTx? || Persistent(c, m) then 0 else One(m, Serial(n)))
  {
    hide Number, Persistent;
    var l := s.log + [Sent(m, false)];
    LogAdd(s.log, Sent(m, false), Promises, n);
    if !(sel.FromTx? || Persistent(c, m)) {
      var q := s.normal[sel.index := m];
      LogAdd(l, Refused(m), Promises, n);
      LogAdd(l + [Refused(m)], Popped(q[0]), Promises, n);
      assert Undelivered(c, s, sel, m).log == l + [Refused(m)] + [Popped(q[0])];
    }
  }

  lemma UndeliveredPromise(c: Config, s: Store, sel: Selection, m: Msg, serial: nat, n: nat)
    requires PromiseAt(s, serial, n) && Balance(s, serial, n) && Picked(s, sel, m)
    requires sel.FromNormal? && !Persistent(c, m) ==> sel.index == 0
    ensures PromiseAt(Undelivered(c, s, sel, m), serial, n)
  {
    UndeliveredPromises(c, s, sel, m, n);
    UndeliveredPending(c, s, sel, m, Serial(n));
    if sel.FromNormal? && m.serial == n {
      TallySplit(s.normal, sel.index, Serial(n));
    }
    hide Undelivered, Number, Persistent, Tally;
  }

  /** The selected message keeps its place although its promise has been set. */
  lemma MisfirePromise(c: Config, s: Store, sel: Selection, m: Msg, serial: nat)
    requires Picked(s, sel, m) && sel.FromNormal? && !Persistent(c, m) && sel.index > 0
    ensures !PromiseAt(Undelivered(c, s, sel, m), serial, m.serial)
  {
    UndeliveredPromises(c, s, sel, m, m.serial);
    var q := Undelivered(c, s, sel, m).normal;
    assert q[sel.index - 1] == m;
    TallySplit(q, sel.index - 1, Serial(m.serial));
    hide Number;
  }

  lemma ResolvePromise(c: Config, s: Store, e: Entry, serial: nat, n: nat)
    requires PromiseAt(s, serial, n) && Balance(s, serial, n) && s.inFlight.Some?
    requires (e.Answered? || e.GivenUp? || e.Expired?) && e.m == s.inFlight.value
    ensures PromiseAt(Resolve(c, s, e), serial, n)
  {
    LogAdd(s.log, e, Promises, n);
  }

  lemma FailPromise(c: Config, s: Store, now: Instant, newId: MessageId, serial: nat, n: nat)
    requires PromiseAt(s, serial, n) && Balance(s, serial, n) && s.inFlight.Some?
    ensures PromiseAt(Fail(c, s, now, newId), serial, n)
  {
    var m := s.inFlight.value;
    if Retries(c, m) {
      var r := Renewed(c, m, now, newId);
      LogAdd(s.log, Retried(m, newId), Promises, n);
      TallyBack(s.tx, r, Serial(n));
      TallyBack(s.normal, r, Serial(n));
    } else {
      ResolvePromise(c, s, if Persistent(c, m) then GivenUp(m, c.attempts) else Expired(m), serial, n);
    }
  }

  lemma NotePromise(s: Store, e: Entry, serial: nat, n: nat)
    requires PromiseAt(s, serial, n) && !SetsPromise(e)
    ensures PromiseAt(s.(log := s.log + [e]), serial, n)
  {
    LogAdd(s.log, e, Promises, n);
  }

  lemma RejectPromise(s: State, m: Msg, n: nat)
    requires PromiseAt(s.store, s.serial, n) && Balance(s.store, s.serial, n) && m.serial == s.serial
    ensures PromiseAt(Reject(s, m).store, s.serial + 1, n)
  {
    LogAdd(s.store.log, Offline(m), Promises, n);
  }

  predicate PromiseStep(s: State, n: nat) {
    PromiseAt(s.store, s.serial, n)
  }

  lemma QuietPromise(s: State, e: Event, n: nat)
    requires PromiseStep(s, n) && Enabled(s, e) && Quiet(e)
    ensures PromiseStep(Next(s, e), n)
  {
    QuietStep(s, e);
    var t := Next(s, e);
    hide Next, PromiseAt;
    if t.store != s.store {
      var x :| IsNote(x) && t.store == s.store.(log := s.store.log + [x]);
      NotePromise(s.store, x, s.serial, n);
    }
  }

  lemma ReplyPromise(s: State, e: Event, n: nat)
    requires PromiseStep(s, n) && Balance(s.store, s.serial, n) && Enabled(s, e) && (e.ReceiveResult? || e.ReceiveError?)
    ensures PromiseStep(Next(s, e), n)
  {
    var t := ClearGate(s, e.id);
    NotePromise(s.store, ReplyReceived(e.id), s.serial, n);
    AddEntry(s.store.log, ReplyReceived(e.id), n, 0);
    assert Balance(t.store, s.serial, n);
    hide PromiseAt, Balance;
    if Matches(s, e.id) {
      if e.ReceiveResult? {
        ResolvePromise(s.config, t.store, Answered(s.store.inFlight.value), s.serial, n);
      } else {
        FailPromise(s.config, t.store, e.now, e.newId, s.serial, n);
      }
    }
  }

  lemma WorkerPromise(s: State, now: Instant, ok: bool, n: nat)
    requires PromiseStep(s, n) && Balance(s.store, s.serial, n) && !Misfires(s, Worker(now, ok))
    ensures PromiseStep(WorkerPass(s, now, ok), n)
  {
    if Attempts(s, now) {
      var sel := Choice(s, now);
      var m := Prepare(s.control.stopIds, Pick(s.store, sel));
      hide PromiseAt, Balance, Delivered, Undelivered;
      if ok {
        DeliveredPromise(s.store, sel, m, s.serial, n);
      } else {
        UndeliveredPromise(s.config, s.store, sel, m, s.serial, n);
      }
    }
  }

  lemma PushPromise(s: State, call: Call, stall: bool, now: Instant, n: nat)
    requires PromiseStep(s, n) && Balance(s.store, s.serial, n)
    ensures PromiseStep(Push(s, call, stall, now), n) && PromiseStep(PushAsync(s, call, now), n)
  {
    var m, r := NewMsg(s.serial, call, stall, now), NewMsg(s.serial, call, false, now);
    InsertPromise(s.config, s.store, m, s.serial, n);
    InsertPromise(s.config, s.store, r, s.serial, n);
    RejectPromise(s, r, n);
    hide PromiseAt, Insert, Balance;
  }

  /** A step that does not misfire keeps every promise right. */
  lemma NextPromise(s: State, e: Event, n: nat)
    requires PromiseStep(s, n) && Sound(s, n) && Enabled(s, e) && !Misfires(s, e)
    ensures PromiseStep(Next(s, e), n)
  {
    if Quiet(e) {
      QuietPromise(s, e, n);
    } else if e.ReceiveResult? || e.ReceiveError? {
      ReplyPromise(s, e, n);
    } else {
      hide PromiseAt, Balance, TransactionOrder.TxInv, LifeOk, Push, PushAsync, WorkerPass, Fail, BootStore, Misfires;
      match e
      case PushCall(call, stall, now) => PushPromise(s, call, stall, now, n);
      case PushCallAsync(call, now) => PushPromise(s, call, false, now, n);
      case Timeout(now, newId) => FailPromise(s.config, s.store, now, newId, s.serial, n);
      case Worker(now, ok) => WorkerPromise(s, now, ok, n);
      case StartHandled(start, t) => StartHandledPromise(s, start, t, n);
      case Crash(config, ign) => BootPromise(config, s.store, s.serial, s.used, ign, n);
    }
  }

  lemma StartHandledPromise(s: State, start: MessageId, t: int, n: nat)
    requires PromiseStep(s, n)
    ensures PromiseStep(HandleStart(s, start, t), n)
  {
    if start in s.control.meterIds {
      SubstituteTally(s.store.tx, s.control.meterIds[start], t, Serial(n));
    }
  }

  lemma BootPromise(c: Config, s: Store, serial: nat, used: set<MessageId>, ign: bool, n: nat)
    requires TransactionOrder.TxInv(c.protocol, s, serial, used)
    ensures PromiseAt(BootStore(c, s.txTable, s.normalTable, ign), serial, n)
  {
    hide TransactionOrder.TxInv, Number, Pending, BootStore;
    BootAt(c, s, serial, used, ign, n, 0);
  }

  /** A step that misfires leaves an unresolved message whose promise is set. */
  lemma MisfireBreaks(s: State, e: Event)
    requires Enabled(s, e) && Misfires(s, e)
    ensures exists n: nat :: !PromiseAt(Next(s, e).store, Next(s, e).serial, n)
  {
    var sel := Choice(s, e.now);
    var m := Prepare(s.control.stopIds, Pick(s.store, sel));
    MisfirePromise(s.config, s.store, sel, m, s.serial);
    assert Next(s, e).store == Undelivered(s.config, s.store, sel, m);
    assert !PromiseAt(Next(s, e).store, Next(s, e).serial, m.serial);
  }

  // ---------------------------------------------------------------- every run

  /** No step of the run misfires. */
  predicate Clean(s: State, events: seq<Event>)
    requires Legal(s, events)
    decreases |events|
  {
    events == [] || (!Misfires(s, events[0]) && Clean(Next(s, events[0]), events[1..]))
  }

  /** The promises are right in every state of the run. */
  ghost predicate AlwaysUnset(s: State, events: seq<Event>)
    requires Legal(s, events)
    decreases |events|
  {
    Unset(s) && (events == [] || AlwaysUnset(Next(s, events[0]), events[1..]))
  }

  lemma UnsetStep(s: State, e: Event)
    requires Unset(s) && (forall n: nat :: Sound(s, n)) && Enabled(s, e)
    ensures Unset(Next(s, e)) <==> !Misfires(s, e)
    ensures forall n: nat :: Sound(Next(s, e), n)
  {
    hide PromiseAt, Sound, Next, Enabled, Misfires;
    forall n: nat ensures Sound(Next(s, e), n) { NextSound(s, e, n); }
    if Misfires(s, e) {
      MisfireBreaks(s, e);
    } else {
      forall n: nat ensures PromiseAt(Next(s, e).store, Next(s, e).serial, n) { NextPromise(s, e, n); }
    }
  }

  lemma {:induction false} RunUnset(s: State, events: seq<Event>)
    requires Unset(s) && (forall n: nat :: Sound(s, n)) && Legal(s, events)
    ensures AlwaysUnset(s, events) <==> Clean(s, events)
    decreases |events|
  {
    hide PromiseAt, Sound, Next, Enabled, Misfires;
    if events != [] {
      UnsetStep(s, events[0]);
      if !Misfires(s, events[0]) {
        RunUnset(Next(s, events[0]), events[1..]);
      }
    }
  }

  /** In every run: promises are set at most once and never before their message
      is resolved if, and only if, no failed send meets a blocked front of the
      normal queue. */
  lemma PromisesRight(config: Config, events: seq<Event>)
    requires Legal(Initial(config), events)
    ensures AlwaysUnset(Initial(config), events) <==> Clean(Initial(config), events)
  {
    forall n: nat ensures PromiseAt(Initial(config).store, 0, n) && Sound(Initial(config), n) {
      InitialSound(config, n);
      assert PromiseAt(Initial(config).store, 0, n);
    }
    hide PromiseAt, Sound, Initial;
    RunUnset(Initial(config), events);
  }
}
