/** What is known of a message when it is given up. */
module Exhausted {
  import opened Messages
  import opened QueueSpec
  import opened Overflow
  import opened Ledger
  import opened Delivery
  import Guarantees

  /** Whenever message n was given up, its attempts were its deliveries and its
      failed sends, and at least one was a delivery. */
  predicate Accounted(log: seq<Entry>, n: nat) {
    log == [] ||
    (var e, before := log[|log| - 1], log[..|log| - 1];
     Accounted(before, n) &&
     (e.GivenUp? && e.m.serial == n ==> e.m.attempts == Tries(before, n) && Number(before, Delivers, n) >= 1))
  }

  /** Message n, if it is in flight, was delivered. */
  predicate FlightDelivered(s: Store, n: nat) {
    s.inFlight.Some? && s.inFlight.value.serial == n ==> Number(s.log, Delivers, n) >= 1
  }

  predicate Spent(s: Store, n: nat) {
    Accounted(s.log, n) && FlightDelivered(s, n)
  }

  // ---------------------------------------------------------------- steps

  lemma OtherEntry(log: seq<Entry>, e: Entry, n: nat)
    requires Accounted(log, n) && !e.GivenUp?
    ensures Accounted(log + [e], n) && Number(log + [e], Delivers, n) >= Number(log, Delivers, n)
  {
    LogAdd(log, e, Delivers, n);
    assert (log + [e])[..|log|] == log;
  }

  lemma OtherSpent(s: Store, e: Entry, n: nat)
    requires Spent(s, n) && !e.GivenUp?
    ensures Spent(s.(log := s.log + [e]), n)
  {
    OtherEntry(s.log, e, n);
    hide Number, Accounted;
  }

  lemma OverflowSpent(c: Config, s: Store, n: nat)
    requires Spent(s, n)
    ensures Spent(CheckQueueSizes(c, s), n)
  {
    hide Accounted, Number;
    var P := (t: Store) => Spent(t, n);
    forall t: Store | P(t) && t.normal != [] ensures P(DropFront(c, t)) { OtherSpent(t, Overflowed(t.normal[0]), n); }
    forall t: Store, i: nat | P(t) && i < |t.tx| && Droppable(c, t, i) ensures P(DropUpdate(t, i)) {
      OtherSpent(t, Overflowed(t.tx[i]), n);
    }
    OverflowKeeps(P, c, s);
  }

  lemma InsertSpent(c: Config, s: Store, m: Msg, n: nat)
    requires Spent(s, n)
    ensures Spent(Insert(c, s, m), n)
  {
    OtherSpent(s, Accepted(m), n);
    hide Accounted, Number;
    OverflowSpent(c, if IsTx(c.protocol, m) then InsertTx(s, m) else InsertNormal(c, s, m), n);
  }

  lemma TransmitSpent(c: Config, s: Store, sel: Selection, m: Msg, ok: bool, n: nat)
    requires Spent(s, n) && Selectable(s, sel) && s.inFlight.None?
    ensures Spent(Transmit(c, s, sel, m, ok), n)
  {
    OtherEntry(s.log, Sent(m, ok), n);
    LogAdd(s.log, Sent(m, ok), Delivers, n);
    hide Number, Accounted, Persistent;
    if !ok && !sel.FromTx? && !Persistent(c, m) {
      var l, q := s.log + [Sent(m, false)], s.normal[sel.index := m];
      OtherEntry(l, Refused(m), n);
      OtherEntry(l + [Refused(m)], Popped(q[0]), n);
      assert Transmit(c, s, sel, m, ok).log == l + [Refused(m)] + [Popped(q[0])];
    }
  }

  lemma FailSpent(c: Config, s: Store, now: Instant, newId: MessageId, n: nat)
    requires Spent(s, n) && s.inFlight.Some? && s.inFlight.value.attempts == Tries(s.log, s.inFlight.value.serial)
    ensures Spent(Fail(c, s, now, newId), n)
  {
    var m := s.inFlight.value;
    OtherEntry(s.log, Retried(m, newId), n);
    OtherEntry(s.log, Expired(m), n);
    LastGivenUp(s.log, GivenUp(m, c.attempts), n);
    hide Accounted, Number, Retries;
  }

  lemma LastGivenUp(log: seq<Entry>, e: Entry, n: nat)
    requires Accounted(log, n) && e.GivenUp?
    requires e.m.serial == n ==> e.m.attempts == Tries(log, n) && Number(log, Delivers, n) >= 1
    ensures Accounted(log + [e], n)
  {
    assert (log + [e])[..|log|] == log;
  }

  lemma {:induction false} BootAccounted(q: seq<Msg>, r: seq<Msg>, k: nat, n: nat)
    requires k <= |q| + |r|
    ensures Accounted((AcceptAll(q) + AcceptAll(r))[..k], n)
  {
    if k > 0 {
      BootAccounted(q, r, k - 1, n);
      var l := AcceptAll(q) + AcceptAll(r);
      assert l[..k] == l[..k - 1] + [l[k - 1]];
      OtherEntry(l[..k - 1], l[k - 1], n);
    }
  }

  lemma CrashSpent(config: Config, s: Store, ign: bool, n: nat)
    ensures Spent(BootStore(config, s.txTable, s.normalTable, ign), n)
  {
    hide Accounted, Load, Purge;
    var b := BootStore(config, s.txTable, s.normalTable, ign);
    BootAccounted(b.normal, b.tx, |b.normal| + |b.tx|, n);
    assert b.log[..|b.normal| + |b.tx|] == b.log;
  }

  lemma WorkerSpent(s: State, now: Instant, ok: bool, n: nat)
    requires Spent(s.store, n)
    ensures Spent(WorkerPass(s, now, ok).store, n)
  {
    hide Spent, Transmit, Choice;
    if Attempts(s, now) {
      TransmitSpent(s.config, s.store, Choice(s, now), Prepare(s.control.stopIds, Pick(s.store, Choice(s, now))), ok, n);
    }
  }

  lemma ReplySpent(s: State, e: Event, n: nat)
    requires Spent(s.store, n) && Enabled(s, e) && (e.ReceiveResult? || e.ReceiveError?)
    requires s.store.inFlight.Some? ==> s.store.inFlight.value.attempts == Tries(s.store.log, s.store.inFlight.value.serial)
    ensures Spent(Next(s, e).store, n)
  {
    var t := ClearGate(s, e.id).store;
    OtherSpent(s.store, ReplyReceived(e.id), n);
    if Matches(s, e.id) {
      var m := s.store.inFlight.value;
      LogAdd(s.store.log, ReplyReceived(e.id), Delivers, m.serial);
      LogAdd(s.store.log, ReplyReceived(e.id), Bounces, m.serial);
      OtherEntry(t.log, Answered(m), n);
      hide Number, Accounted, Fail;
      if e.ReceiveError? {
        FailSpent(s.config, t, e.now, e.newId, n);
      }
    }
  }

  /** The attempts of the message in flight are its deliveries and its failed sends. */
  predicate FlightCounted(s: State) {
    s.store.inFlight.Some? ==> s.store.inFlight.value.attempts == Tries(s.store.log, s.store.inFlight.value.serial)
  }

  lemma NextSpent(s: State, e: Event, n: nat)
    requires Spent(s.store, n) && FlightCounted(s) && Enabled(s, e)
    ensures Spent(Next(s, e).store, n)
  {
    var c, st := s.config, s.store;
    if Quiet(e) {
      QuietStep(s, e);
      hide Next, Spent;
      if Next(s, e).store != st {
        var x :| IsNote(x) && Next(s, e).store == st.(log := st.log + [x]);
        OtherSpent(st, x, n);
      }
    } else if e.ReceiveResult? || e.ReceiveError? {
      ReplySpent(s, e, n);
    } else {
      hide Number, Accounted, Insert, WorkerPass, Fail, BootStore;
      match e
      case PushCall(call, stall, now) => InsertSpent(c, st, NewMsg(s.serial, call, stall, now), n);
      case PushCallAsync(call, now) =>
        InsertSpent(c, st, NewMsg(s.serial, call, false, now), n);
        OtherSpent(st, Offline(NewMsg(s.serial, call, false, now)), n);
      case Timeout(now, newId) => FailSpent(c, st, now, newId, n);
      case Worker(now, ok) => WorkerSpent(s, now, ok, n);
      case StartHandled(_, _) =>
      case Crash(config, ign) => CrashSpent(config, st, ign, n);
    }
  }

  // ---------------------------------------------------------------- every run

  lemma SoundCounted(s: State)
    requires s.store.inFlight.Some? ==> Sound(s, s.store.inFlight.value.serial)
    ensures FlightCounted(s)
  {
    hide Number, Origin, LogOk, QueueOk, CountOk;
  }

  lemma {:induction false} RunSpent(s: State, events: seq<Event>, n: nat)
    requires Spent(s.store, n) && (forall k: nat :: Sound(s, k)) && Legal(s, events)
    ensures Spent(Run(s, events).store, n)
    decreases |events|
  {
    hide Spent, Sound, Next, Enabled, FlightCounted;
    if events != [] {
      SoundCounted(s);
      NextSpent(s, events[0], n);
      forall k: nat ensures Sound(Next(s, events[0]), k) {
        NextSound(s, events[0], k);
      }
      RunSpent(Next(s, events[0]), events[1..], n);
    }
  }

  lemma {:induction false} AccountedAt(log: seq<Entry>, i: nat, n: nat)
    requires Accounted(log, n) && i < |log| && log[i].GivenUp? && log[i].m.serial == n
    ensures log[i].m.attempts == Tries(log[..i], n) && Number(log[..i], Delivers, n) >= 1
    decreases |log|
  {
    if i < |log| - 1 {
      AccountedAt(log[..|log| - 1], i, n);
      assert log[..|log| - 1][..i] == log[..i];
    }
  }

  /** In every run, counted within the boot: a message is given up after at least
      one delivery and, failed sends included, at least as many attempts as the limit. Its
      deliveries reach the limit if, and only if, no more sends failed than it
      had attempts beyond the limit. */
  lemma GivenUpAfter(config: Config, events: seq<Event>, i: nat)
    requires Legal(Initial(config), events) && i < |History(config, events)| && History(config, events)[i].GivenUp?
    ensures var log := History(config, events);
      var m, limit := log[i].m, log[i].limit;
      var deliveries, failed := Number(log[..i], Delivers, m.serial), Number(log[..i], Bounces, m.serial);
      && m.attempts == deliveries + failed && m.attempts >= limit && deliveries >= 1
      && (deliveries >= limit <==> failed <= m.attempts - limit)
  {
    var n := History(config, events)[i].m.serial;
    hide Spent, Initial, Run, Legal, Number;
    ReachedSpent(config, events, n);
    Guarantees.EntryKnown(config, events, i, n);
    Concluded(Reached(config, events).store, i, n);
  }

  lemma ReachedSpent(config: Config, events: seq<Event>, n: nat)
    requires Legal(Initial(config), events)
    ensures Spent(Reached(config, events).store, n)
  {
    forall k: nat ensures Sound(Initial(config), k) { InitialSound(config, k); }
    assert Spent(Initial(config).store, n);
    hide Spent, Sound, Initial;
    RunSpent(Initial(config), events, n);
  }

  lemma Concluded(s: Store, i: nat, n: nat)
    requires Spent(s, n) && i < |s.log| && s.log[i].GivenUp? && s.log[i].m.serial == n
    ensures s.log[i].m.attempts == Tries(s.log[..i], n) && Number(s.log[..i], Delivers, n) >= 1
  {
    AccountedAt(s.log, i, n);
  }
}
