/** Replies that arrive after a restart. */
module LateReplies {
  import opened Messages
  import opened QueueSpec
  import opened Overflow
  import opened Ledger
  import Delivery
  import Guarantees
  import TransactionOrder

  /** A message has its first id until it is retried in this boot; after that, an id that was not in `past`. */
  predicate Named(log: seq<Entry>, m: Msg, past: set<MessageId>) {
    if Number(log, Renews, m.serial) == 0 then m.call.id == m.initialId else m.call.id !in past
  }

  predicate QueueNamed(log: seq<Entry>, q: seq<Msg>, past: set<MessageId>, n: nat) {
    forall i :: 0 <= i < |q| && q[i].serial == n ==> Named(log, q[i], past)
  }

  predicate NamesOk(s: Store, serial: nat, past: set<MessageId>, n: nat) {
    && (n >= serial ==> Number(s.log, Renews, n) == 0)
    && QueueNamed(s.log, s.tx, past, n) && QueueNamed(s.log, s.normal, past, n)
    && (s.inFlight.Some? && s.inFlight.value.serial == n ==> Named(s.log, s.inFlight.value, past))
  }

  // ---------------------------------------------------------------- steps

  lemma SameQueue(log: seq<Entry>, log': seq<Entry>, q: seq<Msg>, past: set<MessageId>, n: nat)
    requires QueueNamed(log, q, past, n) && Number(log', Renews, n) == Number(log, Renews, n)
    ensures QueueNamed(log', q, past, n)
  {
  }

  /** An entry that is no retry of message n. */
  lemma EntryNames(s: Store, e: Entry, serial: nat, past: set<MessageId>, n: nat)
    requires NamesOk(s, serial, past, n) && (e.Retried? ==> e.m.serial != n)
    ensures NamesOk(s.(log := s.log + [e]), serial, past, n)
  {
    LogAdd(s.log, e, Renews, n);
    hide Number;
  }

  lemma RemovedNames(log: seq<Entry>, q: seq<Msg>, k: nat, past: set<MessageId>, n: nat)
    requires QueueNamed(log, q, past, n) && k < |q|
    ensures QueueNamed(log, RemoveAt(q, k), past, n) && QueueNamed(log, q[1..], past, n)
    ensures q[k].serial == n ==> Named(log, q[k], past)
  {
    hide Named;
    TransactionOrder.RemovedAt(q, k);
  }

  lemma OverflowNames(c: Config, s: Store, serial: nat, past: set<MessageId>, n: nat)
    requires NamesOk(s, serial, past, n)
    ensures NamesOk(CheckQueueSizes(c, s), serial, past, n)
  {
    hide Number, Named, QueueNamed;
    var P := (t: Store) => NamesOk(t, serial, past, n);
    forall t: Store | P(t) && t.normal != [] ensures P(DropFront(c, t)) {
      RemovedNames(t.log, t.normal, 0, past, n);
      EntryNames(t.(normal := t.normal[1..]), Overflowed(t.normal[0]), serial, past, n);
    }
    forall t: Store, i: nat | P(t) && i < |t.tx| && Droppable(c, t, i) ensures P(DropUpdate(t, i)) {
      RemovedNames(t.log, t.tx, i, past, n);
      EntryNames(t.(tx := RemoveAt(t.tx, i)), Overflowed(t.tx[i]), serial, past, n);
    }
    OverflowKeeps(P, c, s);
  }

  lemma PlusNames(log: seq<Entry>, q: seq<Msg>, m: Msg, past: set<MessageId>, n: nat)
    requires QueueNamed(log, q, past, n) && (m.serial == n ==> Named(log, m, past))
    ensures QueueNamed(log, q + [m], past, n) && QueueNamed(log, [m] + q, past, n)
  {
    hide Named;
  }

  lemma InsertNames(c: Config, s: Store, m: Msg, serial: nat, past: set<MessageId>, n: nat)
    requires NamesOk(s, serial, past, n) && m.serial == serial && m.call.id == m.initialId
    ensures NamesOk(Insert(c, s, m), serial + 1, past, n)
  {
    EntryNames(s, Accepted(m), serial, past, n);
    var log := s.log + [Accepted(m)];
    hide Number, QueueNamed;
    PlusNames(log, s.tx, m, past, n);
    PlusNames(log, s.normal, m, past, n);
    OverflowNames(c, if IsTx(c.protocol, m) then InsertTx(s, m) else InsertNormal(c, s, m), serial + 1, past, n);
  }

  lemma ReplacedNames(log: seq<Entry>, q: seq<Msg>, k: nat, m: Msg, past: set<MessageId>, n: nat)
    requires QueueNamed(log, q, past, n) && k < |q| && Alias(m, q[k])
    ensures QueueNamed(log, q[k := m], past, n) && (m.serial == n ==> Named(log, m, past))
  {
    hide Number;
  }

  predicate Alias(m: Msg, p: Msg) {
    m.serial == p.serial && m.initialId == p.initialId && m.call.id == p.call.id
  }

  lemma DeliveredNames(s: Store, sel: Selection, m: Msg, serial: nat, past: set<MessageId>, n: nat)
    requires NamesOk(s, serial, past, n) && Selectable(s, sel) && Alias(m, Pick(s, sel))
    ensures NamesOk(Delivered(s, sel, m), serial, past, n)
  {
    EntryNames(s, Sent(m, true), serial, past, n);
    var log := s.log + [Sent(m, true)];
    hide Number, QueueNamed, Named;
    if sel.FromTx? {
      ReplacedNames(log, s.tx, 0, m, past, n);
      RemovedNames(log, s.tx, 0, past, n);
    } else {
      ReplacedNames(log, s.normal, sel.index, m, past, n);
      RemovedNames(log, s.normal, sel.index, past, n);
    }
  }

  lemma UndeliveredNames(c: Config, s: Store, sel: Selection, m: Msg, serial: nat, past: set<MessageId>, n: nat)
    requires NamesOk(s, serial, past, n) && Selectable(s, sel) && Alias(m, Pick(s, sel))
    ensures NamesOk(Undelivered(c, s, sel, m), serial, past, n)
  {
    EntryNames(s, Sent(m, false), serial, past, n);
    var log := s.log + [Sent(m, false)];
    var kept := if IsTx(c.protocol, m) then MarkOffline(m) else m;
    hide Number, QueueNamed, Named, Persistent;
    if sel.FromTx? {
      ReplacedNames(log, s.tx, 0, kept, past, n);
    } else {
      ReplacedNames(log, s.normal, sel.index, kept, past, n);
      ReplacedNames(log, s.normal, sel.index, m, past, n);
      if !Persistent(c, m) {
        var q := s.normal[sel.index := m];
        RemovedNames(log, q, 0, past, n);
        var t := s.(normal := q[1..], log := log);
        EntryNames(t, Refused(m), serial, past, n);
        EntryNames(t.(log := log + [Refused(m)]), Popped(q[0]), serial, past, n);
        assert log + [Refused(m)] + [Popped(q[0])] == Undelivered(c, s, sel, m).log;
      }
    }
  }

  /** The names in both queues after the message in flight was retried. */
  lemma RetriedQueues(s: Store, newId: MessageId, serial: nat, past: set<MessageId>, n: nat)
    requires NamesOk(s, serial, past, n) && s.inFlight.Some? && Balance(s, serial, n)
    ensures var log := s.log + [Retried(s.inFlight.value, newId)];
      && QueueNamed(log, s.tx, past, n) && QueueNamed(log, s.normal, past, n)
      && (n >= serial ==> Number(log, Renews, n) == 0)
      && (s.inFlight.value.serial == n ==> Number(log, Renews, n) > 0)
  {
    var m := s.inFlight.value;
    var log := s.log + [Retried(m, newId)];
    LogAdd(s.log, Retried(m, newId), Renews, n);
    if m.serial == n {
      NoneNamed(log, s.tx, past, n);
      NoneNamed(log, s.normal, past, n);
    } else {
      hide Number, Named, Balance;
      SameQueue(s.log, log, s.tx, past, n);
      SameQueue(s.log, log, s.normal, past, n);
    }
  }

  lemma RetryNames(c: Config, s: Store, now: Instant, newId: MessageId, serial: nat, past: set<MessageId>, n: nat)
    requires NamesOk(s, serial, past, n) && s.inFlight.Some? && newId !in past && Balance(s, serial, n)
    ensures NamesOk(Retry(c, s, now, newId), serial, past, n)
  {
    RetriedQueues(s, newId, serial, past, n);
    hide Number, QueueNamed, Balance, RetryAt;
    var r := Renewed(c, s.inFlight.value, now, newId);
    var log := s.log + [Retried(s.inFlight.value, newId)];
    assert r.serial == n ==> Named(log, r, past);
    hide Named;
    PlusNames(log, s.tx, r, past, n);
    PlusNames(log, s.normal, r, past, n);
  }

  lemma NoneNamed(log: seq<Entry>, q: seq<Msg>, past: set<MessageId>, n: nat)
    requires Tally(q, Serial(n)) == 0
    ensures QueueNamed(log, q, past, n)
  {
    forall i | 0 <= i < |q| ensures q[i].serial != n { Delivery.TallyZero(q, n, i); }
  }

  lemma FailNames(c: Config, s: Store, now: Instant, newId: MessageId, serial: nat, past: set<MessageId>, n: nat)
    requires NamesOk(s, serial, past, n) && s.inFlight.Some? && newId !in past && Balance(s, serial, n)
    ensures NamesOk(Fail(c, s, now, newId), serial, past, n)
  {
    var m := s.inFlight.value;
    RetryNames(c, s, now, newId, serial, past, n);
    EntryNames(s, GivenUp(m, c.attempts), serial, past, n);
    EntryNames(s, Expired(m), serial, past, n);
    hide Number, Named, QueueNamed, Retry, Retries, Balance;
  }

  lemma SubstitutedNames(log: seq<Entry>, q: seq<Msg>, ids: seq<MessageId>, t: int, past: set<MessageId>, n: nat)
    requires QueueNamed(log, q, past, n)
    ensures QueueNamed(log, SubstituteAll(q, ids, t), past, n)
  {
    hide Number;
    var r := SubstituteAll(q, ids, t);
    forall i | 0 <= i < |r| && r[i].serial == n ensures Named(log, r[i], past) {
      assert Alias(r[i], q[i]) && Named(log, q[i], past);
    }
  }

  // ---------------------------------------------------------------- every run

  predicate NamesAt(s: State, past: set<MessageId>, n: nat) {
    NamesOk(s.store, s.serial, past, n)
  }

  predicate Booked(s: State, n: nat) {
    LedgerAt(s, n, 0) && TransactionOrder.TxOk(s)
  }

  lemma QuietNames(s: State, e: Event, past: set<MessageId>, n: nat)
    requires NamesAt(s, past, n) && Enabled(s, e) && Quiet(e)
    ensures NamesAt(Next(s, e), past, n)
  {
    QuietStep(s, e);
    hide Next, NamesOk;
    if Next(s, e).store != s.store {
      var x :| IsNote(x) && Next(s, e).store == s.store.(log := s.store.log + [x]);
      EntryNames(s.store, x, s.serial, past, n);
    }
  }

  lemma WorkerNames(s: State, now: Instant, ok: bool, past: set<MessageId>, n: nat)
    requires NamesAt(s, past, n)
    ensures NamesAt(WorkerPass(s, now, ok), past, n)
  {
    if Attempts(s, now) {
      var sel := Choice(s, now);
      var m := Prepare(s.control.stopIds, Pick(s.store, sel));
      hide NamesOk, Delivered, Undelivered, Choice;
      if ok {
        DeliveredNames(s.store, sel, m, s.serial, past, n);
      } else {
        UndeliveredNames(s.config, s.store, sel, m, s.serial, past, n);
      }
    }
  }

  lemma ReplyNames(s: State, e: Event, past: set<MessageId>, n: nat)
    requires NamesAt(s, past, n) && LedgerAt(s, n, 0) && Enabled(s, e) && (e.ReceiveResult? || e.ReceiveError?) && past <= s.used
    ensures NamesAt(Next(s, e), past, n)
  {
    var t := ClearGate(s, e.id).store;
    EntryNames(s.store, ReplyReceived(e.id), s.serial, past, n);
    ClearGateAt(s, e.id, n, 0);
    hide Number, Named, QueueNamed, Tally, Fail;
    if Matches(s, e.id) {
      EntryNames(t, Answered(s.store.inFlight.value), s.serial, past, n);
      if e.ReceiveError? {
        FailNames(s.config, t, e.now, e.newId, s.serial, past, n);
      }
    }
  }

  lemma NextNames(s: State, e: Event, past: set<MessageId>, n: nat)
    requires NamesAt(s, past, n) && LedgerAt(s, n, 0) && Enabled(s, e) && !e.Crash? && past <= s.used
    ensures NamesAt(Next(s, e), past, n)
  {
    var c, st, k := s.config, s.store, s.serial;
    if Quiet(e) {
      QuietNames(s, e, past, n);
    } else if e.ReceiveResult? || e.ReceiveError? {
      ReplyNames(s, e, past, n);
    } else {
      hide Number, Named, QueueNamed, Tally, Insert, WorkerPass, Fail;
      match e
      case PushCall(call, stall, now) => InsertNames(c, st, NewMsg(k, call, stall, now), k, past, n);
      case PushCallAsync(call, now) =>
        InsertNames(c, st, NewMsg(k, call, false, now), k, past, n);
        EntryNames(st, Offline(NewMsg(k, call, false, now)), k, past, n);
      case Timeout(now, newId) => FailNames(c, st, now, newId, k, past, n);
      case Worker(now, ok) => WorkerNames(s, now, ok, past, n);
      case StartHandled(start, t) =>
        if start in s.control.meterIds {
          SubstitutedNames(st.log, st.tx, s.control.meterIds[start], t, past, n);
        }
    }
  }

  predicate NoCrash(events: seq<Event>) {
    forall i :: 0 <= i < |events| ==> !events[i].Crash?
  }

  lemma GrowsUsed(s: State, e: Event)
    requires Enabled(s, e)
    ensures s.used <= Next(s, e).used
  {
  }

  lemma {:induction false} RunNames(s: State, events: seq<Event>, past: set<MessageId>, n: nat)
    requires NamesAt(s, past, n) && Booked(s, n) && past <= s.used && Legal(s, events) && NoCrash(events)
    ensures NamesAt(Run(s, events), past, n)
    decreases |events|
  {
    hide NamesAt, LedgerAt, TransactionOrder.TxOk, Enabled, Next;
    if events != [] {
      NextNames(s, events[0], past, n);
      NextAt(s, events[0], n, 0);
      TransactionOrder.NextKeepsTx(s, events[0]);
      GrowsUsed(s, events[0]);
      RunNames(Next(s, events[0]), events[1..], past, n);
    }
  }

  lemma {:induction false} LoadNamed(table: seq<Row>, ign: bool)
    ensures forall i :: 0 <= i < |Load(table, ign)| ==> Load(table, ign)[i].call.id == Load(table, ign)[i].initialId
  {
    if table != [] {
      LoadNamed(table[1..], ign);
    }
  }

  lemma BootNames(c: Config, s: Store, serial: nat, ign: bool, past: set<MessageId>, n: nat)
    ensures NamesOk(BootStore(c, s.txTable, s.normalTable, ign), serial, past, n)
  {
    var b := BootStore(c, s.txTable, s.normalTable, ign);
    LoadNamed(s.normalTable, ign);
    LoadNamed(s.txTable, ign);
    hide Load, Purge, Number;
    AcceptAllNumber(b.normal, b.tx, |b.normal + b.tx|, Renews, n);
    assert b.log[..|b.normal + b.tx|] == b.log;
  }

  /** The message in flight was read back at the restart, and the reply is for its first id, which it still has. */
  predicate Reclaimed(s: State, id: MessageId) {
    s.store.inFlight.Some? && s.store.inFlight.value.initialId == id &&
    Number(s.store.log, Renews, s.store.inFlight.value.serial) == 0
  }

  lemma NamedMatches(s: State, id: MessageId, past: set<MessageId>)
    requires id in past && (s.store.inFlight.Some? ==> NamesAt(s, past, s.store.inFlight.value.serial))
    ensures Matches(s, id) <==> Reclaimed(s, id)
  {
    hide Number, QueueNamed;
  }

  lemma HarmlessUnlessMatches(s: State, id: MessageId, now: Instant, newId: MessageId)
    requires newId !in s.used
    ensures Guarantees.OnlyGateCleared(s, Next(s, ReceiveResult(id)), id) <==> !Matches(s, id)
    ensures Guarantees.OnlyGateCleared(s, Next(s, ReceiveError(id, now, newId)), id) <==> !Matches(s, id)
  {
    hide Persistent;
    if Matches(s, id) {
      assert |Next(s, ReceiveResult(id)).store.log| > |s.store.log| + 1;
      assert Next(s, ReceiveError(id, now, newId)).store.inFlight.None?;
    }
  }

  /** After any run, a restart and any steps of the new boot: a reply under an id
      that was in use before that restart changes nothing but the answer-first
      gate if, and only if, the message in flight is not one whose first id that
      is and that has not been retried since the restart. */
  lemma LateReply(config: Config, before: seq<Event>, config': Config, ign: bool, after: seq<Event>, id: MessageId,
                  now: Instant, newId: MessageId)
    requires Legal(Initial(config), before) && Enabled(Reached(config, before), Crash(config', ign))
    requires Legal(Next(Reached(config, before), Crash(config', ign)), after) && NoCrash(after)
    requires id in Reached(config, before).used
    requires newId !in Run(Next(Reached(config, before), Crash(config', ign)), after).used
    ensures var s := Run(Next(Reached(config, before), Crash(config', ign)), after);
      && (Guarantees.OnlyGateCleared(s, Next(s, ReceiveResult(id)), id) <==> !Reclaimed(s, id))
      && (Guarantees.OnlyGateCleared(s, Next(s, ReceiveError(id, now, newId)), id) <==> !Reclaimed(s, id))
  {
    var r := Reached(config, before);
    var b := Next(r, Crash(config', ign));
    var s := Run(b, after);
    if s.store.inFlight.Some? {
      AfterRestart(config, before, config', ign, after, s.store.inFlight.value.serial);
    }
    hide Initial, Run, Legal, Next, NamesAt, Matches, Reclaimed;
    NamedMatches(s, id, r.used);
    HarmlessUnlessMatches(s, id, now, newId);
  }

  lemma AfterRestart(config: Config, before: seq<Event>, config': Config, ign: bool, after: seq<Event>, n: nat)
    requires Legal(Initial(config), before) && Enabled(Reached(config, before), Crash(config', ign))
    requires Legal(Next(Reached(config, before), Crash(config', ign)), after) && NoCrash(after)
    ensures NamesAt(Run(Next(Reached(config, before), Crash(config', ign)), after), Reached(config, before).used, n)
  {
    var r := Reached(config, before);
    ReachedAt(config, before, n, 0);
    TransactionOrder.ReachedTx(config, before);
    hide Initial, Run, Legal, NamesAt, LedgerAt, TransactionOrder.TxOk, Next;
    RestartNames(r, Crash(config', ign), n);
    RunNames(Next(r, Crash(config', ign)), after, r.used, n);
  }

  lemma RestartNames(r: State, e: Event, n: nat)
    requires Booked(r, n) && Enabled(r, e) && e.Crash?
    ensures var b := Next(r, e); NamesAt(b, r.used, n) && Booked(b, n) && b.used == r.used
  {
    BootNames(e.config, r.store, r.serial, e.ignoreSecurity, r.used, n);
    NextAt(r, e, n, 0);
    TransactionOrder.NextKeepsTx(r, e);
    hide NamesOk, At, TransactionOrder.TxInv, BootStore;
  }
}
