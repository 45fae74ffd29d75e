/** What follows for the user of the queue. */
module Guarantees {
  import opened Messages
  import opened QueueSpec
  import opened Ledger
  import opened Delivery
  import TransactionOrder

  // ---------------------------------------------------------------- bounded delivery

  /** In every run a transaction message, or one that is queued offline, reaches
      the transport at most max(1, N) times per boot, N being the largest number
      of attempts configured in that boot; any other message but a
      BootNotification reaches it at most once. */
  lemma BoundedDelivery(config: Config, events: seq<Event>, i: nat)
    requires Legal(Initial(config), events) && i < |History(config, events)|
    requires History(config, events)[i].Accepted?
    ensures var s, m := Reached(config, events), History(config, events)[i].m;
      var deliveries := Number(s.store.log, Delivers, m.serial);
      && (Persistent(s.config, m) ==> deliveries <= Max(1, s.peak))
      && (!Persistent(s.config, m) && m.call.action != BootNotification ==> deliveries <= 1)
  {
    var s, m := Reached(config, events), History(config, events)[i].m;
    ReachedSound(config, events, m.serial);
    hide Number, Origin, QueueOk, TransactionOrder.TxOk, Run, Legal, Initial;
    assert About(s.store.log[i], m.serial);
  }

  // ---------------------------------------------------------------- conservation

  lemma EntryKnown(config: Config, events: seq<Event>, i: nat, n: nat)
    requires Legal(Initial(config), events) && i < |History(config, events)|
    requires About(History(config, events)[i], n)
    ensures Origin(History(config, events), n) == Some(IdentityOf(History(config, events)[i].m))
    ensures Justified(Reached(config, events).config.protocol, History(config, events)[i])
  {
    ReachedSound(config, events, n);
    hide Number, Origin, QueueOk, TransactionOrder.TxOk, Run, Legal, Initial, Justified;
  }

  lemma {:induction false} NumberOfEntry(log: seq<Entry>, i: nat, a: Aspect, n: nat)
    requires i < |log| && Counts(log[i], a, n) == 1
    ensures Number(log, a, n) >= 1
  {
    if i < |log| - 1 {
      NumberOfEntry(log[..|log| - 1], i, a, n);
    }
  }

  /** Within one boot: every message it accepted, or read back, is at any time
      either unresolved or gone, exactly once. (Across restarts: Lifetimes.) */
  lemma Conservation(config: Config, events: seq<Event>, i: nat)
    requires Legal(Initial(config), events) && i < |History(config, events)|
    requires History(config, events)[i].Accepted?
    ensures var s, n := Reached(config, events).store, History(config, events)[i].m.serial;
      Pending(s, Serial(n)) + Number(s.log, Leaves, n) == 1
  {
    var log := History(config, events);
    var n := log[i].m.serial;
    NumberOfEntry(log, i, Enters, n);
    ReachedAt(config, events, n, 0);
    hide Number, Pending, Run, Legal, Initial;
  }

  /** Within one boot: a transaction message ends by an answer or after at least
      as many attempts as are configured; only an update of a transaction may
      also be dropped. (Across restarts: Lifetimes.) */
  lemma TransactionFates(config: Config, events: seq<Event>, i: nat, j: nat)
    requires Legal(Initial(config), events)
    requires i < |History(config, events)| && j < |History(config, events)|
    requires var log := History(config, events);
      log[i].Accepted? && Departs(log[j]) && log[j].m.serial == log[i].m.serial && IsTx(config.protocol, log[i].m)
    ensures var m, e := History(config, events)[i].m, History(config, events)[j];
      || e.Answered?
      || (e.GivenUp? && e.m.attempts >= e.limit)
      || (e.Overflowed? && IsUpdate(config.protocol, m.call))
  {
    var n := History(config, events)[i].m.serial;
    TransactionOrder.ReachedTx(config, events);
    EntryKnown(config, events, i, n);
    EntryKnown(config, events, j, n);
    hide Origin, Run, Legal, Initial, TransactionOrder.TxOk;
  }

  // ---------------------------------------------------------------- stale replies

  /** Only the answer-first gate is cleared. */
  predicate OnlyGateCleared(s: State, t: State, id: MessageId) {
    t == s.(store := s.store.(log := s.store.log + [ReplyReceived(id)]), control := s.control.(nextToSend := None))
  }

  /** In every run, within one boot: a CALLRESULT or CALLERROR for an attempt of
      this boot that is over changes neither queues nor tables nor the message in
      flight, and sets no promise. (Across a restart: LateReplies.) */
  lemma StaleReplyHarmless(config: Config, events: seq<Event>, i: nat, now: Instant, newId: MessageId)
    requires Legal(Initial(config), events) && i < |History(config, events)| && EndsAttempt(History(config, events)[i])
    requires newId !in Reached(config, events).used
    ensures var s, id := Reached(config, events), History(config, events)[i].m.call.id;
      && OnlyGateCleared(s, Next(s, ReceiveResult(id)), id)
      && OnlyGateCleared(s, Next(s, ReceiveError(id, now, newId)), id)
  {
    var s, id := Reached(config, events), History(config, events)[i].m.call.id;
    NumberOfEntry(s.store.log, i, Ends, id);
    ReachedAt(config, events, 0, id);
    hide Number, Run, Legal, Initial, Tally;
    assert !Matches(s, id);
  }
}
