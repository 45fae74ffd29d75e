/** The life of one message: what the entries about it have in common, how
    often it reaches the transport, and how it can end. Everything is stated
    for one serial n.

    The invariant ties the history of n to the message itself: all entries are
    about the same message, each ending is justified by what the message was at
    that moment, deliveries never exceed attempts, and a message that may still
    be delivered has a delivery left. Overflow, resolution, retry, substitution
    and restart each keep it, and so does every step. */
module Delivery {
  import opened Messages
  import opened QueueSpec
  import opened Overflow
  import opened Ledger
  import TransactionOrder

  predicate About(e: Entry, n: nat) {
    !IsNote(e) && !e.Offline? && e.m.serial == n
  }

  /** The message accepted under serial n. */
  function Origin(log: seq<Entry>, n: nat): Option<Identity> {
    if log == [] then None
    else if log[|log| - 1].Accepted? && log[|log| - 1].m.serial == n then Some(IdentityOf(log[|log| - 1].m))
    else Origin(log[..|log| - 1], n)
  }

  /** How an entry can end a message within one boot. */
  predicate Justified(p: Protocol, e: Entry) {
    match e
    case Overflowed(m) => IsTx(p, m) ==> IsUpdate(p, m.call)
    case GivenUp(m, limit) => m.attempts >= limit
    case Expired(m) => !IsTx(p, m)
    case Popped(m) => !IsTx(p, m)
    case Skipped(_) => false
    case _ => true
  }

  /** All entries about n are about the same message, and each ending is justified. */
  predicate LogOk(p: Protocol, log: seq<Entry>, n: nat) {
    forall i :: 0 <= i < |log| && About(log[i], n) ==> Origin(log, n) == Some(IdentityOf(log[i].m)) && Justified(p, log[i])
  }

  function Tries(log: seq<Entry>, n: nat): nat {
    Number(log, Delivers, n) + Number(log, Bounces, n)
  }

  predicate Keeps(c: Config, a: Action) {
    IsTransaction(c.protocol, a) || CheckQueue(c, a)
  }

  /** The number of times a message of this kind may reach the transport; -1 if there is no bound. */
  function Cap(c: Config, peak: int, a: Action): int {
    if Keeps(c, a) then Max(1, peak) else if a == BootNotification then -1 else 1
  }

  predicate Within(c: Config, peak: int, a: Action, deliveries: nat) {
    Cap(c, peak, a) == -1 || deliveries <= Cap(c, peak, a)
  }

  /** A queued message counts its attempts, and may be delivered once more. */
  predicate QueuedOk(c: Config, peak: int, log: seq<Entry>, m: Msg) {
    && Origin(log, m.serial) == Some(IdentityOf(m))
    && m.attempts == Tries(log, m.serial)
    && Within(c, peak, m.call.action, Number(log, Delivers, m.serial) + 1)
  }

  predicate QueueOk(c: Config, peak: int, log: seq<Entry>, q: seq<Msg>, n: nat) {
    forall i :: 0 <= i < |q| && q[i].serial == n ==> QueuedOk(c, peak, log, q[i])
  }

  predicate FlightOk(c: Config, log: seq<Entry>, m: Msg) {
    && Origin(log, m.serial) == Some(IdentityOf(m))
    && m.attempts == Tries(log, m.serial)
  }

  predicate CountOk(c: Config, peak: int, log: seq<Entry>, serial: nat, n: nat) {
    match Origin(log, n)
    case None => Tries(log, n) == 0
    case Some(d) => n < serial && Within(c, peak, d.action, Number(log, Delivers, n))
  }

  predicate LifeInv(c: Config, peak: int, s: Store, serial: nat, n: nat) {
    && c.attempts <= peak
    && LogOk(c.protocol, s.log, n)
    && CountOk(c, peak, s.log, serial, n)
    && QueueOk(c, peak, s.log, s.tx, n)
    && QueueOk(c, peak, s.log, s.normal, n)
    && (s.inFlight.Some? && s.inFlight.value.serial == n ==> FlightOk(c, s.log, s.inFlight.value))
  }

  predicate LifeOk(s: State, n: nat) {
    LifeInv(s.config, s.peak, s.store, s.serial, n)
  }

  // ---------------------------------------------------------------- the history grows

  lemma AddOne(log: seq<Entry>, e: Entry, n: nat)
    ensures Number(log + [e], Delivers, n) == Number(log, Delivers, n) + Counts(e, Delivers, n)
    ensures Number(log + [e], Bounces, n) == Number(log, Bounces, n) + Counts(e, Bounces, n)
    ensures Origin(log + [e], n) == if e.Accepted? && e.m.serial == n then Some(IdentityOf(e.m)) else Origin(log, n)
  {
    LogAdd(log, e, Delivers, n);
    LogAdd(log, e, Bounces, n);
    assert (log + [e])[..|log|] == log;
  }

  lemma LogOkAdd(p: Protocol, log: seq<Entry>, e: Entry, n: nat)
    requires LogOk(p, log, n)
    requires About(e, n) ==> !e.Accepted? && Origin(log, n) == Some(IdentityOf(e.m)) && Justified(p, e)
    ensures LogOk(p, log + [e], n)
  {
    AddOne(log, e, n);
  }

  /** Entries that neither accept nor transmit leave the counts alone. */
  predicate Plain(e: Entry) {
    !e.Accepted? && !e.Sent?
  }

  lemma PlainSame(log: seq<Entry>, e: Entry, n: nat)
    requires Plain(e) || (!IsNote(e) && e.m.serial != n)
    ensures Origin(log + [e], n) == Origin(log, n)
    ensures Number(log + [e], Delivers, n) == Number(log, Delivers, n)
    ensures Number(log + [e], Bounces, n) == Number(log, Bounces, n)
  {
    AddOne(log, e, n);
  }

  predicate SameCounts(log: seq<Entry>, log': seq<Entry>, n: nat) {
    Origin(log', n) == Origin(log, n) && Number(log', Delivers, n) == Number(log, Delivers, n) &&
    Number(log', Bounces, n) == Number(log, Bounces, n)
  }

  lemma QueueOkSame(c: Config, peak: int, log: seq<Entry>, log': seq<Entry>, q: seq<Msg>, n: nat)
    requires QueueOk(c, peak, log, q, n) && SameCounts(log, log', n)
    ensures QueueOk(c, peak, log', q, n)
  {
  }

  /** A plain entry whose message, if it is n, is known. */
  lemma PlainKeeps(c: Config, peak: int, s: Store, e: Entry, serial: nat, n: nat)
    requires LifeInv(c, peak, s, serial, n)
    requires Plain(e) || (!IsNote(e) && e.m.serial != n)
    requires About(e, n) ==> Origin(s.log, n) == Some(IdentityOf(e.m)) && Justified(c.protocol, e)
    ensures LifeInv(c, peak, s.(log := s.log + [e]), serial, n)
  {
    hide Number, Origin, Justified, LogOk, QueueOk;
    PlainSame(s.log, e, n);
    LogOkAdd(c.protocol, s.log, e, n);
    QueueOkSame(c, peak, s.log, s.log + [e], s.tx, n);
    QueueOkSame(c, peak, s.log, s.log + [e], s.normal, n);
  }

  // ---------------------------------------------------------------- overflow

  lemma SubQueue(c: Config, peak: int, log: seq<Entry>, q: seq<Msg>, i: nat, n: nat)
    requires QueueOk(c, peak, log, q, n) && i < |q|
    ensures QueueOk(c, peak, log, RemoveAt(q, i), n)
    ensures QueueOk(c, peak, log, q[1..], n)
    ensures q[i].serial == n ==> QueuedOk(c, peak, log, q[i])
  {
    hide QueuedOk;
    var r := RemoveAt(q, i);
    assert forall k :: 0 <= k < |r| ==> r[k] == q[if k < i then k else k + 1];
  }

  lemma DropFrontLife(c: Config, peak: int, s: Store, serial: nat, n: nat)
    requires LifeInv(c, peak, s, serial, n) && TransactionOrder.NoTx(c.protocol, s.normal) && s.normal != []
    ensures LifeInv(c, peak, DropFront(c, s), serial, n) && TransactionOrder.NoTx(c.protocol, DropFront(c, s).normal)
  {
    hide Number, Origin, LogOk, QueueOk;
    SubQueue(c, peak, s.log, s.normal, 0, n);
    PlainKeeps(c, peak, s.(normal := s.normal[1..]), Overflowed(s.normal[0]), serial, n);
    TransactionOrder.NoTxSlice(c.protocol, s.normal, 0);
  }

  lemma DropUpdateLife(c: Config, peak: int, s: Store, i: nat, serial: nat, n: nat)
    requires LifeInv(c, peak, s, serial, n) && i < |s.tx| && Droppable(c, s, i)
    ensures LifeInv(c, peak, DropUpdate(s, i), serial, n)
  {
    hide Number, Origin, LogOk, QueueOk;
    SubQueue(c, peak, s.log, s.tx, i, n);
    PlainKeeps(c, peak, s.(tx := RemoveAt(s.tx, i)), Overflowed(s.tx[i]), serial, n);
  }

  lemma OverflowLife(c: Config, peak: int, s: Store, serial: nat, n: nat)
    requires LifeInv(c, peak, s, serial, n) && TransactionOrder.NoTx(c.protocol, s.normal)
    ensures LifeInv(c, peak, CheckQueueSizes(c, s), serial, n)
  {
    hide LifeInv, TransactionOrder.NoTx;
    var P := (t: Store) => LifeInv(c, peak, t, serial, n) && TransactionOrder.NoTx(c.protocol, t.normal);
    forall t: Store | P(t) && t.normal != [] ensures P(DropFront(c, t)) { DropFrontLife(c, peak, t, serial, n); }
    forall t: Store, i: nat | P(t) && i < |t.tx| && Droppable(c, t, i) ensures P(DropUpdate(t, i)) {
      DropUpdateLife(c, peak, t, i, serial, n);
    }
    OverflowKeeps(P, c, s);
  }

  // ---------------------------------------------------------------- steps

  lemma {:induction false} TallyZero(q: seq<Msg>, n: nat, i: nat)
    requires Tally(q, Serial(n)) == 0 && i < |q|
    ensures q[i].serial != n
  {
    if i > 0 {
      TallyZero(q[1..], n, i - 1);
    }
  }

  lemma NoneLeft(c: Config, peak: int, log: seq<Entry>, q: seq<Msg>, n: nat)
    requires Tally(q, Serial(n)) == 0
    ensures QueueOk(c, peak, log, q, n)
  {
    forall i | 0 <= i < |q| ensures q[i].serial != n { TallyZero(q, n, i); }
  }

  lemma QueueOkPlus(c: Config, peak: int, log: seq<Entry>, q: seq<Msg>, m: Msg, n: nat)
    requires QueueOk(c, peak, log, q, n) && (m.serial == n ==> QueuedOk(c, peak, log, m))
    ensures QueueOk(c, peak, log, q + [m], n) && QueueOk(c, peak, log, [m] + q, n)
  {
    hide QueuedOk;
  }

  lemma QueueOkReplace(c: Config, peak: int, log: seq<Entry>, q: seq<Msg>, k: nat, m: Msg, n: nat)
    requires QueueOk(c, peak, log, q, n) && k < |q| && (m.serial == n ==> QueuedOk(c, peak, log, m))
    ensures QueueOk(c, peak, log, q[k := m], n)
  {
    hide QueuedOk;
  }

  lemma InsertLife(c: Config, peak: int, s: Store, m: Msg, serial: nat, n: nat)
    requires LifeInv(c, peak, s, serial, n) && Balance(s, serial, n) && TransactionOrder.NoTx(c.protocol, s.normal)
    requires m.serial == serial && m.attempts == 0
    ensures LifeInv(c, peak, Insert(c, s, m), serial + 1, n)
  {
    var t := if IsTx(c.protocol, m) then InsertTx(s, m) else InsertNormal(c, s, m);
    assert TransactionOrder.NoTx(c.protocol, t.normal);
    if n == serial {
      NewLife(c, peak, s, m, serial);
    } else {
      OldLife(c, peak, s, m, serial, n);
    }
    hide LifeInv;
    OverflowLife(c, peak, t, serial + 1, n);
  }

  lemma OldLife(c: Config, peak: int, s: Store, m: Msg, serial: nat, n: nat)
    requires LifeInv(c, peak, s, serial, n) && m.serial == serial != n
    ensures LifeInv(c, peak, if IsTx(c.protocol, m) then InsertTx(s, m) else InsertNormal(c, s, m), serial + 1, n)
  {
    hide Number, Origin, LogOk, QueueOk;
    PlainKeeps(c, peak, s, Accepted(m), serial, n);
    var log := s.log + [Accepted(m)];
    QueueOkPlus(c, peak, log, s.tx, m, n);
    QueueOkPlus(c, peak, log, s.normal, m, n);
  }

  /** Nothing is known about a serial that was not handed out yet. */
  lemma Unknown(c: Config, peak: int, s: Store, serial: nat)
    requires LifeInv(c, peak, s, serial, serial) && Balance(s, serial, serial)
    ensures Tries(s.log, serial) == 0 && Origin(s.log, serial) == None
    ensures forall i :: 0 <= i < |s.log| ==> !About(s.log[i], serial)
    ensures Tally(s.tx, Serial(serial)) == 0 && Tally(s.normal, Serial(serial)) == 0
    ensures s.inFlight.Some? ==> s.inFlight.value.serial != serial
  {
    hide Number, QueueOk, Justified;
  }

  lemma NewLife(c: Config, peak: int, s: Store, m: Msg, serial: nat)
    requires LifeInv(c, peak, s, serial, serial) && Balance(s, serial, serial)
    requires m.serial == serial && m.attempts == 0
    ensures LifeInv(c, peak, if IsTx(c.protocol, m) then InsertTx(s, m) else InsertNormal(c, s, m), serial + 1, serial)
  {
    Unknown(c, peak, s, serial);
    hide Number, Origin, QueueOk, Balance;
    var log := s.log + [Accepted(m)];
    AddOne(s.log, Accepted(m), serial);
    FirstEntry(c.protocol, s.log, m);
    hide LogOk;
    NoneLeft(c, peak, log, s.tx, serial);
    NoneLeft(c, peak, log, s.normal, serial);
    QueueOkPlus(c, peak, log, s.tx, m, serial);
    QueueOkPlus(c, peak, log, s.normal, m, serial);
  }

  lemma FirstEntry(p: Protocol, log: seq<Entry>, m: Msg)
    requires forall i :: 0 <= i < |log| ==> !About(log[i], m.serial)
    ensures LogOk(p, log + [Accepted(m)], m.serial)
  {
    AddOne(log, Accepted(m), m.serial);
    assert Justified(p, Accepted(m));
    hide Number, Origin, Justified, About;
    assert forall i :: 0 <= i < |log| ==> (log + [Accepted(m)])[i] == log[i];
  }

  predicate SameIdentity(a: Msg, b: Msg) {
    IdentityOf(a) == IdentityOf(b)
  }

  /** The picked message, one attempt later. */
  predicate Tried(s: Store, sel: Selection, m: Msg) {
    Selectable(s, sel) && SameIdentity(m, Pick(s, sel)) && m.attempts == Pick(s, sel).attempts + 1
  }

  /** A message handed to the transport is not n: nothing about n changes but, possibly, its place. */
  lemma SentOther(c: Config, peak: int, s: Store, m: Msg, ok: bool, serial: nat, n: nat)
    requires LifeInv(c, peak, s, serial, n) && m.serial != n
    ensures LifeInv(c, peak, s.(log := s.log + [Sent(m, ok)]), serial, n)
  {
    PlainKeeps(c, peak, s, Sent(m, ok), serial, n);
  }

  lemma PickOther(c: Config, peak: int, s: Store, sel: Selection, m: Msg, ok: bool, serial: nat, n: nat)
    requires LifeInv(c, peak, s, serial, n) && Tried(s, sel, m) && m.serial != n && s.inFlight.None?
    requires TransactionOrder.NoTx(c.protocol, s.normal)
    ensures LifeInv(c, peak, Transmit(c, s, sel, m, ok), serial, n)
  {
    hide Number, Origin, LogOk, Justified;
    SentOther(c, peak, s, m, ok, serial, n);
    var log := s.log + [Sent(m, ok)];
    if ok {
      if sel.FromNormal? { SubQueue(c, peak, log, s.normal, sel.index, n); }
    } else {
      if sel.FromTx? {
        QueueOkReplace(c, peak, log, s.tx, 0, if IsTx(c.protocol, m) then MarkOffline(m) else m, n);
      } else {
        QueueOkReplace(c, peak, log, s.normal, sel.index, m, n);
        QueueOkReplace(c, peak, log, s.normal, sel.index, if IsTx(c.protocol, m) then MarkOffline(m) else m, n);
      }
    }
    if !ok && sel.FromNormal? && !Persistent(c, m) {
      assert !IsTx(c.protocol, s.normal[sel.index]);
      PoppedLife(c, peak, s.(normal := s.normal[sel.index := m], log := log), m, serial, n);
      assert log + [Refused(m), Popped(s.normal[sel.index := m][0])] == Undelivered(c, s, sel, m).log;
    }
  }

  /** The two entries that follow the failed send of a message that is not kept. */
  lemma PoppedLife(c: Config, peak: int, s: Store, m: Msg, serial: nat, n: nat)
    requires LifeInv(c, peak, s, serial, n) && s.normal != [] && TransactionOrder.NoTx(c.protocol, s.normal)
    requires m.serial == n ==> Origin(s.log, n) == Some(IdentityOf(m))
    ensures LifeInv(c, peak, s.(normal := s.normal[1..], log := s.log + [Refused(m), Popped(s.normal[0])]), serial, n)
  {
    hide Number, Origin, LogOk, QueueOk;
    SubQueue(c, peak, s.log, s.normal, 0, n);
    var t := s.(normal := s.normal[1..]);
    PlainKeeps(c, peak, t, Refused(m), serial, n);
    var u := t.(log := t.log + [Refused(m)]);
    PlainSame(s.log, Refused(m), n);
    PlainKeeps(c, peak, u, Popped(s.normal[0]), serial, n);
    assert u.log + [Popped(s.normal[0])] == s.log + [Refused(m), Popped(s.normal[0])];
  }

  /** Message n is handed to the transport and leaves its queue. */
  lemma DeliveredThis(c: Config, peak: int, s: Store, sel: Selection, m: Msg, serial: nat, n: nat)
    requires LifeInv(c, peak, s, serial, n) && Balance(s, serial, n)
    requires Tried(s, sel, m) && m.serial == n && s.inFlight.None?
    ensures LifeInv(c, peak, Delivered(s, sel, m), serial, n)
  {
    PickedAlone(c, peak, s, sel, serial, n);
    hide Number, Origin, QueueOk, Justified, Balance, Tally;
    var t := Delivered(s, sel, m);
    AddOne(s.log, Sent(m, true), n);
    LogOkAdd(c.protocol, s.log, Sent(m, true), n);
    NoneLeft(c, peak, t.log, t.tx, n);
    NoneLeft(c, peak, t.log, t.normal, n);
    hide LogOk;
  }

  /** Where message n is picked, no other message has its serial. */
  lemma PickedAlone(c: Config, peak: int, s: Store, sel: Selection, serial: nat, n: nat)
    requires LifeInv(c, peak, s, serial, n) && Balance(s, serial, n) && Selectable(s, sel) && Pick(s, sel).serial == n
    ensures sel.FromTx? ==> Tally(RemoveAt(s.tx, 0), Serial(n)) == 0 && Tally(s.tx[1..], Serial(n)) == 0 && Tally(s.normal, Serial(n)) == 0
    ensures sel.FromNormal? ==> Tally(s.tx, Serial(n)) == 0 && Tally(RemoveAt(s.normal, sel.index), Serial(n)) == 0
    ensures QueuedOk(c, peak, s.log, Pick(s, sel)) && n < serial
    ensures s.inFlight.Some? ==> s.inFlight.value.serial != n
  {
    hide Number, Origin, LogOk;
    if sel.FromTx? {
      TallySplit(s.tx, 0, Serial(n));
      assert RemoveAt(s.tx, 0) == s.tx[1..];
    } else {
      TallySplit(s.normal, sel.index, Serial(n));
    }
  }

  /** In a queue where k is the only place of serial n, only that place matters. */
  lemma ReplacedAlone(c: Config, peak: int, log: seq<Entry>, q: seq<Msg>, k: nat, m: Msg, n: nat)
    requires k < |q| && Tally(RemoveAt(q, k), Serial(n)) == 0 && (m.serial == n ==> QueuedOk(c, peak, log, m))
    ensures QueueOk(c, peak, log, q[k := m], n)
  {
    forall i | 0 <= i < |q| && i != k ensures q[i].serial != n {
      var j := if i < k then i else i - 1;
      assert RemoveAt(q, k)[j] == q[i];
      TallyZero(RemoveAt(q, k), n, j);
    }
    hide QueuedOk;
  }

  lemma RefusedLife(c: Config, peak: int, s: Store, sel: Selection, m: Msg, serial: nat, n: nat)
    requires Tried(s, sel, m) && sel.FromNormal? && !Persistent(c, m) && TransactionOrder.NoTx(c.protocol, s.normal)
    requires LifeInv(c, peak, s.(normal := s.normal[sel.index := m], log := s.log + [Sent(m, false)]), serial, n)
    requires Origin(s.log + [Sent(m, false)], n) == Some(IdentityOf(m))
    ensures LifeInv(c, peak, Undelivered(c, s, sel, m), serial, n)
  {
    hide LifeInv, Origin;
    var log := s.log + [Sent(m, false)];
    assert !IsTx(c.protocol, s.normal[sel.index]);
    PoppedLife(c, peak, s.(normal := s.normal[sel.index := m], log := log), m, serial, n);
    assert log + [Refused(m), Popped(s.normal[sel.index := m][0])] == Undelivered(c, s, sel, m).log;
  }

  /** A refused attempt counts, and leaves the delivery budget alone. */
  lemma BouncedCounts(c: Config, peak: int, s: Store, sel: Selection, m: Msg, serial: nat)
    requires Tried(s, sel, m) && QueuedOk(c, peak, s.log, Pick(s, sel)) && CountOk(c, peak, s.log, serial, m.serial)
    ensures var log := s.log + [Sent(m, false)];
      && QueuedOk(c, peak, log, m) && QueuedOk(c, peak, log, MarkOffline(m))
      && CountOk(c, peak, log, serial, m.serial) && Origin(log, m.serial) == Some(IdentityOf(m))
  {
    AddOne(s.log, Sent(m, false), m.serial);
    hide Number, Origin;
  }

  lemma BouncedThis(c: Config, peak: int, s: Store, sel: Selection, m: Msg, serial: nat, n: nat)
    requires LifeInv(c, peak, s, serial, n) && Balance(s, serial, n) && TransactionOrder.NoTx(c.protocol, s.normal)
    requires Tried(s, sel, m) && m.serial == n
    ensures LifeInv(c, peak, Undelivered(c, s, sel, m), serial, n)
  {
    PickedAlone(c, peak, s, sel, serial, n);
    var log := s.log + [Sent(m, false)];
    var kept := if IsTx(c.protocol, m) then MarkOffline(m) else m;
    LogOkAdd(c.protocol, s.log, Sent(m, false), n);
    BouncedCounts(c, peak, s, sel, m, serial);
    hide Number, Origin, QueueOk, Justified, Balance, Tally, LogOk, QueuedOk;
    if sel.FromTx? {
      NoneLeft(c, peak, log, s.normal, n);
      ReplacedAlone(c, peak, log, s.tx, 0, kept, n);
    } else {
      NoneLeft(c, peak, log, s.tx, n);
      ReplacedAlone(c, peak, log, s.normal, sel.index, kept, n);
      ReplacedAlone(c, peak, log, s.normal, sel.index, m, n);
      if !Persistent(c, m) {
        RefusedLife(c, peak, s, sel, m, serial, n);
      }
    }
  }

  lemma TransmitLife(c: Config, peak: int, s: Store, sel: Selection, m: Msg, ok: bool, serial: nat, n: nat)
    requires LifeInv(c, peak, s, serial, n) && Balance(s, serial, n) && TransactionOrder.NoTx(c.protocol, s.normal)
    requires Tried(s, sel, m) && s.inFlight.None?
    ensures LifeInv(c, peak, Transmit(c, s, sel, m, ok), serial, n)
  {
    hide LifeInv, Balance, Delivered, Undelivered;
    if m.serial != n {
      PickOther(c, peak, s, sel, m, ok, serial, n);
    } else if ok {
      DeliveredThis(c, peak, s, sel, m, serial, n);
    } else {
      BouncedThis(c, peak, s, sel, m, serial, n);
    }
  }

  lemma ResolveLife(c: Config, peak: int, s: Store, e: Entry, serial: nat, n: nat)
    requires LifeInv(c, peak, s, serial, n) && s.inFlight.Some?
    requires (e.Answered? || e.GivenUp? || e.Expired?) && e.m == s.inFlight.value && Justified(c.protocol, e)
    ensures LifeInv(c, peak, Resolve(c, s, e), serial, n)
  {
    hide Number, Origin, LogOk, QueueOk, Justified;
    PlainKeeps(c, peak, s, e, serial, n);
  }

  lemma RetryLife(c: Config, peak: int, s: Store, now: Instant, newId: MessageId, serial: nat, n: nat)
    requires LifeInv(c, peak, s, serial, n) && s.inFlight.Some? && Retries(c, s.inFlight.value)
    ensures LifeInv(c, peak, Retry(c, s, now, newId), serial, n)
  {
    var m := s.inFlight.value;
    var r := Renewed(c, m, now, newId);
    hide Number, Origin, LogOk, QueueOk;
    PlainKeeps(c, peak, s, Retried(m, newId), serial, n);
    var log := s.log + [Retried(m, newId)];
    PlainSame(s.log, Retried(m, newId), n);
    QueueOkPlus(c, peak, log, s.tx, r, n);
    QueueOkPlus(c, peak, log, s.normal, r, n);
  }

  lemma FailLife(c: Config, peak: int, s: Store, now: Instant, newId: MessageId, serial: nat, n: nat)
    requires LifeInv(c, peak, s, serial, n) && s.inFlight.Some?
    ensures LifeInv(c, peak, Fail(c, s, now, newId), serial, n)
  {
    hide LifeInv;
    var m := s.inFlight.value;
    if Retries(c, m) {
      RetryLife(c, peak, s, now, newId, serial, n);
    } else {
      ResolveLife(c, peak, s, if Persistent(c, m) then GivenUp(m, c.attempts) else Expired(m), serial, n);
    }
  }

  lemma SubstituteLife(c: Config, peak: int, s: Store, ids: seq<MessageId>, t: int, serial: nat, n: nat)
    requires LifeInv(c, peak, s, serial, n)
    ensures LifeInv(c, peak, s.(tx := SubstituteAll(s.tx, ids, t)), serial, n)
  {
    hide Number, Origin, LogOk, Tries, Within;
    var q := SubstituteAll(s.tx, ids, t);
    forall i | 0 <= i < |q| && q[i].serial == n ensures QueuedOk(c, peak, s.log, q[i]) {
      assert s.tx[i].serial == n;
    }
  }

  /** Changing the limits of a running queue never lowers what was already allowed. */
  lemma ReconfiguredLife(c: Config, peak: int, s: Store, c': Config, peak': int, serial: nat, n: nat)
    requires LifeInv(c, peak, s, serial, n)
    requires c' == c.(attempts := c'.attempts, retryInterval := c'.retryInterval) && c'.attempts <= peak' && peak <= peak'
    ensures LifeInv(c', peak', s, serial, n)
  {
    hide Number, Origin, LogOk, Tries;
  }

  // ---------------------------------------------------------------- start-up

  lemma {:induction false} AcceptAllOrigin(q: seq<Msg>, r: seq<Msg>, k: nat, n: nat)
    requires k <= |q + r| && Distinct(SerialsOf(q + r))
    ensures var l := (AcceptAll(q) + AcceptAll(r))[..k];
      && (forall j :: 0 <= j < k && (q + r)[j].serial == n ==> Origin(l, n) == Some(IdentityOf((q + r)[j])))
      && (Origin(l, n).Some? ==> exists j :: 0 <= j < k && (q + r)[j].serial == n)
  {
    if k > 0 {
      AcceptAllOrigin(q, r, k - 1, n);
      var l, qr := AcceptAll(q) + AcceptAll(r), q + r;
      assert l[..k] == l[..k - 1] + [l[k - 1]];
      assert l[k - 1] == Accepted(qr[k - 1]);
      AddOne(l[..k - 1], l[k - 1], n);
      forall j | 0 <= j < k - 1 ensures qr[j].serial != qr[k - 1].serial {
        assert SerialsOf(qr)[j] != SerialsOf(qr)[k - 1];
      }
    }
  }

  lemma AcceptAllAbout(q: seq<Msg>, r: seq<Msg>, n: nat)
    requires Distinct(SerialsOf(q + r))
    ensures var l := AcceptAll(q) + AcceptAll(r);
      forall i :: 0 <= i < |l| && About(l[i], n) ==> Origin(l, n) == Some(IdentityOf(l[i].m)) && l[i].Accepted?
  {
    var l, qr := AcceptAll(q) + AcceptAll(r), q + r;
    AcceptAllOrigin(q, r, |qr|, n);
    assert l[..|qr|] == l;
    assert forall i :: 0 <= i < |l| ==> l[i] == Accepted(qr[i]);
  }

  lemma AcceptedQueue(c: Config, q: seq<Msg>, r: seq<Msg>, n: nat)
    requires Distinct(SerialsOf(q + r)) && forall i :: 0 <= i < |q + r| ==> (q + r)[i].attempts == 0
    ensures var l := AcceptAll(q) + AcceptAll(r);
      && QueueOk(c, c.attempts, l, q, n) && QueueOk(c, c.attempts, l, r, n)
      && LogOk(c.protocol, l, n) && Tries(l, n) == 0
  {
    var l, qr := AcceptAll(q) + AcceptAll(r), q + r;
    assert l[..|qr|] == l;
    AcceptAllNumber(q, r, |qr|, Delivers, n);
    AcceptAllNumber(q, r, |qr|, Bounces, n);
    AcceptAllOrigin(q, r, |qr|, n);
    AcceptAllAbout(q, r, n);
    hide Number, Origin, Distinct, SerialsOf, AcceptAll;
    forall i | 0 <= i < |q| && q[i].serial == n ensures QueuedOk(c, c.attempts, l, q[i]) {
      assert qr[i] == q[i];
    }
    forall i | 0 <= i < |r| && r[i].serial == n ensures QueuedOk(c, c.attempts, l, r[i]) {
      assert qr[|q| + i] == r[i];
    }
  }

  lemma BootLife(c: Config, s: Store, serial: nat, used: set<MessageId>, ign: bool, n: nat)
    requires TransactionOrder.TxInv(c.protocol, s, serial, used)
    ensures LifeInv(c, c.attempts, BootStore(c, s.txTable, s.normalTable, ign), serial, n)
  {
    var b := BootStore(c, s.txTable, s.normalTable, ign);
    var q := b.normal + b.tx;
    LoadedDistinct(c.protocol, s, serial, used, ign);
    LoadedUntried(c.protocol, s, serial, used, ign);
    AcceptedQueue(c, b.normal, b.tx, n);
    AcceptAllOrigin(b.normal, b.tx, |q|, n);
    assert b.log[..|q|] == b.log;
    hide TransactionOrder.TxInv, Load, Purge, Number, Origin, QueueOk, LogOk, Distinct, SerialsOf;
  }

  lemma LoadedUntried(p: Protocol, s: Store, serial: nat, used: set<MessageId>, ign: bool)
    requires TransactionOrder.TxInv(p, s, serial, used)
    ensures var q := Load(s.normalTable, ign) + Load(s.txTable, ign); forall i :: 0 <= i < |q| ==> q[i].attempts == 0
  {
    var a, b := Load(s.normalTable, ign), Load(s.txTable, ign);
    var ka, kb := TransactionOrder.KeptRows(s.normalTable, ign), TransactionOrder.KeptRows(s.txTable, ign);
    TransactionOrder.LoadIsKept(s.normalTable, ign);
    TransactionOrder.LoadIsKept(s.txTable, ign);
    TransactionOrder.LoadNormal(p, s.normalTable, serial, used, ign);
    TransactionOrder.LoadTracked(p, TransactionOrder.TxAll(p, s), s.txTable, serial, used, ign);
    hide TransactionOrder.TxInv, Load;
    var q := a + b;
    forall i | 0 <= i < |q| ensures q[i].attempts == 0 {
      if i < |a| {
        assert TransactionOrder.RowOk(ka[i], serial, used);
      } else {
        assert TransactionOrder.RowOk(kb[i - |a|], serial, used);
      }
    }
  }

  // ---------------------------------------------------------------- every run

  /** The three invariants that carry each other through a run. */
  predicate Sound(s: State, n: nat) {
    LifeOk(s, n) && LedgerAt(s, n, 0) && TransactionOrder.TxOk(s)
  }

  lemma QuietLife(s: State, e: Event, n: nat)
    requires Sound(s, n) && Enabled(s, e) && Quiet(e)
    ensures LifeOk(Next(s, e), n)
  {
    QuietStep(s, e);
    hide Next, TransactionOrder.TxOk, LedgerAt;
    var t := Next(s, e);
    assert s.config.attempts <= s.peak;
    hide LifeInv;
    if t.store != s.store {
      var x :| IsNote(x) && t.store == s.store.(log := s.store.log + [x]);
      PlainKeeps(s.config, s.peak, s.store, x, s.serial, n);
    }
    ReconfiguredLife(s.config, s.peak, t.store, t.config, t.peak, s.serial, n);
  }

  lemma WorkerLife(s: State, now: Instant, ok: bool, n: nat)
    requires Sound(s, n)
    ensures LifeOk(WorkerPass(s, now, ok), n)
  {
    if Attempts(s, now) {
      var sel := Choice(s, now);
      var m := Prepare(s.control.stopIds, Pick(s.store, sel));
      hide LifeInv, Transmit, Balance;
      TransmitLife(s.config, s.peak, s.store, sel, m, ok, s.serial, n);
    }
  }

  lemma ReplyLife(s: State, e: Event, n: nat)
    requires Sound(s, n) && Enabled(s, e) && (e.ReceiveResult? || e.ReceiveError?)
    ensures LifeOk(Next(s, e), n)
  {
    hide LifeInv, LedgerAt, TransactionOrder.TxOk;
    var t := ClearGate(s, e.id);
    PlainKeeps(s.config, s.peak, s.store, ReplyReceived(e.id), s.serial, n);
    if Matches(s, e.id) {
      if e.ReceiveResult? {
        ResolveLife(s.config, s.peak, t.store, Answered(s.store.inFlight.value), s.serial, n);
      } else {
        FailLife(s.config, s.peak, t.store, e.now, e.newId, s.serial, n);
      }
    }
  }

  lemma PushLife(s: State, call: Call, stall: bool, now: Instant, n: nat)
    requires Sound(s, n) && call.id !in s.used
    ensures LifeOk(Push(s, call, stall, now), n) && LifeOk(PushAsync(s, call, now), n)
  {
    var m, r := NewMsg(s.serial, call, stall, now), NewMsg(s.serial, call, false, now);
    InsertLife(s.config, s.peak, s.store, m, s.serial, n);
    InsertLife(s.config, s.peak, s.store, r, s.serial, n);
    RejectLife(s, r, n);
    hide LifeInv, Insert, LedgerAt, TransactionOrder.TxOk;
  }

  lemma RejectLife(s: State, m: Msg, n: nat)
    requires LifeOk(s, n)
    ensures LifeOk(Reject(s, m), n)
  {
    hide Number, Origin, LogOk, QueueOk, Justified;
    PlainKeeps(s.config, s.peak, s.store, Offline(m), s.serial, n);
  }

  lemma NextLife(s: State, e: Event, n: nat)
    requires Sound(s, n) && Enabled(s, e)
    ensures LifeOk(Next(s, e), n)
  {
    if Quiet(e) {
      QuietLife(s, e, n);
    } else if e.ReceiveResult? || e.ReceiveError? {
      ReplyLife(s, e, n);
    } else {
      hide LifeInv, LedgerAt, TransactionOrder.TxInv, Push, PushAsync, WorkerPass, Fail, BootStore;
      match e
      case PushCall(call, stall, now) => PushLife(s, call, stall, now, n);
      case PushCallAsync(call, now) => PushLife(s, call, false, now, n);
      case Timeout(now, newId) => FailLife(s.config, s.peak, s.store, now, newId, s.serial, n);
      case Worker(now, ok) => WorkerLife(s, now, ok, n);
      case StartHandled(start, t) =>
        if start in s.control.meterIds {
          SubstituteLife(s.config, s.peak, s.store, s.control.meterIds[start], t, s.serial, n);
        }
      case Crash(config, ign) => BootLife(config, s.store, s.serial, s.used, ign, n);
    }
  }

  lemma NextSound(s: State, e: Event, n: nat)
    requires Sound(s, n) && Enabled(s, e)
    ensures Sound(Next(s, e), n)
  {
    hide LifeOk, LedgerAt, TransactionOrder.TxOk, Next, Enabled;
    NextLife(s, e, n);
    NextAt(s, e, n, 0);
    TransactionOrder.NextKeepsTx(s, e);
  }

  lemma {:induction false} RunSound(s: State, events: seq<Event>, n: nat)
    requires Sound(s, n) && Legal(s, events)
    ensures Sound(Run(s, events), n)
    decreases |events|
  {
    hide Sound, Next, Enabled;
    if events != [] {
      NextSound(s, events[0], n);
      RunSound(Next(s, events[0]), events[1..], n);
    }
  }

  lemma InitialSound(config: Config, n: nat)
    ensures Sound(Initial(config), n)
  {
    TransactionOrder.InitialTx(config);
    hide TransactionOrder.TxInv, LifeInv;
    BootLife(config, Initial(config).store, 0, {}, false, n);
    assert BootStore(config, [], [], false) == Initial(config).store;
    assert LedgerAt(Initial(config), n, 0);
  }

  lemma ReachedSound(config: Config, events: seq<Event>, n: nat)
    requires Legal(Initial(config), events)
    ensures Sound(Reached(config, events), n)
  {
    InitialSound(config, n);
    hide Sound, Initial;
    RunSound(Initial(config), events, n);
  }
}
