/** When retries are due. */
module Backoff {
  import opened Messages
  import opened QueueSpec
  import opened Overflow
  import opened Ledger
  import opened Delivery
  import TransactionOrder

  // With a constant retry interval R, the k-th retry is not due before t0 + R * (1 + 2 + ... + k).

  function Triangle(k: nat): nat {
    if k == 0 then 0 else Triangle(k - 1) + k
  }

  lemma {:induction false} TriangleClosed(k: nat)
    ensures 2 * Triangle(k) == k * (k + 1)
  {
    if k > 0 {
      TriangleClosed(k - 1);
    }
  }

  /** The time before which the message accepted under serial n was not to be sent. */
  function StartTime(log: seq<Entry>, n: nat): Instant {
    if log == [] then 0
    else if log[|log| - 1].Accepted? && log[|log| - 1].m.serial == n then log[|log| - 1].m.timestamp
    else StartTime(log[..|log| - 1], n)
  }

  /** Every delivery but a pending one led to a retry; the waiting times add up,
      and exactly so if the transport never refused the message. */
  predicate Delayed(interval: int, log: seq<Entry>, m: Msg, open: nat) {
    var n := m.serial;
    var k := Number(log, Renews, n);
    && Number(log, Delivers, n) == k + open
    && m.timestamp >= StartTime(log, n) + interval * Triangle(k)
    && (Number(log, Bounces, n) == 0 ==> m.timestamp == StartTime(log, n) + interval * Triangle(k))
  }

  predicate QueueDelayed(c: Config, log: seq<Entry>, q: seq<Msg>, n: nat) {
    forall i :: 0 <= i < |q| && q[i].serial == n && Persistent(c, q[i]) ==> Delayed(c.retryInterval, log, q[i], 0)
  }

  predicate BackInv(c: Config, s: Store, serial: nat, n: nat) {
    && c.retryInterval > 0
    && QueueDelayed(c, s.log, s.tx, n)
    && QueueDelayed(c, s.log, s.normal, n)
    && (s.inFlight.Some? && s.inFlight.value.serial == n && Persistent(c, s.inFlight.value) ==>
          Delayed(c.retryInterval, s.log, s.inFlight.value, 1))
    && (n >= serial ==> Number(s.log, Renews, n) == 0)
  }

  predicate SameTimes(log: seq<Entry>, log': seq<Entry>, n: nat) {
    StartTime(log', n) == StartTime(log, n) && Number(log', Renews, n) == Number(log, Renews, n) &&
    Number(log', Delivers, n) == Number(log, Delivers, n) && Number(log', Bounces, n) == Number(log, Bounces, n)
  }

  predicate Unrelated(e: Entry, n: nat) {
    (!e.Accepted? && !e.Sent? && !e.Retried?) || (!IsNote(e) && e.m.serial != n)
  }

  lemma TimesAdd(log: seq<Entry>, e: Entry, n: nat)
    ensures Number(log + [e], Renews, n) == Number(log, Renews, n) + Counts(e, Renews, n)
    ensures Number(log + [e], Delivers, n) == Number(log, Delivers, n) + Counts(e, Delivers, n)
    ensures Number(log + [e], Bounces, n) == Number(log, Bounces, n) + Counts(e, Bounces, n)
    ensures StartTime(log + [e], n) == if e.Accepted? && e.m.serial == n then e.m.timestamp else StartTime(log, n)
    ensures Unrelated(e, n) ==> SameTimes(log, log + [e], n)
  {
    LogAdd(log, e, Renews, n);
    LogAdd(log, e, Delivers, n);
    LogAdd(log, e, Bounces, n);
    assert (log + [e])[..|log|] == log;
  }

  lemma BackSame(c: Config, s: Store, log: seq<Entry>, serial: nat, n: nat)
    requires BackInv(c, s, serial, n) && SameTimes(s.log, log, n)
    ensures BackInv(c, s.(log := log), serial, n)
  {
    hide Number, StartTime, Persistent;
  }

  lemma UnrelatedKeeps(c: Config, s: Store, e: Entry, serial: nat, n: nat)
    requires BackInv(c, s, serial, n) && Unrelated(e, n)
    ensures BackInv(c, s.(log := s.log + [e]), serial, n)
  {
    hide BackInv, SameTimes, Unrelated;
    TimesAdd(s.log, e, n);
    BackSame(c, s, s.log + [e], serial, n);
  }

  lemma SubQueueDelayed(c: Config, log: seq<Entry>, q: seq<Msg>, i: nat, n: nat)
    requires QueueDelayed(c, log, q, n) && i < |q|
    ensures QueueDelayed(c, log, RemoveAt(q, i), n) && QueueDelayed(c, log, q[1..], n)
  {
    hide Delayed, Persistent;
    var r := RemoveAt(q, i);
    assert forall k :: 0 <= k < |r| ==> r[k] == q[if k < i then k else k + 1];
  }

  lemma PlusDelayed(c: Config, log: seq<Entry>, q: seq<Msg>, m: Msg, n: nat)
    requires QueueDelayed(c, log, q, n) && (m.serial == n && Persistent(c, m) ==> Delayed(c.retryInterval, log, m, 0))
    ensures QueueDelayed(c, log, q + [m], n) && QueueDelayed(c, log, [m] + q, n)
  {
    hide Delayed, Persistent;
  }

  lemma ReplaceDelayed(c: Config, log: seq<Entry>, q: seq<Msg>, k: nat, m: Msg, n: nat)
    requires QueueDelayed(c, log, q, n) && k < |q|
    requires m.serial == n && Persistent(c, m) ==> Delayed(c.retryInterval, log, m, 0)
    ensures QueueDelayed(c, log, q[k := m], n)
  {
    hide Delayed, Persistent;
  }

  lemma NoneDelayed(c: Config, log: seq<Entry>, q: seq<Msg>, n: nat)
    requires Tally(q, Serial(n)) == 0
    ensures QueueDelayed(c, log, q, n)
  {
    hide Delayed, Persistent;
    forall i | 0 <= i < |q| ensures q[i].serial != n { TallyZero(q, n, i); }
  }

  /** In a queue where k is the only place of serial n, only that place matters. */
  lemma AloneDelayed(c: Config, log: seq<Entry>, q: seq<Msg>, k: nat, m: Msg, n: nat)
    requires k < |q| && Tally(RemoveAt(q, k), Serial(n)) == 0
    requires m.serial == n && Persistent(c, m) ==> Delayed(c.retryInterval, log, m, 0)
    ensures QueueDelayed(c, log, q[k := m], n)
  {
    hide Delayed, Persistent;
    forall i | 0 <= i < |q| && i != k ensures q[i].serial != n {
      var j := if i < k then i else i - 1;
      assert RemoveAt(q, k)[j] == q[i];
      TallyZero(RemoveAt(q, k), n, j);
    }
  }

  lemma OverflowBack(c: Config, s: Store, serial: nat, n: nat)
    requires BackInv(c, s, serial, n)
    ensures BackInv(c, CheckQueueSizes(c, s), serial, n)
  {
    hide Number, StartTime, QueueDelayed, Delayed;
    var P := (t: Store) => BackInv(c, t, serial, n);
    forall t: Store | P(t) && t.normal != [] ensures P(DropFront(c, t)) {
      SubQueueDelayed(c, t.log, t.normal, 0, n);
      UnrelatedKeeps(c, t.(normal := t.normal[1..]), Overflowed(t.normal[0]), serial, n);
    }
    forall t: Store, i: nat | P(t) && i < |t.tx| && Droppable(c, t, i) ensures P(DropUpdate(t, i)) {
      SubQueueDelayed(c, t.log, t.tx, i, n);
      UnrelatedKeeps(c, t.(tx := RemoveAt(t.tx, i)), Overflowed(t.tx[i]), serial, n);
    }
    OverflowKeeps(P, c, s);
  }

  lemma InsertBack(c: Config, peak: int, s: Store, m: Msg, serial: nat, n: nat)
    requires BackInv(c, s, serial, n) && LifeInv(c, peak, s, serial, n) && Balance(s, serial, n) && m.serial == serial
    ensures BackInv(c, Insert(c, s, m), serial + 1, n)
  {
    var t := if IsTx(c.protocol, m) then InsertTx(s, m) else InsertNormal(c, s, m);
    var log := s.log + [Accepted(m)];
    TimesAdd(s.log, Accepted(m), n);
    if n == serial {
      Unknown(c, peak, s, serial);
      NoneDelayed(c, log, s.tx, n);
      NoneDelayed(c, log, s.normal, n);
      assert Delayed(c.retryInterval, log, m, 0);
    } else {
      UnrelatedKeeps(c, s, Accepted(m), serial, n);
    }
    hide Number, StartTime, QueueDelayed, Delayed, LifeInv, Balance, CheckQueueSizes;
    PlusDelayed(c, log, s.tx, m, n);
    PlusDelayed(c, log, s.normal, m, n);
    assert BackInv(c, t, serial + 1, n);
    OverflowBack(c, t, serial + 1, n);
  }

  lemma PickedDelayed(c: Config, s: Store, sel: Selection, serial: nat, n: nat)
    requires BackInv(c, s, serial, n) && Selectable(s, sel) && Pick(s, sel).serial == n && Persistent(c, Pick(s, sel))
    ensures Delayed(c.retryInterval, s.log, Pick(s, sel), 0)
  {
    hide Delayed;
  }

  lemma DeliveredBack(c: Config, peak: int, s: Store, sel: Selection, m: Msg, serial: nat, n: nat)
    requires BackInv(c, s, serial, n) && LifeInv(c, peak, s, serial, n) && Balance(s, serial, n)
    requires Tried(s, sel, m) && m.timestamp == Pick(s, sel).timestamp && s.inFlight.None?
    ensures BackInv(c, Delivered(s, sel, m), serial, n)
  {
    var log := s.log + [Sent(m, true)];
    TimesAdd(s.log, Sent(m, true), n);
    if m.serial == n {
      PickedAlone(c, peak, s, sel, serial, n);
      if Persistent(c, m) {
        PickedDelayed(c, s, sel, serial, n);
        assert Delayed(c.retryInterval, log, m, 1);
      }
      hide Number, StartTime, QueueDelayed, Delayed, LifeInv, Balance, Tally;
      var t := Delivered(s, sel, m);
      NoneDelayed(c, log, t.tx, n);
      NoneDelayed(c, log, t.normal, n);
    } else {
      UnrelatedKeeps(c, s, Sent(m, true), serial, n);
      hide Number, StartTime, QueueDelayed, Delayed, LifeInv, Balance;
      if sel.FromTx? { SubQueueDelayed(c, log, s.tx, 0, n); } else { SubQueueDelayed(c, log, s.normal, sel.index, n); }
    }
  }

  /** A failed send changes neither the due time of the message nor its bound. */
  lemma BouncedDelay(c: Config, s: Store, sel: Selection, m: Msg, serial: nat, n: nat)
    requires BackInv(c, s, serial, n) && Tried(s, sel, m) && m.timestamp == Pick(s, sel).timestamp && m.serial == n
    ensures var log := s.log + [Sent(m, false)];
      Persistent(c, m) ==> Delayed(c.retryInterval, log, m, 0) && Delayed(c.retryInterval, log, MarkOffline(m), 0)
  {
    TimesAdd(s.log, Sent(m, false), n);
    if Persistent(c, m) {
      PickedDelayed(c, s, sel, serial, n);
      hide BackInv, Number, StartTime;
    }
  }

  lemma BouncedBack(c: Config, peak: int, s: Store, sel: Selection, m: Msg, serial: nat, n: nat)
    requires BackInv(c, s, serial, n) && LifeInv(c, peak, s, serial, n) && Balance(s, serial, n)
    requires Tried(s, sel, m) && m.timestamp == Pick(s, sel).timestamp
    ensures var q := if sel.FromTx? then s.tx else s.normal;
      var k := if sel.FromTx? then 0 else sel.index;
      var log := s.log + [Sent(m, false)];
      QueueDelayed(c, log, q[k := m], n) && QueueDelayed(c, log, q[k := MarkOffline(m)], n) &&
      QueueDelayed(c, log, if sel.FromTx? then s.normal else s.tx, n) && SameStarts(s.log, log, n)
  {
    var q := if sel.FromTx? then s.tx else s.normal;
    var k := if sel.FromTx? then 0 else sel.index;
    var log := s.log + [Sent(m, false)];
    TimesAdd(s.log, Sent(m, false), n);
    if m.serial == n {
      PickedAlone(c, peak, s, sel, serial, n);
      BouncedDelay(c, s, sel, m, serial, n);
      hide Number, StartTime, QueueDelayed, Delayed, LifeInv, Balance, Tally;
      AloneDelayed(c, log, q, k, m, n);
      AloneDelayed(c, log, q, k, MarkOffline(m), n);
      NoneDelayed(c, log, if sel.FromTx? then s.normal else s.tx, n);
    } else {
      UnrelatedKeeps(c, s, Sent(m, false), serial, n);
      hide Number, StartTime, QueueDelayed, Delayed, LifeInv, Balance;
      ReplaceDelayed(c, log, q, k, m, n);
      ReplaceDelayed(c, log, q, k, MarkOffline(m), n);
    }
  }

  predicate SameStarts(log: seq<Entry>, log': seq<Entry>, n: nat) {
    Number(log', Renews, n) == Number(log, Renews, n)
  }

  lemma UndeliveredBack(c: Config, peak: int, s: Store, sel: Selection, m: Msg, serial: nat, n: nat)
    requires BackInv(c, s, serial, n) && LifeInv(c, peak, s, serial, n) && Balance(s, serial, n)
    requires Tried(s, sel, m) && m.timestamp == Pick(s, sel).timestamp && s.inFlight.None?
    ensures BackInv(c, Undelivered(c, s, sel, m), serial, n)
  {
    BouncedBack(c, peak, s, sel, m, serial, n);
    hide Number, StartTime, QueueDelayed, Delayed, LifeInv, Balance;
    var log := s.log + [Sent(m, false)];
    if sel.FromNormal? && !Persistent(c, m) {
      var q := s.normal[sel.index := m];
      var t := s.(normal := q[1..], log := log);
      SubQueueDelayed(c, log, q, 0, n);
      UnrelatedKeeps(c, t, Refused(m), serial, n);
      UnrelatedKeeps(c, t.(log := log + [Refused(m)]), Popped(q[0]), serial, n);
      assert log + [Refused(m)] + [Popped(q[0])] == Undelivered(c, s, sel, m).log;
    }
  }

  lemma ResolveBack(c: Config, s: Store, e: Entry, serial: nat, n: nat)
    requires BackInv(c, s, serial, n) && s.inFlight.Some? && Unrelated(e, n)
    ensures BackInv(c, Resolve(c, s, e), serial, n)
  {
    hide Number, StartTime, QueueDelayed, Delayed, Unrelated;
    UnrelatedKeeps(c, s, e, serial, n);
  }

  lemma Distribute(r: int, a: int, b: int)
    ensures r * a + r * b == r * (a + b)
  {
  }

  /** The k-th retry delays the message by R * (k + f), f being its failed sends so far. */
  lemma RetryDelay(c: Config, peak: int, s: Store, m: Msg, now: Instant, newId: MessageId)
    requires c.retryInterval > 0 && Persistent(c, m) && FlightOk(c, s.log, m) && Delayed(c.retryInterval, s.log, m, 1)
    ensures Delayed(c.retryInterval, s.log + [Retried(m, newId)], Renewed(c, m, now, newId), 0)
    ensures Renewed(c, m, now, newId).timestamp - m.timestamp ==
      c.retryInterval * (Number(s.log, Renews, m.serial) + 1 + Number(s.log, Bounces, m.serial))
  {
    var n, r := m.serial, c.retryInterval;
    var k := Number(s.log, Renews, n);
    TimesAdd(s.log, Retried(m, newId), n);
    assert m.attempts == k + 1 + Number(s.log, Bounces, n);
    assert Triangle(k + 1) == Triangle(k) + (k + 1);
    Distribute(r, Triangle(k), k + 1);
    Distribute(r, k + 1, Number(s.log, Bounces, n));
    assert r * Number(s.log, Bounces, n) >= 0;
  }

  lemma RetryBack(c: Config, peak: int, s: Store, now: Instant, newId: MessageId, serial: nat, n: nat)
    requires BackInv(c, s, serial, n) && LifeInv(c, peak, s, serial, n) && Balance(s, serial, n) && s.inFlight.Some?
    ensures BackInv(c, Retry(c, s, now, newId), serial, n)
  {
    var m := s.inFlight.value;
    var r := Renewed(c, m, now, newId);
    var log := s.log + [Retried(m, newId)];
    TimesAdd(s.log, Retried(m, newId), n);
    if m.serial == n {
      if Persistent(c, m) { RetryDelay(c, peak, s, m, now, newId); }
      FlightAlone(s, serial, n);
      hide Number, StartTime, QueueDelayed, Delayed, Tally, LogOk, QueueOk;
      NoneDelayed(c, log, s.tx, n);
      NoneDelayed(c, log, s.normal, n);
      FlightKnown(c, peak, s, serial, n);
    } else {
      UnrelatedKeeps(c, s, Retried(m, newId), serial, n);
    }
    hide Number, StartTime, QueueDelayed, Delayed, LifeInv, Balance;
    PlusDelayed(c, log, s.tx, r, n);
    PlusDelayed(c, log, s.normal, r, n);
  }

  lemma FlightAlone(s: Store, serial: nat, n: nat)
    requires Balance(s, serial, n) && s.inFlight.Some? && s.inFlight.value.serial == n
    ensures Tally(s.tx, Serial(n)) == 0 && Tally(s.normal, Serial(n)) == 0 && n < serial
  {
    hide Number;
  }

  lemma FlightKnown(c: Config, peak: int, s: Store, serial: nat, n: nat)
    requires LifeInv(c, peak, s, serial, n) && s.inFlight.Some? && s.inFlight.value.serial == n
    ensures n < serial
  {
    hide Number, Origin;
  }

  lemma FailBack(c: Config, peak: int, s: Store, now: Instant, newId: MessageId, serial: nat, n: nat)
    requires BackInv(c, s, serial, n) && LifeInv(c, peak, s, serial, n) && Balance(s, serial, n) && s.inFlight.Some?
    ensures BackInv(c, Fail(c, s, now, newId), serial, n)
  {
    hide BackInv, LifeInv, Balance;
    var m := s.inFlight.value;
    if Retries(c, m) {
      RetryBack(c, peak, s, now, newId, serial, n);
    } else {
      ResolveBack(c, s, if Persistent(c, m) then GivenUp(m, c.attempts) else Expired(m), serial, n);
    }
  }

  lemma SubstituteBack(c: Config, s: Store, ids: seq<MessageId>, t: int, serial: nat, n: nat)
    requires BackInv(c, s, serial, n)
    ensures BackInv(c, s.(tx := SubstituteAll(s.tx, ids, t)), serial, n)
  {
    hide Number, StartTime;
    var q := SubstituteAll(s.tx, ids, t);
    forall i | 0 <= i < |q| && q[i].serial == n && Persistent(c, q[i]) ensures Delayed(c.retryInterval, s.log, q[i], 0) {
      assert s.tx[i].serial == n && Persistent(c, s.tx[i]);
    }
  }

  // ---------------------------------------------------------------- start-up

  lemma {:induction false} AcceptAllStart(q: seq<Msg>, r: seq<Msg>, k: nat, n: nat)
    requires k <= |q + r| && Distinct(SerialsOf(q + r))
    ensures forall j :: 0 <= j < k && (q + r)[j].serial == n ==>
      StartTime((AcceptAll(q) + AcceptAll(r))[..k], n) == (q + r)[j].timestamp
  {
    if k > 0 {
      AcceptAllStart(q, r, k - 1, n);
      var l, qr := AcceptAll(q) + AcceptAll(r), q + r;
      assert l[..k] == l[..k - 1] + [l[k - 1]];
      assert l[k - 1] == Accepted(qr[k - 1]);
      TimesAdd(l[..k - 1], l[k - 1], n);
      forall j | 0 <= j < k - 1 ensures qr[j].serial != qr[k - 1].serial {
        assert SerialsOf(qr)[j] != SerialsOf(qr)[k - 1];
      }
    }
  }

  lemma AcceptedDelayed(c: Config, q: seq<Msg>, r: seq<Msg>, n: nat)
    requires Distinct(SerialsOf(q + r))
    ensures var l := AcceptAll(q) + AcceptAll(r);
      QueueDelayed(c, l, q, n) && QueueDelayed(c, l, r, n) && Number(l, Renews, n) == 0
  {
    var l, qr := AcceptAll(q) + AcceptAll(r), q + r;
    assert l[..|qr|] == l;
    AcceptAllNumber(q, r, |qr|, Renews, n);
    AcceptAllNumber(q, r, |qr|, Delivers, n);
    AcceptAllStart(q, r, |qr|, n);
    hide Number, StartTime, Distinct, SerialsOf, AcceptAll, Persistent;
    forall i | 0 <= i < |q| && q[i].serial == n ensures Delayed(c.retryInterval, l, q[i], 0) { assert qr[i] == q[i]; }
    forall i | 0 <= i < |r| && r[i].serial == n ensures Delayed(c.retryInterval, l, r[i], 0) { assert qr[|q| + i] == r[i]; }
  }

  lemma BootBack(c: Config, s: Store, serial: nat, used: set<MessageId>, ign: bool, n: nat)
    requires TransactionOrder.TxInv(c.protocol, s, serial, used) && c.retryInterval > 0
    ensures BackInv(c, BootStore(c, s.txTable, s.normalTable, ign), serial, n)
  {
    var b := BootStore(c, s.txTable, s.normalTable, ign);
    LoadedDistinct(c.protocol, s, serial, used, ign);
    AcceptedDelayed(c, b.normal, b.tx, n);
    hide TransactionOrder.TxInv, Load, Purge, Number, StartTime, QueueDelayed, Distinct, SerialsOf;
  }

  // ---------------------------------------------------------------- runs

  predicate BackOk(s: State, n: nat) {
    BackInv(s.config, s.store, s.serial, n)
  }

  /** The retry interval does not change. */
  predicate ConstantInterval(e: Event, interval: int) {
    (e.SetRetryInterval? ==> e.interval == interval) && (e.Crash? ==> e.config.retryInterval == interval)
  }

  lemma QuietBack(s: State, e: Event, n: nat)
    requires BackOk(s, n) && Enabled(s, e) && Quiet(e) && ConstantInterval(e, s.config.retryInterval)
    ensures BackOk(Next(s, e), n)
  {
    QuietStep(s, e);
    KeepsInterval(s, e);
    hide Next, Number, StartTime, Enabled;
    var t := Next(s, e);
    if t.store != s.store {
      var x :| IsNote(x) && t.store == s.store.(log := s.store.log + [x]);
      UnrelatedKeeps(s.config, s.store, x, s.serial, n);
    }
    hide Delayed;
  }

  lemma KeepsInterval(s: State, e: Event)
    requires Enabled(s, e) && ConstantInterval(e, s.config.retryInterval)
    ensures Next(s, e).config.retryInterval == s.config.retryInterval
  {
  }

  lemma WorkerBack(s: State, now: Instant, ok: bool, n: nat)
    requires BackOk(s, n) && Sound(s, n)
    ensures BackOk(WorkerPass(s, now, ok), n)
  {
    if Attempts(s, now) {
      var sel := Choice(s, now);
      var m := Prepare(s.control.stopIds, Pick(s.store, sel));
      hide BackInv, LifeInv, Balance, Delivered, Undelivered;
      if ok {
        DeliveredBack(s.config, s.peak, s.store, sel, m, s.serial, n);
      } else {
        UndeliveredBack(s.config, s.peak, s.store, sel, m, s.serial, n);
      }
    }
  }

  lemma ReplyBack(s: State, e: Event, n: nat)
    requires BackOk(s, n) && Sound(s, n) && Enabled(s, e) && (e.ReceiveResult? || e.ReceiveError?)
    ensures BackOk(Next(s, e), n)
  {
    var t := ClearGate(s, e.id);
    UnrelatedKeeps(s.config, s.store, ReplyReceived(e.id), s.serial, n);
    ClearGateAt(s, e.id, n, 0);
    hide BackInv, LifeInv, Balance;
    PlainKeeps(s.config, s.peak, s.store, ReplyReceived(e.id), s.serial, n);
    if Matches(s, e.id) {
      if e.ReceiveResult? {
        ResolveBack(s.config, t.store, Answered(s.store.inFlight.value), s.serial, n);
      } else {
        FailBack(s.config, s.peak, t.store, e.now, e.newId, s.serial, n);
      }
    }
  }

  lemma PushBack(s: State, m: Msg, n: nat)
    requires BackOk(s, n) && Sound(s, n) && m.serial == s.serial
    ensures BackOk(Accept(s, m), n)
  {
    hide BackInv, LifeInv, Balance, Insert;
    InsertBack(s.config, s.peak, s.store, m, s.serial, n);
  }

  lemma RejectBack(s: State, m: Msg, n: nat)
    requires BackOk(s, n)
    ensures BackOk(Reject(s, m), n)
  {
    hide Number, StartTime, QueueDelayed, Delayed;
    UnrelatedKeeps(s.config, s.store, Offline(m), s.serial, n);
  }

  lemma NextBack(s: State, e: Event, n: nat)
    requires BackOk(s, n) && Sound(s, n) && Enabled(s, e) && ConstantInterval(e, s.config.retryInterval)
    ensures BackOk(Next(s, e), n)
  {
    if Quiet(e) {
      QuietBack(s, e, n);
    } else if e.ReceiveResult? || e.ReceiveError? {
      ReplyBack(s, e, n);
    } else {
      assert s.config.retryInterval > 0;
      hide BackInv, LifeInv, Balance, TransactionOrder.TxInv, Accept, Reject, WorkerPass, Fail, BootStore;
      match e
      case PushCall(call, stall, now) => PushBack(s, NewMsg(s.serial, call, stall, now), n);
      case PushCallAsync(call, now) =>
        PushBack(s, NewMsg(s.serial, call, false, now), n);
        RejectBack(s, NewMsg(s.serial, call, false, now), n);
      case Timeout(now, newId) => FailBack(s.config, s.peak, s.store, now, newId, s.serial, n);
      case Worker(now, ok) => WorkerBack(s, now, ok, n);
      case StartHandled(start, t) =>
        if start in s.control.meterIds {
          SubstituteBack(s.config, s.store, s.control.meterIds[start], t, s.serial, n);
        }
      case Crash(config, ign) => BootBack(config, s.store, s.serial, s.used, ign, n);
    }
  }

  predicate ConstantRun(events: seq<Event>, interval: int) {
    forall i :: 0 <= i < |events| ==> ConstantInterval(events[i], interval)
  }

  lemma {:induction false} RunBack(s: State, events: seq<Event>, n: nat)
    requires BackOk(s, n) && Sound(s, n) && Legal(s, events) && ConstantRun(events, s.config.retryInterval)
    ensures BackOk(Run(s, events), n) && Run(s, events).config.retryInterval == s.config.retryInterval
    decreases |events|
  {
    hide BackOk, Sound, Next, Enabled, ConstantInterval;
    if events != [] {
      NextBack(s, events[0], n);
      NextSound(s, events[0], n);
      KeepsInterval(s, events[0]);
      RunBack(Next(s, events[0]), events[1..], n);
    }
  }

  lemma InitialBack(config: Config, n: nat)
    requires config.retryInterval > 0
    ensures BackOk(Initial(config), n)
  {
  }

  /** After k retries the message is not due before its first due time plus
      R * k * (k + 1) / 2, and exactly then if every attempt reached the transport. */
  predicate OnSchedule(interval: int, log: seq<Entry>, m: Msg) {
    var k := Number(log, Renews, m.serial);
    var waited := m.timestamp - StartTime(log, m.serial);
    2 * waited >= interval * (k * (k + 1)) &&
    (Number(log, Bounces, m.serial) == 0 ==> 2 * waited == interval * (k * (k + 1)))
  }

  /** In every run with a constant positive interval, every queued transaction message is on schedule. */
  lemma RetryTimes(config: Config, events: seq<Event>, i: nat)
    requires Legal(Initial(config), events) && config.retryInterval > 0 && ConstantRun(events, config.retryInterval)
    requires i < |Reached(config, events).store.tx|
    ensures var s := Reached(config, events).store; OnSchedule(config.retryInterval, s.log, s.tx[i])
  {
    hide OnSchedule, BackOk, Sound, Run, Legal;
    var m := Reached(config, events).store.tx[i];
    InitialBack(config, m.serial);
    InitialSound(config, m.serial);
    hide Initial;
    RunBack(Initial(config), events, m.serial);
    TransactionOrder.ReachedTx(config, events);
    RetryTime(Reached(config, events), config.retryInterval, i);
  }

  lemma RetryTime(s: State, interval: int, i: nat)
    requires i < |s.store.tx| && BackOk(s, s.store.tx[i].serial) && TransactionOrder.TxOk(s) && s.config.retryInterval == interval
    ensures OnSchedule(interval, s.store.log, s.store.tx[i])
  {
    var m := s.store.tx[i];
    var k := Number(s.store.log, Renews, m.serial);
    var p := s.config.protocol;
    assert TransactionOrder.TxAll(p, s.store)[|TransactionOrder.TxFlight(p, s.store)| + i] == m;
    assert Persistent(s.config, m);
    hide TransactionOrder.TxOk, Number, StartTime;
    TriangleClosed(k);
    Distribute(interval, Triangle(k), Triangle(k));
  }
}
