/** Book-keeping over a whole boot: where every accepted message is, which wire
    ids are still in use, and which promises have been set. All counts are taken
    at one serial or one id, so no step has to look at any other.

    The balance says that a serial that was accepted is either pending in one
    place or has departed once; uniqueness says that at most one pending message
    has a wire id, and none if an attempt under that id has ended. */
module Ledger {
  import opened Messages
  import opened QueueSpec
  import opened Overflow
  import TransactionOrder

  // ---------------------------------------------------------------- counting messages

  datatype Key = Serial(n: nat) | WireId(id: MessageId)

  function One(m: Msg, k: Key): nat {
    if (match k case Serial(n) => m.serial == n case WireId(id) => m.call.id == id) then 1 else 0
  }

  function Tally(q: seq<Msg>, k: Key): nat {
    if q == [] then 0 else One(q[0], k) + Tally(q[1..], k)
  }

  function InFlight(s: Store, k: Key): nat {
    if s.inFlight.Some? then One(s.inFlight.value, k) else 0
  }

  /** How many messages in flight or queued have the key. */
  function Pending(s: Store, k: Key): nat {
    InFlight(s, k) + Tally(s.tx, k) + Tally(s.normal, k)
  }

  lemma {:induction false} TallyConcat(a: seq<Msg>, b: seq<Msg>, k: Key)
    ensures Tally(a + b, k) == Tally(a, k) + Tally(b, k)
  {
    if a == [] {
      assert a + b == b;
    } else {
      assert (a + b)[1..] == a[1..] + b;
      TallyConcat(a[1..], b, k);
    }
  }

  lemma {:induction false} TallySplit(q: seq<Msg>, i: nat, k: Key)
    requires i < |q|
    ensures Tally(q, k) == Tally(RemoveAt(q, i), k) + One(q[i], k)
  {
    assert q == q[..i] + ([q[i]] + q[i + 1..]);
    TallyConcat(q[..i], [q[i]] + q[i + 1..], k);
    TallyConcat(q[..i], q[i + 1..], k);
  }

  lemma TallyReplace(q: seq<Msg>, i: nat, m: Msg, k: Key)
    requires i < |q| && One(m, k) == One(q[i], k)
    ensures Tally(q[i := m], k) == Tally(q, k)
  {
    TallySplit(q, i, k);
    TallySplit(q[i := m], i, k);
    assert RemoveAt(q[i := m], i) == RemoveAt(q, i);
  }

  lemma TallyBack(q: seq<Msg>, m: Msg, k: Key)
    ensures Tally(q + [m], k) == Tally(q, k) + One(m, k)
    ensures Tally([m] + q, k) == Tally(q, k) + One(m, k)
  {
    TallyConcat(q, [m], k);
    TallyConcat([m], q, k);
    assert Tally([m], k) == One(m, k);
  }

  // ---------------------------------------------------------------- counting entries

  /** The entry removes its message for good. */
  predicate Departs(e: Entry) {
    e.Answered? || e.GivenUp? || e.Expired? || e.Overflowed? || e.Popped?
  }

  predicate SetsPromise(e: Entry) {
    e.Answered? || e.GivenUp? || e.Expired? || e.Refused? || e.Offline?
  }

  predicate EndsAttempt(e: Entry) {
    e.Answered? || e.Retried? || e.GivenUp? || e.Expired?
  }

  datatype Aspect = Enters | Leaves | Promises | Ends | Delivers | Bounces | Renews | Skips

  /** 1 if the entry is of that kind for serial n (for Ends: for wire id n). */
  function Counts(e: Entry, a: Aspect, n: nat): nat {
    if (match a
        case Enters => e.Accepted? && e.m.serial == n
        case Leaves => Departs(e) && e.m.serial == n
        case Promises => SetsPromise(e) && e.m.serial == n
        case Ends => EndsAttempt(e) && e.m.call.id == n
        case Delivers => e.Sent? && e.ok && e.m.serial == n
        case Bounces => e.Sent? && !e.ok && e.m.serial == n
        case Renews => e.Retried? && e.m.serial == n
        case Skips => e.Skipped? && e.m.serial == n)
    then 1 else 0
  }

  function Number(log: seq<Entry>, a: Aspect, n: nat): nat {
    if log == [] then 0 else Number(log[..|log| - 1], a, n) + Counts(log[|log| - 1], a, n)
  }

  lemma LogAdd(log: seq<Entry>, e: Entry, a: Aspect, n: nat)
    ensures Number(log + [e], a, n) == Number(log, a, n) + Counts(e, a, n)
  {
    assert (log + [e])[..|log|] == log;
  }

  // ---------------------------------------------------------------- the invariant

  /** The message with serial n was accepted at most once, and since then is unresolved or has left, exactly once. */
  predicate Balance(s: Store, serial: nat, n: nat) {
    && Number(s.log, Enters, n) == Number(s.log, Leaves, n) + Pending(s, Serial(n))
    && Number(s.log, Enters, n) <= 1
    && (n >= serial ==> Number(s.log, Enters, n) == 0)
  }

  /** At most one unresolved message has the wire id, and none if an attempt under it has ended. */
  predicate Unique(s: Store, used: set<MessageId>, id: MessageId) {
    && Pending(s, WireId(id)) <= 1
    && (id !in used ==> Pending(s, WireId(id)) == 0 && Number(s.log, Ends, id) == 0)
    && (Number(s.log, Ends, id) > 0 ==> Pending(s, WireId(id)) == 0)
  }

  predicate At(s: Store, serial: nat, used: set<MessageId>, n: nat, id: MessageId) {
    Balance(s, serial, n) && Unique(s, used, id)
  }

  lemma AddEntry(log: seq<Entry>, e: Entry, n: nat, id: MessageId)
    ensures Number(log + [e], Enters, n) == Number(log, Enters, n) + Counts(e, Enters, n)
    ensures Number(log + [e], Leaves, n) == Number(log, Leaves, n) + Counts(e, Leaves, n)
    ensures Number(log + [e], Ends, id) == Number(log, Ends, id) + Counts(e, Ends, id)
  {
    LogAdd(log, e, Enters, n);
    LogAdd(log, e, Leaves, n);
    LogAdd(log, e, Ends, id);
  }

  lemma DropFrontAt(c: Config, s: Store, serial: nat, used: set<MessageId>, n: nat, id: MessageId)
    requires At(s, serial, used, n, id) && s.normal != []
    ensures At(DropFront(c, s), serial, used, n, id)
  {
    AddEntry(s.log, Overflowed(s.normal[0]), n, id);
  }

  lemma DropUpdateAt(s: Store, i: nat, serial: nat, used: set<MessageId>, n: nat, id: MessageId)
    requires At(s, serial, used, n, id) && i < |s.tx|
    ensures At(DropUpdate(s, i), serial, used, n, id)
  {
    TallySplit(s.tx, i, Serial(n));
    TallySplit(s.tx, i, WireId(id));
    AddEntry(s.log, Overflowed(s.tx[i]), n, id);
  }

  lemma OverflowAt(c: Config, s: Store, serial: nat, used: set<MessageId>, n: nat, id: MessageId)
    requires At(s, serial, used, n, id)
    ensures At(CheckQueueSizes(c, s), serial, used, n, id)
  {
    var P := (t: Store) => At(t, serial, used, n, id);
    forall t: Store | P(t) && t.normal != [] ensures P(DropFront(c, t)) { DropFrontAt(c, t, serial, used, n, id); }
    forall t: Store, i: nat | P(t) && i < |t.tx| && Droppable(c, t, i) ensures P(DropUpdate(t, i)) {
      DropUpdateAt(t, i, serial, used, n, id);
    }
    OverflowKeeps(P, c, s);
  }

  lemma InsertAt(c: Config, s: Store, m: Msg, serial: nat, used: set<MessageId>, n: nat, id: MessageId)
    requires At(s, serial, used, n, id) && m.serial == serial && m.call.id !in used
    ensures At(Insert(c, s, m), serial + 1, used + {m.call.id}, n, id)
  {
    AddEntry(s.log, Accepted(m), n, id);
    TallyBack(s.tx, m, Serial(n));
    TallyBack(s.tx, m, WireId(id));
    TallyBack(s.normal, m, Serial(n));
    TallyBack(s.normal, m, WireId(id));
    OverflowAt(c, if IsTx(c.protocol, m) then InsertTx(s, m) else InsertNormal(c, s, m),
               serial + 1, used + {m.call.id}, n, id);
  }

  /** A message handed to the transport is the picked one, one attempt later. */
  predicate Picked(s: Store, sel: Selection, m: Msg) {
    Selectable(s, sel) && m.serial == Pick(s, sel).serial && m.call.id == Pick(s, sel).call.id
  }

  lemma DeliveredAt(s: Store, sel: Selection, m: Msg, serial: nat, used: set<MessageId>, n: nat, id: MessageId)
    requires At(s, serial, used, n, id) && Picked(s, sel, m) && s.inFlight.None?
    ensures At(Delivered(s, sel, m), serial, used, n, id)
  {
    hide Number;
    AddEntry(s.log, Sent(m, true), n, id);
    if sel.FromNormal? {
      TallySplit(s.normal, sel.index, Serial(n));
      TallySplit(s.normal, sel.index, WireId(id));
    }
  }

  /** The messages left after a failed send. */
  lemma UndeliveredPending(c: Config, s: Store, sel: Selection, m: Msg, k: Key)
    requires Picked(s, sel, m)
    ensures var t := Undelivered(c, s, sel, m);
      if sel.FromTx? || Persistent(c, m) then Pending(t, k) == Pending(s, k)
      else Pending(t, k) + One(s.normal[sel.index := m][0], k) == Pending(s, k)
  {
    hide Persistent;
    var kept := if IsTx(c.protocol, m) then MarkOffline(m) else m;
    if sel.FromTx? {
      TallyReplace(s.tx, 0, kept, k);
    } else {
      TallyReplace(s.normal, sel.index, kept, k);
      TallyReplace(s.normal, sel.index, m, k);
    }
  }

  lemma UndeliveredLog(c: Config, s: Store, sel: Selection, m: Msg, n: nat, id: MessageId)
    requires Selectable(s, sel)
    ensures var log := Undelivered(c, s, sel, m).log;
      && Number(log, Enters, n) == Number(s.log, Enters, n)
      && Number(log, Leaves, n) == Number(s.log, Leaves, n) +
         (if sel.FromTx? || Persistent(c, m) then 0 else One(s.normal[sel.index := m][0], Serial(n)))
      && Number(log, Ends, id) == Number(s.log, Ends, id)
  {
    hide Number, Persistent;
    var l := s.log + [Sent(m, false)];
    AddEntry(s.log, Sent(m, false), n, id);
    if !(sel.FromTx? || Persistent(c, m)) {
      var q := s.normal[sel.index := m];
      AddEntry(l, Refused(m), n, id);
      AddEntry(l + [Refused(m)], Popped(q[0]), n, id);
      assert Undelivered(c, s, sel, m).log == l + [Refused(m)] + [Popped(q[0])];
    }
  }

  lemma UndeliveredAt(c: Config, s: Store, sel: Selection, m: Msg, serial: nat, used: set<MessageId>, n: nat, id: MessageId)
    requires At(s, serial, used, n, id) && Picked(s, sel, m)
    ensures At(Undelivered(c, s, sel, m), serial, used, n, id)
  {
    hide Pending, Undelivered, Persistent, Number;
    UndeliveredPending(c, s, sel, m, Serial(n));
    UndeliveredPending(c, s, sel, m, WireId(id));
    UndeliveredLog(c, s, sel, m, n, id);
  }

  lemma ResolveAt(c: Config, s: Store, e: Entry, serial: nat, used: set<MessageId>, n: nat, id: MessageId)
    requires At(s, serial, used, n, id) && s.inFlight.Some?
    requires (e.Answered? || e.GivenUp? || e.Expired?) && e.m == s.inFlight.value
    ensures At(Resolve(c, s, e), serial, used, n, id)
  {
    AddEntry(s.log, e, n, id);
  }

  lemma RetryAtPoint(c: Config, s: Store, now: Instant, newId: MessageId, serial: nat, used: set<MessageId>, n: nat, id: MessageId)
    requires At(s, serial, used, n, id) && s.inFlight.Some? && newId !in used
    ensures At(Retry(c, s, now, newId), serial, used + {newId}, n, id)
  {
    hide Tally;
    var m := s.inFlight.value;
    var r := Renewed(c, m, now, newId);
    AddEntry(s.log, Retried(m, newId), n, id);
    TallyBack(s.tx, r, Serial(n));
    TallyBack(s.tx, r, WireId(id));
    TallyBack(s.normal, r, Serial(n));
    TallyBack(s.normal, r, WireId(id));
  }

  lemma FailAt(c: Config, s: Store, now: Instant, newId: MessageId, serial: nat, used: set<MessageId>, n: nat, id: MessageId)
    requires At(s, serial, used, n, id) && s.inFlight.Some? && newId !in used
    ensures At(Fail(c, s, now, newId), serial, used + {newId}, n, id)
  {
    var m := s.inFlight.value;
    if Retries(c, m) {
      RetryAtPoint(c, s, now, newId, serial, used, n, id);
    } else {
      ResolveAt(c, s, if Persistent(c, m) then GivenUp(m, c.attempts) else Expired(m), serial, used, n, id);
    }
  }

  lemma {:induction false} SubstituteTally(q: seq<Msg>, ids: seq<MessageId>, t: int, k: Key)
    ensures Tally(SubstituteAll(q, ids, t), k) == Tally(q, k)
  {
    if q != [] {
      SubstituteTally(q[1..], ids, t, k);
      assert SubstituteAll(q, ids, t)[1..] == SubstituteAll(q[1..], ids, t);
    }
  }

  // ---------------------------------------------------------------- reading the tables back

  lemma {:induction false} AcceptAllNumber(q: seq<Msg>, r: seq<Msg>, k: nat, a: Aspect, n: nat)
    requires k <= |q + r|
    ensures Number((AcceptAll(q) + AcceptAll(r))[..k], a, n) == if a.Enters? then Tally((q + r)[..k], Serial(n)) else 0
  {
    if k > 0 {
      AcceptAllNumber(q, r, k - 1, a, n);
      var l, qr := AcceptAll(q) + AcceptAll(r), q + r;
      assert l[..k] == l[..k - 1] + [l[k - 1]];
      assert qr[..k] == qr[..k - 1] + [qr[k - 1]];
      LogAdd(l[..k - 1], l[k - 1], a, n);
      TallyBack(qr[..k - 1], qr[k - 1], Serial(n));
    }
  }

  function SerialsOf(q: seq<Msg>): seq<nat> {
    seq(|q|, i requires 0 <= i < |q| => q[i].serial)
  }

  function IdsOf(q: seq<Msg>): seq<MessageId> {
    seq(|q|, i requires 0 <= i < |q| => q[i].call.id)
  }

  predicate Distinct(q: seq<nat>) {
    forall i, j :: 0 <= i < j < |q| ==> q[i] != q[j]
  }

  lemma {:induction false} DistinctTally(q: seq<Msg>, n: nat, id: MessageId)
    requires Distinct(SerialsOf(q)) && Distinct(IdsOf(q))
    ensures Tally(q, Serial(n)) <= 1 && Tally(q, WireId(id)) <= 1
    ensures Tally(q, Serial(n)) > 0 ==> n in SerialsOf(q)
    ensures Tally(q, WireId(id)) > 0 ==> id in IdsOf(q)
  {
    if q != [] {
      assert SerialsOf(q[1..]) == SerialsOf(q)[1..] && IdsOf(q[1..]) == IdsOf(q)[1..];
      DistinctTally(q[1..], n, id);
      assert SerialsOf(q) == [q[0].serial] + SerialsOf(q)[1..] && IdsOf(q) == [q[0].call.id] + IdsOf(q)[1..];
      assert n in SerialsOf(q)[1..] ==> SerialsOf(q)[0] != n;
      assert id in IdsOf(q)[1..] ==> IdsOf(q)[0] != id;
    }
  }

  /** The messages read back from tables without duplicates: distinct serials below the next, distinct ids in use. */
  lemma LoadedDistinct(p: Protocol, s: Store, serial: nat, used: set<MessageId>, ign: bool)
    requires TransactionOrder.TxInv(p, s, serial, used)
    ensures var q := Load(s.normalTable, ign) + Load(s.txTable, ign);
      && Distinct(SerialsOf(q)) && Distinct(IdsOf(q))
      && (forall i :: 0 <= i < |q| ==> q[i].serial < serial && q[i].call.id in used)
  {
    var a, b := Load(s.normalTable, ign), Load(s.txTable, ign);
    var ka, kb := TransactionOrder.KeptRows(s.normalTable, ign), TransactionOrder.KeptRows(s.txTable, ign);
    TransactionOrder.LoadIsKept(s.normalTable, ign);
    TransactionOrder.LoadIsKept(s.txTable, ign);
    TransactionOrder.LoadNormal(p, s.normalTable, serial, used, ign);
    TransactionOrder.LoadTracked(p, TransactionOrder.TxAll(p, s), s.txTable, serial, used, ign);
    TransactionOrder.TrackedNoDup(p, b, kb, serial, used);
    TransactionOrder.KeptDisjoint(s.txTable, s.normalTable, ign);
    var q, k := a + b, ka + kb;
    forall i | 0 <= i < |q|
      ensures q[i].serial == k[i].serial < serial && q[i].call.id == k[i].uniqueId && q[i].call.id in used
    {
      assert i < |ka| ==> k[i] == ka[i] && TransactionOrder.RowOk(ka[i], serial, used) && q[i] == a[i];
      assert i >= |ka| ==> k[i] == kb[i - |ka|] && TransactionOrder.RowOk(kb[i - |ka|], serial, used) && q[i] == b[i - |ka|];
    }
    forall i, j | 0 <= i < j < |q| ensures k[i].serial != k[j].serial && k[i].uniqueId != k[j].uniqueId {
      if j < |ka| {
        assert ka[i].uniqueId != ka[j].uniqueId;
      } else if i >= |ka| {
        assert kb[i - |ka|].uniqueId != kb[j - |ka|].uniqueId;
      } else {
        assert kb[j - |ka|].uniqueId != ka[i].uniqueId;
      }
    }
  }

  lemma BootAt(c: Config, s: Store, serial: nat, used: set<MessageId>, ign: bool, n: nat, id: MessageId)
    requires TransactionOrder.TxInv(c.protocol, s, serial, used)
    ensures var b := BootStore(c, s.txTable, s.normalTable, ign);
      && At(b, serial, used, n, id)
      && Number(b.log, Promises, n) == 0 && Pending(b, Serial(n)) <= 1 && (n >= serial ==> Pending(b, Serial(n)) == 0)
  {
    var b := BootStore(c, s.txTable, s.normalTable, ign);
    var q := b.normal + b.tx;
    LoadedDistinct(c.protocol, s, serial, used, ign);
    assert b.log[..|q|] == b.log && q[..|q|] == q;
    AcceptAllNumber(b.normal, b.tx, |q|, Enters, n);
    AcceptAllNumber(b.normal, b.tx, |q|, Leaves, n);
    AcceptAllNumber(b.normal, b.tx, |q|, Promises, n);
    AcceptAllNumber(b.normal, b.tx, |q|, Ends, id);
    TallyConcat(b.normal, b.tx, Serial(n));
    TallyConcat(b.normal, b.tx, WireId(id));
    DistinctTally(q, n, id);
  }

  // ---------------------------------------------------------------- every run

  predicate LedgerAt(s: State, n: nat, id: MessageId) {
    At(s.store, s.serial, s.used, n, id)
  }

  lemma WorkerAt(s: State, now: Instant, ok: bool, n: nat, id: MessageId)
    requires LedgerAt(s, n, id)
    ensures LedgerAt(WorkerPass(s, now, ok), n, id)
  {
    if Attempts(s, now) {
      var sel := Choice(s, now);
      var m := Prepare(s.control.stopIds, Pick(s.store, sel));
      if ok {
        DeliveredAt(s.store, sel, m, s.serial, s.used, n, id);
      } else {
        UndeliveredAt(s.config, s.store, sel, m, s.serial, s.used, n, id);
      }
    }
  }

  lemma ClearGateAt(s: State, i: MessageId, n: nat, id: MessageId)
    requires LedgerAt(s, n, id)
    ensures LedgerAt(ClearGate(s, i), n, id)
  {
    AddEntry(s.store.log, ReplyReceived(i), n, id);
  }

  lemma ReplyAt(s: State, i: MessageId, n: nat, id: MessageId)
    requires LedgerAt(s, n, id)
    ensures LedgerAt(ClearGate(s, i), n, id)
    ensures Matches(s, i) ==> At(Answer(s.config, ClearGate(s, i).store), s.serial, s.used, n, id)
  {
    ClearGateAt(s, i, n, id);
    if Matches(s, i) {
      ResolveAt(s.config, ClearGate(s, i).store, Answered(s.store.inFlight.value), s.serial, s.used, n, id);
    }
  }

  lemma PushAsyncAt(s: State, call: Call, now: Instant, n: nat, id: MessageId)
    requires LedgerAt(s, n, id) && call.id !in s.used
    ensures LedgerAt(PushAsync(s, call, now), n, id)
  {
    hide Insert, Number, Tally;
    var m := NewMsg(s.serial, call, false, now);
    InsertAt(s.config, s.store, m, s.serial, s.used, n, id);
    AddEntry(s.store.log, Offline(m), n, id);
  }

  lemma QuietAt(s: State, e: Event, n: nat, id: MessageId)
    requires LedgerAt(s, n, id) && Enabled(s, e) && Quiet(e)
    ensures LedgerAt(Next(s, e), n, id)
  {
    hide Number, Tally;
    QuietStep(s, e);
    if Next(s, e).store != s.store {
      var x :| IsNote(x) && Next(s, e).store == s.store.(log := s.store.log + [x]);
      AddEntry(s.store.log, x, n, id);
    }
  }

  lemma StartHandledAt(s: State, start: MessageId, t: int, n: nat, id: MessageId)
    requires LedgerAt(s, n, id)
    ensures LedgerAt(HandleStart(s, start, t), n, id)
  {
    if start in s.control.meterIds {
      SubstituteTally(s.store.tx, s.control.meterIds[start], t, Serial(n));
      SubstituteTally(s.store.tx, s.control.meterIds[start], t, WireId(id));
    }
  }

  lemma NextAt(s: State, e: Event, n: nat, id: MessageId)
    requires LedgerAt(s, n, id) && TransactionOrder.TxOk(s) && Enabled(s, e)
    ensures LedgerAt(Next(s, e), n, id)
  {
    hide At, Insert, WorkerPass, BootStore;
    var c, st, k, u := s.config, s.store, s.serial, s.used;
    if Quiet(e) {
      QuietAt(s, e, n, id);
    } else {
      match e
      case PushCall(call, stall, now) => InsertAt(c, st, NewMsg(k, call, stall, now), k, u, n, id);
      case PushCallAsync(call, now) => PushAsyncAt(s, call, now, n, id);
      case ReceiveResult(i) => ReplyAt(s, i, n, id);
      case ReceiveError(i, now, newId) =>
        ClearGateAt(s, i, n, id);
        if Matches(s, i) {
          FailAt(c, ClearGate(s, i).store, now, newId, k, u, n, id);
        }
      case Timeout(now, newId) => FailAt(c, st, now, newId, k, u, n, id);
      case Worker(now, ok) => WorkerAt(s, now, ok, n, id);
      case StartHandled(start, t) => StartHandledAt(s, start, t, n, id);
      case Crash(config, ign) => BootAt(config, st, k, u, ign, n, id);
    }
  }

  lemma {:induction false} RunAt(s: State, events: seq<Event>, n: nat, id: MessageId)
    requires LedgerAt(s, n, id) && TransactionOrder.TxOk(s) && Legal(s, events)
    ensures LedgerAt(Run(s, events), n, id)
    decreases |events|
  {
    hide LedgerAt, Next, Enabled, TransactionOrder.TxOk;
    if events != [] {
      NextAt(s, events[0], n, id);
      TransactionOrder.NextKeepsTx(s, events[0]);
      RunAt(Next(s, events[0]), events[1..], n, id);
    }
  }

  /** The books are right in every reachable state. */
  lemma ReachedAt(config: Config, events: seq<Event>, n: nat, id: MessageId)
    requires Legal(Initial(config), events)
    ensures LedgerAt(Reached(config, events), n, id)
  {
    TransactionOrder.InitialTx(config);
    assert LedgerAt(Initial(config), n, id);
    RunAt(Initial(config), events, n, id);
  }
}
