/** Late ids of stop messages. */
module StopIds {
  import opened Messages
  import opened QueueSpec
  import opened Overflow
  import opened Ledger
  import TransactionOrder

  // A StopTransaction may already be queued when its transaction id becomes known.

  /** A message and the wire id under which its transaction is registered. */
  datatype Claim = Claim(n: nat, id: MessageId)

  /** Held: the message has the id, and no other one does. Otherwise: it does not have the id. */
  predicate Obeys(m: Msg, k: Claim, held: bool) {
    if held then m.serial == k.n <==> m.call.id == k.id else m.serial == k.n ==> m.call.id != k.id
  }

  predicate QueueObeys(q: seq<Msg>, k: Claim, held: bool) {
    forall i :: 0 <= i < |q| ==> Obeys(q[i], k, held)
  }

  predicate StoreObeys(s: Store, k: Claim, held: bool) {
    && QueueObeys(s.tx, k, held) && QueueObeys(s.normal, k, held)
    && (held && s.inFlight.Some? ==> s.inFlight.value.serial != k.n && s.inFlight.value.call.id != k.id)
  }

  /** The transaction registered under the id. */
  function Value(s: State, id: MessageId): Option<int> {
    if id in s.control.stopIds then Some(s.control.stopIds[id]) else None
  }

  predicate Claimed(s: State, k: Claim, held: bool, v: Option<int>) {
    k.n < s.serial && k.id in s.used && StoreObeys(s.store, k, held) && (held ==> Value(s, k.id) == v)
  }

  // ---------------------------------------------------------------- steps

  lemma RemovedObeys(q: seq<Msg>, i: nat, k: Claim, held: bool)
    requires QueueObeys(q, k, held) && i < |q|
    ensures QueueObeys(RemoveAt(q, i), k, held) && QueueObeys(q[1..], k, held) && Obeys(q[i], k, held)
  {
    hide Obeys;
    TransactionOrder.RemovedAt(q, i);
  }

  lemma OverflowObeys(c: Config, s: Store, k: Claim, held: bool)
    requires StoreObeys(s, k, held)
    ensures StoreObeys(CheckQueueSizes(c, s), k, held)
  {
    hide QueueObeys;
    var P := (t: Store) => StoreObeys(t, k, held);
    forall t: Store | P(t) && t.normal != [] ensures P(DropFront(c, t)) { RemovedObeys(t.normal, 0, k, held); }
    forall t: Store, i: nat | P(t) && i < |t.tx| && Droppable(c, t, i) ensures P(DropUpdate(t, i)) {
      RemovedObeys(t.tx, i, k, held);
    }
    OverflowKeeps(P, c, s);
  }

  lemma InsertObeys(c: Config, s: Store, m: Msg, k: Claim, held: bool)
    requires StoreObeys(s, k, held) && m.serial != k.n && m.call.id != k.id
    ensures StoreObeys(Insert(c, s, m), k, held)
  {
    OverflowObeys(c, if IsTx(c.protocol, m) then InsertTx(s, m) else InsertNormal(c, s, m), k, held);
  }

  lemma ReplacedObeys(q: seq<Msg>, i: nat, m: Msg, k: Claim, held: bool)
    requires QueueObeys(q, k, held) && i < |q| && m.serial == q[i].serial && m.call.id == q[i].call.id
    ensures QueueObeys(q[i := m], k, held) && QueueObeys(q[i := m][1..], k, held)
  {
  }

  lemma TransmitObeys(c: Config, s: Store, sel: Selection, m: Msg, ok: bool, k: Claim, held: bool)
    requires StoreObeys(s, k, held) && Picked(s, sel, m) && m.serial != k.n
    ensures StoreObeys(Transmit(c, s, sel, m, ok), k, held) && (held ==> m.call.id != k.id)
  {
    assert Obeys(Pick(s, sel), k, held);
    hide QueueObeys, Persistent;
    var kept := if IsTx(c.protocol, m) then MarkOffline(m) else m;
    if sel.FromTx? {
      RemovedObeys(s.tx, 0, k, held);
      ReplacedObeys(s.tx, 0, kept, k, held);
    } else {
      RemovedObeys(s.normal, sel.index, k, held);
      ReplacedObeys(s.normal, sel.index, kept, k, held);
      ReplacedObeys(s.normal, sel.index, m, k, held);
    }
  }

  lemma FailObeys(c: Config, s: Store, now: Instant, newId: MessageId, k: Claim, held: bool)
    requires StoreObeys(s, k, held) && s.inFlight.Some? && newId != k.id
    ensures StoreObeys(Fail(c, s, now, newId), k, held)
  {
    hide Retries, RetryAt, RemoveRow, Persistent;
  }

  /** The step does not offer message n. */
  predicate Passes(s: State, e: Event, n: nat) {
    e.Worker? && Attempts(s, e.now) ==> Pick(s.store, Choice(s, e.now)).serial != n
  }

  /** The last registration under the id since the last restart. */
  function Registered(v: Option<int>, e: Event, id: MessageId): Option<int> {
    match e
    case AddStoppedTransaction(i, t) => if i == id then Some(t) else v
    case Crash(_, _) => None
    case _ => v
  }

  lemma WorkerClaimed(s: State, now: Instant, ok: bool, k: Claim, held: bool, v: Option<int>)
    requires Claimed(s, k, held, v) && Passes(s, Worker(now, ok), k.n)
    ensures Claimed(WorkerPass(s, now, ok), k, held, v)
  {
    hide StoreObeys, Transmit, Choice;
    if Attempts(s, now) {
      var m := Prepare(s.control.stopIds, Pick(s.store, Choice(s, now)));
      TransmitObeys(s.config, s.store, Choice(s, now), m, ok, k, held);
    }
  }

  lemma SubstitutedObeys(q: seq<Msg>, ids: seq<MessageId>, t: int, k: Claim, held: bool)
    requires QueueObeys(q, k, held)
    ensures QueueObeys(SubstituteAll(q, ids, t), k, held)
  {
  }

  lemma NextClaimed(s: State, e: Event, k: Claim, held: bool, v: Option<int>)
    requires Claimed(s, k, held, v) && Enabled(s, e) && Passes(s, e, k.n) && !e.Crash?
    ensures Claimed(Next(s, e), k, held, Registered(v, e, k.id))
  {
    hide QueueObeys, Insert, WorkerPass, Fail, Passes;
    var c, st := s.config, s.store;
    match e
    case PushCall(call, stall, now) => InsertObeys(c, st, NewMsg(s.serial, call, stall, now), k, held);
    case PushCallAsync(call, now) => InsertObeys(c, st, NewMsg(s.serial, call, false, now), k, held);
    case ReceiveError(id, now, newId) =>
      if Matches(s, id) { FailObeys(c, ClearGate(s, id).store, now, newId, k, held); }
    case Timeout(now, newId) => FailObeys(c, st, now, newId, k, held);
    case Worker(now, ok) => WorkerClaimed(s, now, ok, k, held, v);
    case StartHandled(start, t) =>
      if start in s.control.meterIds { SubstitutedObeys(st.tx, s.control.meterIds[start], t, k, held); }
    case _ =>
  }

  /** The message with serial n waits in a queue under the id. */
  predicate WaitsAs(s: Store, n: nat, id: MessageId) {
    exists m :: m in s.tx + s.normal && m.serial == n && m.call.id == id
  }

  lemma {:induction false} OnePlace(q: seq<Msg>, i: nat, key: Key)
    requires i < |q| && One(q[i], key) == 1
    ensures Tally(q, key) >= 1
    ensures Tally(q, key) == 1 ==> forall j :: 0 <= j < |q| && j != i ==> One(q[j], key) == 0
  {
    TallySplit(q, i, key);
    forall j | Tally(q, key) == 1 && 0 <= j < |q| && j != i ensures One(q[j], key) == 0 {
      var r, p := RemoveAt(q, i), if j < i then j else j - 1;
      assert r[p] == q[j];
      if One(r[p], key) == 1 { TallySplit(r, p, key); }
    }
  }

  function Pool(s: Store): seq<Msg> {
    (if s.inFlight.Some? then [s.inFlight.value] else []) + s.tx + s.normal
  }

  lemma PoolPending(s: Store, key: Key)
    ensures Tally(Pool(s), key) == Pending(s, key)
  {
    var f := if s.inFlight.Some? then [s.inFlight.value] else [];
    TallyConcat(f, s.tx, key);
    TallyConcat(f + s.tx, s.normal, key);
    assert s.inFlight.Some? ==> f[1..] == [];
  }

  /** A message and its wire id determine each other. */
  lemma OneHolder(s: Store, i: nat, k: Claim)
    requires Pending(s, Serial(k.n)) <= 1 && Pending(s, WireId(k.id)) <= 1
    requires i < |Pool(s)| && Pool(s)[i].serial == k.n && Pool(s)[i].call.id == k.id
    ensures forall j :: 0 <= j < |Pool(s)| && j != i ==> Pool(s)[j].serial != k.n && Pool(s)[j].call.id != k.id
  {
    PoolPending(s, Serial(k.n));
    PoolPending(s, WireId(k.id));
    hide Pool, Pending, Tally;
    OnePlace(Pool(s), i, Serial(k.n));
    OnePlace(Pool(s), i, WireId(k.id));
    assert forall j :: 0 <= j < |Pool(s)| ==> One(Pool(s)[j], Serial(k.n)) == (if Pool(s)[j].serial == k.n then 1 else 0);
    assert forall j :: 0 <= j < |Pool(s)| ==> One(Pool(s)[j], WireId(k.id)) == (if Pool(s)[j].call.id == k.id then 1 else 0);
  }

  lemma FirstClaim(s: Store, k: Claim)
    requires Pending(s, Serial(k.n)) <= 1 && Pending(s, WireId(k.id)) <= 1
    ensures StoreObeys(s, k, WaitsAs(s, k.n, k.id))
  {
    var q, p := s.tx + s.normal, Pool(s);
    var f := |p| - |q|;
    assert p == (if s.inFlight.Some? then [s.inFlight.value] else []) + q;
    if WaitsAs(s, k.n, k.id) {
      var m :| m in q && m.serial == k.n && m.call.id == k.id;
      var i :| 0 <= i < |q| && q[i] == m;
      assert p[f + i] == m;
      OneHolder(s, f + i, k);
      forall j | 0 <= j < |q| ensures Obeys(q[j], k, true) { assert p[f + j] == q[j]; }
      assert s.inFlight.Some? ==> p[0] == s.inFlight.value;
    } else {
      forall j | 0 <= j < |q| ensures Obeys(q[j], k, false) { assert q[j] in q; }
    }
    Parts(s, q, k, WaitsAs(s, k.n, k.id));
  }

  lemma Parts(s: Store, q: seq<Msg>, k: Claim, held: bool)
    requires q == s.tx + s.normal && QueueObeys(q, k, held)
    ensures QueueObeys(s.tx, k, held) && QueueObeys(s.normal, k, held)
  {
    assert forall j :: 0 <= j < |s.tx| ==> s.tx[j] == q[j];
    assert forall j :: 0 <= j < |s.normal| ==> s.normal[j] == q[|s.tx| + j];
  }

  lemma PendingOnce(s: State, n: nat, id: MessageId)
    requires LedgerAt(s, n, id)
    ensures Pending(s.store, Serial(n)) <= 1 && Pending(s.store, WireId(id)) <= 1
  {
  }

  // ---------------------------------------------------------------- every run

  /** Message n is not offered in the run. */
  predicate PassesRun(s: State, events: seq<Event>, n: nat)
    requires Legal(s, events)
    decreases |events|
  {
    events == [] || (Passes(s, events[0], n) && PassesRun(Next(s, events[0]), events[1..], n))
  }

  function Latest(v: Option<int>, events: seq<Event>, id: MessageId): Option<int>
    decreases |events|
  {
    if events == [] then v else Latest(Registered(v, events[0], id), events[1..], id)
  }

  /** The message waited under the id when the run began, or at its last restart. */
  predicate Waited(s: State, held: bool, events: seq<Event>, k: Claim)
    requires Legal(s, events)
    decreases |events|
  {
    if events == [] then held
    else
      var t := Next(s, events[0]);
      Waited(t, if events[0].Crash? then WaitsAs(t.store, k.n, k.id) else held, events[1..], k)
  }

  predicate Booked(s: State, k: Claim) {
    LedgerAt(s, k.n, k.id) && TransactionOrder.TxOk(s)
  }

  lemma NextBooked(s: State, e: Event, k: Claim)
    requires Booked(s, k) && Enabled(s, e)
    ensures Booked(Next(s, e), k)
  {
    hide LedgerAt, TransactionOrder.TxOk, Next, Enabled;
    NextAt(s, e, k.n, k.id);
    TransactionOrder.NextKeepsTx(s, e);
  }

  lemma CrashClaimed(s: State, e: Event, k: Claim, held: bool, v: Option<int>)
    requires Claimed(s, k, held, v) && Booked(s, k) && Enabled(s, e) && e.Crash?
    ensures Claimed(Next(s, e), k, WaitsAs(Next(s, e).store, k.n, k.id), None)
  {
    NextBooked(s, e, k);
    CrashForgets(s, e, k.id);
    hide LedgerAt, TransactionOrder.TxOk, Next, StoreObeys, WaitsAs;
    var t := Next(s, e);
    PendingOnce(t, k.n, k.id);
    FirstClaim(t.store, k);
  }

  lemma CrashForgets(s: State, e: Event, id: MessageId)
    requires Enabled(s, e) && e.Crash?
    ensures Value(Next(s, e), id) == None && Next(s, e).serial == s.serial && Next(s, e).used == s.used
  {
    hide BootStore;
  }

  lemma {:induction false} RunClaimed(s: State, events: seq<Event>, k: Claim, held: bool, v: Option<int>)
    requires Claimed(s, k, held, v) && Booked(s, k) && Legal(s, events) && PassesRun(s, events, k.n)
    ensures Claimed(Run(s, events), k, Waited(s, held, events, k), Latest(v, events, k.id))
    decreases |events|
  {
    hide Claimed, Booked, Passes, Next, Enabled, WaitsAs, Registered;
    if events != [] {
      var e, t := events[0], Next(s, events[0]);
      NextBooked(s, e, k);
      if e.Crash? {
        CrashClaimed(s, e, k, held, v);
        CrashRegisters(v, e, k.id);
        RunClaimed(t, events[1..], k, WaitsAs(t.store, k.n, k.id), None);
      } else {
        NextClaimed(s, e, k, held, v);
        RunClaimed(t, events[1..], k, held, Registered(v, e, k.id));
      }
    }
  }

  lemma CrashRegisters(v: Option<int>, e: Event, id: MessageId)
    requires e.Crash?
    ensures Registered(v, e, id) == None
  {
  }

  lemma RegisterClaims(config: Config, before: seq<Event>, k: Claim, t: int)
    requires Legal(Initial(config), before) && k.n < Reached(config, before).serial && k.id in Reached(config, before).used
    ensures var r := Reached(config, before);
      var r' := Next(r, AddStoppedTransaction(k.id, t));
      Claimed(r', k, WaitsAs(r.store, k.n, k.id), Some(t)) && Booked(r', k)
  {
    var r := Reached(config, before);
    ReachedAt(config, before, k.n, k.id);
    TransactionOrder.ReachedTx(config, before);
    hide Initial, Run, Legal, LedgerAt, TransactionOrder.TxOk, WaitsAs, StoreObeys, Next;
    PendingOnce(r, k.n, k.id);
    FirstClaim(r.store, k);
    RegisterStep(r, k.id, t);
    NextBooked(r, AddStoppedTransaction(k.id, t), k);
  }

  lemma RegisterStep(s: State, id: MessageId, t: int)
    ensures var s' := Next(s, AddStoppedTransaction(id, t));
      s'.store == s.store && s'.serial == s.serial && s'.used == s.used && Value(s', id) == Some(t)
  {
  }

  /** The call as the worker offers it. */
  function Offered(s: State, now: Instant): Call
    requires Attempts(s, now)
  {
    Prepare(s.control.stopIds, Pick(s.store, Choice(s, now))).call
  }

  /** The offered call has the id and carries the transaction registered under it. */
  predicate Carries(s: State, now: Instant, id: MessageId, t: int)
    requires Attempts(s, now)
  {
    Offered(s, now).id == id && Value(s, id) == Some(t)
  }

  lemma CarriedInside(s: State, now: Instant, id: MessageId, t: int)
    requires Attempts(s, now) && Carries(s, now, id, t)
    ensures Offered(s, now).transactionId == Some(t)
  {
  }

  lemma ClaimOffered(s: State, now: Instant, k: Claim, held: bool, v: Option<int>)
    requires Claimed(s, k, held, v) && Attempts(s, now) && Pick(s.store, Choice(s, now)).serial == k.n
    ensures Offered(s, now).id == k.id <==> held
    ensures held ==> Value(s, k.id) == v
  {
    assert Obeys(Pick(s.store, Choice(s, now)), k, held);
  }

  /** In every run, restarts and other registrations included: when a transaction
      id is registered for a message under some id in use, then at the next offer
      of that message, however many other steps lie between, it carries that
      transaction id because of a registration under that id if, and only if, it
      was waiting in a queue under that very id (at the registration, or after
      the last restart since), and the last registration under that id since the
      last restart was for that transaction. */
  lemma StopIdArrives(config: Config, before: seq<Event>, k: Claim, t: int, after: seq<Event>, now: Instant)
    requires Legal(Initial(config), before)
    requires k.n < Reached(config, before).serial && k.id in Reached(config, before).used
    requires var r := Next(Reached(config, before), AddStoppedTransaction(k.id, t)); Legal(r, after) && PassesRun(r, after, k.n)
    requires var s := Run(Next(Reached(config, before), AddStoppedTransaction(k.id, t)), after);
      Attempts(s, now) && Pick(s.store, Choice(s, now)).serial == k.n
    ensures var r := Next(Reached(config, before), AddStoppedTransaction(k.id, t));
      var waited := Waited(r, WaitsAs(Reached(config, before).store, k.n, k.id), after, k);
      && (Carries(Run(r, after), now, k.id, t) <==> waited && Latest(Some(t), after, k.id) == Some(t))
      && (Carries(Run(r, after), now, k.id, t) ==> Offered(Run(r, after), now).transactionId == Some(t))
  {
    var r := Reached(config, before);
    var r' := Next(r, AddStoppedTransaction(k.id, t));
    var held := WaitsAs(r.store, k.n, k.id);
    RegisterClaims(config, before, k, t);
    RunClaimed(r', after, k, held, Some(t));
    var s := Run(r', after);
    hide Initial, Run, Legal, Next, PassesRun, WaitsAs, Attempts, Waited, Latest, Claimed, Offered, Value;
    ClaimOffered(s, now, k, Waited(r', held, after, k), Latest(Some(t), after, k.id));
    if Carries(s, now, k.id, t) {
      CarriedInside(s, now, k.id, t);
    }
  }

  // ---------------------------------------------------------------- without another registration for the same transaction

  /** The event is a restart, or another registration under the id. */
  predicate Disturbs(e: Event, id: MessageId) {
    e.Crash? || (e.AddStoppedTransaction? && e.id == id)
  }

  predicate Undisturbed(events: seq<Event>, id: MessageId) {
    forall i :: 0 <= i < |events| ==> !Disturbs(events[i], id)
  }

  /** Nothing else is registered for the same transaction under the id. */
  predicate OthersDiffer(events: seq<Event>, id: MessageId, t: int) {
    forall i :: 0 <= i < |events| ==> events[i] != AddStoppedTransaction(id, t)
  }

  lemma {:induction false} UndisturbedRun(s: State, held: bool, v: Option<int>, events: seq<Event>, k: Claim, t: int)
    requires Legal(s, events) && OthersDiffer(events, k.id, t)
    ensures Undisturbed(events, k.id) ==> Waited(s, held, events, k) == held && Latest(v, events, k.id) == v
    ensures !Undisturbed(events, k.id) || v != Some(t) ==> Latest(v, events, k.id) != Some(t)
    decreases |events|
  {
    hide Next, Enabled, WaitsAs;
    if events != [] {
      var e, rest, s' := events[0], events[1..], Next(s, events[0]);
      assert Undisturbed(events, k.id) ==> !Disturbs(e, k.id) && Undisturbed(rest, k.id) by {
        assert forall i :: 0 <= i < |rest| ==> rest[i] == events[i + 1];
      }
      assert OthersDiffer(rest, k.id, t) by {
        assert forall i :: 0 <= i < |rest| ==> rest[i] == events[i + 1];
      }
      UndisturbedRun(s', if e.Crash? then WaitsAs(s'.store, k.n, k.id) else held, Registered(v, e, k.id), rest, k, t);
      if !Disturbs(e, k.id) && Undisturbed(rest, k.id) {
        assert forall i :: 0 <= i < |events| ==> !Disturbs(events[i], k.id) by {
          assert forall i :: 1 <= i < |events| ==> events[i] == rest[i - 1];
        }
      }
    }
  }

  /** So, where that transaction is registered only once under the id: the next
      offer carries it if, and only if, the message was waiting under the id at
      the registration, and neither a restart nor another registration under the
      id lies between. */
  lemma OneRegistration(config: Config, before: seq<Event>, k: Claim, t: int, after: seq<Event>, now: Instant)
    requires Legal(Initial(config), before)
    requires k.n < Reached(config, before).serial && k.id in Reached(config, before).used
    requires var r := Next(Reached(config, before), AddStoppedTransaction(k.id, t)); Legal(r, after) && PassesRun(r, after, k.n)
    requires var s := Run(Next(Reached(config, before), AddStoppedTransaction(k.id, t)), after);
      Attempts(s, now) && Pick(s.store, Choice(s, now)).serial == k.n
    requires OthersDiffer(after, k.id, t)
    ensures Carries(Run(Next(Reached(config, before), AddStoppedTransaction(k.id, t)), after), now, k.id, t) <==>
      WaitsAs(Reached(config, before).store, k.n, k.id) && Undisturbed(after, k.id)
  {
    StopIdArrives(config, before, k, t, after, now);
    var r := Next(Reached(config, before), AddStoppedTransaction(k.id, t));
    hide Initial, Run, Next, Enabled, PassesRun, WaitsAs, Attempts, Waited, Latest, Carries, Offered, OthersDiffer, Undisturbed;
    UndisturbedRun(r, WaitsAs(Reached(config, before).store, k.n, k.id), Some(t), after, k, t);
  }
}
