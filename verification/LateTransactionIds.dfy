/** Transaction ids that become known after a message was queued. */
module LateTransactionIds {
  import opened Messages
  import opened QueueSpec
  import opened Overflow
  import opened TransactionOrder

  /** The queued message as it should be once the id is known: registration is by
      the id the message had when it was made. */
  function WithTransactionId(m: Msg, ids: seq<MessageId>, transactionId: int): Msg {
    if m.initialId in ids then m.(call := m.call.(transactionId := Some(transactionId))) else m
  }

  function Registered(s: State, start: MessageId): seq<MessageId> {
    if start in s.control.meterIds then s.control.meterIds[start] else []
  }

  /** Every queued message registered for the start, and no other, gets the id; the registration is gone. */
  predicate Substituted(s: State, t: State, start: MessageId, transactionId: int) {
    && |t.store.tx| == |s.store.tx|
    && (forall i :: 0 <= i < |s.store.tx| ==>
          t.store.tx[i] == WithTransactionId(s.store.tx[i], Registered(s, start), transactionId))
    && t.store == s.store.(tx := t.store.tx)
    && t.control == s.control.(meterIds := s.control.meterIds - {start})
  }

  predicate AllUntried(q: seq<Msg>) {
    forall i :: 0 <= i < |q| ==> Untried(q[i])
  }

  lemma HandleStartSubstitutes(s: State, start: MessageId, transactionId: int)
    requires AllUntried(s.store.tx)
    ensures Substituted(s, HandleStart(s, start, transactionId), start, transactionId)
  {
  }

  // ---------------------------------------------------------------- after the answer, before the next attempt

  /** Nothing in flight and no queued transaction message tried. */
  predicate Resting(s: Store) {
    s.inFlight.None? && AllUntried(s.tx)
  }

  lemma OverflowResting(c: Config, s: Store)
    requires Resting(s)
    ensures Resting(CheckQueueSizes(c, s))
  {
    forall t: Store, i: nat | Resting(t) && i < |t.tx| && Droppable(c, t, i) ensures Resting(DropUpdate(t, i)) {
      var q := RemoveAt(t.tx, i);
      assert forall k :: 0 <= k < |q| ==> q[k] == t.tx[if k < i then k else k + 1];
    }
    OverflowKeeps(Resting, c, s);
  }

  lemma InsertResting(c: Config, s: Store, m: Msg)
    requires Resting(s) && Untried(m)
    ensures Resting(Insert(c, s, m))
  {
    OverflowResting(c, if IsTx(c.protocol, m) then InsertTx(s, m) else InsertNormal(c, s, m));
  }

  predicate Idle(e: Event) {
    !e.Worker? && !e.Crash?
  }

  lemma NextResting(s: State, e: Event)
    requires Resting(s.store) && Enabled(s, e) && Idle(e)
    ensures Resting(Next(s, e).store)
  {
    if Quiet(e) {
      QuietStep(s, e);
      hide Next;
    } else {
      hide Insert;
      match e
      case PushCall(call, stall, now) => InsertResting(s.config, s.store, NewMsg(s.serial, call, stall, now));
      case PushCallAsync(call, now) => InsertResting(s.config, s.store, NewMsg(s.serial, call, false, now));
      case StartHandled(start, t) =>
      case ReceiveResult(_) =>
      case ReceiveError(_, _, _) =>
    }
  }

  lemma {:induction false} RunResting(s: State, events: seq<Event>)
    requires Resting(s.store) && Legal(s, events) && forall i :: 0 <= i < |events| ==> Idle(events[i])
    ensures Resting(Run(s, events).store)
    decreases |events|
  {
    hide Resting, Next, Enabled;
    if events != [] {
      NextResting(s, events[0]);
      RunResting(Next(s, events[0]), events[1..]);
    }
  }

  lemma BehindFlight(p: Protocol, s: Store, serial: nat, used: set<MessageId>)
    requires TxInv(p, s, serial, used) && s.inFlight.Some? && IsTx(p, s.inFlight.value)
    ensures forall i :: 0 <= i < |s.tx| ==> Untried(s.tx[i])
  {
    var q := TxAll(p, s);
    hide RowFor, RowOk, AsMade, Untried;
    forall i | 0 <= i < |s.tx| ensures Untried(s.tx[i]) {
      assert s.tx[i] == q[i + 1];
    }
  }

  lemma AnswerResting(s: State, id: MessageId)
    requires TxOk(s) && Matches(s, id) && IsTx(s.config.protocol, s.store.inFlight.value)
    ensures Resting(Next(s, ReceiveResult(id)).store)
  {
    BehindFlight(s.config.protocol, s.store, s.serial, s.used);
    hide TxInv, RemoveFromTable, Persistent;
  }

  /** In every run: if the worker does nothing between the answer to a
      transaction message (the StartTransaction) and the handler's call, every
      queued message registered for that start gets the transaction id, nothing
      else changes, and the registration is gone. */
  lemma IdsArrive(config: Config, before: seq<Event>, id: MessageId, between: seq<Event>, start: MessageId, transactionId: int)
    requires Legal(Initial(config), before)
    requires var s := Reached(config, before); Matches(s, id) && IsTx(config.protocol, s.store.inFlight.value)
    requires Legal(Next(Reached(config, before), ReceiveResult(id)), between)
    requires forall i :: 0 <= i < |between| ==> Idle(between[i])
    ensures var t := Run(Next(Reached(config, before), ReceiveResult(id)), between);
      Substituted(t, Next(t, StartHandled(start, transactionId)), start, transactionId)
  {
    hide Initial, Run, Legal, TxOk, Resting, Next, Substituted, HandleStart;
    ReachedTx(config, before);
    var u := Next(Reached(config, before), ReceiveResult(id));
    AnswerResting(Reached(config, before), id);
    RunResting(u, between);
    RestingSubstitutes(Run(u, between), start, transactionId);
  }

  lemma RestingSubstitutes(s: State, start: MessageId, transactionId: int)
    requires Resting(s.store)
    ensures Substituted(s, Next(s, StartHandled(start, transactionId)), start, transactionId)
  {
    hide Substituted, HandleStart;
    HandleStartSubstitutes(s, start, transactionId);
  }

  /** The head is still known by the id it was registered under, or needs no change. */
  predicate HeadRecognised(q: seq<Msg>, ids: seq<MessageId>, transactionId: int) {
    q == [] || (q[0].call.id in ids <==> q[0].initialId in ids) || q[0].call.transactionId == Some(transactionId)
  }

  lemma HandleStartExact(s: State, start: MessageId, transactionId: int)
    requires forall i :: 1 <= i < |s.store.tx| ==> Untried(s.store.tx[i])
    ensures Substituted(s, HandleStart(s, start, transactionId), start, transactionId) <==>
      HeadRecognised(s.store.tx, Registered(s, start), transactionId)
  {
    var q, ids, t := s.store.tx, Registered(s, start), HandleStart(s, start, transactionId);
    assert q == [] || t.store.tx[0] == Substitute(q[0], ids, transactionId);
  }

  /** In any reachable state at all, the handler's call does the right thing
      exactly if the head of the queue is still recognised: a retry renames the
      head, and a head that was renamed is missed. While a transaction message
      is in flight there is no such head. */
  lemma IdsArriveUnlessRenamed(config: Config, events: seq<Event>, start: MessageId, transactionId: int)
    requires Legal(Initial(config), events)
    ensures var s := Reached(config, events);
      Substituted(s, HandleStart(s, start, transactionId), start, transactionId) <==>
      HeadRecognised(s.store.tx, Registered(s, start), transactionId)
    ensures var s := Reached(config, events);
      TxFlight(config.protocol, s.store) != [] ==>
      Substituted(s, HandleStart(s, start, transactionId), start, transactionId)
  {
    hide Initial, Run, Legal, Substituted, HandleStart, Registered;
    ReachedTx(config, events);
    var s := Reached(config, events);
    TailOfQueue(s);
    HandleStartExact(s, start, transactionId);
  }

  lemma TailUntried(p: Protocol, s: Store, serial: nat, used: set<MessageId>, i: nat)
    requires TxInv(p, s, serial, used) && 1 <= i < |TxAll(p, s)|
    ensures Untried(TxAll(p, s)[i])
  {
    hide Untried, RowFor, RowOk;
  }

  lemma TailOfQueue(s: State)
    requires TxOk(s)
    ensures forall i :: 1 <= i < |s.store.tx| ==> Untried(s.store.tx[i])
    ensures TxFlight(s.config.protocol, s.store) != [] && s.store.tx != [] ==> Untried(s.store.tx[0])
  {
    hide TxInv, Untried;
    var p, k := s.config.protocol, |TxFlight(s.config.protocol, s.store)|;
    forall i | 0 <= i < |s.store.tx| && i + k >= 1 ensures Untried(s.store.tx[i]) {
      TailUntried(p, s.store, s.serial, s.used, i + k);
      assert TxAll(p, s.store)[i + k] == s.store.tx[i];
    }
  }
}
