/** The queue itself: an object whose methods update shared control messages in
    place. Every method is proved to do exactly the step of the state machine. */
module MessageQueue {
  import opened Messages
  import opened QueueSpec

  /** A queued message. Queues and the in-flight slot hold references to it, so
      an update through one of them is seen through all. */
  class ControlMessage {
    var call: Call
    var attempts: int
    var timestamp: Instant
    var stall: bool
    const initialId: MessageId
    const serial: nat

    constructor (call: Call, stall: bool, now: Instant, serial: nat)
      ensures Value() == NewMsg(serial, call, stall, now)
    {
      this.call, this.attempts, this.timestamp, this.stall := call, 0, now, stall;
      this.initialId, this.serial := call.id, serial;
    }

    function Value(): Msg
      reads this
    {
      Msg(serial, call, initialId, attempts, timestamp, stall)
    }
  }

  /** The values of the messages in a queue. */
  ghost function Values(q: seq<ControlMessage>): (v: seq<Msg>)
    reads q
    ensures |v| == |q| && forall i :: 0 <= i < |q| ==> v[i] == q[i].Value()
  {
    seq(|q|, i requires 0 <= i < |q| reads q => q[i].Value())
  }

  predicate NoRepeats(q: seq<ControlMessage>) {
    forall i, j :: 0 <= i < j < |q| ==> q[i] != q[j]
  }

  predicate Apart(q: seq<ControlMessage>, r: seq<ControlMessage>) {
    forall i, j :: 0 <= i < |q| && 0 <= j < |r| ==> q[i] != r[j]
  }

  predicate Outside(m: ControlMessage?, q: seq<ControlMessage>) {
    forall i :: 0 <= i < |q| ==> q[i] != m
  }

  predicate Inside(q: seq<ControlMessage>, objects: set<ControlMessage>) {
    forall i :: 0 <= i < |q| ==> q[i] in objects
  }

  /** The queues and the slot hold distinct objects. */
  predicate Placed(tx: seq<ControlMessage>, normal: seq<ControlMessage>, inFlight: ControlMessage?, objects: set<ControlMessage>) {
    && Inside(tx, objects) && Inside(normal, objects) && (inFlight != null ==> inFlight in objects)
    && NoRepeats(tx) && NoRepeats(normal) && Apart(tx, normal) && Outside(inFlight, tx) && Outside(inFlight, normal)
  }

  class MessageQueue {
    var config: Config
    var tx: seq<ControlMessage>
    var normal: seq<ControlMessage>
    var inFlight: ControlMessage?
    var paused: bool
    var resuming: bool
    var running: bool
    var newMessage: bool
    var registered: bool
    var nextToSend: Option<MessageId>
    var ctr: nat
    var stopIds: map<MessageId, int>
    var meterIds: map<MessageId, seq<MessageId>>
    var txTable: seq<Row>
    var normalTable: seq<Row>
    var serial: nat
    ghost var timers: multiset<nat>
    ghost var workerAlive: bool
    ghost var used: set<MessageId>
    ghost var peak: int
    ghost var log: seq<Entry>
    ghost var Repr: set<ControlMessage>

    /** No message is in two places. */
    ghost predicate Valid()
      reads this`tx, this`normal, this`inFlight, this`Repr
    {
      Placed(tx, normal, inFlight, Repr)
    }

    ghost function Messages(): Store
      requires Valid()
      reads this`tx, this`normal, this`inFlight, this`txTable, this`normalTable, this`log, this`Repr, Repr
    {
      Store(Values(tx), Values(normal), if inFlight == null then None else Some(inFlight.Value()), txTable, normalTable, log)
    }

    ghost function PausingState(): Pausing
      reads this`paused, this`resuming, this`ctr, this`timers
    {
      Pausing(paused, resuming, ctr, timers)
    }

    ghost function ControlState(): Control
      reads this`running, this`workerAlive, this`newMessage, this`registered, this`nextToSend, this`stopIds, this`meterIds
    {
      Control(running, workerAlive, newMessage, registered, nextToSend, stopIds, meterIds)
    }

    /** The state of the state machine that this object is in. */
    ghost function View(): State
      requires Valid()
      reads this, Repr
    {
      State(config, Messages(), PausingState(), ControlState(), serial, used, peak)
    }

    constructor (config: Config, txTable: seq<Row>, normalTable: seq<Row>, serial: nat, ghost used: set<MessageId>)
      ensures Valid() && fresh(Repr)
      ensures View() == State(config, Store([], [], None, txTable, normalTable, []), Pausing(true, false, 0, multiset{}),
                              Control(true, true, false, false, None, map[], map[]), serial, used, config.attempts)
    {
      this.config, this.txTable, this.normalTable, this.serial := config, txTable, normalTable, serial;
      tx, normal, inFlight := [], [], null;
      paused, resuming, running, newMessage, registered := true, false, true, false, false;
      nextToSend, ctr, stopIds, meterIds := None, 0, map[], map[];
      this.used, timers, workerAlive, peak, log, Repr := used, multiset{}, true, config.attempts, [], {};
    }

    ghost method Append(e: Entry)
      requires Valid()
      modifies this`log
      ensures Valid() && Messages() == old(Messages()).(log := old(Messages()).log + [e])
    {
      log := log + [e];
    }

    // -------------------------------------------------------------- overflow

    method DropOldestNormal()
      requires Valid() && normal != []
      modifies this`normal, this`normalTable, this`log
      ensures Valid() && |normal| == old(|normal|) - 1
      ensures Messages() == DropFront(config, old(Messages()))
    {
      if config.queueAll {
        normalTable := RemoveRow(normalTable, normal[0].initialId);
      }
      log := log + [Overflowed(normal[0].Value())];
      normal := normal[1..];
      assert Values(normal) == old(Values(normal))[1..];
    }

    /** About a tenth of the threshold goes, and at least one message. */
    method DropMessagesFromNormalQueue()
      requires Valid() && config.threshold >= 0
      modifies this`normal, this`normalTable, this`log
      ensures Valid()
      ensures Messages() == DropFronts(config, old(Messages()), BatchSize(config, old(Messages())))
    {
      ghost var s := Messages();
      var n := Min(|normal|, Max(config.threshold / 10, 1));
      var i := 0;
      assert n == BatchSize(config, s) && |normal| == |s.normal|;
      hide Messages, Valid, DropFront, DropFronts;
      while i < n
        invariant Valid()
        invariant 0 <= i <= n && n - i <= |normal| == |Messages().normal|
        invariant DropFronts(config, Messages(), n - i) == DropFronts(config, s, n)
      {
        FrontFirst(config, Messages(), n - i);
        DropOldestNormal();
        i := i + 1;
      }
      NoMoreFronts(config, Messages());
    }

    static lemma FrontFirst(c: Config, s: Store, n: nat)
      requires 0 < n <= |s.normal|
      ensures DropFronts(c, s, n) == DropFronts(c, DropFront(c, s), n - 1)
      ensures |DropFront(c, s).normal| == |s.normal| - 1
    {
    }

    static lemma NoMoreFronts(c: Config, s: Store)
      ensures DropFronts(c, s, 0) == s
    {
    }

    /** The store as it is while `kept` has been taken off the front of the transaction queue. */
    ghost function Midway(kept: seq<ControlMessage>): Store
      requires Valid() && Inside(kept, Repr)
      reads this`tx, this`normal, this`inFlight, this`txTable, this`normalTable, this`log, this`Repr, Repr
    {
      Messages().(tx := Values(kept) + Values(tx))
    }

    ghost predicate Loose(kept: seq<ControlMessage>)
      reads this`tx, this`normal, this`inFlight, this`Repr
    {
      Inside(kept, Repr) && NoRepeats(kept) && Apart(kept, tx) && Apart(kept, normal) && Outside(inFlight, kept)
    }

    method DropFrontUpdate(ghost kept: seq<ControlMessage>)
      requires Valid() && Loose(kept) && tx != []
      modifies this`tx, this`txTable, this`log
      ensures Valid() && Loose(kept) && tx == old(tx)[1..]
      ensures Midway(kept) == DropUpdate(old(Midway(kept)), |kept|)
    {
      ghost var before := Midway(kept);
      hide Values, RemoveRow;
      var element := tx[0];
      assert before.tx[|kept|] == element.Value();
      tx := tx[1..];
      txTable := RemoveRow(txTable, element.initialId);
      log := log + [Overflowed(element.Value())];
      assert Midway(kept).tx == RemoveAt(before.tx, |kept|);
    }

    method KeepFront(kept: seq<ControlMessage>) returns (kept': seq<ControlMessage>)
      requires Valid() && Loose(kept) && tx != []
      modifies this`tx
      ensures Valid() && Loose(kept') && tx == old(tx)[1..] && |kept'| == |kept| + 1
      ensures Midway(kept') == old(Midway(kept))
    {
      ghost var q := tx;
      hide Values;
      kept' := kept + [tx[0]];
      tx := tx[1..];
      ValuesShift(kept, q);
    }

    static lemma ValuesShift(kept: seq<ControlMessage>, q: seq<ControlMessage>)
      requires q != []
      ensures Values(kept + [q[0]]) + Values(q[1..]) == Values(kept) + Values(q)
    {
      hide Values;
    }

    lemma MidwayFront(kept: seq<ControlMessage>)
      requires Valid() && Loose(kept)
      ensures |Midway(kept).tx| == |kept| + |tx| && |Messages().tx| == |tx|
      ensures tx != [] ==> Midway(kept).tx[|kept|] == tx[0].Value()
    {
    }

    /** The front of the transaction queue is dropped, or it is kept. */
    method Sift(kept: seq<ControlMessage>, removeNext: bool) returns (dropped: bool, kept': seq<ControlMessage>)
      requires Valid() && Loose(kept) && tx != []
      modifies this`tx, this`txTable, this`log
      ensures Valid() && Loose(kept') && |tx| == old(|tx|) - 1
      ensures |kept'| == if dropped then |kept| else |kept| + 1
      ensures |kept| <= |old(Midway(kept)).tx| && |kept'| <= |Midway(kept').tx|
      ensures DropPass(config, Midway(kept'), |kept'|, !dropped) == DropPass(config, old(Midway(kept)), |kept|, removeNext)
    {
      MidwayFront(kept);
      hide Valid, Loose, Midway, Values, DropUpdate;
      dropped := removeNext && IsUpdate(config.protocol, tx[0].call) && |tx| - 1 > 1;
      if dropped {
        DropFrontUpdate(kept);
        kept' := kept;
      } else {
        kept' := KeepFront(kept);
      }
      MidwayFront(kept');
    }

    /** Drops every second update between other messages, but none of the last two messages. */
    method DropUpdateMessagesFromTransactionQueue() returns (dropped: bool)
      requires Valid()
      modifies this`tx, this`txTable, this`log
      ensures Valid()
      ensures Messages() == DropPass(config, old(Messages()), 0, true)
      ensures dropped <==> |tx| < old(|tx|)
    {
      ghost var s := Messages();
      var total := |tx|;
      var dropCount := 0;
      var kept: seq<ControlMessage> := [];
      var removeNext := true;
      assert Midway(kept) == s;
      hide Midway, Loose, Messages, Values, DropPass;
      while tx != []
        invariant Valid() && Loose(kept)
        invariant |kept| + |tx| + dropCount == total && dropCount >= 0 && |kept| <= |Midway(kept).tx|
        invariant DropPass(config, Midway(kept), |kept|, removeNext) == DropPass(config, s, 0, true)
        decreases |tx|
      {
        var drop;
        drop, kept := Sift(kept, removeNext);
        removeNext := !drop;
        if drop {
          dropCount := dropCount + 1;
        }
      }
      PassDone(kept, removeNext);
      Swap(kept);
      dropped := dropCount > 0;
    }

    lemma PassDone(kept: seq<ControlMessage>, removeNext: bool)
      requires Valid() && Loose(kept) && tx == []
      ensures |kept| == |Midway(kept).tx| && DropPass(config, Midway(kept), |kept|, removeNext) == Midway(kept)
    {
      MidwayFront(kept);
    }

    method Swap(kept: seq<ControlMessage>)
      requires Valid() && Loose(kept) && tx == []
      modifies this`tx
      ensures Valid() && tx == kept && Messages() == old(Midway(kept))
    {
      assert Midway(kept).tx == Values(kept);
      tx := kept;
    }

    method CheckQueueSizes()
      requires Valid()
      modifies this`tx, this`normal, this`txTable, this`normalTable, this`log
      ensures Valid()
      ensures Messages() == QueueSpec.CheckQueueSizes(config, old(Messages()))
    {
      ghost var s := Messages();
      while config.threshold >= 0 && |tx| + |normal| > config.threshold && normal != []
        invariant Valid()
        invariant DropNormals(config, Messages()) == DropNormals(config, s)
        decreases |normal|
      {
        DropMessagesFromNormalQueue();
      }
      assert Messages() == DropNormals(config, s);
      var more := true;
      while more && config.threshold >= 0 && |tx| + |normal| > config.threshold
        invariant Valid()
        invariant if more then DropUpdates(config, Messages()) == DropUpdates(config, DropNormals(config, s))
                  else Messages() == DropUpdates(config, DropNormals(config, s))
        decreases more, |tx|
      {
        more := DropUpdateMessagesFromTransactionQueue();
      }
    }

    // -------------------------------------------------------------- pushing

    method AddToTransactionMessageQueue(message: ControlMessage)
      requires Valid() && message !in Repr
      modifies this`tx, this`normal, this`txTable, this`normalTable, this`log, this`Repr, this`newMessage
      ensures Valid() && Repr == old(Repr) + {message} && newMessage
      ensures Messages() == QueueSpec.CheckQueueSizes(config, InsertTx(old(Messages()), message.Value()))
    {
      PushBackTransaction(message);
      newMessage := true;
      CheckQueueSizes();
    }

    method PushBackTransaction(message: ControlMessage)
      requires Valid() && message !in Repr
      modifies this`tx, this`txTable, this`log, this`Repr
      ensures Valid() && Repr == old(Repr) + {message}
      ensures Messages() == InsertTx(old(Messages()), message.Value())
    {
      var m := message.Value();
      Repr := Repr + {message};
      tx := tx + [message];
      txTable := txTable + [RowOf(m)];
      log := log + [Accepted(m)];
      assert Values(tx) == old(Values(tx)) + [m];
    }

    method AddToNormalMessageQueue(message: ControlMessage)
      requires Valid() && message !in Repr
      modifies this`tx, this`normal, this`txTable, this`normalTable, this`log, this`Repr, this`newMessage
      ensures Valid() && Repr == old(Repr) + {message} && newMessage
      ensures Messages() == QueueSpec.CheckQueueSizes(config, InsertNormal(config, old(Messages()), message.Value()))
    {
      PushNormal(message);
      newMessage := true;
      CheckQueueSizes();
    }

    method InsertIntoNormal(message: ControlMessage)
      requires Valid() && message !in Repr
      modifies this`normal, this`Repr
      ensures Valid() && Repr == old(Repr) + {message}
      ensures Messages() == old(Messages()).(normal :=
        if message.call.action == BootNotification then [message.Value()] + old(Values(normal))
        else old(Values(normal)) + [message.Value()])
    {
      var m := message.Value();
      Repr := Repr + {message};
      if message.call.action == BootNotification {
        normal := [message] + normal;
        assert Values(normal) == [m] + old(Values(normal));
      } else {
        normal := normal + [message];
        assert Values(normal) == old(Values(normal)) + [m];
      }
    }

    /** A BootNotification jumps the queue. */
    method PushNormal(message: ControlMessage)
      requires Valid() && message !in Repr
      modifies this`normal, this`normalTable, this`log, this`Repr
      ensures Valid() && Repr == old(Repr) + {message}
      ensures Messages() == InsertNormal(config, old(Messages()), message.Value())
    {
      InsertIntoNormal(message);
      if CheckQueue(config, message.call.action) {
        normalTable := normalTable + [RowOf(message.Value())];
      }
      log := log + [Accepted(message.Value())];
    }

    method Add(message: ControlMessage)
      requires Valid() && message !in Repr
      modifies this`tx, this`normal, this`txTable, this`normalTable, this`log, this`Repr, this`newMessage, this`serial, this`used
      ensures Valid() && Repr == old(Repr) + {message} && newMessage
      ensures Messages() == Insert(config, old(Messages()), message.Value())
      ensures serial == old(serial) + 1 && used == old(used) + {message.call.id}
    {
      hide Messages, Valid, QueueSpec.CheckQueueSizes, InsertTx, InsertNormal;
      if IsTransaction(config.protocol, message.call.action) {
        AddToTransactionMessageQueue(message);
      } else {
        AddToNormalMessageQueue(message);
      }
      serial := serial + 1;
      used := used + {message.call.id};
    }

    method AcceptMessage(message: ControlMessage)
      requires Valid() && message !in Repr
      modifies this`tx, this`normal, this`txTable, this`normalTable, this`log, this`Repr, this`newMessage, this`serial, this`used
      ensures Valid() && Repr == old(Repr) + {message}
      ensures View() == Accept(old(View()), message.Value())
    {
      hide Messages, Valid, Insert, Values, Placed;
      Add(message);
    }

    method RejectMessage(message: ControlMessage)
      requires Valid() && message !in Repr
      modifies this`log, this`serial, this`used
      ensures Valid()
      ensures View() == Reject(old(View()), message.Value())
    {
      Append(Offline(message.Value()));
      hide Messages, Valid;
      serial := serial + 1;
      used := used + {message.call.id};
    }

    lemma Settings()
      requires Valid()
      ensures var s := View();
        s.control.running == running && s.config == config && s.serial == serial &&
        s.pausing.paused == paused && s.pausing.resuming == resuming
    {
    }

    method PushCall(call: Call, stall: bool, now: Instant)
      requires Valid()
      modifies this
      ensures Valid() && fresh(Repr - old(Repr))
      ensures View() == Push(old(View()), call, stall, now)
    {
      hide View, Messages, Valid, Accept, Values, Placed;
      Settings();
      if !running {
        return;
      }
      var message := new ControlMessage(call, stall, now, serial);
      if IsTransaction(config.protocol, call.action) || !paused || resuming || CheckQueue(config, call.action) ||
         call.action == BootNotification {
        AcceptMessage(message);
      }
    }

    /** Returns whether the promise of the new message was set at once. */
    method PushCallAsync(call: Call, now: Instant) returns (offline: bool)
      requires Valid()
      modifies this
      ensures Valid() && fresh(Repr - old(Repr))
      ensures View() == PushAsync(old(View()), call, now)
      ensures offline <==> !Takes(old(View()), call.action)
    {
      hide View, Messages, Valid, Accept, Values, Placed;
      Settings();
      var message := new ControlMessage(call, false, now, serial);
      offline := !running ||
        (!IsTransaction(config.protocol, call.action) &&
         paused && !CheckQueue(config, call.action) && !resuming && call.action != BootNotification);
      if offline {
        RejectMessage(message);
      } else {
        AcceptMessage(message);
      }
    }

    /** push_call_result and push_call_error. */
    method PushReply(id: MessageId)
      requires Valid()
      modifies this`log, this`nextToSend
      ensures Valid() && View() == AnswerCsms(old(View()), id)
    {
      if !running {
        return;
      }
      Append(ReplySent(id));
      hide Messages, Valid;
      if nextToSend.Some? {
        if nextToSend.value == id {
          nextToSend := None;
        }
      }
    }

    // -------------------------------------------------------------- replies

    method ReceiveCall(id: MessageId)
      requires Valid()
      modifies this`log, this`nextToSend
      ensures Valid() && View() == OnCall(old(View()), id)
    {
      Append(CallReceived(id));
      hide Messages, Valid;
      nextToSend := Some(id);
    }

    method ResetInFlight()
      requires Valid()
      modifies this`inFlight
      ensures Valid() && inFlight == null && Messages() == old(Messages()).(inFlight := None)
    {
      inFlight := null;
    }

    method RemoveFromTable(isTx: bool, id: MessageId)
      requires Valid()
      modifies this`txTable, this`normalTable
      ensures Valid() && Messages() ==
        if isTx then old(Messages()).(txTable := RemoveRow(old(txTable), id))
        else old(Messages()).(normalTable := RemoveRow(old(normalTable), id))
      ensures txTable == (if isTx then RemoveRow(old(txTable), id) else old(txTable))
      ensures normalTable == (if isTx then old(normalTable) else RemoveRow(old(normalTable), id))
    {
      if isTx {
        txTable := RemoveRow(txTable, id);
      } else {
        normalTable := RemoveRow(normalTable, id);
      }
    }

    method HandleCallResult()
      requires Valid() && inFlight != null
      modifies this`inFlight, this`txTable, this`normalTable, this`log
      ensures Valid() && inFlight == null && old(Messages()).inFlight.Some?
      ensures Messages() == Answer(config, old(Messages()))
    {
      var m := inFlight.Value();
      assert Messages().inFlight == Some(m);
      hide Messages, Valid;
      if IsTx(config.protocol, m) || CheckQueue(config, m.call.action) {
        RemoveFromTable(IsTx(config.protocol, m), m.initialId);
      }
      Append(Answered(m));
      ResetInFlight();
    }

    /** A reply was received: the gate is cleared. */
    method NoteReply(id: MessageId)
      requires Valid()
      modifies this`log, this`nextToSend
      ensures Valid() && View() == ClearGate(old(View()), id)
    {
      Append(ReplyReceived(id));
      hide Messages, Valid;
      nextToSend := None;
    }

    /** Whether the reply concerns the message in flight. */
    method Concerns(id: MessageId) returns (yes: bool)
      requires Valid()
      ensures yes == Matches(View(), id) && (yes ==> inFlight != null)
    {
      yes := false;
      if inFlight != null {
        yes := inFlight.call.id == id;
      }
    }

    method ReceiveCallResult(id: MessageId)
      requires Valid()
      modifies this`inFlight, this`txTable, this`normalTable, this`log, this`nextToSend
      ensures Valid() && View() == OnResult(old(View()), id)
    {
      var concerns := Concerns(id);
      NoteReply(id);
      ConfigOf();
      hide View, Messages, Valid, Answer;
      if concerns {
        AnswerInFlight();
      }
    }

    method AnswerInFlight()
      requires Valid() && inFlight != null
      modifies this`inFlight, this`txTable, this`normalTable, this`log
      ensures Valid() && old(View()).store.inFlight.Some?
      ensures View() == old(View()).(store := Answer(old(View()).config, old(View()).store))
    {
      HandleCallResult();
      hide Messages, Valid, Answer;
    }

    lemma ConfigOf()
      requires Valid()
      ensures View().config == config && (inFlight != null <==> View().store.inFlight.Some?)
    {
    }

    /** The message in flight goes to the front of its queue. */
    method MoveToFront(isTx: bool)
      requires Valid() && inFlight != null
      modifies this`inFlight, this`tx, this`normal
      ensures Valid() && inFlight == null && old(Messages()).inFlight.Some?
      ensures var s, m := old(Messages()), old(Messages()).inFlight.value;
        Messages() == if isTx then s.(tx := [m] + s.tx, inFlight := None) else s.(normal := [m] + s.normal, inFlight := None)
    {
      ghost var s := Messages();
      hide Values;
      if isTx {
        tx := [inFlight] + tx;
        assert Values(tx) == [s.inFlight.value] + s.tx;
      } else {
        normal := [inFlight] + normal;
        assert Values(normal) == [s.inFlight.value] + s.normal;
      }
      inFlight := null;
    }

    /** The message in flight gets its new id and time, in place. */
    method Renew(now: Instant, newId: MessageId)
      requires Valid() && inFlight != null
      modifies inFlight
      ensures Valid() && old(Messages()).inFlight.Some?
      ensures Messages() == old(Messages()).(inFlight := Some(Renewed(config, old(Messages()).inFlight.value, now, newId)))
    {
      ghost var s := Messages();
      var m := inFlight.Value();
      inFlight.call := inFlight.call.(id := newId);
      inFlight.timestamp := RetryAt(config, m, now);
      assert Values(tx) == s.tx && Values(normal) == s.normal;
    }

    /** The message in flight is renewed and goes to the front of its queue. */
    method PushFront(isTx: bool, now: Instant, newId: MessageId)
      requires Valid() && inFlight != null
      requires isTx == IsTx(config.protocol, inFlight.Value())
      modifies this`inFlight, this`tx, this`normal, this`log, inFlight
      ensures Valid() && inFlight == null && old(Messages()).inFlight.Some?
      ensures Messages() == Retry(config, old(Messages()), now, newId)
    {
      ghost var m := inFlight.Value();
      assert Messages().inFlight == Some(m);
      hide Messages, Valid, Values;
      Renew(now, newId);
      Append(Retried(m, newId));
      MoveToFront(isTx);
    }

    method HandleTimeoutOrCallError(now: Instant, newId: MessageId)
      requires Valid() && inFlight != null
      modifies this`inFlight, this`tx, this`normal, this`txTable, this`normalTable, this`log, this`used, inFlight
      ensures Valid() && inFlight == null && old(Messages()).inFlight.Some?
      ensures Messages() == Fail(config, old(Messages()), now, newId) && used == old(used) + {newId}
    {
      var m := inFlight.Value();
      assert Messages().inFlight == Some(m);
      hide Messages, Valid;
      var isTx := IsTx(config.protocol, m);
      used := used + {newId};
      if isTx || CheckQueue(config, m.call.action) {
        if m.attempts < config.attempts {
          PushFront(isTx, now, newId);
        } else {
          RemoveFromTable(isTx, m.initialId);
          Append(GivenUp(m, config.attempts));
          ResetInFlight();
        }
      } else if m.call.action == BootNotification {
        PushFront(isTx, now, newId);
      } else {
        Append(Expired(m));
        ResetInFlight();
      }
    }

    method FailInFlight(now: Instant, newId: MessageId)
      requires Valid() && inFlight != null
      modifies this`inFlight, this`tx, this`normal, this`txTable, this`normalTable, this`log, this`used, inFlight
      ensures Valid() && View().store.inFlight.None? && old(View()).store.inFlight.Some?
      ensures View() == FailStep(old(View()), now, newId)
    {
      ConfigOf();
      HandleTimeoutOrCallError(now, newId);
      ConfigOf();
      hide Messages, Valid, Fail;
    }

    method ReceiveCallError(id: MessageId, now: Instant, newId: MessageId)
      requires Valid()
      modifies this`inFlight, this`tx, this`normal, this`txTable, this`normalTable, this`log, this`used, this`nextToSend, inFlight
      ensures Valid() && View() == OnError(old(View()), id, now, newId)
    {
      var concerns := Concerns(id);
      NoteReply(id);
      hide View, Messages, Valid, FailStep;
      if concerns {
        FailInFlight(now, newId);
      }
    }

    // -------------------------------------------------------------- worker

    /** std::find_if over the normal queue. */
    method FindFirstAllowed(now: Instant) returns (k: nat)
      requires Valid()
      ensures k == FirstAllowed(Messages().normal, now, registered) && |normal| == |Messages().normal|
    {
      k := 0;
      ghost var q := Messages().normal;
      assert |q| == |normal| && forall i :: 0 <= i < |q| ==> q[i] == normal[i].Value();
      hide Valid, Messages;
      while k < |normal| && !Allowed(normal[k].Value(), now, registered)
        invariant k <= |normal|
        invariant k + FirstAllowed(q[k..], now, registered) == FirstAllowed(q, now, registered)
      {
        assert q[k..][1..] == q[k + 1..];
        k := k + 1;
      }
    }

    /** Chooses between the first allowed normal message and the head of the transaction queue. */
    method SelectMessage(now: Instant) returns (sel: Selection)
      requires Valid()
      ensures sel == Choice(View(), now)
      ensures sel.FromTx? ==> tx != []
      ensures sel.FromNormal? ==> sel.index < |normal|
    {
      var k := FindFirstAllowed(now);
      sel := Nothing;
      if k < |normal| {
        sel := FromNormal(k);
      }
      if tx != [] && Allowed(tx[0].Value(), now, registered) {
        if sel.Nothing? || (normal[k].call.action != BootNotification && tx[0].timestamp <= normal[k].timestamp) {
          sel := FromTx;
        }
      }
    }

    /** The store with the selected message replaced by m. */
    static ghost function Replaced(s: Store, sel: Selection, m: Msg): Store
      requires Selectable(s, sel)
    {
      if sel.FromTx? then s.(tx := s.tx[0 := m]) else s.(normal := s.normal[sel.index := m])
    }

    ghost predicate At(sel: Selection, message: ControlMessage)
      reads this`tx, this`normal
    {
      (sel.FromTx? && tx != [] && tx[0] == message) ||
      (sel.FromNormal? && sel.index < |normal| && normal[sel.index] == message)
    }

    lemma AtPick(sel: Selection, message: ControlMessage)
      requires Valid() && At(sel, message)
      ensures Selectable(Messages(), sel) && Pick(Messages(), sel) == message.Value() && message in Repr
      ensures |Messages().tx| == |tx| && |Messages().normal| == |normal|
    {
    }

    /** Counts the attempt and fills in a transaction id, in the message while it is queued. */
    method PrepareMessage(sel: Selection, message: ControlMessage)
      requires Valid() && At(sel, message)
      modifies message
      ensures message.Value() == Prepare(stopIds, old(message.Value()))
      ensures Valid() && Selectable(old(Messages()), sel)
      ensures Messages() == Replaced(old(Messages()), sel, Prepare(stopIds, old(message.Value())))
    {
      message.attempts := message.attempts + 1;
      if message.call.id in stopIds {
        message.call := message.call.(transactionId := Some(stopIds[message.call.id]));
      }
    }

    /** The transport took the message: it leaves its queue and is in flight. */
    method Deliver(sel: Selection, message: ControlMessage)
      requires Valid() && At(sel, message) && inFlight == null
      modifies this`tx, this`normal, this`inFlight, this`log
      ensures Valid() && Selectable(old(Messages()), sel) && Messages() == Delivered(old(Messages()), sel, message.Value())
    {
      ghost var s := Messages();
      hide Values;
      AtPick(sel, message);
      if sel.FromTx? {
        tx := tx[1..];
        assert Values(tx) == s.tx[1..];
      } else {
        normal := RemoveAt(normal, sel.index);
        assert Values(normal) == RemoveAt(s.normal, sel.index);
      }
      inFlight := message;
      log := log + [Sent(message.Value(), true)];
    }

    /** The transport refused a message that is kept. */
    method Keep(sel: Selection, message: ControlMessage)
      requires Valid() && At(sel, message)
      modifies message, this`log
      ensures Valid() && Selectable(old(Messages()), sel) && message.call.id == old(message.call.id)
      ensures var m := old(message.Value());
        Messages() == Replaced(old(Messages()), sel, if IsTx(config.protocol, m) then MarkOffline(m) else m).(
          log := old(Messages()).log + [Sent(m, false)])
    {
      ghost var m := message.Value();
      if IsTx(config.protocol, message.Value()) && message.call.action == TransactionEvent {
        message.call := message.call.(offline := true);
      }
      Append(Sent(m, false));
    }

    /** The transport refused a message that is not kept: the front of the normal queue goes. */
    method PopFront(sel: Selection, message: ControlMessage)
      requires Valid() && At(sel, message) && sel.FromNormal?
      modifies this`normal, this`log
      ensures Valid() && old(Messages()).normal != []
      ensures Messages() == old(Messages()).(normal := old(Messages()).normal[1..],
        log := old(Messages()).log + [Sent(message.Value(), false), Refused(message.Value()), Popped(old(Messages()).normal[0])])
    {
      ghost var front := normal[0].Value();
      assert Values(normal[1..]) == Values(normal)[1..];
      normal := normal[1..];
      log := log + [Sent(message.Value(), false), Refused(message.Value()), Popped(front)];
    }

    /** Replacing the message first makes no difference to what a transmission leaves behind. */
    static lemma TransmitReplaced(c: Config, s: Store, sel: Selection, m: Msg)
      requires Selectable(s, sel)
      ensures var r := Replaced(s, sel, m);
        var kept := if IsTx(c.protocol, m) then MarkOffline(m) else m;
        && Selectable(r, sel)
        && Delivered(r, sel, m) == Delivered(s, sel, m)
        && (sel.FromTx? || Persistent(c, m) ==>
              Replaced(r, sel, kept).(log := s.log + [Sent(m, false)]) == Undelivered(c, s, sel, m))
        && (sel.FromNormal? && !Persistent(c, m) ==>
              r.normal != [] &&
              r.(normal := r.normal[1..], log := s.log + [Sent(m, false), Refused(m), Popped(r.normal[0])]) == Undelivered(c, s, sel, m))
    {
      var r := Replaced(s, sel, m);
      var kept := if IsTx(c.protocol, m) then MarkOffline(m) else m;
      if sel.FromTx? {
        assert r.tx[0 := kept] == s.tx[0 := kept];
        assert r.tx[1..] == s.tx[1..];
      } else {
        assert r.normal[sel.index := kept] == s.normal[sel.index := kept];
        assert RemoveAt(r.normal, sel.index) == RemoveAt(s.normal, sel.index);
      }
    }

    /** The prepared message is offered to the transport, whose answer is `ok`. */
    method Offer(sel: Selection, message: ControlMessage, ok: bool)
      requires Valid() && At(sel, message) && inFlight == null
      modifies message, this`tx, this`normal, this`inFlight, this`log
      ensures Valid() && Selectable(old(Messages()), sel) && message.call.id == old(message.call.id)
      ensures Messages() == Transmit(config, old(Messages()), sel, Prepare(stopIds, old(message.Value())), ok)
    {
      ghost var s := Messages();
      AtPick(sel, message);
      PrepareMessage(sel, message);
      TransmitReplaced(config, s, sel, message.Value());
      hide Messages, Valid, Replaced, Prepare, MarkOffline, Delivered, Undelivered;
      if ok {
        Deliver(sel, message);
      } else if sel.FromTx? || IsTx(config.protocol, message.Value()) || CheckQueue(config, message.call.action) {
        Keep(sel, message);
      } else {
        PopFront(sel, message);
      }
    }

    /** One call of send_callback, and the flags that depend on its outcome. */
    method AttemptSend(sel: Selection, message: ControlMessage, ok: bool)
      requires Valid() && At(sel, message) && inFlight == null
      modifies message, this`tx, this`normal, this`inFlight, this`log, this`stopIds, this`paused, this`newMessage
      ensures Valid() && Selectable(old(Messages()), sel)
      ensures Messages() == Transmit(config, old(Messages()), sel, Prepare(old(stopIds), old(message.Value())), ok)
      ensures stopIds == old(stopIds) - {old(message.call.id)} && paused == (old(paused) || !ok)
      ensures newMessage == (old(newMessage) && !QueuesEmpty(Messages()))
    {
      hide Valid, Messages, Placed, Transmit, Prepare, QueuesEmpty;
      AtPick(sel, message);
      Offer(sel, message, ok);
      Emptiness();
      stopIds := stopIds - {message.call.id};
      if !ok {
        paused := true;
      }
      if tx == [] && normal == [] {
        newMessage := false;
      }
    }

    lemma Emptiness()
      requires Valid()
      ensures QueuesEmpty(Messages()) <==> tx == [] && normal == []
    {
    }

    method AttemptStep(sel: Selection, message: ControlMessage, ok: bool)
      requires Valid() && At(sel, message) && inFlight == null
      modifies message, this`tx, this`normal, this`inFlight, this`log, this`stopIds, this`paused, this`newMessage
      ensures Valid() && Selectable(old(View()).store, sel)
      ensures View() == Attempt(old(View()), sel, ok)
    {
      AtPick(sel, message);
      hide Messages, Valid, Transmit, QueuesEmpty;
      AttemptSend(sel, message, ok);
    }

    lemma Facts()
      requires Valid()
      ensures QueuesEmpty(View().store) <==> tx == [] && normal == []
      ensures View().pausing.paused == paused && (View().store.inFlight.Some? <==> inFlight != null)
      ensures View().control.nextToSend == nextToSend && View().control.registered == registered
    {
    }

    method NothingToSend()
      requires Valid()
      modifies this`newMessage
      ensures Valid() && View() == old(View()).(control := old(View()).control.(newMessage := false))
    {
      hide Messages, Valid;
      newMessage := false;
    }

    /** One iteration of the worker thread, from the end of its wait: the pass over the queues, and the
        test of the loop, after which the thread ends if the queue was stopped. */
    method WorkerIteration(now: Instant, ok: bool)
      requires Valid()
      modifies this, Repr
      ensures Valid() && Repr == old(Repr)
      ensures var t := WorkerPass(old(View()), now, ok); View() == t.(control := t.control.(workerAlive := old(running)))
      ensures Enabled(old(View()), Worker(now, ok)) ==> View() == Next(old(View()), Worker(now, ok))
    {
      KeepsRunning(View(), now, ok);
      hide Messages, Valid, WorkerPass, Enabled;
      PassOverQueues(now, ok);
      workerAlive := running;
    }

    static lemma KeepsRunning(s: State, now: Instant, ok: bool)
      ensures WorkerPass(s, now, ok).control.running == s.control.running
    {
    }

    method PassOverQueues(now: Instant, ok: bool)
      requires Valid()
      modifies this, Repr
      ensures Valid() && Repr == old(Repr)
      ensures View() == WorkerPass(old(View()), now, ok)
    {
      Facts();
      hide View, Messages, Valid, Attempt, ControlState, PausingState;
      if tx == [] && normal == [] {
        return;
      }
      if paused {
        return;
      }
      if inFlight != null {
        return;
      }
      var sel := SelectMessage(now);
      if sel.Nothing? {
        NothingToSend();
        return;
      }
      var message := if sel.FromTx? then tx[0] else normal[sel.index];
      AtPick(sel, message);
      SameStore();
      if nextToSend.Some? {
        if nextToSend.value != message.call.id {
          return;
        }
      }
      AttemptStep(sel, message, ok);
    }

    lemma SameStore()
      requires Valid()
      ensures View().store == Messages()
    {
    }

    // -------------------------------------------------------------- pause and resume

    /** Stopping or re-arming the resume timer: some callbacks are cancelled, others may still fire. */
    ghost method CancelTimers(cancelled: multiset<nat>, armed: multiset<nat>)
      modifies this`timers
      ensures timers == old(timers) - cancelled + armed
    {
      timers := timers - cancelled + armed;
    }

    method Pause(ghost cancelled: multiset<nat>)
      modifies this`ctr, this`timers, this`paused, this`resuming
      ensures PausingState() == PauseNow(old(PausingState()), cancelled)
    {
      CancelTimers(cancelled, multiset{});
      ctr := ctr + 1;
      paused := true;
      resuming := false;
    }

    method ResumeQueueNow(expected: nat)
      modifies this`paused, this`resuming
      ensures PausingState() == ResumeNow(old(PausingState()), expected)
    {
      if ctr == expected {
        paused := false;
        resuming := false;
      }
    }

    method Resume(delay: int, ghost cancelled: multiset<nat>)
      modifies this`ctr, this`timers, this`paused, this`resuming
      ensures PausingState() == ResumeLater(old(PausingState()), delay > 0, cancelled)
    {
      if !paused {
        return;
      }
      ctr := ctr + 1;
      if ctr > 1 && delay > 0 {
        resuming := true;
        CancelTimers(cancelled, multiset{ctr});
      } else {
        ResumeQueueNow(ctr);
      }
    }

    method ResumeTimerFires(expected: nat)
      modifies this`timers, this`paused, this`resuming
      ensures PausingState() == ResumeFires(old(PausingState()), expected)
    {
      timers := timers - multiset{expected};
      ResumeQueueNow(expected);
    }

    // -------------------------------------------------------------- late transaction ids

    method AddMeterValueMessageId(start: MessageId, meter: MessageId)
      modifies this`meterIds
      ensures meterIds == RegisterMeter(old(meterIds), start, meter)
    {
      if start in meterIds {
        meterIds := meterIds[start := meterIds[start] + [meter]];
      } else {
        meterIds := meterIds[start := [meter]];
        assert [meter] == [] + [meter];
      }
    }

    /** The inner loop: one queued message is compared with every registered id. */
    static method SubstituteIn(message: ControlMessage, ids: seq<MessageId>, transactionId: int)
      modifies message
      ensures message.Value() == Substitute(old(message.Value()), ids, transactionId)
    {
      var j := 0;
      while j < |ids|
        invariant 0 <= j <= |ids|
        invariant message.Value() == Substitute(old(message.Value()), ids[..j], transactionId)
      {
        assert ids[..j + 1] == ids[..j] + [ids[j]];
        if ids[j] == message.call.id {
          message.call := message.call.(transactionId := Some(transactionId));
        }
        j := j + 1;
      }
      assert ids[..j] == ids;
    }

    method SubstituteAt(i: nat, ids: seq<MessageId>, transactionId: int)
      requires Valid() && i < |tx|
      modifies tx[i]
      ensures Valid() && |old(Messages()).tx| == |tx|
      ensures Messages() == old(Messages()).(tx := old(Messages()).tx[i := Substitute(old(Messages()).tx[i], ids, transactionId)])
    {
      ghost var s := Messages();
      assert s.tx[i] == tx[i].Value();
      SubstituteIn(tx[i], ids, transactionId);
      assert Values(tx) == s.tx[i := Substitute(s.tx[i], ids, transactionId)];
      assert Values(normal) == s.normal;
    }

    method SubstituteQueue(ids: seq<MessageId>, transactionId: int)
      requires Valid()
      modifies Repr
      ensures Valid() && Messages() == old(Messages()).(tx := SubstituteAll(old(Messages()).tx, ids, transactionId))
    {
      ghost var s := Messages();
      var i := 0;
      assert |s.tx| == |tx|;
      hide Messages;
      while i < |tx|
        invariant 0 <= i <= |tx| && Valid() && |Messages().tx| == |s.tx|
        invariant Messages() == s.(tx := Messages().tx)
        invariant forall k :: 0 <= k < i ==> Messages().tx[k] == Substitute(s.tx[k], ids, transactionId)
        invariant forall k :: i <= k < |s.tx| ==> Messages().tx[k] == s.tx[k]
      {
        SubstituteAt(i, ids, transactionId);
        i := i + 1;
      }
      assert Messages().tx == SubstituteAll(s.tx, ids, transactionId);
    }

    method NotifyStartTransactionHandled(start: MessageId, transactionId: int)
      requires Valid()
      modifies this`meterIds, Repr
      ensures Valid() && View() == HandleStart(old(View()), start, transactionId)
    {
      hide Messages;
      if start in meterIds {
        SubstituteQueue(meterIds[start], transactionId);
      }
      meterIds := meterIds - {start};
    }

    // -------------------------------------------------------------- start-up

    /** Appends the messages of one table to its queue; rows that are not to be sent any more are deleted. */
    method LoadTable(isTx: bool, ignoreSecurity: bool)
      requires Valid()
      modifies this`tx, this`normal, this`txTable, this`normalTable, this`log, this`Repr
      ensures Valid() && fresh(Repr - old(Repr))
      ensures var rows := old(Table(isTx));
        Messages() == Progress(old(Messages()), isTx, Load(rows, ignoreSecurity), Purge(rows, rows, ignoreSecurity))
    {
      ghost var s := Messages();
      var rows := if isTx then txTable else normalTable;
      assert rows == Table(isTx);
      ghost var loaded: seq<Msg> := [];
      var i := 0;
      LoadingStarts(s, isTx, rows, ignoreSecurity);
      hide Messages, Load, Purge, Loading, Progress;
      while i < |rows|
        invariant 0 <= i <= |rows| && Valid() && fresh(Repr - old(Repr))
        invariant Loading(s, isTx, rows, i, loaded, ignoreSecurity)
      {
        loaded := LoadOrDelete(s, isTx, rows, i, loaded, ignoreSecurity);
        i := i + 1;
      }
      LoadingEnds(s, isTx, rows, loaded, ignoreSecurity);
    }

    ghost function Table(isTx: bool): seq<Row>
      reads this`txTable, this`normalTable
    {
      if isTx then txTable else normalTable
    }

    /** The first i rows have been dealt with. */
    ghost predicate Loading(s: Store, isTx: bool, rows: seq<Row>, i: nat, loaded: seq<Msg>, ignoreSecurity: bool)
      requires Valid() && i <= |rows|
      reads this`tx, this`normal, this`inFlight, this`txTable, this`normalTable, this`log, this`Repr, Repr
    {
      && loaded + Load(rows[i..], ignoreSecurity) == Load(rows, ignoreSecurity)
      && Purge(Table(isTx), rows[i..], ignoreSecurity) == Purge(rows, rows, ignoreSecurity)
      && Messages() == Progress(s, isTx, loaded, Table(isTx))
    }

    lemma LoadingStarts(s: Store, isTx: bool, rows: seq<Row>, ignoreSecurity: bool)
      requires Valid() && Messages() == s && rows == Table(isTx)
      ensures Loading(s, isTx, rows, 0, [], ignoreSecurity)
    {
      var none: seq<Msg> := [];
      assert rows[0..] == rows && none + Load(rows, ignoreSecurity) == Load(rows, ignoreSecurity);
      assert AcceptAll(none) == [];
    }

    lemma LoadingEnds(s: Store, isTx: bool, rows: seq<Row>, loaded: seq<Msg>, ignoreSecurity: bool)
      requires Valid() && Loading(s, isTx, rows, |rows|, loaded, ignoreSecurity)
      ensures Messages() == Progress(s, isTx, Load(rows, ignoreSecurity), Purge(rows, rows, ignoreSecurity))
    {
      RowsDone(rows, loaded, Table(isTx), ignoreSecurity);
    }

    method LoadOrDelete(ghost s: Store, isTx: bool, rows: seq<Row>, i: nat, ghost loaded: seq<Msg>, ignoreSecurity: bool)
      returns (ghost loaded': seq<Msg>)
      requires Valid() && i < |rows| && Loading(s, isTx, rows, i, loaded, ignoreSecurity)
      modifies this`tx, this`normal, this`txTable, this`normalTable, this`log, this`Repr
      ensures Valid() && fresh(Repr - old(Repr)) && Loading(s, isTx, rows, i + 1, loaded', ignoreSecurity)
    {
      RowStep(rows, i, Table(isTx), loaded, ignoreSecurity);
      MoreLoaded(s, isTx, loaded, FromRow(rows[i]), Table(isTx));
      hide Messages, Load, Purge, AcceptAll;
      if Ignored(rows[i], ignoreSecurity) {
        RemoveFromTable(isTx, rows[i].uniqueId);
        loaded' := loaded;
      } else {
        LoadRow(isTx, rows[i]);
        loaded' := loaded + [FromRow(rows[i])];
      }
    }

    /** The store after some rows have been loaded and the table has been reduced. */
    static ghost function Progress(s: Store, isTx: bool, loaded: seq<Msg>, table: seq<Row>): Store {
      if isTx then s.(tx := s.tx + loaded, txTable := table, log := s.log + AcceptAll(loaded))
      else s.(normal := s.normal + loaded, normalTable := table, log := s.log + AcceptAll(loaded))
    }

    static lemma RowStep(rows: seq<Row>, i: nat, table: seq<Row>, loaded: seq<Msg>, ign: bool)
      requires i < |rows|
      ensures Ignored(rows[i], ign) ==>
        Load(rows[i..], ign) == Load(rows[i + 1..], ign) &&
        Purge(table, rows[i..], ign) == Purge(RemoveRow(table, rows[i].uniqueId), rows[i + 1..], ign)
      ensures !Ignored(rows[i], ign) ==>
        loaded + Load(rows[i..], ign) == loaded + [FromRow(rows[i])] + Load(rows[i + 1..], ign) &&
        Purge(table, rows[i..], ign) == Purge(table, rows[i + 1..], ign)
    {
      assert rows[i..][1..] == rows[i + 1..];
    }

    static lemma RowsDone(rows: seq<Row>, loaded: seq<Msg>, table: seq<Row>, ign: bool)
      ensures loaded + Load(rows[|rows|..], ign) == loaded && Purge(table, rows[|rows|..], ign) == table
    {
    }

    static lemma MoreLoaded(s: Store, isTx: bool, loaded: seq<Msg>, m: Msg, table: seq<Row>)
      ensures var p := Progress(s, isTx, loaded, table);
        Progress(s, isTx, loaded + [m], table) ==
        if isTx then p.(tx := p.tx + [m], log := p.log + [Accepted(m)]) else p.(normal := p.normal + [m], log := p.log + [Accepted(m)])
    {
      assert AcceptAll(loaded + [m]) == AcceptAll(loaded) + [Accepted(m)];
      assert s.log + AcceptAll(loaded + [m]) == s.log + AcceptAll(loaded) + [Accepted(m)];
      assert s.tx + (loaded + [m]) == s.tx + loaded + [m];
      assert s.normal + (loaded + [m]) == s.normal + loaded + [m];
    }

    method LoadRow(isTx: bool, row: Row)
      requires Valid()
      modifies this`tx, this`normal, this`log, this`Repr
      ensures Valid() && fresh(Repr - old(Repr))
      ensures var m := FromRow(row);
        Messages() ==
        if isTx then old(Messages()).(tx := old(Messages()).tx + [m], log := old(Messages()).log + [Accepted(m)])
        else old(Messages()).(normal := old(Messages()).normal + [m], log := old(Messages()).log + [Accepted(m)])
    {
      var message := new ControlMessage(row.call, true, row.timestamp, row.serial);
      message.attempts := row.attempts;
      PushBack(isTx, message);
      hide Messages, Valid, Values;
      Append(Accepted(FromRow(row)));
    }

    method PushBack(isTx: bool, message: ControlMessage)
      requires Valid() && message !in Repr
      modifies this`tx, this`normal, this`Repr
      ensures Valid() && Repr == old(Repr) + {message}
      ensures var s, m := old(Messages()), message.Value();
        Messages() == if isTx then s.(tx := s.tx + [m]) else s.(normal := s.normal + [m])
    {
      ghost var s := Messages();
      Repr := Repr + {message};
      if isTx {
        tx := tx + [message];
        assert Values(tx) == s.tx + [message.Value()];
      } else {
        normal := normal + [message];
        assert Values(normal) == s.normal + [message.Value()];
      }
    }

    /** Reads back both tables; without queueing of all messages, the table of normal messages is then emptied. */
    method GetPersistedMessages(ignoreSecurity: bool)
      requires Valid()
      modifies this`tx, this`normal, this`txTable, this`normalTable, this`log, this`Repr, this`newMessage
      ensures Valid() && fresh(Repr - old(Repr))
      ensures Messages() == ReadBack(config, old(Messages()), ignoreSecurity)
      ensures newMessage == (old(newMessage) || old(txTable) != [] || old(normalTable) != [])
    {
      ghost var s := Messages();
      hide Valid, Messages, Placed, Load, Purge, AcceptAll, ReadBack, Progress;
      TableOfStore();
      if txTable != [] || normalTable != [] {
        newMessage := true;
      }
      LoadTable(false, ignoreSecurity);
      TableOfStore();
      FirstTable(s, Load(s.normalTable, ignoreSecurity), Purge(s.normalTable, s.normalTable, ignoreSecurity));
      assert txTable == s.txTable;
      LoadTable(true, ignoreSecurity);
      ClearNormalTable();
      BothTables(config, s, ignoreSecurity);
    }

    lemma TableOfStore()
      requires Valid()
      ensures Messages().txTable == txTable && Messages().normalTable == normalTable
    {
    }

    static lemma FirstTable(s: Store, loaded: seq<Msg>, table: seq<Row>)
      ensures Progress(s, false, loaded, table).txTable == s.txTable
    {
    }

    static lemma BothTables(c: Config, s: Store, ign: bool)
      ensures var n, t := Load(s.normalTable, ign), Load(s.txTable, ign);
        var r := Progress(Progress(s, false, n, Purge(s.normalTable, s.normalTable, ign)), true, t, Purge(s.txTable, s.txTable, ign));
        (if c.queueAll then r else r.(normalTable := [])) == ReadBack(c, s, ign)
    {
    }

    /** A boot reads the tables back into empty queues. */
    static lemma BootReadsBack(c: Config, txRows: seq<Row>, normalRows: seq<Row>, ign: bool)
      ensures ReadBack(c, Store([], [], None, txRows, normalRows, []), ign) == BootStore(c, txRows, normalRows, ign)
    {
      hide Load, Purge, AcceptAll;
    }

    method ClearNormalTable()
      requires Valid()
      modifies this`normalTable
      ensures Valid() && Messages() == if config.queueAll then old(Messages()) else old(Messages()).(normalTable := [])
    {
      if !config.queueAll {
        normalTable := [];
      }
    }

    /** A restart: a new queue over the tables of the old one. */
    static method Restart(config: Config, txTable: seq<Row>, normalTable: seq<Row>, serial: nat, ghost used: set<MessageId>,
                          ignoreSecurity: bool) returns (q: MessageQueue)
      ensures fresh(q) && q.Valid() && fresh(q.Repr)
      ensures q.View() == Boot(config, txTable, normalTable, serial, used, ignoreSecurity)
    {
      hide BootStore, ReadBack;
      q := new MessageQueue(config, txTable, normalTable, serial, used);
      BootReadsBack(config, txTable, normalTable, ignoreSecurity);
      q.GetPersistedMessages(ignoreSecurity);
    }

    // -------------------------------------------------------------- settings and signals

    method SetRegistrationStatusAccepted()
      requires Valid()
      modifies this`registered
      ensures Valid() && View() == Next(old(View()), RegistrationAccepted)
    {
      hide Messages, Valid;
      registered := true;
    }

    method ResetNextMessageToSend()
      requires Valid()
      modifies this`nextToSend, this`log
      ensures Valid() && View() == Next(old(View()), ResetNextMessage)
    {
      Append(GateReset);
      hide Messages, Valid;
      nextToSend := None;
    }

    method NotifyQueueTimer()
      requires Valid()
      modifies this`newMessage
      ensures Valid() && View() == Next(old(View()), NotifyTimer)
    {
      hide Messages, Valid;
      newMessage := true;
    }

    method AddStoppedTransactionId(id: MessageId, transactionId: int)
      requires Valid()
      modifies this`stopIds
      ensures Valid() && View() == Next(old(View()), AddStoppedTransaction(id, transactionId))
    {
      hide Messages, Valid;
      stopIds := stopIds[id := transactionId];
    }

    /** From now on a message that is kept is retried while it has fewer attempts than that. */
    method UpdateTransactionMessageAttempts(attempts: int)
      requires Valid()
      modifies this`config, this`peak
      ensures Valid() && View() == Next(old(View()), SetAttempts(attempts))
      ensures forall m: Msg :: Persistent(config, m) ==> (Retries(config, m) <==> m.attempts < attempts)
    {
      hide Messages, Valid;
      config := config.(attempts := attempts);
      peak := Max(peak, attempts);
    }

    /** From now on a retry of a message that is kept is delayed by that interval times its attempts, or not
        at all if the interval is not positive. */
    method UpdateTransactionMessageRetryInterval(interval: int)
      requires Valid()
      modifies this`config
      ensures Valid() && View() == Next(old(View()), SetRetryInterval(interval))
      ensures forall m: Msg, now: Instant :: Persistent(config, m) ==>
        RetryAt(config, m, now) == if interval > 0 then m.timestamp + interval * m.attempts else now
    {
      hide Messages, Valid;
      config := config.(retryInterval := interval);
    }

    method Stop()
      requires Valid()
      modifies this`running
      ensures Valid() && View() == Next(old(View()), QueueSpec.Stop)
    {
      hide Messages, Valid;
      running := false;
    }
  }
}
