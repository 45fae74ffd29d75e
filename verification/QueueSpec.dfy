/** The message queue as a state machine. */
module QueueSpec {
  import opened Messages

  // Every public method that holds `message_mutex`, every iteration of the worker thread and every
  // timer callback is one atomic step.

  /** What happened so far. An entry carries the message as it was at that moment. */
  datatype Entry =
    | Accepted(m: Msg)                     // put into one of the two queues
    | Sent(m: Msg, ok: bool)               // handed to send_callback, with its answer
    | Answered(m: Msg)                     // CALLRESULT received; promise set
    | Retried(m: Msg, newId: MessageId)    // timeout or CALLERROR; back to the front of its queue
    | GivenUp(m: Msg, limit: int)          // timeout or CALLERROR with all attempts used; promise set
    | Expired(m: Msg)                      // timeout or CALLERROR of a message that is not kept; promise set
    | Overflowed(m: Msg)                   // dropped because the queues were too long
    | Refused(m: Msg)                      // not kept and the transport refused it; promise set
    | Popped(m: Msg)                       // removed by the pop_front that follows Refused
    | Offline(m: Msg)                      // never queued; promise set
    | CallReceived(id: MessageId)
    | ReplySent(id: MessageId)
    | ReplyReceived(id: MessageId)
    | GateReset
    | Restarted                            // between two boots
    | Skipped(m: Msg)                      // read back at a restart, but no longer to be sent

  /** The messages: both queues, the message in flight, both tables, and the history of this boot. */
  datatype Store = Store(
    tx: seq<Msg>,
    normal: seq<Msg>,
    inFlight: Option<Msg>,
    txTable: seq<Row>,
    normalTable: seq<Row>,
    log: seq<Entry>)

  /** Pause and resume. `timers` holds the counters carried by resume callbacks that may still fire. */
  datatype Pausing = Pausing(paused: bool, resuming: bool, ctr: nat, timers: multiset<nat>)

  /** The remaining flags and maps. */
  datatype Control = Control(
    running: bool,
    workerAlive: bool,
    newMessage: bool,
    registered: bool,
    nextToSend: Option<MessageId>,
    stopIds: map<MessageId, int>,
    meterIds: map<MessageId, seq<MessageId>>)

  /** `serial`, `used` and `peak` are history: the next serial, the ids handed out by
      create_message_id, and the largest number of attempts configured in this boot. */
  datatype State = State(
    config: Config,
    store: Store,
    pausing: Pausing,
    control: Control,
    serial: nat,
    used: set<MessageId>,
    peak: int)

  datatype Event =
    | PushCall(call: Call, stall: bool, now: Instant)
    | PushCallAsync(call: Call, now: Instant)
    | PushReply(id: MessageId)                                  // push_call_result, push_call_error
    | ReceiveCall(id: MessageId)
    | ReceiveResult(id: MessageId)
    | ReceiveError(id: MessageId, now: Instant, newId: MessageId)
    | Timeout(now: Instant, newId: MessageId)
    | Worker(now: Instant, ok: bool)
    | NotifyTimer
    | Pause(cancelled: multiset<nat>)
    | Resume(delayed: bool, cancelled: multiset<nat>)
    | ResumeTimer(expected: nat)
    | RegistrationAccepted
    | ResetNextMessage
    | AddStoppedTransaction(id: MessageId, transactionId: int)
    | AddMeterValue(start: MessageId, meter: MessageId)
    | StartHandled(start: MessageId, transactionId: int)
    | SetAttempts(attempts: int)
    | SetRetryInterval(interval: int)
    | Stop
    | Crash(config: Config, ignoreSecurity: bool)               // process lost; a new queue reads the tables back

  // ---------------------------------------------------------------- overflow

  /** The code compares unsigned sizes with a signed threshold, so a negative one is never exceeded. */
  predicate Exceeds(c: Config, s: Store) {
    c.threshold >= 0 && |s.tx| + |s.normal| > c.threshold
  }

  function Min(a: int, b: int): int { if a < b then a else b }

  function Max(a: int, b: int): int { if a < b then b else a }

  function BatchSize(c: Config, s: Store): int {
    Min(|s.normal|, Max(c.threshold / 10, 1))
  }

  function DropFront(c: Config, s: Store): Store
    requires s.normal != []
  {
    s.(normal := s.normal[1..],
       normalTable := if c.queueAll then RemoveRow(s.normalTable, s.normal[0].initialId) else s.normalTable,
       log := s.log + [Overflowed(s.normal[0])])
  }

  function DropFronts(c: Config, s: Store, n: nat): (r: Store)
    requires n <= |s.normal|
    ensures |r.normal| == |s.normal| - n
    decreases n
  {
    if n == 0 then s else DropFronts(c, DropFront(c, s), n - 1)
  }

  function DropNormals(c: Config, s: Store): Store
    decreases |s.normal|
  {
    if Exceeds(c, s) && s.normal != [] then DropNormals(c, DropFronts(c, s, BatchSize(c, s))) else s
  }

  function DropUpdate(s: Store, i: nat): Store
    requires i < |s.tx|
  {
    s.(tx := RemoveAt(s.tx, i),
       txTable := RemoveRow(s.txTable, s.tx[i].initialId),
       log := s.log + [Overflowed(s.tx[i])])
  }

  predicate Droppable(c: Config, s: Store, i: nat)
    requires i < |s.tx|
  {
    IsUpdate(c.protocol, s.tx[i].call) && |s.tx| - i - 1 > 1
  }

  /** One pass over the transaction queue; the first i messages have been kept already. */
  function DropPass(c: Config, s: Store, i: nat, removeNext: bool): (r: Store)
    requires i <= |s.tx|
    ensures |r.tx| <= |s.tx|
    decreases |s.tx| - i
  {
    if i == |s.tx| then s
    else if removeNext && Droppable(c, s, i) then DropPass(c, DropUpdate(s, i), i, false)
    else DropPass(c, s, i + 1, true)
  }

  function DropUpdates(c: Config, s: Store): Store
    decreases |s.tx|
  {
    if !Exceeds(c, s) then s
    else
      var t := DropPass(c, s, 0, true);
      if |t.tx| < |s.tx| then DropUpdates(c, t) else t
  }

  function CheckQueueSizes(c: Config, s: Store): Store {
    DropUpdates(c, DropNormals(c, s))
  }

  // ---------------------------------------------------------------- pushing

  function NewMsg(serial: nat, call: Call, stall: bool, now: Instant): Msg {
    Msg(serial, call, call.id, 0, now, stall)
  }

  function InsertTx(s: Store, m: Msg): Store {
    s.(tx := s.tx + [m], txTable := s.txTable + [RowOf(m)], log := s.log + [Accepted(m)])
  }

  function InsertNormal(c: Config, s: Store, m: Msg): Store {
    s.(normal := if m.call.action == BootNotification then [m] + s.normal else s.normal + [m],
       normalTable := if CheckQueue(c, m.call.action) then s.normalTable + [RowOf(m)] else s.normalTable,
       log := s.log + [Accepted(m)])
  }

  function Insert(c: Config, s: Store, m: Msg): Store {
    CheckQueueSizes(c, if IsTx(c.protocol, m) then InsertTx(s, m) else InsertNormal(c, s, m))
  }

  /** A normal message is taken only if it can be expected to be sent or has to be kept. */
  predicate TakesNormal(s: State, a: Action) {
    !s.pausing.paused || s.pausing.resuming || CheckQueue(s.config, a) || a == BootNotification
  }

  predicate Takes(s: State, a: Action) {
    s.control.running && (IsTransaction(s.config.protocol, a) || TakesNormal(s, a))
  }

  function Accept(s: State, m: Msg): State {
    s.(store := Insert(s.config, s.store, m), control := s.control.(newMessage := true),
       serial := s.serial + 1, used := s.used + {m.call.id})
  }

  function Reject(s: State, m: Msg): State {
    s.(store := s.store.(log := s.store.log + [Offline(m)]), serial := s.serial + 1, used := s.used + {m.call.id})
  }

  // ---------------------------------------------------------------- worker

  function FirstAllowed(q: seq<Msg>, now: Instant, registered: bool): (k: nat)
    ensures k <= |q|
    ensures forall j :: 0 <= j < k ==> !Allowed(q[j], now, registered)
    ensures k < |q| ==> Allowed(q[k], now, registered)
  {
    if q == [] || Allowed(q[0], now, registered) then 0
    else 1 + FirstAllowed(q[1..], now, registered)
  }

  datatype Selection = Nothing | FromTx | FromNormal(index: nat)

  /** Only the head of the transaction queue is considered; it wins over the
      first allowed normal message unless that is a BootNotification or older. */
  function Select(s: Store, now: Instant, registered: bool): (sel: Selection)
    ensures sel.FromTx? ==> s.tx != []
    ensures sel.FromNormal? ==> sel.index < |s.normal|
  {
    var k := FirstAllowed(s.normal, now, registered);
    if s.tx != [] && Allowed(s.tx[0], now, registered) &&
       (k == |s.normal| ||
        (s.normal[k].call.action != BootNotification && s.tx[0].timestamp <= s.normal[k].timestamp))
    then FromTx
    else if k < |s.normal| then FromNormal(k)
    else Nothing
  }

  predicate Selectable(s: Store, sel: Selection) {
    match sel
    case Nothing => false
    case FromTx => s.tx != []
    case FromNormal(k) => k < |s.normal|
  }

  function Pick(s: Store, sel: Selection): Msg
    requires Selectable(s, sel)
  {
    if sel.FromTx? then s.tx[0] else s.normal[sel.index]
  }

  function WithStopId(stopIds: map<MessageId, int>, c: Call): Call {
    if c.id in stopIds then c.(transactionId := Some(stopIds[c.id])) else c
  }

  /** Counts the attempt and fills in a transaction id that became known in the meantime. */
  function Prepare(stopIds: map<MessageId, int>, m: Msg): Msg {
    m.(attempts := m.attempts + 1, call := WithStopId(stopIds, m.call))
  }

  function MarkOffline(m: Msg): Msg {
    if m.call.action == TransactionEvent then m.(call := m.call.(offline := true)) else m
  }

  function Delivered(s: Store, sel: Selection, m: Msg): Store
    requires Selectable(s, sel)
  {
    if sel.FromTx? then s.(tx := s.tx[1..], inFlight := Some(m), log := s.log + [Sent(m, true)])
    else s.(normal := RemoveAt(s.normal, sel.index), inFlight := Some(m), log := s.log + [Sent(m, true)])
  }

  /** The transport refused the message. A message that is kept stays where it is;
      for any other one the promise is set and the front of the normal queue is removed. */
  function Undelivered(c: Config, s: Store, sel: Selection, m: Msg): Store
    requires Selectable(s, sel)
  {
    var kept := if IsTx(c.protocol, m) then MarkOffline(m) else m;
    if sel.FromTx? then s.(tx := s.tx[0 := kept], log := s.log + [Sent(m, false)])
    else if Persistent(c, m) then s.(normal := s.normal[sel.index := kept], log := s.log + [Sent(m, false)])
    else
      var q := s.normal[sel.index := m];
      s.(normal := q[1..], log := s.log + [Sent(m, false), Refused(m), Popped(q[0])])
  }

  function Transmit(c: Config, s: Store, sel: Selection, m: Msg, ok: bool): Store
    requires Selectable(s, sel)
  {
    if ok then Delivered(s, sel, m) else Undelivered(c, s, sel, m)
  }

  predicate QueuesEmpty(s: Store) {
    s.tx == [] && s.normal == []
  }

  /** One call of send_callback for the selected message. */
  function Attempt(s: State, sel: Selection, ok: bool): State
    requires Selectable(s.store, sel)
  {
    var m := Prepare(s.control.stopIds, Pick(s.store, sel));
    var t := Transmit(s.config, s.store, sel, m, ok);
    s.(store := t,
       pausing := s.pausing.(paused := s.pausing.paused || !ok),
       control := s.control.(stopIds := s.control.stopIds - {m.call.id},
                             newMessage := s.control.newMessage && !QueuesEmpty(t)))
  }

  /** The next message to go out has to answer a CALL of the CSMS. */
  predicate HeldBack(s: State, m: Msg) {
    s.control.nextToSend.Some? && s.control.nextToSend.value != m.call.id
  }

  /** The condition the worker thread waits for. */
  predicate WorkerReady(s: State) {
    !s.control.running || (!s.pausing.paused && s.control.newMessage && s.store.inFlight.None?)
  }

  function Choice(s: State, now: Instant): (sel: Selection)
    ensures !sel.Nothing? ==> Selectable(s.store, sel)
  {
    Select(s.store, now, s.control.registered)
  }

  predicate Blocked(s: State) {
    QueuesEmpty(s.store) || s.pausing.paused || s.store.inFlight.Some?
  }

  /** The worker hands a message to the transport in this pass. */
  predicate Attempts(s: State, now: Instant) {
    !Blocked(s) && !Choice(s, now).Nothing? && !HeldBack(s, Pick(s.store, Choice(s, now)))
  }

  function WorkerPass(s: State, now: Instant, ok: bool): State {
    if Attempts(s, now) then Attempt(s, Choice(s, now), ok)
    else if !Blocked(s) && Choice(s, now).Nothing? then s.(control := s.control.(newMessage := false))
    else s
  }

  /** A pass of the worker is one attempt, or leaves every message alone. */
  lemma PassShape(s: State, now: Instant, ok: bool)
    ensures Attempts(s, now) ==>
      Selectable(s.store, Choice(s, now)) && s.store.inFlight.None? && WorkerPass(s, now, ok) == Attempt(s, Choice(s, now), ok)
    ensures !Attempts(s, now) ==>
      var t := WorkerPass(s, now, ok); t.store == s.store && t.config == s.config && t.used == s.used
  {
    hide Attempt, Choice;
  }

  // ---------------------------------------------------------------- replies

  function RemoveFromTable(c: Config, s: Store, m: Msg): Store {
    if IsTx(c.protocol, m) then s.(txTable := RemoveRow(s.txTable, m.initialId))
    else s.(normalTable := RemoveRow(s.normalTable, m.initialId))
  }

  /** The message in flight is resolved; it leaves its table if it was kept there. */
  function Resolve(c: Config, s: Store, e: Entry): Store
    requires s.inFlight.Some?
  {
    var t := if Persistent(c, s.inFlight.value) then RemoveFromTable(c, s, s.inFlight.value) else s;
    t.(inFlight := None, log := s.log + [e])
  }

  function Answer(c: Config, s: Store): Store
    requires s.inFlight.Some?
  {
    Resolve(c, s, Answered(s.inFlight.value))
  }

  function RetryAt(c: Config, m: Msg, now: Instant): Instant {
    if Persistent(c, m) then
      if c.retryInterval > 0 then m.timestamp + c.retryInterval * m.attempts else now
    else m.timestamp + c.bootRetryInterval
  }

  /** The message as it goes back to the front of its queue: new id, new earliest time. */
  function Renewed(c: Config, m: Msg, now: Instant, newId: MessageId): Msg {
    m.(call := m.call.(id := newId), timestamp := RetryAt(c, m, now))
  }

  function Retry(c: Config, s: Store, now: Instant, newId: MessageId): Store
    requires s.inFlight.Some?
  {
    var m := s.inFlight.value;
    var r := Renewed(c, m, now, newId);
    if IsTx(c.protocol, m) then s.(tx := [r] + s.tx, inFlight := None, log := s.log + [Retried(m, newId)])
    else s.(normal := [r] + s.normal, inFlight := None, log := s.log + [Retried(m, newId)])
  }

  predicate Retries(c: Config, m: Msg) {
    if Persistent(c, m) then m.attempts < c.attempts else m.call.action == BootNotification
  }

  /** handle_timeout_or_callerror. */
  function Fail(c: Config, s: Store, now: Instant, newId: MessageId): Store
    requires s.inFlight.Some?
  {
    var m := s.inFlight.value;
    if Retries(c, m) then Retry(c, s, now, newId)
    else Resolve(c, s, if Persistent(c, m) then GivenUp(m, c.attempts) else Expired(m))
  }

  /** The reply concerns the message in flight. */
  predicate Matches(s: State, id: MessageId) {
    s.store.inFlight.Some? && s.store.inFlight.value.call.id == id
  }

  /** A reply was received; the gate is cleared whatever the reply is about. */
  function ClearGate(s: State, id: MessageId): State {
    s.(store := s.store.(log := s.store.log + [ReplyReceived(id)]), control := s.control.(nextToSend := None))
  }

  function FailStep(s: State, now: Instant, newId: MessageId): State
    requires s.store.inFlight.Some?
  {
    s.(store := Fail(s.config, s.store, now, newId), used := s.used + {newId})
  }

  // ---------------------------------------------------------------- pause and resume

  function PauseNow(p: Pausing, cancelled: multiset<nat>): Pausing {
    p.(paused := true, resuming := false, ctr := p.ctr + 1, timers := p.timers - cancelled)
  }

  function ResumeNow(p: Pausing, expected: nat): Pausing {
    if p.ctr == expected then p.(paused := false, resuming := false) else p
  }

  function ResumeLater(p: Pausing, delayed: bool, cancelled: multiset<nat>): Pausing {
    if !p.paused then p
    else if p.ctr + 1 > 1 && delayed then
      p.(resuming := true, ctr := p.ctr + 1, timers := p.timers - cancelled + multiset{p.ctr + 1})
    else ResumeNow(p.(ctr := p.ctr + 1), p.ctr + 1)
  }

  function ResumeFires(p: Pausing, expected: nat): Pausing {
    ResumeNow(p.(timers := p.timers - multiset{expected}), expected)
  }

  // ---------------------------------------------------------------- late transaction ids

  function RegisterMeter(meterIds: map<MessageId, seq<MessageId>>, start: MessageId, meter: MessageId)
    : map<MessageId, seq<MessageId>>
  {
    meterIds[start := (if start in meterIds then meterIds[start] else []) + [meter]]
  }

  function Substitute(m: Msg, ids: seq<MessageId>, transactionId: int): Msg {
    if m.call.id in ids then m.(call := m.call.(transactionId := Some(transactionId))) else m
  }

  function SubstituteAll(q: seq<Msg>, ids: seq<MessageId>, transactionId: int): seq<Msg> {
    seq(|q|, i requires 0 <= i < |q| => Substitute(q[i], ids, transactionId))
  }

  function HandleStart(s: State, start: MessageId, transactionId: int): State {
    var ids := s.control.meterIds;
    s.(store := if start in ids then s.store.(tx := SubstituteAll(s.store.tx, ids[start], transactionId)) else s.store,
       control := s.control.(meterIds := ids - {start}))
  }

  // ---------------------------------------------------------------- start-up

  predicate Ignored(r: Row, ignoreSecurity: bool) {
    ignoreSecurity && r.call.action == SecurityEventNotification
  }

  function Load(table: seq<Row>, ignoreSecurity: bool): seq<Msg> {
    if table == [] then []
    else if Ignored(table[0], ignoreSecurity) then Load(table[1..], ignoreSecurity)
    else [FromRow(table[0])] + Load(table[1..], ignoreSecurity)
  }

  /** Deletes from the table every ignored row among `rows`. */
  function Purge(table: seq<Row>, rows: seq<Row>, ignoreSecurity: bool): seq<Row>
    decreases |rows|
  {
    if rows == [] then table
    else
      Purge(if Ignored(rows[0], ignoreSecurity) then RemoveRow(table, rows[0].uniqueId) else table, rows[1..], ignoreSecurity)
  }

  function AcceptAll(q: seq<Msg>): seq<Entry> {
    seq(|q|, i requires 0 <= i < |q| => Accepted(q[i]))
  }

  /** The tables are read back behind whatever the queues hold. */
  function ReadBack(config: Config, s: Store, ignoreSecurity: bool): Store {
    var normal := Load(s.normalTable, ignoreSecurity);
    var tx := Load(s.txTable, ignoreSecurity);
    s.(tx := s.tx + tx, normal := s.normal + normal,
       txTable := Purge(s.txTable, s.txTable, ignoreSecurity),
       normalTable := if config.queueAll then Purge(s.normalTable, s.normalTable, ignoreSecurity) else [],
       log := s.log + AcceptAll(normal) + AcceptAll(tx))
  }

  function BootStore(config: Config, txTable: seq<Row>, normalTable: seq<Row>, ignoreSecurity: bool): Store {
    var normal := Load(normalTable, ignoreSecurity);
    var tx := Load(txTable, ignoreSecurity);
    Store(tx, normal, None,
          Purge(txTable, txTable, ignoreSecurity),
          if config.queueAll then Purge(normalTable, normalTable, ignoreSecurity) else [],
          AcceptAll(normal) + AcceptAll(tx))
  }

  /** A new queue that has read back what the tables hold. */
  function Boot(config: Config, txTable: seq<Row>, normalTable: seq<Row>, serial: nat, used: set<MessageId>,
                ignoreSecurity: bool): State
  {
    State(config,
          BootStore(config, txTable, normalTable, ignoreSecurity),
          Pausing(true, false, 0, multiset{}),
          Control(true, true, txTable != [] || normalTable != [], false, None, map[], map[]),
          serial, used, config.attempts)
  }

  function Initial(config: Config): State {
    Boot(config, [], [], 0, {}, false)
  }

  // ---------------------------------------------------------------- steps and runs

  function Note(s: State, e: Entry): State {
    s.(store := s.store.(log := s.store.log + [e]))
  }

  function Push(s: State, call: Call, stall: bool, now: Instant): State {
    if Takes(s, call.action) then Accept(s, NewMsg(s.serial, call, stall, now)) else s
  }

  function PushAsync(s: State, call: Call, now: Instant): State {
    var m := NewMsg(s.serial, call, false, now);
    if Takes(s, call.action) then Accept(s, m) else Reject(s, m)
  }

  function AnswerCsms(s: State, id: MessageId): State {
    if !s.control.running then s
    else if s.control.nextToSend == Some(id) then Note(s, ReplySent(id)).(control := s.control.(nextToSend := None))
    else Note(s, ReplySent(id))
  }

  function OnCall(s: State, id: MessageId): State {
    Note(s, CallReceived(id)).(control := s.control.(nextToSend := Some(id)))
  }

  function OnResult(s: State, id: MessageId): State {
    var t := ClearGate(s, id);
    if Matches(s, id) then t.(store := Answer(s.config, t.store)) else t
  }

  function OnError(s: State, id: MessageId, now: Instant, newId: MessageId): State {
    var t := ClearGate(s, id);
    if Matches(s, id) then FailStep(t, now, newId) else t
  }

  function Next(s: State, e: Event): State
    requires Enabled(s, e)
  {
    match e
    case PushCall(call, stall, now) => Push(s, call, stall, now)
    case PushCallAsync(call, now) => PushAsync(s, call, now)
    case PushReply(id) => AnswerCsms(s, id)
    case ReceiveCall(id) => OnCall(s, id)
    case ReceiveResult(id) => OnResult(s, id)
    case ReceiveError(id, now, newId) => OnError(s, id, now, newId)
    case Timeout(now, newId) => FailStep(s, now, newId)
    case Worker(now, ok) =>
      var t := WorkerPass(s, now, ok);
      t.(control := t.control.(workerAlive := s.control.running))
    case NotifyTimer => s.(control := s.control.(newMessage := true))
    case Pause(cancelled) => s.(pausing := PauseNow(s.pausing, cancelled))
    case Resume(delayed, cancelled) => s.(pausing := ResumeLater(s.pausing, delayed, cancelled))
    case ResumeTimer(expected) => s.(pausing := ResumeFires(s.pausing, expected))
    case RegistrationAccepted => s.(control := s.control.(registered := true))
    case ResetNextMessage => Note(s, GateReset).(control := s.control.(nextToSend := None))
    case AddStoppedTransaction(id, t) => s.(control := s.control.(stopIds := s.control.stopIds[id := t]))
    case AddMeterValue(start, meter) =>
      s.(control := s.control.(meterIds := RegisterMeter(s.control.meterIds, start, meter)))
    case StartHandled(start, transactionId) => HandleStart(s, start, transactionId)
    case SetAttempts(n) => s.(config := s.config.(attempts := n), peak := Max(s.peak, n))
    case SetRetryInterval(r) => s.(config := s.config.(retryInterval := r))
    case Stop => s.(control := s.control.(running := false))
    case Crash(config, ignoreSecurity) =>
      Boot(config, s.store.txTable, s.store.normalTable, s.serial, s.used, ignoreSecurity)
  }

  /** What the environment guarantees: ids are created fresh, the response timer
      is armed exactly while a message is in flight, a resume callback fires only
      if it was scheduled, the worker runs only when its wait condition holds,
      and a station keeps its protocol version over a restart. */
  predicate Enabled(s: State, e: Event) {
    match e
    case PushCall(call, _, _) => call.id !in s.used
    case PushCallAsync(call, _) => call.id !in s.used
    case ReceiveError(_, _, newId) => newId !in s.used
    case Timeout(_, newId) => s.store.inFlight.Some? && newId !in s.used
    case Worker(_, _) => s.control.workerAlive && WorkerReady(s)
    case ResumeTimer(expected) => expected in s.pausing.timers
    case Crash(config, _) => config.protocol == s.config.protocol
    case _ => true
  }

  /** Events that touch no message: at most they leave a note in the history. */
  predicate Quiet(e: Event) {
    e.PushReply? || e.ReceiveCall? || e.NotifyTimer? || e.Pause? || e.Resume? || e.ResumeTimer? ||
    e.RegistrationAccepted? || e.ResetNextMessage? || e.AddStoppedTransaction? || e.AddMeterValue? ||
    e.SetAttempts? || e.SetRetryInterval? || e.Stop?
  }

  /** Entries about no message: the CSMS's own calls, and restarts. */
  predicate IsNote(e: Entry) {
    e.CallReceived? || e.ReplySent? || e.ReplyReceived? || e.GateReset? || e.Restarted?
  }

  lemma QuietStep(s: State, e: Event)
    requires Enabled(s, e) && Quiet(e)
    ensures var t := Next(s, e);
      && t.serial == s.serial && t.used == s.used
      && t.config == s.config.(attempts := t.config.attempts, retryInterval := t.config.retryInterval)
      && (t.store == s.store || exists n :: IsNote(n) && !n.Restarted? && t.store == s.store.(log := s.store.log + [n]))
      && t.peak >= s.peak && (s.config.attempts <= s.peak ==> t.config.attempts <= t.peak)
  {
    match e
    case PushReply(id) => assert IsNote(ReplySent(id));
    case ReceiveCall(id) => assert IsNote(CallReceived(id));
    case ResetNextMessage => assert IsNote(GateReset);
    case _ =>
  }

  /** Every event of the sequence is enabled where it occurs. */
  predicate Legal(s: State, events: seq<Event>)
    decreases |events|
  {
    events == [] || (Enabled(s, events[0]) && Legal(Next(s, events[0]), events[1..]))
  }

  function Run(s: State, events: seq<Event>): State
    requires Legal(s, events)
    decreases |events|
  {
    if events == [] then s else Run(Next(s, events[0]), events[1..])
  }

  /** The states a queue on a new station can reach. */
  function Reached(config: Config, events: seq<Event>): State
    requires Legal(Initial(config), events)
  {
    Run(Initial(config), events)
  }

  /** The history of the current boot in such a state. */
  function History(config: Config, events: seq<Event>): seq<Entry>
    requires Legal(Initial(config), events)
  {
    Reached(config, events).store.log
  }
}
