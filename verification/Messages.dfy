/** The values the message queue works on: OCPP calls, control messages, the
    rows of its two database tables, and the pure predicates over them. */
module Messages {

  datatype Option<+T> = None | Some(value: T)

  /** Message ids are compared for equality only. */
  type MessageId = nat

  /** Instants and intervals share one unit. */
  type Instant = int

  /** The two instantiations of the queue's message-type parameter. */
  datatype Protocol = V16 | V2

  datatype Action =
    | StartTransaction
    | StopTransaction
    | MeterValues
    | TransactionEvent
    | SecurityEventNotification
    | BootNotification
    | Other(name: string)

  /** A CALL: the JSON array [type, id, action, payload], with the parts of the
      payload that the queue reads or writes. */
  datatype Call = Call(id: MessageId, action: Action, updated: bool, transactionId: Option<int>, offline: bool)

  /** A ControlMessage. `serial` numbers the messages in the order in which they
      were accepted; it stands for the identity of the shared object, which the
      wire id cannot do because a retry replaces it. */
  datatype Msg = Msg(
    serial: nat,
    call: Call,
    initialId: MessageId,
    attempts: int,
    timestamp: Instant,
    stall: bool)

  /** A row of TRANSACTION_QUEUE or NORMAL_QUEUE. A table is scanned in insertion order. */
  datatype Row = Row(serial: nat, uniqueId: MessageId, call: Call, attempts: int, timestamp: Instant)

  datatype Config = Config(
    protocol: Protocol,
    attempts: int,
    retryInterval: int,
    threshold: int,
    queueAll: bool,
    discard: set<Action>,
    bootRetryInterval: int)

  predicate IsTransaction(p: Protocol, a: Action) {
    match p
    case V16 => a.StartTransaction? || a.StopTransaction? || a.MeterValues? || a.SecurityEventNotification?
    case V2 => a.TransactionEvent? || a.SecurityEventNotification?
  }

  predicate IsTx(p: Protocol, m: Msg) {
    IsTransaction(p, m.call.action)
  }

  /** Messages that carry a measurement of a running transaction; only these may be thinned out. */
  predicate IsUpdate(p: Protocol, c: Call) {
    match p
    case V16 => c.action == MeterValues
    case V2 => c.action == TransactionEvent && c.updated
  }

  predicate CheckQueue(c: Config, a: Action) {
    c.queueAll && a !in c.discard
  }

  /** A message the queue keeps until it is answered or its attempts are used up. */
  predicate Persistent(c: Config, m: Msg) {
    IsTx(c.protocol, m) || CheckQueue(c, m.call.action)
  }

  predicate Allowed(m: Msg, now: Instant, registered: bool) {
    !(m.stall && !registered) && m.timestamp <= now
  }

  /** What a message keeps through retries, substitutions and restarts. */
  datatype Identity = Identity(serial: nat, initialId: MessageId, action: Action, updated: bool)

  function IdentityOf(m: Msg): Identity {
    Identity(m.serial, m.initialId, m.call.action, m.call.updated)
  }

  function RowOf(m: Msg): Row {
    Row(m.serial, m.call.id, m.call, m.attempts, m.timestamp)
  }

  /** DELETE ... WHERE UNIQUE_ID = id. */
  function RemoveRow(table: seq<Row>, id: MessageId): seq<Row> {
    if table == [] then []
    else if table[0].uniqueId == id then RemoveRow(table[1..], id)
    else [table[0]] + RemoveRow(table[1..], id)
  }

  /** Message built from a row when the tables are read back. */
  function FromRow(r: Row): Msg {
    Msg(r.serial, r.call, r.call.id, r.attempts, r.timestamp, true)
  }

  function RemoveAt<T>(q: seq<T>, k: nat): seq<T>
    requires k < |q|
  {
    q[..k] + q[k + 1..]
  }
}
