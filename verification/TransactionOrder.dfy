/** Order, persistence and retry discipline of the transaction messages.

    The unresolved transaction messages are the one in flight followed by the
    queue. The invariant says that the table holds one row for each of them, in
    the same order, which is the order of acceptance; that only the first can
    have been tried; and that no normal message is a transaction message. */
module TransactionOrder {
  import opened Messages
  import opened QueueSpec
  import opened Tables
  import opened Overflow

  function TxFlight(p: Protocol, s: Store): seq<Msg> {
    if s.inFlight.Some? && IsTx(p, s.inFlight.value) then [s.inFlight.value] else []
  }

  /** The unresolved transaction messages: the one in flight, then the queue. */
  function TxAll(p: Protocol, s: Store): seq<Msg> {
    TxFlight(p, s) + s.tx
  }

  /** A row as the queue writes it: never tried, under the id it had when it was created. */
  predicate RowOk(r: Row, serial: nat, used: set<MessageId>) {
    r.call.id == r.uniqueId && r.attempts == 0 && r.serial < serial && r.uniqueId in used
  }

  /** Row and message are the same message. */
  predicate RowFor(r: Row, m: Msg) {
    r.serial == m.serial && r.uniqueId == m.initialId && r.call.action == m.call.action && r.call.updated == m.call.updated
  }

  predicate Untried(m: Msg) {
    m.attempts == 0 && m.call.id == m.initialId
  }

  /** The message is as the row describes it; only its transaction id may have become known since. */
  predicate AsMade(r: Row, m: Msg) {
    m.attempts == 0 && m.timestamp == r.timestamp && m.call == r.call.(transactionId := m.call.transactionId)
  }

  /** Message by message, the table shadows the list, which is in order of
      acceptance and untried behind its head. */
  predicate Tracked(p: Protocol, q: seq<Msg>, table: seq<Row>, serial: nat, used: set<MessageId>) {
    && |q| == |table|
    && (forall i :: 0 <= i < |q| ==> RowFor(table[i], q[i]) && RowOk(table[i], serial, used) && IsTx(p, q[i]))
    && (forall i, j :: 0 <= i < j < |q| ==> q[i].serial < q[j].serial && table[i].uniqueId != table[j].uniqueId)
    && (forall i :: 1 <= i < |q| ==> Untried(q[i]) && AsMade(table[i], q[i]))
  }

  predicate NormalRows(p: Protocol, table: seq<Row>, serial: nat, used: set<MessageId>) {
    && (forall i :: 0 <= i < |table| ==> RowOk(table[i], serial, used) && !IsTransaction(p, table[i].call.action))
    && NoDup(table)
  }

  predicate Disjoint(a: seq<Row>, b: seq<Row>) {
    forall i, j :: 0 <= i < |a| && 0 <= j < |b| ==> a[i].uniqueId != b[j].uniqueId && a[i].serial != b[j].serial
  }

  predicate NoTx(p: Protocol, q: seq<Msg>) {
    forall i :: 0 <= i < |q| ==> !IsTx(p, q[i])
  }

  predicate TxInv(p: Protocol, s: Store, serial: nat, used: set<MessageId>) {
    && Tracked(p, TxAll(p, s), s.txTable, serial, used)
    && NormalRows(p, s.normalTable, serial, used)
    && Disjoint(s.txTable, s.normalTable)
    && NoTx(p, s.normal)
  }

  predicate TxOk(s: State) {
    TxInv(s.config.protocol, s.store, s.serial, s.used)
  }

  // ---------------------------------------------------------------- lists and tables

  lemma TrackedNoDup(p: Protocol, q: seq<Msg>, table: seq<Row>, serial: nat, used: set<MessageId>)
    requires Tracked(p, q, table, serial, used)
    ensures NoDup(table)
  {
    forall i, j | 0 <= i < j < |table| ensures table[i].serial != table[j].serial {
      assert q[i].serial < q[j].serial;
    }
  }

  lemma TrackedAppend(p: Protocol, q: seq<Msg>, table: seq<Row>, serial: nat, used: set<MessageId>, m: Msg)
    requires Tracked(p, q, table, serial, used)
    requires m.serial == serial && m.call.id !in used && Untried(m) && IsTx(p, m)
    ensures Tracked(p, q + [m], table + [RowOf(m)], serial + 1, used + {m.call.id})
  {
  }

  lemma TrackedGrow(p: Protocol, q: seq<Msg>, table: seq<Row>, serial: nat, used: set<MessageId>, serial': nat, used': set<MessageId>)
    requires Tracked(p, q, table, serial, used) && serial <= serial' && used <= used'
    ensures Tracked(p, q, table, serial', used')
  {
  }

  lemma TrackedRow(p: Protocol, q: seq<Msg>, table: seq<Row>, serial: nat, used: set<MessageId>, k: nat)
    requires Tracked(p, q, table, serial, used) && k < |q|
    ensures |q| == |table| && RemoveRow(table, q[k].initialId) == RemoveAt(table, k)
  {
    hide RemoveRow, RemoveAt;
    TrackedNoDup(p, q, table, serial, used);
    RemoveRowAt(table, k);
    assert RowFor(table[k], q[k]);
  }

  lemma TrackedRemove(p: Protocol, q: seq<Msg>, table: seq<Row>, serial: nat, used: set<MessageId>, k: nat)
    requires Tracked(p, q, table, serial, used) && k < |q|
    ensures |q| == |table| && RemoveRow(table, q[k].initialId) == RemoveAt(table, k)
    ensures Tracked(p, RemoveAt(q, k), RemoveAt(table, k), serial, used)
  {
    TrackedRow(p, q, table, serial, used, k);
    hide RemoveRow, RemoveAt, AsMade, Untried, RowFor, RowOk, IsTx;
    RemovedAt(q, k);
    RemovedAt(table, k);
  }

  lemma RemovedAt<T>(q: seq<T>, k: nat)
    requires k < |q|
    ensures |RemoveAt(q, k)| == |q| - 1
    ensures forall i :: 0 <= i < |q| - 1 ==> RemoveAt(q, k)[i] == q[if i < k then i else i + 1]
  {
  }

  lemma TrackedHead(p: Protocol, q: seq<Msg>, table: seq<Row>, serial: nat, used: set<MessageId>, q': seq<Msg>)
    requires Tracked(p, q, table, serial, used) && |q| == |q'| && q != []
    requires RowFor(table[0], q[0]) ==> RowFor(table[0], q'[0])
    requires forall i :: 1 <= i < |q| ==> q'[i] == q[i]
    ensures Tracked(p, q', table, serial, used)
  {
    assert RowFor(table[0], q[0]);
  }

  lemma DisjointRemove(a: seq<Row>, b: seq<Row>, k: nat)
    requires Disjoint(a, b)
    ensures k < |a| ==> Disjoint(RemoveAt(a, k), b)
    ensures k < |b| ==> Disjoint(a, RemoveAt(b, k))
  {
  }

  lemma NormalRowsDelete(p: Protocol, a: seq<Row>, table: seq<Row>, serial: nat, used: set<MessageId>, id: MessageId)
    requires NormalRows(p, table, serial, used) && Disjoint(a, table)
    ensures NormalRows(p, RemoveRow(table, id), serial, used) && Disjoint(a, RemoveRow(table, id))
  {
    RemoveRowOne(table, id);
    if RemoveRow(table, id) != table {
      var k: nat :| k < |table| && RemoveRow(table, id) == RemoveAt(table, k);
      DisjointRemove(a, table, k);
      var t' := RemoveAt(table, k);
      assert forall i :: 0 <= i < |t'| ==> t'[i] == table[if i < k then i else i + 1];
    }
  }

  lemma NoTxSlice(p: Protocol, q: seq<Msg>, k: nat)
    requires NoTx(p, q) && k < |q|
    ensures NoTx(p, RemoveAt(q, k)) && NoTx(p, q[1..])
  {
    var q' := RemoveAt(q, k);
    assert forall i :: 0 <= i < |q'| ==> q'[i] == q[if i < k then i else i + 1];
  }

  // ---------------------------------------------------------------- overflow

  lemma DropFrontKeeps(c: Config, s: Store, serial: nat, used: set<MessageId>)
    requires TxInv(c.protocol, s, serial, used) && s.normal != []
    ensures TxInv(c.protocol, DropFront(c, s), serial, used)
  {
    hide Tracked, NormalRows, Disjoint, RemoveRow;
    NormalRowsDelete(c.protocol, s.txTable, s.normalTable, serial, used, s.normal[0].initialId);
    NoTxSlice(c.protocol, s.normal, 0);
  }

  lemma DropUpdateKeeps(p: Protocol, s: Store, i: nat, serial: nat, used: set<MessageId>)
    requires TxInv(p, s, serial, used) && i < |s.tx|
    ensures TxInv(p, DropUpdate(s, i), serial, used)
  {
    hide Tracked, NormalRows, Disjoint, NoTx, RemoveRow;
    var k := |TxFlight(p, s)| + i;
    var q := TxAll(p, s);
    assert q[k] == s.tx[i];
    TrackedRemove(p, q, s.txTable, serial, used, k);
    DisjointRemove(s.txTable, s.normalTable, k);
    assert TxAll(p, DropUpdate(s, i)) == RemoveAt(q, k);
  }

  lemma OverflowKeepsTxInv(c: Config, s: Store, serial: nat, used: set<MessageId>)
    requires TxInv(c.protocol, s, serial, used)
    ensures TxInv(c.protocol, CheckQueueSizes(c, s), serial, used)
  {
    var P := (t: Store) => TxInv(c.protocol, t, serial, used);
    forall t: Store | P(t) && t.normal != [] ensures P(DropFront(c, t)) { DropFrontKeeps(c, t, serial, used); }
    forall t: Store, i: nat | P(t) && i < |t.tx| && Droppable(c, t, i) ensures P(DropUpdate(t, i)) {
      DropUpdateKeeps(c.protocol, t, i, serial, used);
    }
    OverflowKeeps(P, c, s);
  }

  // ---------------------------------------------------------------- steps

  /** A message just made: next serial, id never used before, not tried. */
  predicate New(m: Msg, serial: nat, used: set<MessageId>) {
    m.serial == serial && m.call.id !in used && Untried(m)
  }

  lemma GrowKeeps(p: Protocol, s: Store, serial: nat, used: set<MessageId>, serial': nat, used': set<MessageId>)
    requires TxInv(p, s, serial, used) && serial <= serial' && used <= used'
    ensures TxInv(p, s, serial', used')
  {
    TrackedGrow(p, TxAll(p, s), s.txTable, serial, used, serial', used');
  }

  lemma InsertTxKeeps(p: Protocol, s: Store, m: Msg, serial: nat, used: set<MessageId>)
    requires TxInv(p, s, serial, used) && New(m, serial, used) && IsTx(p, m)
    ensures TxInv(p, InsertTx(s, m), serial + 1, used + {m.call.id})
  {
    TrackedAppend(p, TxAll(p, s), s.txTable, serial, used, m);
    assert TxAll(p, InsertTx(s, m)) == TxAll(p, s) + [m];
  }

  lemma InsertNormalKeeps(c: Config, s: Store, m: Msg, serial: nat, used: set<MessageId>)
    requires TxInv(c.protocol, s, serial, used) && New(m, serial, used) && !IsTx(c.protocol, m)
    ensures TxInv(c.protocol, InsertNormal(c, s, m), serial + 1, used + {m.call.id})
  {
    GrowKeeps(c.protocol, s, serial, used, serial + 1, used + {m.call.id});
    var table := s.normalTable + [RowOf(m)];
    assert forall i :: 0 <= i < |table| - 1 ==> table[i] == s.normalTable[i];
    assert forall i :: 0 <= i < |s.txTable| ==> RowOk(s.txTable[i], serial, used);
    assert NormalRows(c.protocol, table, serial + 1, used + {m.call.id});
    assert Disjoint(s.txTable, table);
  }

  lemma InsertKeeps(c: Config, s: Store, m: Msg, serial: nat, used: set<MessageId>)
    requires TxInv(c.protocol, s, serial, used) && New(m, serial, used)
    ensures TxInv(c.protocol, Insert(c, s, m), serial + 1, used + {m.call.id})
  {
    hide TxInv, CheckQueueSizes;
    if IsTx(c.protocol, m) {
      InsertTxKeeps(c.protocol, s, m, serial, used);
      OverflowKeepsTxInv(c, InsertTx(s, m), serial + 1, used + {m.call.id});
    } else {
      InsertNormalKeeps(c, s, m, serial, used);
      OverflowKeepsTxInv(c, InsertNormal(c, s, m), serial + 1, used + {m.call.id});
    }
  }

  lemma PreparedHead(p: Protocol, q: seq<Msg>, table: seq<Row>, serial: nat, used: set<MessageId>,
                     stopIds: map<MessageId, int>)
    requires Tracked(p, q, table, serial, used) && q != []
    ensures var m := Prepare(stopIds, q[0]);
      Tracked(p, q[0 := m], table, serial, used) && Tracked(p, q[0 := MarkOffline(m)], table, serial, used) && IsTx(p, m)
  {
    var m := Prepare(stopIds, q[0]);
    TrackedHead(p, q, table, serial, used, q[0 := m]);
    TrackedHead(p, q, table, serial, used, q[0 := MarkOffline(m)]);
  }

  /** An attempt changes the head of the transaction messages, and nothing else of them. */
  lemma TransmitTx(c: Config, s: Store, stopIds: map<MessageId, int>, ok: bool, serial: nat, used: set<MessageId>)
    requires TxInv(c.protocol, s, serial, used) && s.tx != [] && s.inFlight.None?
    ensures TxInv(c.protocol, Transmit(c, s, FromTx, Prepare(stopIds, s.tx[0]), ok), serial, used)
  {
    hide NormalRows, Disjoint, NoTx;
    var m := Prepare(stopIds, s.tx[0]);
    assert TxAll(c.protocol, s) == s.tx;
    PreparedHead(c.protocol, s.tx, s.txTable, serial, used, stopIds);
    if ok {
      assert TxAll(c.protocol, Delivered(s, FromTx, m)) == s.tx[0 := m];
    } else {
      assert TxAll(c.protocol, Undelivered(c, s, FromTx, m)) == s.tx[0 := MarkOffline(m)];
    }
  }

  lemma TransmitNormal(c: Config, s: Store, stopIds: map<MessageId, int>, k: nat, ok: bool, serial: nat, used: set<MessageId>)
    requires TxInv(c.protocol, s, serial, used) && k < |s.normal| && s.inFlight.None?
    ensures TxInv(c.protocol, Transmit(c, s, FromNormal(k), Prepare(stopIds, s.normal[k]), ok), serial, used)
  {
    hide Tracked, NormalRows, Disjoint;
    var m := Prepare(stopIds, s.normal[k]);
    assert !IsTx(c.protocol, s.normal[k]);
    var q := s.normal[k := m];
    assert NoTx(c.protocol, q);
    NoTxSlice(c.protocol, q, 0);
    NoTxSlice(c.protocol, s.normal, k);
    assert TxAll(c.protocol, Transmit(c, s, FromNormal(k), m, ok)) == TxAll(c.protocol, s);
  }

  /** Taking the message in flight away, together with its row. */
  lemma ResolveKeeps(c: Config, s: Store, e: Entry, serial: nat, used: set<MessageId>)
    requires TxInv(c.protocol, s, serial, used) && s.inFlight.Some?
    ensures TxInv(c.protocol, Resolve(c, s, e), serial, used)
  {
    hide NormalRows, Disjoint, NoTx, RemoveRow;
    var m := s.inFlight.value;
    var q := TxAll(c.protocol, s);
    if IsTx(c.protocol, m) {
      assert q[0] == m;
      TrackedRemove(c.protocol, q, s.txTable, serial, used, 0);
      DisjointRemove(s.txTable, s.normalTable, 0);
      assert TxAll(c.protocol, Resolve(c, s, e)) == RemoveAt(q, 0);
    } else {
      NormalRowsDelete(c.protocol, s.txTable, s.normalTable, serial, used, m.initialId);
      assert TxAll(c.protocol, Resolve(c, s, e)) == q;
    }
  }

  lemma RetryKeeps(c: Config, s: Store, now: Instant, newId: MessageId, serial: nat, used: set<MessageId>)
    requires TxInv(c.protocol, s, serial, used) && s.inFlight.Some?
    ensures TxInv(c.protocol, Retry(c, s, now, newId), serial, used)
  {
    hide NormalRows, Disjoint;
    var m := s.inFlight.value;
    var r := Renewed(c, m, now, newId);
    var q := TxAll(c.protocol, s);
    var t := Retry(c, s, now, newId);
    if IsTx(c.protocol, m) {
      assert TxAll(c.protocol, t) == q[0 := r];
      TrackedHead(c.protocol, q, s.txTable, serial, used, q[0 := r]);
    } else {
      assert TxAll(c.protocol, t) == q;
    }
  }

  lemma FailKeeps(c: Config, s: Store, now: Instant, newId: MessageId, serial: nat, used: set<MessageId>)
    requires TxInv(c.protocol, s, serial, used) && s.inFlight.Some?
    ensures TxInv(c.protocol, Fail(c, s, now, newId), serial, used + {newId})
  {
    hide TxInv;
    var m := s.inFlight.value;
    if Retries(c, m) {
      RetryKeeps(c, s, now, newId, serial, used);
    } else {
      ResolveKeeps(c, s, if Persistent(c, m) then GivenUp(m, c.attempts) else Expired(m), serial, used);
    }
    GrowKeeps(c.protocol, Fail(c, s, now, newId), serial, used, serial, used + {newId});
  }

  lemma TrackedRenumbered(p: Protocol, a: seq<Msg>, b: seq<Msg>, table: seq<Row>, serial: nat, used: set<MessageId>)
    requires Tracked(p, a, table, serial, used) && |a| == |b|
    requires forall i :: 0 <= i < |b| ==> b[i] == a[i].(call := a[i].call.(transactionId := b[i].call.transactionId))
    ensures Tracked(p, b, table, serial, used)
  {
    hide RowOk;
  }

  lemma SubstituteKeeps(p: Protocol, s: Store, ids: seq<MessageId>, transactionId: int, serial: nat, used: set<MessageId>)
    requires TxInv(p, s, serial, used)
    ensures TxInv(p, s.(tx := SubstituteAll(s.tx, ids, transactionId)), serial, used)
  {
    hide Tracked, NormalRows, Disjoint, NoTx;
    var t := s.(tx := SubstituteAll(s.tx, ids, transactionId));
    var a, b, k := TxAll(p, s), TxAll(p, t), |TxFlight(p, s)|;
    forall i | 0 <= i < |b| ensures b[i] == a[i].(call := a[i].call.(transactionId := b[i].call.transactionId)) {
      assert i >= k ==> b[i] == t.tx[i - k] && a[i] == s.tx[i - k];
    }
    TrackedRenumbered(p, a, b, s.txTable, serial, used);
  }

  // ---------------------------------------------------------------- reading the tables back

  /** The rows that are not ignored. */
  function KeptRows(table: seq<Row>, ignoreSecurity: bool): seq<Row> {
    if table == [] then []
    else if Ignored(table[0], ignoreSecurity) then KeptRows(table[1..], ignoreSecurity)
    else [table[0]] + KeptRows(table[1..], ignoreSecurity)
  }

  /** The messages read back are those of the rows that are not ignored, in order. */
  lemma {:induction false} LoadIsKept(table: seq<Row>, ignoreSecurity: bool)
    ensures var k := KeptRows(table, ignoreSecurity); var l := Load(table, ignoreSecurity);
      |l| == |k| && forall i :: 0 <= i < |k| ==> l[i] == FromRow(k[i])
  {
    if table != [] {
      LoadIsKept(table[1..], ignoreSecurity);
    }
  }

  /** KeptRows(table)[i] stands at index KeptIndex(i) of the table. */
  function KeptIndex(table: seq<Row>, ignoreSecurity: bool, i: nat): (k: nat)
    requires i < |KeptRows(table, ignoreSecurity)|
    ensures i <= k < |table| && table[k] == KeptRows(table, ignoreSecurity)[i]
  {
    if Ignored(table[0], ignoreSecurity) then 1 + KeptIndex(table[1..], ignoreSecurity, i)
    else if i == 0 then 0
    else 1 + KeptIndex(table[1..], ignoreSecurity, i - 1)
  }

  lemma {:induction false} KeptIndexMonotone(table: seq<Row>, ignoreSecurity: bool, i: nat, j: nat)
    requires i < j < |KeptRows(table, ignoreSecurity)|
    ensures KeptIndex(table, ignoreSecurity, i) < KeptIndex(table, ignoreSecurity, j)
  {
    if Ignored(table[0], ignoreSecurity) {
      KeptIndexMonotone(table[1..], ignoreSecurity, i, j);
    } else if i > 0 {
      KeptIndexMonotone(table[1..], ignoreSecurity, i - 1, j - 1);
    }
  }

  /** Removing the ignored rows by id, one by one, leaves exactly the other rows. */
  lemma {:induction false} PurgeIsKept(done: seq<Row>, rest: seq<Row>, ignoreSecurity: bool)
    requires NoDup(done + rest)
    ensures Purge(done + rest, rest, ignoreSecurity) == done + KeptRows(rest, ignoreSecurity)
    decreases |rest|
  {
    if rest == [] {
      assert done + rest == done == done + KeptRows(rest, ignoreSecurity);
    } else if Ignored(rest[0], ignoreSecurity) {
      RemoveRowAt(done + rest, |done|);
      assert RemoveAt(done + rest, |done|) == done + rest[1..];
      assert (done + rest)[|done|] == rest[0];
      forall i, j | 0 <= i < j < |done + rest[1..]|
        ensures var d := done + rest[1..]; d[i].uniqueId != d[j].uniqueId && d[i].serial != d[j].serial
      {
        var a := if i < |done| then i else i + 1;
        var b := if j < |done| then j else j + 1;
        assert (done + rest)[a] == (done + rest[1..])[i] && (done + rest)[b] == (done + rest[1..])[j];
      }
      PurgeIsKept(done, rest[1..], ignoreSecurity);
    } else {
      assert done + rest == (done + [rest[0]]) + rest[1..];
      PurgeIsKept(done + [rest[0]], rest[1..], ignoreSecurity);
      assert done + KeptRows(rest, ignoreSecurity) == (done + [rest[0]]) + KeptRows(rest[1..], ignoreSecurity);
    }
  }

  lemma PurgeTable(table: seq<Row>, ignoreSecurity: bool)
    requires NoDup(table)
    ensures Purge(table, table, ignoreSecurity) == KeptRows(table, ignoreSecurity)
  {
    hide Purge, KeptRows, NoDup;
    assert [] + table == table;
    PurgeIsKept([], table, ignoreSecurity);
  }

  lemma LoadTracked(p: Protocol, q: seq<Msg>, table: seq<Row>, serial: nat, used: set<MessageId>, ignoreSecurity: bool)
    requires Tracked(p, q, table, serial, used)
    ensures Tracked(p, Load(table, ignoreSecurity), KeptRows(table, ignoreSecurity), serial, used)
  {
    LoadIsKept(table, ignoreSecurity);
    var k, l := KeptRows(table, ignoreSecurity), Load(table, ignoreSecurity);
    forall i | 0 <= i < |k|
      ensures RowFor(k[i], l[i]) && RowOk(k[i], serial, used) && IsTx(p, l[i]) && Untried(l[i]) && AsMade(k[i], l[i])
    {
      var a := KeptIndex(table, ignoreSecurity, i);
      assert RowFor(table[a], q[a]) && RowOk(table[a], serial, used) && IsTx(p, q[a]);
    }
    forall i, j | 0 <= i < j < |k| ensures l[i].serial < l[j].serial && k[i].uniqueId != k[j].uniqueId {
      KeptIndexMonotone(table, ignoreSecurity, i, j);
      var a, b := KeptIndex(table, ignoreSecurity, i), KeptIndex(table, ignoreSecurity, j);
      assert RowFor(table[a], q[a]) && RowFor(table[b], q[b]);
      assert q[a].serial < q[b].serial;
    }
  }

  lemma LoadNormal(p: Protocol, table: seq<Row>, serial: nat, used: set<MessageId>, ignoreSecurity: bool)
    requires NormalRows(p, table, serial, used)
    ensures NormalRows(p, KeptRows(table, ignoreSecurity), serial, used) && NoTx(p, Load(table, ignoreSecurity))
  {
    LoadIsKept(table, ignoreSecurity);
    var k, l := KeptRows(table, ignoreSecurity), Load(table, ignoreSecurity);
    forall i | 0 <= i < |k|
      ensures RowOk(k[i], serial, used) && !IsTransaction(p, k[i].call.action) && !IsTx(p, l[i])
    {
      var a := KeptIndex(table, ignoreSecurity, i);
      assert RowOk(table[a], serial, used) && !IsTransaction(p, table[a].call.action);
    }
    forall i, j | 0 <= i < j < |k| ensures k[i].uniqueId != k[j].uniqueId && k[i].serial != k[j].serial {
      KeptIndexMonotone(table, ignoreSecurity, i, j);
    }
  }

  lemma KeptDisjoint(a: seq<Row>, b: seq<Row>, ignoreSecurity: bool)
    requires Disjoint(a, b)
    ensures Disjoint(KeptRows(a, ignoreSecurity), KeptRows(b, ignoreSecurity))
  {
    var k, l := KeptRows(a, ignoreSecurity), KeptRows(b, ignoreSecurity);
    forall i, j | 0 <= i < |k| && 0 <= j < |l| ensures k[i].uniqueId != l[j].uniqueId && k[i].serial != l[j].serial {
      assert a[KeptIndex(a, ignoreSecurity, i)] == k[i] && b[KeptIndex(b, ignoreSecurity, j)] == l[j];
    }
  }

  lemma CrashKeeps(config: Config, s: Store, serial: nat, used: set<MessageId>, ignoreSecurity: bool)
    requires TxInv(config.protocol, s, serial, used)
    ensures TxInv(config.protocol, BootStore(config, s.txTable, s.normalTable, ignoreSecurity), serial, used)
  {
    hide Tracked, NoTx, Load, Purge, KeptRows;
    var p := config.protocol;
    TrackedNoDup(p, TxAll(p, s), s.txTable, serial, used);
    PurgeTable(s.txTable, ignoreSecurity);
    PurgeTable(s.normalTable, ignoreSecurity);
    LoadTracked(p, TxAll(p, s), s.txTable, serial, used, ignoreSecurity);
    LoadNormal(p, s.normalTable, serial, used, ignoreSecurity);
    KeptDisjoint(s.txTable, s.normalTable, ignoreSecurity);
    var b := BootStore(config, s.txTable, s.normalTable, ignoreSecurity);
    assert TxAll(p, b) == b.tx;
  }

  // ---------------------------------------------------------------- every run

  lemma WorkerKeeps(s: State, now: Instant, ok: bool)
    requires TxOk(s)
    ensures TxOk(WorkerPass(s, now, ok))
  {
    hide TxInv;
    if Attempts(s, now) {
      var sel := Choice(s, now);
      if sel.FromTx? {
        TransmitTx(s.config, s.store, s.control.stopIds, ok, s.serial, s.used);
      } else {
        TransmitNormal(s.config, s.store, s.control.stopIds, sel.index, ok, s.serial, s.used);
      }
    }
  }

  /** Entries in the history do not matter here. */
  lemma LogKeeps(p: Protocol, s: Store, log: seq<Entry>, serial: nat, used: set<MessageId>)
    requires TxInv(p, s, serial, used)
    ensures TxInv(p, s.(log := log), serial, used)
  {
    hide Tracked, NormalRows, Disjoint, NoTx;
    assert TxAll(p, s.(log := log)) == TxAll(p, s);
  }

  /** Every step keeps the invariant. */
  lemma NextKeepsTx(s: State, e: Event)
    requires TxOk(s) && Enabled(s, e)
    ensures TxOk(Next(s, e))
  {
    hide TxInv, Insert, WorkerPass, BootStore;
    var c, st, n, u := s.config, s.store, s.serial, s.used;
    if Quiet(e) {
      QuietStep(s, e);
      LogKeeps(c.protocol, st, Next(s, e).store.log, n, u);
    } else {
    match e
      case PushCall(call, stall, now) =>
      InsertKeeps(c, st, NewMsg(n, call, stall, now), n, u);
      case PushCallAsync(call, now) =>
      var m := NewMsg(n, call, false, now);
      InsertKeeps(c, st, m, n, u);
      GrowKeeps(c.protocol, st, n, u, n + 1, u + {call.id});
      LogKeeps(c.protocol, st, st.log + [Offline(m)], n + 1, u + {call.id});
      case ReceiveResult(id) =>
      LogKeeps(c.protocol, st, ClearGate(s, id).store.log, n, u);
      if Matches(s, id) {
        var t := ClearGate(s, id).store;
        ResolveKeeps(c, t, Answered(t.inFlight.value), n, u);
      }
      case ReceiveError(id, now, newId) =>
      LogKeeps(c.protocol, st, ClearGate(s, id).store.log, n, u);
      if Matches(s, id) {
        FailKeeps(c, ClearGate(s, id).store, now, newId, n, u);
      }
      case Timeout(now, newId) => FailKeeps(c, st, now, newId, n, u);
      case Worker(now, ok) => WorkerKeeps(s, now, ok);
      case StartHandled(start, t) =>
      if start in s.control.meterIds {
        SubstituteKeeps(c.protocol, st, s.control.meterIds[start], t, n, u);
      }
      case Crash(config, ignoreSecurity) => CrashKeeps(config, st, n, u, ignoreSecurity);
    }
  }

  lemma NextKeepsProtocol(s: State, e: Event)
    requires Enabled(s, e)
    ensures Next(s, e).config.protocol == s.config.protocol
  {
  }

  lemma {:induction false} RunKeepsTx(s: State, events: seq<Event>)
    requires TxOk(s) && Legal(s, events)
    ensures TxOk(Run(s, events)) && Run(s, events).config.protocol == s.config.protocol
    decreases |events|
  {
    hide TxOk, Next, Enabled;
    if events != [] {
      NextKeepsProtocol(s, events[0]);
      NextKeepsTx(s, events[0]);
      RunKeepsTx(Next(s, events[0]), events[1..]);
    }
  }

  lemma InitialTx(config: Config)
    ensures TxOk(Initial(config)) && TxAll(config.protocol, Initial(config).store) == []
  {
  }

  lemma ReachedTx(config: Config, events: seq<Event>)
    requires Legal(Initial(config), events)
    ensures TxOk(Reached(config, events)) && Reached(config, events).config.protocol == config.protocol
  {
    InitialTx(config);
    RunKeepsTx(Initial(config), events);
  }
}
