/** What the table of normal messages is for. */
module NormalRecovery {
  import opened Messages
  import opened QueueSpec
  import opened Overflow
  import opened Tables
  import opened TransactionOrder

  // ---------------------------------------------------------------- identities of rows and messages

  function RowId(r: Row): Identity {
    Identity(r.serial, r.uniqueId, r.call.action, r.call.updated)
  }

  function RowIds(table: seq<Row>): multiset<Identity> {
    if table == [] then multiset{} else multiset{RowId(table[0])} + RowIds(table[1..])
  }

  function Ids(q: seq<Msg>): multiset<Identity> {
    if q == [] then multiset{} else multiset{IdentityOf(q[0])} + Ids(q[1..])
  }

  function NormalFlight(p: Protocol, s: Store): seq<Msg> {
    if s.inFlight.Some? && !IsTx(p, s.inFlight.value) then [s.inFlight.value] else []
  }

  /** The unresolved normal messages: the one in flight and the queue. */
  function Normals(p: Protocol, s: Store): multiset<Identity> {
    Ids(NormalFlight(p, s)) + Ids(s.normal)
  }

  lemma Associative(a: multiset<Identity>, b: multiset<Identity>, c: multiset<Identity>)
    ensures a + (b + c) == a + b + c
    ensures a + (b + c) == a + c + b
  {
  }

  lemma {:induction false} RowIdsConcat(a: seq<Row>, b: seq<Row>)
    ensures RowIds(a + b) == RowIds(a) + RowIds(b)
  {
    if a == [] {
      assert a + b == b;
    } else {
      assert (a + b)[1..] == a[1..] + b && (a + b)[0] == a[0];
      RowIdsConcat(a[1..], b);
      Associative(multiset{RowId(a[0])}, RowIds(a[1..]), RowIds(b));
    }
  }

  lemma RowIdsFront(x: Row, table: seq<Row>)
    ensures RowIds([x] + table) == multiset{RowId(x)} + RowIds(table)
  {
    assert ([x] + table)[1..] == table;
  }

  lemma RowIdsSplit(table: seq<Row>, k: nat)
    requires k < |table|
    ensures RowIds(table) == RowIds(RemoveAt(table, k)) + multiset{RowId(table[k])}
  {
    hide RowIds, RowId;
    assert table == table[..k] + ([table[k]] + table[k + 1..]);
    RowIdsFront(table[k], table[k + 1..]);
    RowIdsConcat(table[..k], [table[k]] + table[k + 1..]);
    RowIdsConcat(table[..k], table[k + 1..]);
    Associative(RowIds(table[..k]), multiset{RowId(table[k])}, RowIds(table[k + 1..]));
  }

  lemma {:induction false} RowIdsIn(table: seq<Row>, d: Identity)
    ensures d in RowIds(table) <==> exists k :: 0 <= k < |table| && RowId(table[k]) == d
  {
    if table != [] {
      RowIdsIn(table[1..], d);
      if k :| 0 <= k < |table[1..]| && RowId(table[1..][k]) == d {
        assert RowId(table[k + 1]) == d;
      }
    }
  }

  lemma {:induction false} RowIdsLength(table: seq<Row>)
    ensures |RowIds(table)| == |table|
  {
    if table != [] {
      RowIdsLength(table[1..]);
    }
  }

  lemma {:induction false} IdsConcat(a: seq<Msg>, b: seq<Msg>)
    ensures Ids(a + b) == Ids(a) + Ids(b)
  {
    if a == [] {
      assert a + b == b;
    } else {
      assert (a + b)[1..] == a[1..] + b && (a + b)[0] == a[0];
      IdsConcat(a[1..], b);
      Associative(multiset{IdentityOf(a[0])}, Ids(a[1..]), Ids(b));
    }
  }

  lemma IdsFront(x: Msg, q: seq<Msg>)
    ensures Ids([x] + q) == multiset{IdentityOf(x)} + Ids(q)
  {
    assert ([x] + q)[1..] == q;
  }

  lemma IdsSplit(q: seq<Msg>, k: nat)
    requires k < |q|
    ensures Ids(q) == Ids(RemoveAt(q, k)) + multiset{IdentityOf(q[k])}
  {
    hide Ids, IdentityOf;
    assert q == q[..k] + ([q[k]] + q[k + 1..]);
    IdsFront(q[k], q[k + 1..]);
    IdsConcat(q[..k], [q[k]] + q[k + 1..]);
    IdsConcat(q[..k], q[k + 1..]);
    Associative(Ids(q[..k]), multiset{IdentityOf(q[k])}, Ids(q[k + 1..]));
  }

  lemma IdsReplace(q: seq<Msg>, k: nat, m: Msg)
    requires k < |q| && IdentityOf(m) == IdentityOf(q[k])
    ensures Ids(q[k := m]) == Ids(q)
  {
    IdsSplit(q, k);
    IdsSplit(q[k := m], k);
    assert RemoveAt(q[k := m], k) == RemoveAt(q, k);
  }

  lemma {:induction false} IdsLength(q: seq<Msg>)
    ensures |Ids(q)| == |q|
  {
    if q != [] {
      IdsLength(q[1..]);
    }
  }

  lemma IdsOne(m: Msg)
    ensures Ids([m]) == multiset{IdentityOf(m)}
  {
    assert [m][1..] == [];
  }

  lemma FlightIds(p: Protocol, s: Store)
    ensures s.inFlight.Some? && !IsTx(p, s.inFlight.value) ==>
      Normals(p, s) == multiset{IdentityOf(s.inFlight.value)} + Ids(s.normal)
    ensures s.inFlight.None? || IsTx(p, s.inFlight.value) ==> Normals(p, s) == Ids(s.normal)
  {
    if s.inFlight.Some? {
      IdsOne(s.inFlight.value);
    }
  }

  lemma IdsEnds(q: seq<Msg>, m: Msg)
    ensures Ids(q + [m]) == Ids(q) + multiset{IdentityOf(m)}
    ensures Ids([m] + q) == Ids(q) + multiset{IdentityOf(m)} == multiset{IdentityOf(m)} + Ids(q)
  {
    IdsOne(m);
    IdsConcat(q, [m]);
    IdsConcat([m], q);
  }

  // ---------------------------------------------------------------- the table shadows the kept messages

  /** Those of the messages that are kept, no more and no less. */
  ghost predicate KeptOnly(c: Config, rows: multiset<Identity>, messages: multiset<Identity>) {
    forall d: Identity :: rows[d] == if CheckQueue(c, d.action) then messages[d] else 0
  }

  /** A row and an unresolved message with the same first id are the same message. */
  ghost predicate Linked(rows: multiset<Identity>, messages: multiset<Identity>) {
    forall r, m :: r in rows && m in messages && r.initialId == m.initialId ==> r == m
  }

  ghost predicate Known(messages: multiset<Identity>, used: set<MessageId>) {
    forall m :: m in messages ==> m.initialId in used
  }

  /** The rows are those of the messages that are kept, and they are told apart by their first ids. */
  ghost predicate Paired(c: Config, table: seq<Row>, messages: multiset<Identity>, used: set<MessageId>) {
    && Linked(RowIds(table), messages)
    && Known(RowIds(table), used) && Known(messages, used)
    && KeptOnly(c, RowIds(table), messages)
  }

  lemma NoDupRemoved(table: seq<Row>, id: MessageId)
    requires NoDup(table)
    ensures NoDup(RemoveRow(table, id))
  {
    RemoveRowOne(table, id);
    if k: nat :| k < |table| && RemoveRow(table, id) == RemoveAt(table, k) {
      RemovedAt(table, k);
    }
  }

  /** Taking a message away together with the row of its first id. */
  lemma Removed(c: Config, table: seq<Row>, messages: multiset<Identity>, d: Identity)
    requires NoDup(table) && Linked(RowIds(table), messages) && KeptOnly(c, RowIds(table), messages) && d in messages
    ensures KeptOnly(c, RowIds(RemoveRow(table, d.initialId)), messages - multiset{d})
    ensures RowIds(RemoveRow(table, d.initialId)) <= RowIds(table)
  {
    RowIdsIn(table, d);
    if k :| 0 <= k < |table| && table[k].uniqueId == d.initialId {
      RowIdsIn(table, RowId(table[k]));
      assert RowId(table[k]) == d;
      RemoveRowAt(table, k);
      RowIdsSplit(table, k);
    } else {
      RemoveRowAbsent(table, d.initialId);
      assert d !in RowIds(table);
    }
  }

  lemma Fewer(rows: multiset<Identity>, messages: multiset<Identity>, rows': multiset<Identity>, messages': multiset<Identity>,
              used: set<MessageId>)
    requires Linked(rows, messages) && Known(rows, used) && Known(messages, used) && rows' <= rows && messages' <= messages
    ensures Linked(rows', messages') && Known(rows', used) && Known(messages', used)
  {
    assert forall d :: d in rows' ==> d in rows;
    assert forall d :: d in messages' ==> d in messages;
  }

  lemma TakenAlone(c: Config, rows: multiset<Identity>, messages: multiset<Identity>, d: Identity)
    requires KeptOnly(c, rows, messages) && d in messages
    ensures KeptOnly(c, rows, messages - multiset{d}) <==> !CheckQueue(c, d.action)
  {
    assert (messages - multiset{d})[d] == messages[d] - 1;
    assert CheckQueue(c, d.action) ==> rows[d] != (messages - multiset{d})[d];
  }

  lemma PutKept(c: Config, rows: multiset<Identity>, messages: multiset<Identity>, d: Identity)
    requires KeptOnly(c, rows, messages)
    ensures KeptOnly(c, if CheckQueue(c, d.action) then rows + multiset{d} else rows, messages + multiset{d})
  {
  }

  lemma PutLinked(rows: multiset<Identity>, messages: multiset<Identity>, d: Identity, used: set<MessageId>)
    requires Linked(rows, messages) && Known(rows, used) && Known(messages, used) && d.initialId !in used
    ensures var u := used + {d.initialId};
      && Linked(rows, messages + multiset{d}) && Linked(rows + multiset{d}, messages + multiset{d})
      && Known(rows, u) && Known(rows + multiset{d}, u) && Known(messages + multiset{d}, u)
  {
    forall r, m | r in rows + multiset{d} && m in messages + multiset{d} && r.initialId == m.initialId ensures r == m {
      assert r in rows || r == d;
      assert m in messages || m == d;
    }
  }

  lemma Take(c: Config, table: seq<Row>, messages: multiset<Identity>, used: set<MessageId>, d: Identity)
    requires Paired(c, table, messages, used) && NoDup(table) && d in messages
    ensures Paired(c, RemoveRow(table, d.initialId), messages - multiset{d}, used) && NoDup(RemoveRow(table, d.initialId))
    ensures KeptOnly(c, RowIds(table), messages - multiset{d}) <==> !CheckQueue(c, d.action)
    ensures !CheckQueue(c, d.action) ==> Paired(c, table, messages - multiset{d}, used)
  {
    NoDupRemoved(table, d.initialId);
    Removed(c, table, messages, d);
    hide RowIds, RemoveRow, NoDup, Linked, Known, KeptOnly;
    Fewer(RowIds(table), messages, RowIds(RemoveRow(table, d.initialId)), messages - multiset{d}, used);
    Fewer(RowIds(table), messages, RowIds(table), messages - multiset{d}, used);
    TakenAlone(c, RowIds(table), messages, d);
  }

  lemma Put(c: Config, table: seq<Row>, messages: multiset<Identity>, used: set<MessageId>, m: Msg)
    requires Paired(c, table, messages, used) && m.call.id !in used && m.initialId == m.call.id
    ensures Paired(c, if CheckQueue(c, m.call.action) then table + [RowOf(m)] else table,
                   messages + multiset{IdentityOf(m)}, used + {m.call.id})
  {
    RowIdsConcat(table, [RowOf(m)]);
    assert [RowOf(m)][1..] == [];
    assert RowIds([RowOf(m)]) == multiset{IdentityOf(m)};
    hide RowIds, Linked, Known, KeptOnly;
    PutKept(c, RowIds(table), messages, IdentityOf(m));
    PutLinked(RowIds(table), messages, IdentityOf(m), used);
  }

  // ---------------------------------------------------------------- steps

  /** The rows of the table are those of the unresolved normal messages that are kept. */
  ghost predicate Shadow(c: Config, s: Store) {
    KeptOnly(c, RowIds(s.normalTable), Normals(c.protocol, s))
  }

  ghost predicate Shadows(c: Config, s: Store, used: set<MessageId>) {
    Paired(c, s.normalTable, Normals(c.protocol, s), used)
  }

  lemma DropFrontShadows(c: Config, s: Store, used: set<MessageId>)
    requires Shadows(c, s, used) && NoDup(s.normalTable) && s.normal != []
    ensures Shadows(c, DropFront(c, s), used) && NoDup(DropFront(c, s).normalTable)
  {
    FrontTaken(c.protocol, s, DropFront(c, s));
    hide Paired, NoDup, Normals;
    Take(c, s.normalTable, Normals(c.protocol, s), used, IdentityOf(s.normal[0]));
  }

  lemma FrontTaken(p: Protocol, s: Store, t: Store)
    requires s.normal != [] && t.normal == s.normal[1..] && t.inFlight == s.inFlight
    ensures var d := IdentityOf(s.normal[0]); d in Normals(p, s) && Normals(p, t) == Normals(p, s) - multiset{d}
  {
  }

  lemma OverflowShadows(c: Config, s: Store, used: set<MessageId>)
    requires Shadows(c, s, used) && NoDup(s.normalTable)
    ensures Shadows(c, CheckQueueSizes(c, s), used)
  {
    hide Paired, NoDup;
    var P := (t: Store) => Shadows(c, t, used) && NoDup(t.normalTable);
    forall t: Store | P(t) && t.normal != [] ensures P(DropFront(c, t)) { DropFrontShadows(c, t, used); }
    forall t: Store, i: nat | P(t) && i < |t.tx| && Droppable(c, t, i) ensures P(DropUpdate(t, i)) {
      assert Normals(c.protocol, DropUpdate(t, i)) == Normals(c.protocol, t);
    }
    OverflowKeeps(P, c, s);
  }

  lemma InsertShadows(c: Config, s: Store, m: Msg, serial: nat, used: set<MessageId>)
    requires Shadows(c, s, used) && TxInv(c.protocol, s, serial, used) && New(m, serial, used)
    ensures Shadows(c, Insert(c, s, m), used + {m.call.id})
  {
    hide Shadows, TxInv, CheckQueueSizes, InsertTx, InsertNormal;
    var u := used + {m.call.id};
    if IsTx(c.protocol, m) {
      PutTx(c, s, m, used, u);
      InsertTxKeeps(c.protocol, s, m, serial, used);
      TxInvNoDup(c.protocol, InsertTx(s, m), serial + 1, u);
      OverflowShadows(c, InsertTx(s, m), u);
    } else {
      PutNormal(c, s, m, used);
      InsertNormalKeeps(c, s, m, serial, used);
      TxInvNoDup(c.protocol, InsertNormal(c, s, m), serial + 1, u);
      OverflowShadows(c, InsertNormal(c, s, m), u);
    }
  }

  lemma TxInvNoDup(p: Protocol, s: Store, serial: nat, used: set<MessageId>)
    requires TxInv(p, s, serial, used)
    ensures NoDup(s.normalTable)
  {
  }

  lemma PutTx(c: Config, s: Store, m: Msg, used: set<MessageId>, used': set<MessageId>)
    requires Shadows(c, s, used) && used <= used'
    ensures Shadows(c, InsertTx(s, m), used') && Shadows(c, s, used')
  {
    assert Normals(c.protocol, InsertTx(s, m)) == Normals(c.protocol, s);
    hide Linked, KeptOnly, Normals, RowIds;
  }

  lemma PutNormal(c: Config, s: Store, m: Msg, used: set<MessageId>)
    requires Shadows(c, s, used) && m.call.id !in used && m.initialId == m.call.id
    ensures Shadows(c, InsertNormal(c, s, m), used + {m.call.id})
  {
    var p := c.protocol;
    Put(c, s.normalTable, Normals(p, s), used, m);
    hide Paired, RowIds;
    IdsEnds(s.normal, m);
    hide Ids;
    Associative(Ids(NormalFlight(p, s)), Ids(s.normal), multiset{IdentityOf(m)});
    assert NormalFlight(p, InsertNormal(c, s, m)) == NormalFlight(p, s);
  }

  lemma DeliveredShadows(c: Config, s: Store, sel: Selection, m: Msg, used: set<MessageId>)
    requires Shadows(c, s, used) && Selectable(s, sel) && s.inFlight.None?
    requires IdentityOf(m) == IdentityOf(Pick(s, sel)) && IsTx(c.protocol, m) == sel.FromTx?
    ensures Shadows(c, Delivered(s, sel, m), used)
  {
    hide Paired;
    if sel.FromNormal? {
      IdsSplit(s.normal, sel.index);
      IdsOne(m);
    }
    hide Ids;
    assert Normals(c.protocol, Delivered(s, sel, m)) == Normals(c.protocol, s);
  }

  /** A failed send of a message that is not kept pops the front of the normal queue, which is kept. */
  predicate PopsKept(c: Config, s: Store, sel: Selection)
    requires Selectable(s, sel)
  {
    sel.FromNormal? && !Persistent(c, Pick(s, sel)) && CheckQueue(c, s.normal[0].call.action)
  }

  lemma PoppedShadows(c: Config, s: Store, sel: Selection, m: Msg, used: set<MessageId>)
    requires Shadows(c, s, used) && NoDup(s.normalTable) && sel.FromNormal? && Selectable(s, sel)
    requires IdentityOf(m) == IdentityOf(Pick(s, sel)) && !Persistent(c, m)
    ensures Shadow(c, Undelivered(c, s, sel, m)) <==> !CheckQueue(c, s.normal[0].call.action)
    ensures !CheckQueue(c, s.normal[0].call.action) ==> Shadows(c, Undelivered(c, s, sel, m), used)
  {
    var q := s.normal[sel.index := m];
    IdsReplace(s.normal, sel.index, m);
    FrontTaken(c.protocol, s.(normal := q), s.(normal := q[1..]));
    hide Paired, NoDup, KeptOnly, Ids, RowIds;
    Take(c, s.normalTable, Normals(c.protocol, s), used, IdentityOf(q[0]));
  }

  lemma UndeliveredShadows(c: Config, s: Store, sel: Selection, m: Msg, used: set<MessageId>)
    requires Shadows(c, s, used) && NoDup(s.normalTable) && Selectable(s, sel) && s.inFlight.None?
    requires IdentityOf(m) == IdentityOf(Pick(s, sel)) && IsTx(c.protocol, m) == sel.FromTx?
    ensures Shadow(c, Undelivered(c, s, sel, m)) <==> !PopsKept(c, s, sel)
    ensures !PopsKept(c, s, sel) ==> Shadows(c, Undelivered(c, s, sel, m), used)
  {
    ShadowsShadow(c, s, used);
    hide Paired, NoDup, KeptOnly, Ids, RowIds;
    if sel.FromNormal? && !Persistent(c, m) {
      PoppedShadows(c, s, sel, m, used);
    } else if sel.FromNormal? {
      IdsReplace(s.normal, sel.index, m);
    }
  }

  lemma ShadowsShadow(c: Config, s: Store, used: set<MessageId>)
    requires Shadows(c, s, used)
    ensures Shadow(c, s)
  {
  }

  lemma ResolveShadows(c: Config, s: Store, e: Entry, used: set<MessageId>)
    requires Shadows(c, s, used) && NoDup(s.normalTable) && s.inFlight.Some?
    ensures Shadows(c, Resolve(c, s, e), used)
  {
    hide Paired, NoDup, Ids, Normals;
    var p, m := c.protocol, s.inFlight.value;
    FlightIds(p, s);
    FlightIds(p, Resolve(c, s, e));
    if !IsTx(p, m) {
      WithoutOne(Ids(s.normal), IdentityOf(m));
      Take(c, s.normalTable, Normals(p, s), used, IdentityOf(m));
    }
  }

  lemma WithoutOne(a: multiset<Identity>, d: Identity)
    ensures multiset{d} + a - multiset{d} == a && d in multiset{d} + a
  {
  }

  lemma RetryShadows(c: Config, s: Store, now: Instant, newId: MessageId, used: set<MessageId>)
    requires Shadows(c, s, used) && s.inFlight.Some?
    ensures Shadows(c, Retry(c, s, now, newId), used)
  {
    hide Paired, Ids, RetryAt, Normals;
    var p, m := c.protocol, s.inFlight.value;
    IdsEnds(s.normal, Renewed(c, m, now, newId));
    FlightIds(p, s);
    FlightIds(p, Retry(c, s, now, newId));
  }

  lemma FailShadows(c: Config, s: Store, now: Instant, newId: MessageId, used: set<MessageId>)
    requires Shadows(c, s, used) && NoDup(s.normalTable) && s.inFlight.Some?
    ensures Shadows(c, Fail(c, s, now, newId), used + {newId})
  {
    hide Shadows, NoDup, Retry, Resolve, Persistent;
    var m := s.inFlight.value;
    GrowShadows(c, s, used, used + {newId});
    if Retries(c, m) {
      RetryShadows(c, s, now, newId, used + {newId});
    } else {
      ResolveShadows(c, s, if Persistent(c, m) then GivenUp(m, c.attempts) else Expired(m), used + {newId});
    }
  }

  lemma GrowShadows(c: Config, s: Store, used: set<MessageId>, used': set<MessageId>)
    requires Shadows(c, s, used) && used <= used'
    ensures Shadows(c, s, used')
  {
    hide Linked, KeptOnly, Normals, RowIds;
  }

  // ---------------------------------------------------------------- reading the table back

  predicate AllKept(p: Protocol, table: seq<Row>) {
    forall i :: 0 <= i < |table| ==> table[i].call.id == table[i].uniqueId && !IsTransaction(p, table[i].call.action)
  }

  lemma {:induction false} LoadAll(p: Protocol, table: seq<Row>, ign: bool)
    requires AllKept(p, table)
    ensures KeptRows(table, ign) == table && |Load(table, ign)| == |table|
    ensures forall i :: 0 <= i < |table| ==> Load(table, ign)[i] == FromRow(table[i])
  {
    if table != [] {
      assert !Ignored(table[0], ign);
      LoadAll(p, table[1..], ign);
    }
  }

  lemma {:induction false} LoadIds(p: Protocol, table: seq<Row>, ign: bool)
    requires AllKept(p, table)
    ensures Ids(Load(table, ign)) == RowIds(table)
  {
    if table != [] {
      assert !Ignored(table[0], ign);
      LoadIds(p, table[1..], ign);
      hide Ids, AllKept;
      IdsFront(FromRow(table[0]), Load(table[1..], ign));
    }
  }

  lemma RowsLinked(table: seq<Row>, used: set<MessageId>)
    requires NoDup(table) && forall i :: 0 <= i < |table| ==> table[i].uniqueId in used
    ensures Linked(RowIds(table), RowIds(table)) && Known(RowIds(table), used)
  {
    forall d | d in RowIds(table) ensures exists k :: 0 <= k < |table| && RowId(table[k]) == d {
      RowIdsIn(table, d);
    }
    hide RowIds;
  }

  /** The configuration no longer keeps a message whose row is read back. */
  predicate Unkept(c: Config, table: seq<Row>) {
    c.queueAll && exists i :: 0 <= i < |table| && table[i].call.action in c.discard
  }

  lemma BootKept(c: Config, table: seq<Row>)
    ensures KeptOnly(c, if c.queueAll then RowIds(table) else multiset{}, RowIds(table)) <==> !Unkept(c, table)
  {
    if i :| 0 <= i < |table| && table[i].call.action in c.discard {
      RowIdsIn(table, RowId(table[i]));
      assert RowIds(table)[RowId(table[i])] > 0;
    } else {
      forall d | d in RowIds(table) ensures d.action !in c.discard {
        RowIdsIn(table, d);
      }
    }
    hide RowIds;
  }

  lemma BootTable(c: Config, s: Store, serial: nat, used: set<MessageId>, ign: bool)
    requires TxInv(c.protocol, s, serial, used)
    ensures var b := BootStore(c, s.txTable, s.normalTable, ign);
      && b.normalTable == (if c.queueAll then s.normalTable else [])
      && Normals(c.protocol, b) == Ids(b.normal) == RowIds(s.normalTable)
      && |b.normal| == |s.normalTable|
      && (forall i :: 0 <= i < |b.normal| ==> Untried(b.normal[i]) && b.normal[i].stall)
  {
    assert forall i :: 0 <= i < |s.normalTable| ==> RowOk(s.normalTable[i], serial, used);
    LoadAll(c.protocol, s.normalTable, ign);
    LoadIds(c.protocol, s.normalTable, ign);
    PurgeTable(s.normalTable, ign);
    hide TxInv, Purge, Load, KeptRows, RowIds;
  }

  lemma BootShadows(c: Config, s: Store, serial: nat, used: set<MessageId>, ign: bool)
    requires TxInv(c.protocol, s, serial, used)
    ensures Shadow(c, BootStore(c, s.txTable, s.normalTable, ign)) <==> !Unkept(c, s.normalTable)
    ensures !Unkept(c, s.normalTable) ==> Shadows(c, BootStore(c, s.txTable, s.normalTable, ign), used)
  {
    assert forall i :: 0 <= i < |s.normalTable| ==> RowOk(s.normalTable[i], serial, used);
    BootTable(c, s, serial, used, ign);
    RowsLinked(s.normalTable, used);
    BootKept(c, s.normalTable);
    hide TxInv, BootStore, Linked, Known, KeptOnly, Unkept, Normals;
    Nothing(used);
    Linkless(RowIds(s.normalTable));
  }

  lemma Nothing(used: set<MessageId>)
    ensures RowIds([]) == multiset{} && Known(multiset{}, used)
  {
  }

  lemma Linkless(messages: multiset<Identity>)
    ensures Linked(multiset{}, messages)
  {
  }

  // ---------------------------------------------------------------- every run

  /** The step leaves a row without its message: a failed send pops a message that is kept, or a restart
      reads back a message that the new configuration does not keep. */
  predicate Leaks(s: State, e: Event) {
    match e
    case Worker(now, ok) => !ok && Attempts(s, now) && PopsKept(s.config, s.store, Choice(s, now))
    case Crash(config, _) => Unkept(config, s.store.normalTable)
    case _ => false
  }

  ghost predicate Shadowed(s: State) {
    TxOk(s) && Shadows(s.config, s.store, s.used)
  }

  lemma TransmitShadows(c: Config, s: Store, sel: Selection, m: Msg, ok: bool, used: set<MessageId>)
    requires Shadows(c, s, used) && NoDup(s.normalTable) && Selectable(s, sel) && s.inFlight.None?
    requires IdentityOf(m) == IdentityOf(Pick(s, sel)) && IsTx(c.protocol, m) == sel.FromTx?
    ensures Shadow(c, Transmit(c, s, sel, m, ok)) <==> ok || !PopsKept(c, s, sel)
    ensures ok || !PopsKept(c, s, sel) ==> Shadows(c, Transmit(c, s, sel, m, ok), used)
  {
    hide Shadow, Shadows, NoDup, Delivered, Undelivered;
    if ok {
      DeliveredShadows(c, s, sel, m, used);
      ShadowsShadow(c, Delivered(s, sel, m), used);
    } else {
      UndeliveredShadows(c, s, sel, m, used);
    }
  }

  lemma AttemptShadows(s: State, sel: Selection, ok: bool)
    requires Shadowed(s) && Selectable(s.store, sel) && s.store.inFlight.None?
    ensures var t := Attempt(s, sel, ok);
      && (Shadow(t.config, t.store) <==> ok || !PopsKept(s.config, s.store, sel))
      && (ok || !PopsKept(s.config, s.store, sel) ==> Shadows(t.config, t.store, t.used))
  {
    hide Shadow, Shadows, TxInv, Transmit, PopsKept, NoDup;
    TxInvNoDup(s.config.protocol, s.store, s.serial, s.used);
    PickedKind(s.config.protocol, s.store, sel, s.serial, s.used);
    TransmitShadows(s.config, s.store, sel, Prepare(s.control.stopIds, Pick(s.store, sel)), ok, s.used);
  }

  lemma WorkerShadows(s: State, now: Instant, ok: bool)
    requires Shadowed(s)
    ensures var t := WorkerPass(s, now, ok);
      && (Shadow(t.config, t.store) <==> !Leaks(s, Worker(now, ok)))
      && (!Leaks(s, Worker(now, ok)) ==> Shadows(t.config, t.store, t.used))
  {
    ShadowsShadow(s.config, s.store, s.used);
    PassShape(s, now, ok);
    hide Shadow, Shadows, TxOk, Attempt, Choice, PopsKept, WorkerPass, Attempts;
    if Attempts(s, now) {
      AttemptShadows(s, Choice(s, now), ok);
    }
  }

  lemma PickedKind(p: Protocol, s: Store, sel: Selection, serial: nat, used: set<MessageId>)
    requires TxInv(p, s, serial, used) && Selectable(s, sel) && s.inFlight.None?
    ensures IsTx(p, Pick(s, sel)) == sel.FromTx?
  {
    if sel.FromTx? {
      assert TxAll(p, s)[0] == s.tx[0];
    }
  }

  lemma QuietShadows(s: State, e: Event)
    requires Shadows(s.config, s.store, s.used) && Enabled(s, e) && Quiet(e)
    ensures var t := Next(s, e); Shadows(t.config, t.store, t.used)
  {
    QuietStep(s, e);
    hide Next, RowIds, Linked, Known;
    var t := Next(s, e);
    assert Normals(t.config.protocol, t.store) == Normals(s.config.protocol, s.store);
  }

  lemma AcceptShadows(s: State, m: Msg)
    requires Shadowed(s) && New(m, s.serial, s.used)
    ensures var t := Accept(s, m); Shadows(t.config, t.store, t.used)
  {
    InsertShadows(s.config, s.store, m, s.serial, s.used);
    hide Shadows, Insert;
  }

  lemma RejectShadows(s: State, m: Msg)
    requires Shadowed(s)
    ensures var t := Reject(s, m); Shadows(t.config, t.store, t.used)
  {
    hide Shadows;
    SameNormals(s.config, s.store, s.store.(log := s.store.log + [Offline(m)]), s.used, s.used + {m.call.id});
  }

  lemma PushShadows(s: State, call: Call, stall: bool, now: Instant)
    requires Shadowed(s) && call.id !in s.used
    ensures var t := Push(s, call, stall, now); Shadows(t.config, t.store, t.used)
    ensures var t := PushAsync(s, call, now); Shadows(t.config, t.store, t.used)
  {
    var m, r := NewMsg(s.serial, call, stall, now), NewMsg(s.serial, call, false, now);
    AcceptShadows(s, m);
    AcceptShadows(s, r);
    RejectShadows(s, r);
    hide Shadows, TxOk, Accept, Reject;
  }

  /** Entries in the history and transaction messages do not matter here. */
  lemma SameNormals(c: Config, s: Store, t: Store, used: set<MessageId>, used': set<MessageId>)
    requires Shadows(c, s, used) && used <= used'
    requires t == s.(tx := t.tx, txTable := t.txTable, log := t.log)
    ensures Shadows(c, t, used')
  {
    GrowShadows(c, s, used, used');
    hide Paired;
    assert Normals(c.protocol, t) == Normals(c.protocol, s);
  }

  lemma ReplyShadows(s: State, e: Event)
    requires Shadowed(s) && Enabled(s, e) && (e.ReceiveResult? || e.ReceiveError?)
    ensures var t := Next(s, e); Shadows(t.config, t.store, t.used)
  {
    var t := ClearGate(s, e.id).store;
    TxInvNoDup(s.config.protocol, s.store, s.serial, s.used);
    SameNormals(s.config, s.store, t, s.used, s.used);
    hide Shadows, NoDup, TxInv, Resolve, Fail;
    if Matches(s, e.id) {
      if e.ReceiveResult? {
        ResolveShadows(s.config, t, Answered(s.store.inFlight.value), s.used);
      } else {
        FailShadows(s.config, t, e.now, e.newId, s.used);
      }
    }
  }

  lemma CalmShadows(s: State, e: Event)
    requires Shadowed(s) && Enabled(s, e) && !e.Worker? && !e.Crash?
    ensures var t := Next(s, e); Shadows(t.config, t.store, t.used)
  {
    if Quiet(e) {
      QuietShadows(s, e);
    } else if e.ReceiveResult? || e.ReceiveError? {
      ReplyShadows(s, e);
    } else {
      StateNoDup(s);
      hide TxOk, NoDup, Shadows, Push, PushAsync, Fail;
      match e
      case PushCall(call, stall, now) => PushShadows(s, call, stall, now);
      case PushCallAsync(call, now) => PushShadows(s, call, false, now);
      case Timeout(now, newId) => FailShadows(s.config, s.store, now, newId, s.used);
      case StartHandled(start, t) =>
        SameNormals(s.config, s.store, HandleStart(s, start, t).store, s.used, s.used);
    }
  }

  /** Exactly which steps break the shadow. */
  lemma NextShadow(s: State, e: Event)
    requires Shadowed(s) && Enabled(s, e)
    ensures var t := Next(s, e); Shadow(t.config, t.store) <==> !Leaks(s, e)
    ensures !Leaks(s, e) ==> Shadowed(Next(s, e))
  {
    NextKeepsTx(s, e);
    hide TxOk, Shadow, Shadows, WorkerPass, BootStore, Unkept, Attempts;
    match e
    case Worker(now, ok) => WorkerShadows(s, now, ok);
    case Crash(config, ign) => CrashShadows(s, config, ign);
    case _ =>
      CalmShadows(s, e);
      hide Next;
      ShadowsShadow(Next(s, e).config, Next(s, e).store, Next(s, e).used);
  }

  lemma StateNoDup(s: State)
    requires TxOk(s)
    ensures NoDup(s.store.normalTable)
  {
  }

  lemma CrashShadows(s: State, config: Config, ign: bool)
    requires TxOk(s) && config.protocol == s.config.protocol
    ensures var b := BootStore(config, s.store.txTable, s.store.normalTable, ign);
      && (Shadow(config, b) <==> !Unkept(config, s.store.normalTable))
      && (!Unkept(config, s.store.normalTable) ==> Shadows(config, b, s.used))
  {
    BootShadows(config, s.store, s.serial, s.used, ign);
  }

  predicate NoLeak(s: State, events: seq<Event>)
    requires Legal(s, events)
    decreases |events|
  {
    events == [] || (!Leaks(s, events[0]) && NoLeak(Next(s, events[0]), events[1..]))
  }

  /** The normal messages that a restart would put back. */
  function Restored(s: State): multiset<Identity> {
    Ids(Next(s, Crash(s.config, false)).store.normal)
  }

  /** A restart would put back exactly the unresolved normal messages that are kept. */
  ghost predicate RestartExact(s: State) {
    KeptOnly(s.config, Restored(s), Normals(s.config.protocol, s.store))
  }

  ghost predicate AlwaysExact(s: State, events: seq<Event>)
    requires Legal(s, events)
    decreases |events|
  {
    RestartExact(s) && (events == [] || AlwaysExact(Next(s, events[0]), events[1..]))
  }

  /** The boot, whatever the configuration, in terms of the rows. */
  ghost predicate ReadBack(b: Store, table: seq<Row>) {
    && Ids(b.normal) == RowIds(table) && |b.normal| == |table|
    && (forall i :: 0 <= i < |b.normal| ==> Untried(b.normal[i]) && b.normal[i].stall)
  }

  lemma RestoredRows(s: State, config: Config, ign: bool)
    requires TxOk(s) && config.protocol == s.config.protocol
    ensures ReadBack(Next(s, Crash(config, ign)).store, s.store.normalTable)
  {
    BootTable(config, s.store, s.serial, s.used, ign);
    CrashStore(s, config, ign);
    hide TxInv, BootStore, Ids, RowIds, Normals, Untried, Next;
  }

  lemma CrashStore(s: State, config: Config, ign: bool)
    requires config.protocol == s.config.protocol
    ensures Next(s, Crash(config, ign)).store == BootStore(config, s.store.txTable, s.store.normalTable, ign)
  {
    hide BootStore;
  }

  lemma ExactShadow(s: State)
    requires TxOk(s)
    ensures RestartExact(s) <==> Shadow(s.config, s.store)
  {
    RestoredRows(s, s.config, false);
    hide TxOk, Next;
  }

  lemma {:induction false} RunExact(s: State, events: seq<Event>)
    requires Shadowed(s) && Legal(s, events)
    ensures AlwaysExact(s, events) <==> NoLeak(s, events)
    ensures NoLeak(s, events) ==> Shadowed(Run(s, events))
    decreases |events|
  {
    ShadowsShadow(s.config, s.store, s.used);
    ExactShadow(s);
    hide RestartExact, Shadow, Shadows, TxOk, Next, Enabled, Leaks;
    if events != [] {
      NextShadow(s, events[0]);
      if !Leaks(s, events[0]) {
        RunExact(Next(s, events[0]), events[1..]);
      } else if AlwaysExact(Next(s, events[0]), events[1..]) {
        NextKeepsTx(s, events[0]);
        ExactShadow(Next(s, events[0]));
      }
    }
  }

  lemma InitialShadowed(config: Config)
    ensures Shadowed(Initial(config))
  {
    InitialTx(config);
  }

  /** In every run: at each moment a restart would put back exactly the
      unresolved normal messages that are kept if, and only if, no failed send
      pops a kept message and no restart stops keeping a message it reads back. */
  lemma RestartsExact(config: Config, events: seq<Event>)
    requires Legal(Initial(config), events)
    ensures AlwaysExact(Initial(config), events) <==> NoLeak(Initial(config), events)
  {
    InitialShadowed(config);
    hide Shadowed, Initial;
    RunExact(Initial(config), events);
  }

  /** After such a run a restart, whatever its configuration, puts exactly those
      messages back, each untried and under its first id. */
  lemma RestartRestores(config: Config, events: seq<Event>, config': Config, ign: bool)
    requires Legal(Initial(config), events) && NoLeak(Initial(config), events)
    requires Enabled(Reached(config, events), Crash(config', ign))
    ensures var s := Reached(config, events);
      var b := Next(s, Crash(config', ign)).store;
      && KeptOnly(s.config, Ids(b.normal), Normals(config.protocol, s.store))
      && (forall i :: 0 <= i < |b.normal| ==> Untried(b.normal[i]) && b.normal[i].stall)
  {
    ReachedShadow(config, events);
    ReachedTx(config, events);
    var s := Reached(config, events);
    hide TxOk, Initial, Run, Legal, NoLeak, Next, KeptOnly, Ids, RowIds, Normals, Untried;
    RestoredRows(s, config', ign);
  }

  lemma ReachedShadow(config: Config, events: seq<Event>)
    requires Legal(Initial(config), events) && NoLeak(Initial(config), events)
    ensures var s := Reached(config, events); TxOk(s) && Shadow(s.config, s.store)
  {
    InitialShadowed(config);
    hide TxOk, Shadow, Initial, Legal, NoLeak, Run;
    RunExact(Initial(config), events);
    var s := Reached(config, events);
    ShadowsShadow(s.config, s.store, s.used);
  }

  /** The last entry says that the front of the normal queue was popped. */
  predicate FrontPopped(s: Store, t: Store) {
    && s.normal != [] && t.log != [] && t.log[|t.log| - 1].Popped?
    && IdentityOf(t.log[|t.log| - 1].m) == IdentityOf(s.normal[0])
  }

  lemma UndeliveredPops(c: Config, s: Store, sel: Selection, m: Msg)
    requires Selectable(s, sel) && PopsKept(c, s, sel) && IdentityOf(m) == IdentityOf(Pick(s, sel))
    ensures var t := Undelivered(c, s, sel, m);
      FrontPopped(s, t) && t.normalTable == s.normalTable && CheckQueue(c, s.normal[0].call.action)
  {
  }

  lemma PopStep(s: State, now: Instant)
    requires Leaks(s, Worker(now, false)) && Enabled(s, Worker(now, false))
    ensures var t := Next(s, Worker(now, false));
      FrontPopped(s.store, t.store) && t.store.normalTable == s.store.normalTable &&
      CheckQueue(s.config, s.store.normal[0].call.action)
  {
    var sel := Choice(s, now);
    UndeliveredPops(s.config, s.store, sel, Prepare(s.control.stopIds, Pick(s.store, sel)));
    hide FrontPopped, Undelivered, Choice;
  }

  /** A failed send that pops a kept message leaves its row, and a restart puts the message back. */
  lemma PoppedComesBack(config: Config, events: seq<Event>, now: Instant)
    requires Legal(Initial(config), events) && NoLeak(Initial(config), events)
    requires var s := Reached(config, events); Enabled(s, Worker(now, false)) && Leaks(s, Worker(now, false))
    ensures var s := Reached(config, events);
      var t := Next(s, Worker(now, false));
      FrontPopped(s.store, t.store) && IdentityOf(s.store.normal[0]) in Restored(t)
  {
    ReachedShadow(config, events);
    var s := Reached(config, events);
    NextKeepsTx(s, Worker(now, false));
    PopStep(s, now);
    FrontKept(s.config, s.store);
    hide TxOk, Shadow, Initial, Run, Legal, NoLeak, Ids, RowIds, Next, Leaks;
    var t := Next(s, Worker(now, false));
    RestoredRows(t, t.config, false);
  }

  lemma FrontKept(c: Config, s: Store)
    requires Shadow(c, s) && s.normal != [] && CheckQueue(c, s.normal[0].call.action)
    ensures IdentityOf(s.normal[0]) in RowIds(s.normalTable)
  {
    FrontTaken(c.protocol, s, s.(normal := s.normal[1..]));
  }
}
