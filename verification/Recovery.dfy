/** Restarts. */
module Recovery {
  import opened Messages
  import opened QueueSpec
  import opened TransactionOrder
  import L = Ledger
  import N = NormalRecovery

  // What the tables are for: a restart at any moment restores exactly the unresolved transaction messages.

  /** The identities of the messages, without those that are no longer to be sent. */
  function Survivors(q: seq<Msg>, ignoreSecurity: bool): seq<Identity> {
    if q == [] then []
    else if ignoreSecurity && q[0].call.action == SecurityEventNotification then Survivors(q[1..], ignoreSecurity)
    else [IdentityOf(q[0])] + Survivors(q[1..], ignoreSecurity)
  }

  predicate Linked(table: seq<Row>, q: seq<Msg>) {
    |table| == |q| && forall i :: 0 <= i < |q| ==> RowFor(table[i], q[i]) && table[i].call.id == table[i].uniqueId && table[i].attempts == 0
  }

  lemma {:induction false} LoadRestores(table: seq<Row>, q: seq<Msg>, ignoreSecurity: bool)
    requires Linked(table, q)
    ensures Survivors(Load(table, ignoreSecurity), false) == Survivors(q, ignoreSecurity)
    ensures forall i :: 0 <= i < |Load(table, ignoreSecurity)| ==>
      Untried(Load(table, ignoreSecurity)[i]) && Load(table, ignoreSecurity)[i].stall
  {
    if q != [] {
      assert RowFor(table[0], q[0]);
      assert Linked(table[1..], q[1..]);
      LoadRestores(table[1..], q[1..], ignoreSecurity);
      var l := Load(table, ignoreSecurity);
      if !Ignored(table[0], ignoreSecurity) {
        assert l[1..] == Load(table[1..], ignoreSecurity);
      }
    }
  }

  lemma TrackedLinked(p: Protocol, q: seq<Msg>, table: seq<Row>, serial: nat, used: set<MessageId>)
    requires Tracked(p, q, table, serial, used)
    ensures Linked(table, q)
  {
    forall i | 0 <= i < |q| ensures RowFor(table[i], q[i]) && table[i].call.id == table[i].uniqueId && table[i].attempts == 0 {
      assert RowOk(table[i], serial, used);
    }
  }

  /** After any run, including any number of earlier restarts, a restart puts
      back exactly the unresolved transaction messages, the one in flight
      included, in order, each untried and under its first id. */
  lemma CrashRestores(config: Config, events: seq<Event>, config': Config, ignoreSecurity: bool)
    requires Legal(Initial(config), events) && Enabled(Reached(config, events), Crash(config', ignoreSecurity))
    ensures var s := Reached(config, events);
      var b := Next(s, Crash(config', ignoreSecurity)).store;
      && Survivors(b.tx, false) == Survivors(TxAll(config.protocol, s.store), ignoreSecurity)
      && b.inFlight == None
      && (forall i :: 0 <= i < |b.tx| ==> Untried(b.tx[i]) && b.tx[i].stall)
  {
    ReachedTx(config, events);
    var s := Reached(config, events);
    var q := TxAll(config.protocol, s.store);
    TrackedLinked(config.protocol, q, s.store.txTable, s.serial, s.used);
    LoadRestores(s.store.txTable, q, ignoreSecurity);
  }

  lemma {:induction false} TallyZero(q: seq<Msg>, n: nat, i: nat)
    requires L.Tally(q, L.Serial(n)) == 0 && i < |q|
    ensures q[i].serial != n
  {
    if i > 0 {
      TallyZero(q[1..], n, i - 1);
    }
  }

  lemma {:induction false} IdentityIn(q: seq<Msg>, ignoreSecurity: bool, d: Identity)
    requires d in Survivors(q, ignoreSecurity)
    ensures exists i :: 0 <= i < |q| && IdentityOf(q[i]) == d
  {
    if d in Survivors(q[1..], ignoreSecurity) {
      IdentityIn(q[1..], ignoreSecurity, d);
      var i :| 0 <= i < |q[1..]| && IdentityOf(q[1..][i]) == d;
      assert q[i + 1] == q[1..][i];
    }
  }

  lemma TxAllPending(p: Protocol, s: Store, i: nat, n: nat)
    requires i < |TxAll(p, s)| && TxAll(p, s)[i].serial == n
    ensures L.Pending(s, L.Serial(n)) > 0
  {
    if L.Pending(s, L.Serial(n)) == 0 && i >= |TxFlight(p, s)| {
      TallyZero(s.tx, n, i - |TxFlight(p, s)|);
    }
  }

  /** No restart brings back a transaction message that was answered, given up or dropped. */
  lemma CrashRestoresNothingResolved(config: Config, events: seq<Event>, config': Config, ignoreSecurity: bool, d: Identity)
    requires Legal(Initial(config), events)
    requires Enabled(Reached(config, events), Crash(config', ignoreSecurity))
    requires d in Survivors(Next(Reached(config, events), Crash(config', ignoreSecurity)).store.tx, false)
    ensures L.Number(History(config, events), L.Leaves, d.serial) == 0
  {
    CrashRestores(config, events, config', ignoreSecurity);
    var s := Reached(config, events);
    var q := TxAll(config.protocol, s.store);
    IdentityIn(q, ignoreSecurity, d);
    var i :| 0 <= i < |q| && IdentityOf(q[i]) == d;
    TxAllPending(config.protocol, s.store, i, d.serial);
    L.ReachedAt(config, events, d.serial, 0);
  }

  lemma {:induction false} IdsTally(q: seq<Msg>, d: Identity)
    requires d in N.Ids(q)
    ensures L.Tally(q, L.Serial(d.serial)) > 0
  {
    if IdentityOf(q[0]) != d {
      IdsTally(q[1..], d);
    }
  }

  lemma NormalsPending(p: Protocol, s: Store, d: Identity)
    requires d in N.Normals(p, s)
    ensures L.Pending(s, L.Serial(d.serial)) > 0
  {
    if d in N.Ids(s.normal) {
      IdsTally(s.normal, d);
    } else {
      IdsTally(N.NormalFlight(p, s), d);
    }
  }

  /** Nor a normal message, as long as no step leaves a row without its message. */
  lemma CrashRestoresNoResolvedNormal(config: Config, events: seq<Event>, config': Config, ignoreSecurity: bool, d: Identity)
    requires Legal(Initial(config), events) && N.NoLeak(Initial(config), events)
    requires Enabled(Reached(config, events), Crash(config', ignoreSecurity))
    requires d in N.Ids(Next(Reached(config, events), Crash(config', ignoreSecurity)).store.normal)
    ensures L.Number(History(config, events), L.Leaves, d.serial) == 0
  {
    N.RestartRestores(config, events, config', ignoreSecurity);
    hide Initial, Run, Legal, N.NoLeak, Next, N.Ids, N.Normals;
    NormalsPending(config.protocol, Reached(config, events).store, d);
    L.ReachedAt(config, events, d.serial, 0);
  }

  /** Reading the tables back into a queue that is not empty queues every
      unresolved transaction message a second time. */
  lemma ReadBackQueuesTwice(config: Config, events: seq<Event>, ignoreSecurity: bool)
    requires Legal(Initial(config), events)
    ensures var s := Reached(config, events);
      var t := ReadBack(s.config, s.store, ignoreSecurity);
      && |s.store.tx| <= |t.tx| && t.tx[..|s.store.tx|] == s.store.tx
      && Survivors(t.tx[|s.store.tx|..], false) == Survivors(TxAll(config.protocol, s.store), ignoreSecurity)
  {
    ReachedTx(config, events);
    var s := Reached(config, events);
    var q := TxAll(config.protocol, s.store);
    TrackedLinked(config.protocol, q, s.store.txTable, s.serial, s.used);
    LoadRestores(s.store.txTable, q, ignoreSecurity);
  }

  /** In every reachable state at most the first unresolved transaction message
      has been tried; all others are as they were when they were written to the
      table, timestamp included, except for a transaction id that became known. */
  lemma OnlyTheHeadWasTried(config: Config, events: seq<Event>, i: nat)
    requires Legal(Initial(config), events)
    requires 1 <= i < |TxAll(config.protocol, Reached(config, events).store)|
    ensures var s := Reached(config, events).store;
      var m := TxAll(config.protocol, s)[i];
      Untried(m) && i < |s.txTable| && s.txTable[i].serial == m.serial && AsMade(s.txTable[i], m)
  {
    ReachedTx(config, events);
  }
}
