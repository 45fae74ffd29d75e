/** How long the queues can get. */
module Backlog {
  import opened Messages
  import opened QueueSpec
  import opened Overflow
  import TransactionOrder
  import N = NormalRecovery

  function InFlightTx(c: Config, s: Store): nat {
    if s.inFlight.Some? && IsTx(c.protocol, s.inFlight.value) then 1 else 0
  }

  function InFlightNormal(c: Config, s: Store): nat {
    if s.inFlight.Some? && !IsTx(c.protocol, s.inFlight.value) then 1 else 0
  }

  /** Unresolved transaction messages. */
  function TxLoad(c: Config, s: Store): nat {
    |s.tx| + InFlightTx(c, s)
  }

  /** Unresolved normal messages. */
  function NormalLoad(c: Config, s: Store): nat {
    |s.normal| + InFlightNormal(c, s)
  }

  /** Normal messages only take the room the transaction messages leave, plus one. */
  predicate Bounded(c: Config, s: Store) {
    c.threshold >= 0 ==> NormalLoad(c, s) <= Max(0, c.threshold - TxLoad(c, s)) + 1
  }

  lemma InsertBounded(c: Config, s: Store, m: Msg)
    ensures Bounded(c, Insert(c, s, m))
  {
    OverflowOutcome(c, if IsTx(c.protocol, m) then InsertTx(s, m) else InsertNormal(c, s, m));
    hide Subsequence, CheckQueueSizes, HasDroppable;
  }

  lemma TransmitBounded(c: Config, s: Store, sel: Selection, m: Msg, ok: bool)
    requires Bounded(c, s) && Selectable(s, sel) && s.inFlight.None? && IsTx(c.protocol, m) == sel.FromTx?
    ensures Bounded(c, Transmit(c, s, sel, m, ok))
  {
  }

  lemma ResolveBounded(c: Config, s: Store, e: Entry)
    requires Bounded(c, s) && s.inFlight.Some?
    ensures Bounded(c, Resolve(c, s, e))
  {
  }

  /** A retry goes to the front of its queue without any check, and still fits. */
  lemma FailBounded(c: Config, s: Store, now: Instant, newId: MessageId)
    requires Bounded(c, s) && s.inFlight.Some?
    ensures Bounded(c, Fail(c, s, now, newId))
  {
  }

  predicate BacklogOk(s: State) {
    Bounded(s.config, s.store)
  }

  lemma WorkerBounded(s: State, now: Instant, ok: bool)
    requires BacklogOk(s) && TransactionOrder.TxOk(s)
    ensures BacklogOk(WorkerPass(s, now, ok))
  {
    if Attempts(s, now) {
      var sel := Choice(s, now);
      var m := Prepare(s.control.stopIds, Pick(s.store, sel));
      if sel.FromTx? {
        assert TransactionOrder.TxAll(s.config.protocol, s.store)[0] == s.store.tx[0];
      }
      hide Bounded, Transmit, TransactionOrder.TxAll;
      TransmitBounded(s.config, s.store, sel, m, ok);
    }
  }

  lemma QuietBounded(s: State, e: Event)
    requires BacklogOk(s) && Enabled(s, e) && Quiet(e)
    ensures BacklogOk(Next(s, e))
  {
    QuietStep(s, e);
    hide Next;
  }

  lemma NextBounded(s: State, e: Event)
    requires BacklogOk(s) && TransactionOrder.TxOk(s) && Enabled(s, e) && !e.Crash?
    ensures BacklogOk(Next(s, e))
  {
    if Quiet(e) {
      QuietBounded(s, e);
    } else {
      hide TransactionOrder.TxOk, Insert, WorkerPass, Fail, Answer;
      var c, st := s.config, s.store;
      match e
      case PushCall(call, stall, now) => InsertBounded(c, st, NewMsg(s.serial, call, stall, now));
      case PushCallAsync(call, now) => InsertBounded(c, st, NewMsg(s.serial, call, false, now));
      case ReceiveResult(id) =>
        if Matches(s, id) { ResolveBounded(c, ClearGate(s, id).store, Answered(st.inFlight.value)); }
      case ReceiveError(id, now, newId) =>
        if Matches(s, id) { FailBounded(c, ClearGate(s, id).store, now, newId); }
      case Timeout(now, newId) => FailBounded(c, st, now, newId);
      case Worker(now, ok) => WorkerBounded(s, now, ok);
      case StartHandled(start, t) =>
    }
  }

  // ---------------------------------------------------------------- restarts

  /** A restart reads back no more normal messages than the bound allows. */
  predicate Fits(s: State, e: Event) {
    match e
    case Crash(config, ign) =>
      config.threshold >= 0 ==>
        |Load(s.store.normalTable, ign)| <= Max(0, config.threshold - |Load(s.store.txTable, ign)|) + 1
    case _ => true
  }

  lemma CrashBounded(s: State, e: Event)
    requires Enabled(s, e) && e.Crash?
    ensures BacklogOk(Next(s, e)) <==> Fits(s, e)
  {
    hide Load, Purge;
  }

  lemma StepBounded(s: State, e: Event)
    requires BacklogOk(s) && TransactionOrder.TxOk(s) && Enabled(s, e)
    ensures BacklogOk(Next(s, e)) <==> Fits(s, e)
  {
    hide BacklogOk, TransactionOrder.TxOk, Next, Load;
    if e.Crash? {
      CrashBounded(s, e);
    } else {
      NextBounded(s, e);
    }
  }

  predicate AlwaysBounded(s: State, events: seq<Event>)
    requires Legal(s, events)
    decreases |events|
  {
    BacklogOk(s) && (events == [] || AlwaysBounded(Next(s, events[0]), events[1..]))
  }

  predicate RestartsFit(s: State, events: seq<Event>)
    requires Legal(s, events)
    decreases |events|
  {
    events == [] || (Fits(s, events[0]) && RestartsFit(Next(s, events[0]), events[1..]))
  }

  lemma {:induction false} RunBounded(s: State, events: seq<Event>)
    requires BacklogOk(s) && TransactionOrder.TxOk(s) && Legal(s, events)
    ensures AlwaysBounded(s, events) <==> RestartsFit(s, events)
    ensures RestartsFit(s, events) ==> BacklogOk(Run(s, events))
    decreases |events|
  {
    hide BacklogOk, TransactionOrder.TxOk, Enabled, Next, Fits;
    if events != [] {
      StepBounded(s, events[0]);
      TransactionOrder.NextKeepsTx(s, events[0]);
      if Fits(s, events[0]) {
        RunBounded(Next(s, events[0]), events[1..]);
      }
    }
  }

  lemma InitialBounded(config: Config)
    ensures BacklogOk(Initial(config)) && TransactionOrder.TxOk(Initial(config))
  {
    TransactionOrder.InitialTx(config);
    hide TransactionOrder.TxOk;
  }

  /** In every run: the bound holds all the time if, and only if, every restart
      reads back few enough messages. At a restart that is the bound itself, on
      what the tables hold; the point is that no other step can break it.
      NoLeakFits and BacklogBound say when restarts fit. */
  lemma BacklogExact(config: Config, events: seq<Event>)
    requires Legal(Initial(config), events)
    ensures AlwaysBounded(Initial(config), events) <==> RestartsFit(Initial(config), events)
  {
    InitialBounded(config);
    hide BacklogOk, TransactionOrder.TxOk, Initial;
    RunBounded(Initial(config), events);
  }

  // ---------------------------------------------------------------- when restarts fit

  /** No restart lowers the threshold; a negative one is never exceeded. */
  predicate NeverLowered(s: State, events: seq<Event>)
    requires Legal(s, events)
    decreases |events|
  {
    events == [] ||
    ((match events[0]
      case Crash(config, _) => config.threshold < 0 || 0 <= s.config.threshold <= config.threshold
      case _ => true) && NeverLowered(Next(s, events[0]), events[1..]))
  }

  lemma FewerIds(rows: multiset<Identity>, messages: multiset<Identity>)
    requires rows <= messages
    ensures |rows| <= |messages|
  {
    assert messages == rows + (messages - rows);
  }

  /** The rows of the normal table are not more than the unresolved normal messages. */
  lemma RowsBounded(c: Config, s: Store)
    requires N.Shadow(c, s)
    ensures |s.normalTable| <= NormalLoad(c, s)
  {
    N.RowIdsLength(s.normalTable);
    N.IdsLength(N.NormalFlight(c.protocol, s));
    N.IdsLength(s.normal);
    hide N.RowIds, N.Ids;
    FewerIds(N.RowIds(s.normalTable), N.Normals(c.protocol, s));
  }

  lemma {:induction false} LoadShorter(table: seq<Row>, ign: bool)
    ensures |Load(table, ign)| <= |table|
  {
    if table != [] {
      LoadShorter(table[1..], ign);
    }
  }

  lemma TxRows(s: State)
    requires TransactionOrder.TxOk(s)
    ensures |s.store.txTable| == TxLoad(s.config, s.store)
  {
  }

  lemma CrashFits(s: State, e: Event)
    requires BacklogOk(s) && TransactionOrder.TxOk(s) && N.Shadow(s.config, s.store) && e.Crash?
    requires e.config.threshold < 0 || 0 <= s.config.threshold <= e.config.threshold
    ensures Fits(s, e)
  {
    TxRows(s);
    RowsBounded(s.config, s.store);
    LoadShorter(s.store.txTable, e.ignoreSecurity);
    LoadShorter(s.store.normalTable, e.ignoreSecurity);
    hide Load, TransactionOrder.TxOk, N.Shadow;
  }

  lemma {:induction false} NoLeakFits(s: State, events: seq<Event>)
    requires BacklogOk(s) && N.Shadowed(s) && Legal(s, events) && N.NoLeak(s, events) && NeverLowered(s, events)
    ensures RestartsFit(s, events)
    decreases |events|
  {
    if events != [] {
      N.ShadowsShadow(s.config, s.store, s.used);
      N.NextShadow(s, events[0]);
      hide BacklogOk, TransactionOrder.TxOk, N.Shadow, N.Shadows, Enabled, Next, N.Leaks;
      if events[0].Crash? {
        CrashFits(s, events[0]);
      }
      assert Fits(s, events[0]);
      StepBounded(s, events[0]);
      NoLeakFits(Next(s, events[0]), events[1..]);
    }
  }

  /** In every reachable state, after any number of restarts: with T the
      threshold, X the unresolved transaction messages and Y the unresolved
      normal ones, Y <= max(0, T - X) + 1, although a retry goes to the front of
      its queue and a restart fills the queues without any check, as long as no
      step leaves a row without its message and no restart lowers the threshold. */
  lemma BacklogBound(config: Config, events: seq<Event>)
    requires Legal(Initial(config), events)
    requires N.NoLeak(Initial(config), events) && NeverLowered(Initial(config), events)
    ensures var s := Reached(config, events);
      s.config.threshold >= 0 ==>
        NormalLoad(s.config, s.store) <= Max(0, s.config.threshold - TxLoad(s.config, s.store)) + 1
  {
    InitialBounded(config);
    N.InitialShadowed(config);
    hide TransactionOrder.TxOk, N.Shadowed, Initial, N.NoLeak, NeverLowered, Legal, Run;
    NoLeakFits(Initial(config), events);
    RunBounded(Initial(config), events);
  }
}
