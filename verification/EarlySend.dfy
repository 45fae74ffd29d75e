/** Why the CALLs of the CSMS must not be untimely. */
module EarlySend {
  import opened Messages
  import opened QueueSpec
  import opened Overflow
  import opened Synchronicity
  import opened AnswerFirst
  import L = Ledger

  // ---------------------------------------------------------------- runs that go on

  lemma {:induction false} OneMore(s: State, events: seq<Event>, e: Event)
    requires Legal(s, events) && Enabled(Run(s, events), e)
    ensures Legal(s, events + [e]) && Run(s, events + [e]) == Next(Run(s, events), e)
    decreases |events|
  {
    hide Next, Enabled;
    if events == [] {
      assert events + [e] == [e] && [e][1..] == [];
    } else {
      OneMore(Next(s, events[0]), events[1..], e);
      assert (events + [e])[1..] == events[1..] + [e];
    }
  }

  lemma {:induction false} Bound(u: set<MessageId>) returns (b: MessageId)
    ensures forall x :: x in u ==> x < b
    decreases |u|
  {
    if u == {} {
      b := 0;
    } else {
      var x :| x in u;
      var c := Bound(u - {x});
      b := if x < c then c else x + 1;
      assert forall y :: y in u ==> y == x || y in u - {x};
    }
  }

  /** The worker thread lives as long as the queue runs. */
  predicate Alive(s: State) {
    s.control.running ==> s.control.workerAlive
  }

  lemma NextAlive(s: State, e: Event)
    requires Alive(s) && Enabled(s, e)
    ensures Alive(Next(s, e))
  {
    hide Insert, Transmit, Fail, BootStore, Choice;
  }

  lemma {:induction false} RunAlive(s: State, events: seq<Event>)
    requires Alive(s) && Legal(s, events)
    ensures Alive(Run(s, events))
    decreases |events|
  {
    hide Alive, Next, Enabled;
    if events != [] {
      NextAlive(s, events[0]);
      RunAlive(Next(s, events[0]), events[1..]);
    }
  }

  lemma {:induction false} GateIsUnanswered(log: seq<Entry>)
    ensures Gate(log).Some? ==> Gate(log).value in Unanswered(log)
  {
    if log != [] {
      GateIsUnanswered(log[..|log| - 1]);
    }
  }

  /** The run goes on and the CALL c, which the gate does not stand for, is not answered. */
  predicate Overlooked(s: State, c: MessageId) {
    && s.control.running
    && c in Unanswered(s.store.log) && c !in s.used && Gate(s.store.log) != Some(c)
    && Gated(s) && Alive(s)
  }

  /** A step that leaves the CALL overlooked. */
  predicate Harmless(s: State, e: Event, c: MessageId) {
    match e
    case Timeout(_, newId) => newId != c
    case PushReply(id) => id != c
    case Resume(_, _) => true
    case RegistrationAccepted => true
    case PushCall(call, _, _) => call.id != c
    case _ => false
  }

  lemma StaysOverlooked(s: State, e: Event, c: MessageId)
    requires Overlooked(s, c) && Enabled(s, e) && Harmless(s, e, c)
    ensures Overlooked(Next(s, e), c)
  {
    NextGate(s, e);
    NextGated(s, e);
    NextAlive(s, e);
    hide Gate, Unanswered, NothingEarly, Gated, Alive, Insert, Fail;
  }

  // ---------------------------------------------------------------- the way to the transport

  predicate Reaches(config: Config, events: seq<Event>, c: MessageId) {
    Legal(Initial(config), events) && Overlooked(Reached(config, events), c)
  }

  lemma GoesOn(config: Config, events: seq<Event>, c: MessageId, e: Event)
    requires Reaches(config, events, c) && Enabled(Reached(config, events), e) && Harmless(Reached(config, events), e, c)
    ensures Reaches(config, events + [e], c)
    ensures Reached(config, events + [e]) == Next(Reached(config, events), e)
  {
    hide Overlooked, Initial, Run, Legal, Next, Enabled;
    OneMore(Initial(config), events, e);
    StaysOverlooked(Reached(config, events), e, c);
  }

  /** Nothing in flight: a message in flight times out. */
  lemma Land(config: Config, events: seq<Event>, c: MessageId) returns (more: seq<Event>)
    requires Reaches(config, events, c)
    ensures Reaches(config, events + more, c) && Reached(config, events + more).store.inFlight.None?
  {
    var s := Reached(config, events);
    if s.store.inFlight.Some? {
      var id := Bound(s.used + {c});
      assert id !in s.used + {c};
      more := [Timeout(0, id)];
      FailLands(s.config, s.store, 0, id);
      hide Reaches;
      GoesOn(config, events, c, Timeout(0, id));
    } else {
      more := [];
      assert events + [] == events;
    }
  }

  lemma FailLands(c: Config, s: Store, now: Instant, newId: MessageId)
    requires s.inFlight.Some?
    ensures Fail(c, s, now, newId).inFlight.None?
  {
  }

  /** The gate open: the CALL it stands for is answered. */
  lemma OpenGate(config: Config, events: seq<Event>, c: MessageId) returns (more: seq<Event>)
    requires Reaches(config, events, c) && Reached(config, events).store.inFlight.None?
    ensures Reaches(config, events + more, c)
    ensures var t := Reached(config, events + more); t.store.inFlight.None? && t.control.nextToSend.None?
  {
    var s := Reached(config, events);
    if s.control.nextToSend.Some? {
      var e := PushReply(s.control.nextToSend.value);
      more := [e];
      hide Reaches, Gate, Unanswered, NothingEarly, Run, Initial, Legal;
      GoesOn(config, events, c, e);
    } else {
      more := [];
      assert events + [] == events;
    }
  }

  /** What is left to be done, in the order in which it is done. */
  predicate Clear(s: State) {
    s.store.inFlight.None? && s.control.nextToSend.None?
  }

  lemma Unpause(config: Config, events: seq<Event>, c: MessageId) returns (more: seq<Event>)
    requires Reaches(config, events, c) && Clear(Reached(config, events))
    ensures Reaches(config, events + more, c)
    ensures var t := Reached(config, events + more); Clear(t) && !t.pausing.paused
  {
    var s := Reached(config, events);
    if s.pausing.paused {
      var e := Resume(false, multiset{});
      more := [e];
      hide Reaches, Gate, Unanswered, NothingEarly, Run, Initial, Legal;
      GoesOn(config, events, c, e);
    } else {
      more := [];
      assert events + [] == events;
    }
  }

  lemma Register(config: Config, events: seq<Event>, c: MessageId) returns (more: seq<Event>)
    requires Reaches(config, events, c) && Clear(Reached(config, events)) && !Reached(config, events).pausing.paused
    ensures Reaches(config, events + more, c)
    ensures var t := Reached(config, events + more); Clear(t) && !t.pausing.paused && t.control.registered
  {
    more := [RegistrationAccepted];
    hide Reaches, Gate, Unanswered, NothingEarly, Run, Initial, Legal;
    GoesOn(config, events, c, RegistrationAccepted);
  }

  predicate Loaded(s: State) {
    Clear(s) && !s.pausing.paused && s.control.registered && s.control.newMessage && s.store.tx != []
  }

  /** Overflow never empties the transaction queue. */
  lemma StaysFilled(c: Config, s: Store)
    requires s.tx != []
    ensures CheckQueueSizes(c, s).tx != [] && CheckQueueSizes(c, s).inFlight == s.inFlight
  {
    var P := (t: Store) => t.tx != [] && t.inFlight == s.inFlight;
    OverflowKeeps(P, c, s);
  }

  lemma InsertFills(c: Config, s: Store, m: Msg)
    requires IsTx(c.protocol, m)
    ensures Insert(c, s, m).tx != [] && Insert(c, s, m).inFlight == s.inFlight
  {
    hide CheckQueueSizes;
    StaysFilled(c, InsertTx(s, m));
  }

  lemma Fill(config: Config, events: seq<Event>, c: MessageId) returns (more: seq<Event>)
    requires Reaches(config, events, c)
    requires var s := Reached(config, events); Clear(s) && !s.pausing.paused && s.control.registered
    ensures Reaches(config, events + more, c) && Loaded(Reached(config, events + more))
  {
    var s := Reached(config, events);
    var id := Bound(s.used + {c});
    assert id !in s.used + {c};
    var call := Call(id, SecurityEventNotification, false, None, false);
    more := [PushCall(call, false, 0)];
    InsertFills(s.config, s.store, NewMsg(s.serial, call, false, 0));
    hide Reaches, Gate, Unanswered, NothingEarly, Run, Initial, Legal, Insert;
    GoesOn(config, events, c, PushCall(call, false, 0));
  }

  /** A pending message has an id that was handed out. */
  lemma PickUsed(config: Config, events: seq<Event>, sel: Selection)
    requires Legal(Initial(config), events) && Selectable(Reached(config, events).store, sel)
    ensures Pick(Reached(config, events).store, sel).call.id in Reached(config, events).used
  {
    var s := Reached(config, events);
    var id := Pick(s.store, sel).call.id;
    L.ReachedAt(config, events, 0, id);
    if sel.FromTx? {
      L.TallySplit(s.store.tx, 0, L.WireId(id));
    } else {
      L.TallySplit(s.store.normal, sel.index, L.WireId(id));
    }
    hide Run, Initial, Legal, L.Number, L.Tally;
  }

  lemma WorkerReaches(s: State)
    requires Loaded(s) && s.control.running && Alive(s)
    ensures Enabled(s, Worker(s.store.tx[0].timestamp, true)) && Attempts(s, s.store.tx[0].timestamp)
  {
    hide FirstAllowed;
    assert Allowed(s.store.tx[0], s.store.tx[0].timestamp, true);
  }

  lemma Fire(config: Config, events: seq<Event>, c: MessageId) returns (more: seq<Event>)
    requires Reaches(config, events, c) && Loaded(Reached(config, events))
    ensures Legal(Initial(config), events + more) && !NothingEarly(History(config, events + more))
  {
    var s := Reached(config, events);
    var now := s.store.tx[0].timestamp;
    more := [Worker(now, true)];
    WorkerReaches(s);
    PickUsed(config, events, Choice(s, now));
    NextGate(s, Worker(now, true));
    hide Gate, Unanswered, NothingEarly, Run, Initial, Legal, Next, Attempts, Choice, Gated;
    OneMore(Initial(config), events, Worker(now, true));
  }

  /** Any running queue whose gate does not stand for every unanswered CALL can
      go on to send a message before it answers, provided that the CSMS uses ids
      of its own. */
  lemma IncompleteGateSendsEarly(config: Config, events: seq<Event>) returns (more: seq<Event>)
    requires Legal(Initial(config), events)
    requires var s := Reached(config, events);
      s.control.running && !GateComplete(s.store.log) && Unanswered(s.store.log) !! s.used
    ensures Legal(Initial(config), events + more) && !NothingEarly(History(config, events + more))
  {
    var s := Reached(config, events);
    GateIsUnanswered(s.store.log);
    var u := Unanswered(s.store.log);
    var c :| c in u && Gate(s.store.log) != Some(c);
    RunGated(Initial(config), events);
    RunAlive(Initial(config), events);
    assert Reaches(config, events, c);
    hide Reaches, Clear, Loaded, Run, Legal, Initial, NothingEarly, Unanswered, Gate;
    var a := Land(config, events, c);
    var b := OpenGate(config, events + a, c);
    var d := Unpause(config, events + a + b, c);
    var e := Register(config, events + a + b + d, c);
    var f := Fill(config, events + a + b + d + e, c);
    var g := Fire(config, events + a + b + d + e + f, c);
    more := a + b + d + e + f + g;
    assert events + more == events + a + b + d + e + f + g;
  }

  /** So every untimely step is one too many: after a run without any, it allows
      the running queue to send before it answers. */
  lemma UntimelySendsEarly(config: Config, before: seq<Event>, e: Event) returns (more: seq<Event>)
    requires Legal(Initial(config), before) && Timely(Initial(config), before)
    requires Enabled(Reached(config, before), e) && Untimely(Reached(config, before), e)
    requires var t := Next(Reached(config, before), e); t.control.running && Unanswered(t.store.log) !! t.used
    ensures Legal(Initial(config), before + [e] + more) && !NothingEarly(History(config, before + [e] + more))
  {
    hide Run, Legal, Initial, NothingEarly, Unanswered, GateComplete, Gated, Next, Timely, Untimely, Enabled;
    FirstWatched(config);
    RunComplete(Initial(config), before);
    GateCompleteStep(Reached(config, before), e);
    OneMore(Initial(config), before, e);
    more := IncompleteGateSendsEarly(config, before + [e]);
  }
}
