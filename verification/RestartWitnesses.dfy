/** Runs with restarts and failed sends that show where a general result stops:
    a message given up after one delivery, a late reply that is taken up after a
    restart, and dropped messages that come back. Each is given event by event. */
module RestartWitnesses {
  import opened Messages
  import opened QueueSpec
  import opened Ledger
  import opened Tables
  import Backlog
  import opened Witnesses

  /** A state of a running queue in which nothing is registered and no callback is pending. */
  function At(c: Config, s: Store, pausing: Pausing, newMessage: bool, registered: bool, serial: nat, used: set<MessageId>): State {
    State(c, s, pausing, Control(true, true, newMessage, registered, None, map[], map[]), serial, used, c.attempts)
  }

  function Open(ctr: nat): Pausing { Pausing(false, false, ctr, multiset{}) }

  function Closed(ctr: nat): Pausing { Pausing(true, false, ctr, multiset{}) }

  const RESUME := Resume(false, multiset{})

  lemma FirstResume(c: Config)
    ensures Leads(Initial(c), RESUME, At(c, EMPTY, Open(1), false, false, 0, {}))
  {
    assert Initial(c).store.log == [];
  }

  // ---------------------------------------------------------------- given up after one delivery

  const TWICE := Config(V16, 2, 30, 500, false, {}, 60)
  const START := Msg(0, Plain(1, StartTransaction), 1, 0, 0, false)
  const START1 := START.(attempts := 1)
  const START2 := START.(attempts := 2)
  const T1: seq<Row> := [RowOf(START)]
  const G1: seq<Entry> := [Accepted(START)]
  const G2: seq<Entry> := G1 + [Sent(START1, false)]
  const G3: seq<Entry> := G2 + [Sent(START2, true)]
  const G4: seq<Entry> := G3 + [GivenUp(START2, 2)]

  const P1 := At(TWICE, Store([START], [], None, T1, [], G1), Open(1), true, false, 1, {1})
  const P2 := At(TWICE, Store([START1], [], None, T1, [], G2), Closed(1), true, false, 1, {1})
  const P3 := At(TWICE, Store([START1], [], None, T1, [], G2), Open(2), true, false, 1, {1})
  const P4 := At(TWICE, Store([], [], Some(START2), T1, [], G3), Open(2), false, false, 1, {1})
  const P5 := At(TWICE, Store([], [], None, [], [], G4), Open(2), false, false, 1, {1, 9})

  lemma StartPushed(c: Config)
    requires c.protocol == V16 && c.threshold >= 1
    ensures Leads(At(c, EMPTY, Open(1), false, false, 0, {}), PushCall(Plain(1, StartTransaction), false, 0),
                  At(c, Store([START], [], None, T1, [], G1), Open(1), true, false, 1, {1}))
  {
    assert [] + [START] == [START] && [] + [RowOf(START)] == T1 && [] + [Accepted(START)] == G1;
  }

  lemma StartRefused()
    ensures Leads(P1, Worker(0, false), P2)
  {
    assert [START][0 := START1] == [START1];
  }

  lemma StartSent()
    ensures Leads(P3, Worker(0, true), P4)
  {
    assert [START1][1..] == [];
  }

  lemma StartGivenUp()
    ensures Leads(P2, RESUME, P3) && Leads(P4, Timeout(30, 9), P5)
  {
    assert RemoveRow(T1, 1) == RemoveRow([], 1) == [];
    assert {1} + {9} == {1, 9};
  }

  const ONE_DELIVERY: seq<Event> := [RESUME] + ([PushCall(Plain(1, StartTransaction), false, 0)] + ([Worker(0, false)] +
    ([RESUME] + ([Worker(0, true)] + ([Timeout(30, 9)] + [])))))

  lemma OneDeliveryRun()
    ensures Legal(Initial(TWICE), ONE_DELIVERY) && Reached(TWICE, ONE_DELIVERY) == P5
  {
    hide Leads, Initial, At, Open, Closed;
    FirstResume(TWICE); StartPushed(TWICE); StartRefused(); StartSent(); StartGivenUp();
    var e6 := [Timeout(30, 9)] + [];
    var e5 := [Worker(0, true)] + e6;
    var e4 := [RESUME] + e5;
    var e3 := [Worker(0, false)] + e4;
    var e2 := [PushCall(Plain(1, StartTransaction), false, 0)] + e3;
    RunStep(P4, Timeout(30, 9), P5, []);
    RunStep(P3, Worker(0, true), P4, e6);
    RunStep(P2, RESUME, P3, e5);
    RunStep(P1, Worker(0, false), P2, e4);
    RunStep(At(TWICE, EMPTY, Open(1), false, false, 0, {}), PushCall(Plain(1, StartTransaction), false, 0), P1, e3);
    RunStep(Initial(TWICE), RESUME, At(TWICE, EMPTY, Open(1), false, false, 0, {}), e2);
  }

  lemma OneDeliveryCounted()
    ensures Number(G3, Delivers, 0) == 1 && Number(G3, Bounces, 0) == 1
  {
    assert Number([], Delivers, 0) == 0 && Number([], Bounces, 0) == 0 && G1 == [] + [Accepted(START)];
    LogAdd([], Accepted(START), Delivers, 0);
    LogAdd([], Accepted(START), Bounces, 0);
    LogAdd(G1, Sent(START1, false), Delivers, 0);
    LogAdd(G1, Sent(START1, false), Bounces, 0);
    LogAdd(G2, Sent(START2, true), Delivers, 0);
    LogAdd(G2, Sent(START2, true), Bounces, 0);
  }

  /** With two attempts configured, a StartTransaction is given up after a single delivery: a failed send used up the other. */
  lemma GivenUpAfterOneDelivery()
    ensures Legal(Initial(TWICE), ONE_DELIVERY)
    ensures var log := History(TWICE, ONE_DELIVERY);
      |log| == 4 && log[3] == GivenUp(START2, 2) && Number(log[..3], Delivers, 0) == 1 && Number(log[..3], Bounces, 0) == 1
  {
    OneDeliveryRun();
    OneDeliveryCounted();
    hide Run, Legal, Initial, Number;
    assert G4[..3] == G3;
  }

  // ---------------------------------------------------------------- a late reply after a restart

  const LATER := START1.(call := Plain(3, StartTransaction), timestamp := 30)
  const BACK := START.(stall := true)
  const BACK1 := BACK.(attempts := 1)
  const H2: seq<Entry> := G1 + [Sent(START1, true)]
  const H3: seq<Entry> := H2 + [Retried(START1, 3)]
  const H4: seq<Entry> := [Accepted(BACK)]
  const H5: seq<Entry> := H4 + [Sent(BACK1, true)]

  const Q1 := At(CONFIG, Store([START], [], None, T1, [], G1), Open(1), true, false, 1, {1})
  const Q2 := At(CONFIG, Store([], [], Some(START1), T1, [], H2), Open(1), false, false, 1, {1})
  const Q3 := At(CONFIG, Store([LATER], [], None, T1, [], H3), Open(1), false, false, 1, {1, 3})
  const Q4 := At(CONFIG, Store([BACK], [], None, T1, [], H4), Closed(0), true, false, 1, {1, 3})
  const Q5 := At(CONFIG, Store([BACK], [], None, T1, [], H4), Open(1), true, false, 1, {1, 3})
  const Q6 := At(CONFIG, Store([BACK], [], None, T1, [], H4), Open(1), true, true, 1, {1, 3})
  const Q7 := At(CONFIG, Store([], [], Some(BACK1), T1, [], H5), Open(1), false, true, 1, {1, 3})

  lemma SentAndRenamed()
    ensures Leads(Q1, Worker(0, true), Q2) && Leads(Q2, Timeout(0, 3), Q3)
  {
    assert [START][1..] == [];
    assert [LATER] + [] == [LATER] && {1} + {3} == {1, 3};
  }

  lemma Restarted()
    ensures Leads(Q3, Crash(CONFIG, false), Q4)
  {
    var none: seq<Row> := [];
    assert T1[1..] == none && Load(none, false) == [] && Load(T1, false) == [BACK];
    assert Purge(T1, none, false) == T1 && Purge(T1, T1, false) == T1;
    assert AcceptAll([]) + AcceptAll([BACK]) == H4;
  }

  lemma SentAgain()
    ensures Leads(Q4, RESUME, Q5) && Leads(Q5, RegistrationAccepted, Q6) && Leads(Q6, Worker(0, true), Q7)
  {
    assert [BACK][1..] == [];
  }

  const BEFORE: seq<Event> := [RESUME] + ([PushCall(Plain(1, StartTransaction), false, 0)] + ([Worker(0, true)] +
    ([Timeout(0, 3)] + [])))
  const AFTER: seq<Event> := [RESUME] + ([RegistrationAccepted] + ([Worker(0, true)] + []))

  lemma BeforeRestart()
    ensures Legal(Initial(CONFIG), BEFORE) && Reached(CONFIG, BEFORE) == Q3
  {
    hide Leads, Initial, At, Open, Closed;
    FirstResume(CONFIG); StartPushed(CONFIG); SentAndRenamed();
    var e4 := [Timeout(0, 3)] + [];
    var e3 := [Worker(0, true)] + e4;
    var e2 := [PushCall(Plain(1, StartTransaction), false, 0)] + e3;
    RunStep(Q2, Timeout(0, 3), Q3, []);
    RunStep(Q1, Worker(0, true), Q2, e4);
    RunStep(At(CONFIG, EMPTY, Open(1), false, false, 0, {}), PushCall(Plain(1, StartTransaction), false, 0), Q1, e3);
    RunStep(Initial(CONFIG), RESUME, At(CONFIG, EMPTY, Open(1), false, false, 0, {}), e2);
  }

  lemma AfterTheRestart()
    ensures Legal(Q4, AFTER) && Run(Q4, AFTER) == Q7
  {
    hide Leads, Initial, At, Open, Closed;
    SentAgain();
    var e3 := [Worker(0, true)] + [];
    var e2 := [RegistrationAccepted] + e3;
    RunStep(Q6, Worker(0, true), Q7, []);
    RunStep(Q5, RegistrationAccepted, Q6, e3);
    RunStep(Q4, RESUME, Q5, e2);
  }

  const BACK2 := BACK1.(call := Plain(5, StartTransaction), timestamp := 30)
  const Q8 := At(CONFIG, Store([], [], None, [], [], H5 + [ReplyReceived(1), Answered(BACK1)]), Open(1), false, true, 1, {1, 3})
  const Q9 := At(CONFIG, Store([BACK2], [], None, T1, [], H5 + [ReplyReceived(1), Retried(BACK1, 5)]), Open(1), false, true, 1, {1, 3, 5})

  lemma LateResult()
    ensures Leads(Q7, ReceiveResult(1), Q8)
  {
    assert RemoveRow(T1, 1) == RemoveRow([], 1) == [];
    assert H5 + [ReplyReceived(1)] + [Answered(BACK1)] == H5 + [ReplyReceived(1), Answered(BACK1)];
  }

  lemma LateError()
    ensures Leads(Q7, ReceiveError(1, 0, 5), Q9)
  {
    assert [BACK2] + [] == [BACK2] && {1, 3} + {5} == {1, 3, 5};
    assert H5 + [ReplyReceived(1)] + [Retried(BACK1, 5)] == H5 + [ReplyReceived(1), Retried(BACK1, 5)];
  }

  /** A StartTransaction sent under id 1 times out and is renamed; after a
      restart it is sent under id 1 again. A late CALLRESULT for the first
      attempt now resolves it, and a late CALLERROR retries it once more. */
  lemma LateReplyIsTakenUp()
    ensures Legal(Initial(CONFIG), BEFORE) && History(CONFIG, BEFORE) == G1 + [Sent(START1, true), Retried(START1, 3)]
    ensures Leads(Reached(CONFIG, BEFORE), Crash(CONFIG, false), Q4) && Legal(Q4, AFTER) && Run(Q4, AFTER) == Q7
    ensures Leads(Q7, ReceiveResult(1), Q8) && Leads(Q7, ReceiveError(1, 0, 5), Q9)
  {
    BeforeRestart();
    Restarted();
    AfterTheRestart();
    LateResult();
    LateError();
    hide Run, Legal, Initial, Leads;
    assert H3 == G1 + [Sent(START1, true), Retried(START1, 3)];
  }

  // ---------------------------------------------------------------- rows without their messages

  const K := Config(V16, 3, 30, 2, true, {Other("Heartbeat")}, 60)
  const BEAT := Msg(0, Plain(1, Other("Heartbeat")), 1, 0, 0, false)
  const BEAT1 := BEAT.(attempts := 1)
  const BEAT2 := BEAT.(attempts := 2)
  const BOOT := Msg(1, Plain(2, BootNotification), 2, 0, 0, true)
  const AGAIN := Msg(2, Plain(3, BootNotification), 3, 0, 0, true)
  const ALARM := Msg(3, Plain(4, SecurityEventNotification), 4, 0, 0, false)
  const ALERT := Msg(4, Plain(5, SecurityEventNotification), 5, 0, 0, false)
  const R1: seq<Row> := [RowOf(BOOT)]
  const R2: seq<Row> := [RowOf(BOOT), RowOf(AGAIN)]
  const A1: seq<Row> := [RowOf(ALARM)]
  const A2: seq<Row> := [RowOf(ALARM), RowOf(ALERT)]
  const L1: seq<Entry> := [Accepted(BEAT)]
  const L2: seq<Entry> := L1 + [Accepted(BOOT)]
  const L3: seq<Entry> := L2 + [Sent(BEAT1, false), Refused(BEAT1), Popped(BOOT)]
  const L4: seq<Entry> := L3 + [Accepted(AGAIN)]
  const L5: seq<Entry> := L4 + [Sent(BEAT2, false), Refused(BEAT2), Popped(AGAIN)]
  const L6: seq<Entry> := L5 + [Accepted(ALARM)]
  const L7: seq<Entry> := L6 + [Accepted(ALERT), Overflowed(BEAT2)]
  const FOUND: seq<Msg> := [BOOT, AGAIN]
  const ALARMS: seq<Msg> := [ALARM.(stall := true), ALERT.(stall := true)]

  const K1 := At(K, Store([], [BEAT], None, [], [], L1), Open(1), true, false, 1, {1})
  const K2 := At(K, Store([], [BOOT, BEAT], None, [], R1, L2), Open(1), true, false, 2, {1, 2})
  const K3 := At(K, Store([], [BEAT1], None, [], R1, L3), Closed(1), true, false, 2, {1, 2})
  const K4 := At(K, Store([], [BEAT1], None, [], R1, L3), Open(2), true, false, 2, {1, 2})
  const K5 := At(K, Store([], [AGAIN, BEAT1], None, [], R2, L4), Open(2), true, false, 3, {1, 2, 3})
  const K6 := At(K, Store([], [BEAT2], None, [], R2, L5), Closed(2), true, false, 3, {1, 2, 3})
  const K7 := At(K, Store([ALARM], [BEAT2], None, A1, R2, L6), Closed(2), true, false, 4, {1, 2, 3, 4})
  const K8 := At(K, Store([ALARM, ALERT], [], None, A2, R2, L7), Closed(2), true, false, 5, {1, 2, 3, 4, 5})
  const K9 := At(K, Store(ALARMS, FOUND, None, A2, R2, AcceptAll(FOUND) + AcceptAll(ALARMS)), Closed(0), true, false, 5, {1, 2, 3, 4, 5})

  lemma FirstPushes()
    ensures Leads(At(K, EMPTY, Open(1), false, false, 0, {}), PushCall(Plain(1, Other("Heartbeat")), false, 0), K1)
    ensures Leads(K1, PushCall(Plain(2, BootNotification), true, 0), K2)
  {
    assert [] + [BEAT] == [BEAT] && [] + [Accepted(BEAT)] == L1 && {1} + {2} == {1, 2};
    assert [BOOT] + [BEAT] == [BOOT, BEAT] && [] + [RowOf(BOOT)] == R1;
  }

  lemma FirstRefusal()
    ensures Leads(K2, Worker(0, false), K3) && Leads(K3, RESUME, K4)
  {
    assert [BOOT, BEAT][1..] == [BEAT];
    assert FirstAllowed([BEAT], 0, false) == 0;
    assert FirstAllowed([BOOT, BEAT], 0, false) == 1;
    assert [BOOT, BEAT][1 := BEAT1] == [BOOT, BEAT1];
    assert [BOOT, BEAT1][1..] == [BEAT1];
  }

  lemma NextPush()
    ensures Leads(K4, PushCall(Plain(3, BootNotification), true, 0), K5)
  {
    assert [AGAIN] + [BEAT1] == [AGAIN, BEAT1] && R1 + [RowOf(AGAIN)] == R2 && {1, 2} + {3} == {1, 2, 3};
  }

  lemma SecondRefusal()
    ensures Leads(K5, Worker(0, false), K6)
  {
    assert [AGAIN, BEAT1][1..] == [BEAT1];
    assert FirstAllowed([BEAT1], 0, false) == 0;
    assert FirstAllowed([AGAIN, BEAT1], 0, false) == 1;
    assert [AGAIN, BEAT1][1 := BEAT2] == [AGAIN, BEAT2];
    assert [AGAIN, BEAT2][1..] == [BEAT2];
  }

  lemma FirstAlarm()
    ensures Leads(K6, PushCall(Plain(4, SecurityEventNotification), false, 0), K7)
  {
    assert [] + [ALARM] == [ALARM] && [] + [RowOf(ALARM)] == A1 && {1, 2, 3} + {4} == {1, 2, 3, 4};
  }

  lemma AlertDrops(s: Store)
    requires s == Store([ALARM, ALERT], [BEAT2], None, A2, R2, L6 + [Accepted(ALERT)])
    ensures CheckQueueSizes(K, s) == Store([ALARM, ALERT], [], None, A2, R2, L7)
  {
    assert [BEAT2][1..] == [];
    RemoveRowAbsent(R2, 1);
    assert L6 + [Accepted(ALERT)] + [Overflowed(BEAT2)] == L7;
    var t := DropFront(K, s);
    assert DropFronts(K, s, 1) == DropFronts(K, t, 0) == t;
    assert DropNormals(K, s) == DropNormals(K, t) == t;
  }

  lemma SecondAlarm()
    ensures Leads(K7, PushCall(Plain(5, SecurityEventNotification), false, 0), K8)
  {
    assert [ALARM] + [ALERT] == [ALARM, ALERT] && A1 + [RowOf(ALERT)] == A2 && {1, 2, 3, 4} + {5} == {1, 2, 3, 4, 5};
    AlertDrops(InsertTx(K7.store, ALERT));
    hide CheckQueueSizes;
  }

  lemma LoadTwo(a: Row, b: Row)
    ensures Load([a, b], false) == [FromRow(a), FromRow(b)] && Purge([a, b], [a, b], false) == [a, b]
  {
    assert [a, b][1..] == [b] && [b][1..] == [];
    assert Load([b], false) == [FromRow(b)] + Load([], false) == [FromRow(b)];
    assert [FromRow(a)] + [FromRow(b)] == [FromRow(a), FromRow(b)];
    assert Purge([a, b], [a, b], false) == Purge([a, b], [b], false) == Purge([a, b], [], false);
  }

  lemma RowsReadBack()
    ensures Leads(K8, Crash(K, false), K9)
  {
    LoadTwo(RowOf(BOOT), RowOf(AGAIN));
    LoadTwo(RowOf(ALARM), RowOf(ALERT));
    hide Load, Purge, AcceptAll;
  }

  const LEAK: seq<Event> := [RESUME] + ([PushCall(Plain(1, Other("Heartbeat")), false, 0)] +
    ([PushCall(Plain(2, BootNotification), true, 0)] + ([Worker(0, false)] + ([RESUME] +
    ([PushCall(Plain(3, BootNotification), true, 0)] + ([Worker(0, false)] +
    ([PushCall(Plain(4, SecurityEventNotification), false, 0)] + ([PushCall(Plain(5, SecurityEventNotification), false, 0)] + []))))))))

  lemma LeakRun()
    ensures Legal(Initial(K), LEAK) && Reached(K, LEAK) == K8
  {
    hide Leads, Initial, At, Open, Closed;
    FirstResume(K); FirstPushes(); FirstRefusal(); NextPush(); SecondRefusal(); FirstAlarm(); SecondAlarm();
    var e9 := [PushCall(Plain(5, SecurityEventNotification), false, 0)] + [];
    var e8 := [PushCall(Plain(4, SecurityEventNotification), false, 0)] + e9;
    var e7 := [Worker(0, false)] + e8;
    var e6 := [PushCall(Plain(3, BootNotification), true, 0)] + e7;
    var e5 := [RESUME] + e6;
    var e4 := [Worker(0, false)] + e5;
    var e3 := [PushCall(Plain(2, BootNotification), true, 0)] + e4;
    var e2 := [PushCall(Plain(1, Other("Heartbeat")), false, 0)] + e3;
    RunStep(K7, PushCall(Plain(5, SecurityEventNotification), false, 0), K8, []);
    RunStep(K6, PushCall(Plain(4, SecurityEventNotification), false, 0), K7, e9);
    RunStep(K5, Worker(0, false), K6, e8);
    RunStep(K4, PushCall(Plain(3, BootNotification), true, 0), K5, e7);
    RunStep(K3, RESUME, K4, e6);
    RunStep(K2, Worker(0, false), K3, e5);
    RunStep(K1, PushCall(Plain(2, BootNotification), true, 0), K2, e4);
    RunStep(At(K, EMPTY, Open(1), false, false, 0, {}), PushCall(Plain(1, Other("Heartbeat")), false, 0), K1, e3);
    RunStep(Initial(K), RESUME, At(K, EMPTY, Open(1), false, false, 0, {}), e2);
  }

  /** A failed Heartbeat, which is not kept, pops a waiting BootNotification,
      which is; its row stays. Twice over, both come back at the next restart,
      although they had left the queue. With the threshold of 2 used up by
      transaction messages, two normal messages are one more than the bound. */
  lemma DroppedMessagesComeBack()
    ensures Legal(Initial(K), LEAK)
    ensures var s := Reached(K, LEAK);
      && Popped(BOOT) in s.store.log && Popped(AGAIN) in s.store.log && s.store.normal == [] && s.store.inFlight == None
      && Leads(s, Crash(K, false), K9) && K9.store.normal == [BOOT, AGAIN]
    ensures Backlog.BacklogOk(Reached(K, LEAK)) && !Backlog.BacklogOk(K9)
  {
    LeakRun();
    RowsReadBack();
    hide Run, Legal, Initial, Leads;
    assert L7[4] == Popped(BOOT) && L7[8] == Popped(AGAIN);
  }

  // ---------------------------------------------------------------- a transaction id forgotten at a restart

  const STOP := Msg(0, Plain(1, StopTransaction), 1, 0, 0, false)
  const FOUND_STOP := STOP.(stall := true)
  const STOPS: seq<Row> := [RowOf(STOP)]

  function With(s: State, stopIds: map<MessageId, int>): State { s.(control := s.control.(stopIds := stopIds)) }

  const Z1 := At(CONFIG, Store([STOP], [], None, STOPS, [], [Accepted(STOP)]), Open(1), true, false, 1, {1})
  const Z2 := With(Z1, map[1 := 77])
  const Z3 := At(CONFIG, Store([FOUND_STOP], [], None, STOPS, [], [Accepted(FOUND_STOP)]), Closed(0), true, false, 1, {1})
  const Z4 := At(CONFIG, Store([FOUND_STOP], [], None, STOPS, [], [Accepted(FOUND_STOP)]), Open(1), true, false, 1, {1})
  const Z5 := At(CONFIG, Store([FOUND_STOP], [], None, STOPS, [], [Accepted(FOUND_STOP)]), Open(1), true, true, 1, {1})

  lemma StopPushed()
    ensures Leads(At(CONFIG, EMPTY, Open(1), false, false, 0, {}), PushCall(Plain(1, StopTransaction), false, 0), Z1)
    ensures Leads(Z1, AddStoppedTransaction(1, 77), Z2)
  {
    assert [] + [STOP] == [STOP] && [] + [RowOf(STOP)] == STOPS && [] + [Accepted(STOP)] == [Accepted(STOP)];
    assert {} + {1} == {1};
  }

  lemma StopReadBack()
    ensures Leads(Z2, Crash(CONFIG, false), Z3) && Leads(Z3, RESUME, Z4) && Leads(Z4, RegistrationAccepted, Z5)
  {
    var none: seq<Row> := [];
    assert STOPS[1..] == none && Load(none, false) == [] && Load(STOPS, false) == [FOUND_STOP];
    assert Purge(STOPS, none, false) == STOPS && Purge(STOPS, STOPS, false) == STOPS;
    assert AcceptAll([]) + AcceptAll([FOUND_STOP]) == [Accepted(FOUND_STOP)];
  }

  const REGISTERED: seq<Event> := [RESUME] + ([PushCall(Plain(1, StopTransaction), false, 0)] + ([AddStoppedTransaction(1, 77)] +
    ([Crash(CONFIG, false)] + ([RESUME] + ([RegistrationAccepted] + [])))))

  lemma RegisteredRun()
    ensures Legal(Initial(CONFIG), REGISTERED) && Reached(CONFIG, REGISTERED) == Z5
  {
    hide Leads, Initial, At, Open, Closed, With;
    FirstResume(CONFIG); StopPushed(); StopReadBack();
    var e6 := [RegistrationAccepted] + [];
    var e5 := [RESUME] + e6;
    var e4 := [Crash(CONFIG, false)] + e5;
    var e3 := [AddStoppedTransaction(1, 77)] + e4;
    var e2 := [PushCall(Plain(1, StopTransaction), false, 0)] + e3;
    RunStep(Z4, RegistrationAccepted, Z5, []);
    RunStep(Z3, RESUME, Z4, e6);
    RunStep(Z2, Crash(CONFIG, false), Z3, e5);
    RunStep(Z1, AddStoppedTransaction(1, 77), Z2, e4);
    RunStep(At(CONFIG, EMPTY, Open(1), false, false, 0, {}), PushCall(Plain(1, StopTransaction), false, 0), Z1, e3);
    RunStep(Initial(CONFIG), RESUME, At(CONFIG, EMPTY, Open(1), false, false, 0, {}), e2);
  }

  /** A StopTransaction waits under id 1 when its transaction is registered under
      that id; after a restart it goes out under id 1 without the transaction. */
  lemma RestartForgetsTheTransaction()
    ensures Legal(Initial(CONFIG), REGISTERED)
    ensures var s := Reached(CONFIG, REGISTERED);
      Attempts(s, 0) && Prepare(s.control.stopIds, Pick(s.store, Choice(s, 0))).call == Plain(1, StopTransaction)
  {
    RegisteredRun();
    hide Run, Legal, Initial;
  }

  // ---------------------------------------------------------------- a message skipped at a restart

  const FIRST_ALARM := Msg(0, Plain(1, SecurityEventNotification), 1, 0, 0, false)
  const A0: seq<Row> := [RowOf(FIRST_ALARM)]
  const W1 := At(CONFIG, Store([FIRST_ALARM], [], None, A0, [], [Accepted(FIRST_ALARM)]), Open(1), true, false, 1, {1})
  const W2 := At(CONFIG, EMPTY, Closed(0), true, false, 1, {1})
  const IGNORED: seq<Event> := [RESUME] + ([PushCall(Plain(1, SecurityEventNotification), false, 0)] + ([Crash(CONFIG, true)] + []))

  lemma AlarmPushed()
    ensures Leads(At(CONFIG, EMPTY, Open(1), false, false, 0, {}), PushCall(Plain(1, SecurityEventNotification), false, 0), W1)
  {
    assert [] + [FIRST_ALARM] == [FIRST_ALARM] && [] + [RowOf(FIRST_ALARM)] == A0 && [] + [Accepted(FIRST_ALARM)] == [Accepted(FIRST_ALARM)];
    assert {} + {1} == {1};
  }

  lemma AlarmIgnored()
    ensures Leads(W1, Crash(CONFIG, true), W2)
  {
    var none: seq<Row> := [];
    assert A0[1..] == none && Load(none, true) == [] && Load(A0, true) == [];
    assert RemoveRow(A0, 1) == RemoveRow(none, 1) == none;
    assert Purge(none, none, true) == none && Purge(A0, A0, true) == none;
    assert AcceptAll([]) + AcceptAll([]) == [];
  }

  /** A security notification is queued; a restart that ignores those leaves
      nothing of it, and the history of the new boot does not know it. */
  lemma AlarmIsSkipped()
    ensures Legal(Initial(CONFIG), IGNORED) && Reached(CONFIG, IGNORED) == W2
  {
    hide Leads, Initial, At, Open, Closed;
    FirstResume(CONFIG); AlarmPushed(); AlarmIgnored();
    var e3 := [Crash(CONFIG, true)] + [];
    var e2 := [PushCall(Plain(1, SecurityEventNotification), false, 0)] + e3;
    RunStep(W1, Crash(CONFIG, true), W2, []);
    RunStep(At(CONFIG, EMPTY, Open(1), false, false, 0, {}), PushCall(Plain(1, SecurityEventNotification), false, 0), W1, e3);
    RunStep(Initial(CONFIG), RESUME, At(CONFIG, EMPTY, Open(1), false, false, 0, {}), e2);
  }
}
