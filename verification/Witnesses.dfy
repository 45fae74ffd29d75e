/** Runs that show where a hypothesis of the general results is needed: a lost
    BootNotification, a CALL that is not answered first, and a meter value that
    misses its transaction id. Each run is given event by event. */
module Witnesses {
  import opened Messages
  import opened QueueSpec
  import opened Ledger
  import AnswerFirst
  import M = MeterValueIds

  const CONFIG := Config(V16, 3, 30, 500, false, {}, 60)

  function Plain(id: MessageId, a: Action): Call { Call(id, a, false, None, false) }

  /** A state of a queue that is not registered and has no pending callback. */
  function At(s: Store, paused: bool, ctr: nat, newMessage: bool, gate: Option<MessageId>, meterIds: map<MessageId, seq<MessageId>>,
              serial: nat, used: set<MessageId>): State
  {
    State(CONFIG, s, Pausing(paused, false, ctr, multiset{}),
          Control(true, true, newMessage, false, gate, map[], meterIds), serial, used, 3)
  }

  /** The step leads from s to t. */
  predicate Leads(s: State, e: Event, t: State) {
    Enabled(s, e) && Next(s, e) == t
  }

  const EMPTY := Store([], [], None, [], [], [])

  lemma FirstState()
    ensures Initial(CONFIG) == At(EMPTY, true, 0, false, None, map[], 0, {})
  {
    assert Initial(CONFIG).store.log == [];
  }

  lemma FirstResume()
    ensures Leads(Initial(CONFIG), Resume(false, multiset{}), At(EMPTY, false, 1, false, None, map[], 0, {}))
  {
    FirstState();
  }

  // ---------------------------------------------------------------- a lost BootNotification and a promise set twice

  const BOOT := Msg(0, Plain(1, BootNotification), 1, 0, 0, false)
  const BOOT1 := BOOT.(attempts := 1)
  const BOOT2 := BOOT1.(call := Plain(10, BootNotification), timestamp := 60)
  const BEAT := Msg(1, Plain(2, Other("Heartbeat")), 2, 0, 5, false)
  const BEAT1 := BEAT.(attempts := 1)
  const BEAT2 := BEAT.(attempts := 2)

  const L1: seq<Entry> := [Accepted(BOOT)]
  const L2: seq<Entry> := L1 + [Sent(BOOT1, true)]
  const L3: seq<Entry> := L2 + [Retried(BOOT1, 10)]
  const L4: seq<Entry> := L3 + [Accepted(BEAT)]
  const L5: seq<Entry> := L4 + [Sent(BEAT1, false), Refused(BEAT1), Popped(BOOT2)]
  const L6: seq<Entry> := L5 + [Sent(BEAT2, true)]
  const L7: seq<Entry> := L6 + [ReplyReceived(2), Answered(BEAT2)]

  const B1 := At(Store([], [BOOT], None, [], [], L1), false, 1, true, None, map[], 1, {1})
  const B2 := At(Store([], [], Some(BOOT1), [], [], L2), false, 1, false, None, map[], 1, {1})
  const B3 := At(Store([], [BOOT2], None, [], [], L3), false, 1, false, None, map[], 1, {1, 10})
  const B4 := At(Store([], [BOOT2, BEAT], None, [], [], L4), false, 1, true, None, map[], 2, {1, 2, 10})
  const B5 := At(Store([], [BEAT1], None, [], [], L5), true, 1, true, None, map[], 2, {1, 2, 10})
  const B6 := At(Store([], [BEAT1], None, [], [], L5), false, 2, true, None, map[], 2, {1, 2, 10})
  const B7 := At(Store([], [], Some(BEAT2), [], [], L6), false, 2, false, None, map[], 2, {1, 2, 10})
  const B8 := At(Store([], [], None, [], [], L7), false, 2, false, None, map[], 2, {1, 2, 10})

  lemma BootPushed()
    ensures Leads(At(EMPTY, false, 1, false, None, map[], 0, {}), PushCall(Plain(1, BootNotification), false, 0), B1)
  {
    assert [BOOT] + [] == [BOOT] && [] + [Accepted(BOOT)] == L1;
  }

  lemma BootSent()
    ensures Leads(B1, Worker(0, true), B2)
  {
    assert FirstAllowed([BOOT], 0, false) == 0;
    assert RemoveAt([BOOT], 0) == [];
  }

  lemma BootRetried()
    ensures Leads(B2, Timeout(0, 10), B3)
  {
    assert [BOOT2] + [] == [BOOT2];
    assert {1} + {10} == {1, 10};
  }

  lemma BeatPushed()
    ensures Leads(B3, PushCall(Plain(2, Other("Heartbeat")), false, 5), B4)
  {
    assert [BOOT2] + [BEAT] == [BOOT2, BEAT];
    assert {1, 10} + {2} == {1, 2, 10};
  }

  lemma BeatRefused()
    ensures Leads(B4, Worker(5, false), B5)
  {
    assert [BOOT2, BEAT][1..] == [BEAT];
    assert FirstAllowed([BEAT], 5, false) == 0;
    assert FirstAllowed([BOOT2, BEAT], 5, false) == 1;
    assert [BOOT2, BEAT][1 := BEAT1] == [BOOT2, BEAT1];
    assert [BOOT2, BEAT1][1..] == [BEAT1];
  }

  lemma Resumed()
    ensures Leads(B5, Resume(false, multiset{}), B6)
  {
  }

  lemma BeatSent()
    ensures Leads(B6, Worker(6, true), B7)
  {
    assert FirstAllowed([BEAT1], 6, false) == 0;
    assert RemoveAt([BEAT1], 0) == [];
  }

  lemma BeatAnswered()
    ensures Leads(B7, ReceiveResult(2), B8)
  {
    assert L6 + [ReplyReceived(2)] + [Answered(BEAT2)] == L7;
  }

  /** Two steps in a row. */
  lemma RunStep(s: State, e: Event, t: State, rest: seq<Event>)
    requires Leads(s, e, t) && Legal(t, rest)
    ensures Legal(s, [e] + rest) && Run(s, [e] + rest) == Run(t, rest)
  {
    assert ([e] + rest)[1..] == rest;
  }

  const LOST_BOOT: seq<Event> := [Resume(false, multiset{})] + ([PushCall(Plain(1, BootNotification), false, 0)] +
    ([Worker(0, true)] + ([Timeout(0, 10)] + ([PushCall(Plain(2, Other("Heartbeat")), false, 5)] +
    ([Worker(5, false)] + ([Resume(false, multiset{})] + ([Worker(6, true)] + ([ReceiveResult(2)] + []))))))))

  lemma LostBootRun()
    ensures Legal(Initial(CONFIG), LOST_BOOT) && Reached(CONFIG, LOST_BOOT) == B8
  {
    hide Leads, Initial, At;
    FirstResume(); BootPushed(); BootSent(); BootRetried(); BeatPushed(); BeatRefused(); Resumed(); BeatSent(); BeatAnswered();
    var e9 := [ReceiveResult(2)] + [];
    var e8 := [Worker(6, true)] + e9;
    var e7 := [Resume(false, multiset{})] + e8;
    var e6 := [Worker(5, false)] + e7;
    var e5 := [PushCall(Plain(2, Other("Heartbeat")), false, 5)] + e6;
    var e4 := [Timeout(0, 10)] + e5;
    var e3 := [Worker(0, true)] + e4;
    var e2 := [PushCall(Plain(1, BootNotification), false, 0)] + e3;
    RunStep(B7, ReceiveResult(2), B8, []);
    RunStep(B6, Worker(6, true), B7, e9);
    RunStep(B5, Resume(false, multiset{}), B6, e8);
    RunStep(B4, Worker(5, false), B5, e7);
    RunStep(B3, PushCall(Plain(2, Other("Heartbeat")), false, 5), B4, e6);
    RunStep(B2, Timeout(0, 10), B3, e5);
    RunStep(B1, Worker(0, true), B2, e4);
    RunStep(At(EMPTY, false, 1, false, None, map[], 0, {}), PushCall(Plain(1, BootNotification), false, 0), B1, e3);
    RunStep(Initial(CONFIG), Resume(false, multiset{}), At(EMPTY, false, 1, false, None, map[], 0, {}), e2);
  }

  /** The counts at issue: promises of serial 1, promises of serial 0, departures of serial 0. */
  predicate Books(log: seq<Entry>, beatPromises: nat, bootPromises: nat, bootLeft: nat) {
    Number(log, Promises, 1) == beatPromises && Number(log, Promises, 0) == bootPromises && Number(log, Leaves, 0) == bootLeft
  }

  lemma BooksL4()
    ensures Books(L4, 0, 0, 0)
  {
    hide Number;
    Zero();
    assert L1 == [] + [Accepted(BOOT)];
    Add3([], Accepted(BOOT));
    Add3(L1, Sent(BOOT1, true));
    Add3(L2, Retried(BOOT1, 10));
    Add3(L3, Accepted(BEAT));
  }

  lemma BooksL5()
    ensures Books(L5, 1, 0, 1)
  {
    BooksL4();
    hide Number;
    var l := L4 + [Sent(BEAT1, false)];
    Add3(L4, Sent(BEAT1, false));
    Add3(l, Refused(BEAT1));
    Add3(l + [Refused(BEAT1)], Popped(BOOT2));
    assert l + [Refused(BEAT1)] + [Popped(BOOT2)] == L5;
  }

  lemma BooksL7()
    ensures Books(L7, 2, 0, 1)
  {
    BooksL5();
    hide Number;
    Add3(L5, Sent(BEAT2, true));
    Add3(L6, ReplyReceived(2));
    Add3(L6 + [ReplyReceived(2)], Answered(BEAT2));
    assert L6 + [ReplyReceived(2)] + [Answered(BEAT2)] == L7;
  }

  lemma Zero()
    ensures Number([], Promises, 1) == 0 && Number([], Promises, 0) == 0 && Number([], Leaves, 0) == 0
  {
  }

  lemma Add3(log: seq<Entry>, e: Entry)
    ensures Number(log + [e], Promises, 1) == Number(log, Promises, 1) + Counts(e, Promises, 1)
    ensures Number(log + [e], Promises, 0) == Number(log, Promises, 0) + Counts(e, Promises, 0)
    ensures Number(log + [e], Leaves, 0) == Number(log, Leaves, 0) + Counts(e, Leaves, 0)
  {
    LogAdd(log, e, Promises, 1);
    LogAdd(log, e, Promises, 0);
    LogAdd(log, e, Leaves, 0);
  }

  /** While a BootNotification waits for its retry, the failed send of another
      message removes the BootNotification instead: it is lost without its
      promise being set, and the promise of the other message is set twice. */
  lemma BootLostPromiseSetTwice()
    ensures Legal(Initial(CONFIG), LOST_BOOT)
    ensures var log := History(CONFIG, LOST_BOOT);
      Number(log, Promises, 1) == 2 && Number(log, Leaves, 0) == 1 && Number(log, Promises, 0) == 0
  {
    LostBootRun();
    BooksL7();
    hide Number, Run, Legal, Initial;
  }

  // ---------------------------------------------------------------- a CALL that is not answered first

  const CALL := Msg(0, Plain(1, Other("Heartbeat")), 1, 0, 0, false)
  const CALL1 := CALL.(attempts := 1)
  const M1: seq<Entry> := [Accepted(CALL)]
  const M2: seq<Entry> := M1 + [CallReceived(100)]
  const M3: seq<Entry> := M2 + [CallReceived(101)]
  const M4: seq<Entry> := M3 + [ReplySent(101)]
  const M5: seq<Entry> := M4 + [Sent(CALL1, true)]

  function Waiting(log: seq<Entry>, gate: Option<MessageId>): State {
    At(Store([], [CALL], None, [], [], log), false, 1, true, gate, map[], 1, {1})
  }

  const DONE := At(Store([], [], Some(CALL1), [], [], M5), false, 1, false, None, map[], 1, {1})

  lemma CallPushed()
    ensures Leads(At(EMPTY, false, 1, false, None, map[], 0, {}), PushCall(Plain(1, Other("Heartbeat")), false, 0), Waiting(M1, None))
  {
    assert [] + [CALL] == [CALL] && [] + [Accepted(CALL)] == M1;
  }

  lemma CallsReceived()
    ensures Leads(Waiting(M1, None), ReceiveCall(100), Waiting(M2, Some(100)))
    ensures Leads(Waiting(M2, Some(100)), ReceiveCall(101), Waiting(M3, Some(101)))
    ensures Leads(Waiting(M3, Some(101)), PushReply(101), Waiting(M4, None))
  {
  }

  lemma CallSent()
    ensures Leads(Waiting(M4, None), Worker(0, true), DONE)
  {
    assert FirstAllowed([CALL], 0, false) == 0;
    assert RemoveAt([CALL], 0) == [];
  }

  const OVERWRITTEN: seq<Event> := [Resume(false, multiset{})] + ([PushCall(Plain(1, Other("Heartbeat")), false, 0)] +
    ([ReceiveCall(100)] + ([ReceiveCall(101)] + ([PushReply(101)] + ([Worker(0, true)] + [])))))

  lemma OverwrittenRun()
    ensures Legal(Initial(CONFIG), OVERWRITTEN) && Reached(CONFIG, OVERWRITTEN) == DONE
  {
    hide Leads, Initial, At;
    FirstResume(); CallPushed(); CallsReceived(); CallSent();
    var e6 := [Worker(0, true)] + [];
    var e5 := [PushReply(101)] + e6;
    var e4 := [ReceiveCall(101)] + e5;
    var e3 := [ReceiveCall(100)] + e4;
    var e2 := [PushCall(Plain(1, Other("Heartbeat")), false, 0)] + e3;
    RunStep(Waiting(M4, None), Worker(0, true), DONE, []);
    RunStep(Waiting(M3, Some(101)), PushReply(101), Waiting(M4, None), e6);
    RunStep(Waiting(M2, Some(100)), ReceiveCall(101), Waiting(M3, Some(101)), e5);
    RunStep(Waiting(M1, None), ReceiveCall(100), Waiting(M2, Some(100)), e4);
    RunStep(At(EMPTY, false, 1, false, None, map[], 0, {}), PushCall(Plain(1, Other("Heartbeat")), false, 0), Waiting(M1, None), e3);
    RunStep(Initial(CONFIG), Resume(false, multiset{}), At(EMPTY, false, 1, false, None, map[], 0, {}), e2);
  }

  lemma StillUnanswered()
    ensures 100 in AnswerFirst.Unanswered(M4)
  {
    assert M4[..3] == M3 && M3[..2] == M2 && M2[..1] == M1;
    assert 100 in AnswerFirst.Unanswered(M2);
    assert 100 in AnswerFirst.Unanswered(M3);
  }

  /** A second CALL of the CSMS overwrites the first in the gate: the queue goes
      on sending while the first CALL has not been answered. */
  lemma SentBeforeAnswering()
    ensures Legal(Initial(CONFIG), OVERWRITTEN)
    ensures var log := History(CONFIG, OVERWRITTEN);
      |log| == 5 && log[4].Sent? && log[4].ok && 100 in AnswerFirst.Unanswered(log[..4])
  {
    OverwrittenRun();
    StillUnanswered();
    hide Run, Legal, Initial;
    assert M5[..4] == M4;
  }

  // ---------------------------------------------------------------- a meter value without its transaction id

  const START := Msg(0, Plain(1, StartTransaction), 1, 0, 0, false)
  const START1 := START.(attempts := 1)
  const START2 := START1.(call := Plain(3, StartTransaction), timestamp := 30)
  const START3 := START2.(attempts := 2)
  const METER := Msg(1, Plain(2, MeterValues), 2, 0, 0, false)
  const T1: seq<Row> := [RowOf(START)]
  const T2: seq<Row> := [RowOf(START), RowOf(METER)]
  const N1: seq<Entry> := [Accepted(START)]
  const N2: seq<Entry> := N1 + [Sent(START1, true)]
  const N3: seq<Entry> := N2 + [Accepted(METER)]
  const N4: seq<Entry> := N3 + [Retried(START1, 3)]
  const N5: seq<Entry> := N4 + [Sent(START3, true)]
  const N6: seq<Entry> := N5 + [ReplyReceived(3), Answered(START3)]

  const S1 := At(Store([START], [], None, T1, [], N1), false, 1, true, None, map[], 1, {1})
  const S2 := At(Store([], [], Some(START1), T1, [], N2), false, 1, false, None, map[], 1, {1})
  const S3 := At(Store([METER], [], Some(START1), T2, [], N3), false, 1, true, None, map[], 2, {1, 2})
  const S4 := At(Store([METER], [], Some(START1), T2, [], N3), false, 1, true, None, map[1 := [2]], 2, {1, 2})
  const S5 := At(Store([START2, METER], [], None, T2, [], N4), false, 1, true, None, map[1 := [2]], 2, {1, 2, 3})
  const S6 := At(Store([METER], [], Some(START3), T2, [], N5), false, 1, true, None, map[1 := [2]], 2, {1, 2, 3})
  const S7 := At(Store([METER], [], None, [RowOf(METER)], [], N6), false, 1, true, None, map[1 := [2]], 2, {1, 2, 3})

  lemma StartPushed()
    ensures Leads(At(EMPTY, false, 1, false, None, map[], 0, {}), PushCall(Plain(1, StartTransaction), false, 0), S1)
  {
    assert [] + [START] == [START] && [] + [RowOf(START)] == T1 && [] + [Accepted(START)] == N1;
  }

  lemma StartSent()
    ensures Leads(S1, Worker(0, true), S2)
  {
    assert [START][1..] == [];
  }

  lemma MeterPushed()
    ensures Leads(S2, PushCall(Plain(2, MeterValues), false, 0), S3)
    ensures Leads(S3, AddMeterValue(1, 2), S4)
  {
    assert [] + [METER] == [METER] && T1 + [RowOf(METER)] == T2;
    var none: seq<MessageId> := [];
    assert none + [2] == [2];
    assert {1} + {2} == {1, 2};
  }

  lemma StartRetried()
    ensures Leads(S4, Timeout(0, 3), S5)
  {
    assert [START2] + [METER] == [START2, METER];
    assert {1, 2} + {3} == {1, 2, 3};
  }

  lemma StartSentAgain()
    ensures Leads(S5, Worker(30, true), S6)
  {
    assert [START2, METER][1..] == [METER];
  }

  lemma StartAnswered()
    ensures Leads(S6, ReceiveResult(3), S7)
  {
    assert RemoveRow([RowOf(METER)], 1) == [RowOf(METER)];
    assert T2[1..] == [RowOf(METER)];
    assert N5 + [ReplyReceived(3)] + [Answered(START3)] == N6;
  }

  lemma IdHandled(transactionId: int)
    ensures Leads(S7, StartHandled(3, transactionId), S7)
  {
    assert map[1 := [2]] - {3} == map[1 := [2]];
  }

  const RENAMED: seq<Event> := [Resume(false, multiset{})] + ([PushCall(Plain(1, StartTransaction), false, 0)] +
    ([Worker(0, true)] + ([PushCall(Plain(2, MeterValues), false, 0)] + ([AddMeterValue(1, 2)] + ([Timeout(0, 3)] +
    ([Worker(30, true)] + ([ReceiveResult(3)] + ([StartHandled(3, 77)] + []))))))))

  lemma RenamedRun()
    ensures Legal(Initial(CONFIG), RENAMED) && Reached(CONFIG, RENAMED) == S7
  {
    hide Leads, Initial, At;
    FirstResume(); StartPushed(); StartSent(); MeterPushed(); StartRetried(); StartSentAgain(); StartAnswered(); IdHandled(77);
    var e9 := [StartHandled(3, 77)] + [];
    var e8 := [ReceiveResult(3)] + e9;
    var e7 := [Worker(30, true)] + e8;
    var e6 := [Timeout(0, 3)] + e7;
    var e5 := [AddMeterValue(1, 2)] + e6;
    var e4 := [PushCall(Plain(2, MeterValues), false, 0)] + e5;
    var e3 := [Worker(0, true)] + e4;
    var e2 := [PushCall(Plain(1, StartTransaction), false, 0)] + e3;
    RunStep(S7, StartHandled(3, 77), S7, []);
    RunStep(S6, ReceiveResult(3), S7, e9);
    RunStep(S5, Worker(30, true), S6, e8);
    RunStep(S4, Timeout(0, 3), S5, e7);
    RunStep(S3, AddMeterValue(1, 2), S4, e6);
    RunStep(S2, PushCall(Plain(2, MeterValues), false, 0), S3, e5);
    RunStep(S1, Worker(0, true), S2, e4);
    RunStep(At(EMPTY, false, 1, false, None, map[], 0, {}), PushCall(Plain(1, StartTransaction), false, 0), S1, e3);
    RunStep(Initial(CONFIG), Resume(false, multiset{}), At(EMPTY, false, 1, false, None, map[], 0, {}), e2);
  }

  /** A retry gives the StartTransaction a new id, and its answer is handled under
      that id; a meter value registered under the first id never gets the
      transaction id, and its registration stays behind. */
  lemma MeterValueMissesItsTransaction()
    ensures Legal(Initial(CONFIG), RENAMED)
    ensures var s := Reached(CONFIG, RENAMED);
      s.store.tx == [METER] && METER.call.transactionId == None && 1 in s.control.meterIds && s.store.inFlight == None
  {
    RenamedRun();
  }

  // ---------------------------------------------------------------- the same run in the books

  const TOLD: seq<Event> := [Resume(false, multiset{})] + ([PushCall(Plain(1, StartTransaction), false, 0)] +
    ([Worker(0, true)] + ([PushCall(Plain(2, MeterValues), false, 0)] + ([AddMeterValue(1, 2)] + ([Timeout(0, 3)] +
    ([Worker(30, true)] + ([ReceiveResult(3)] + [])))))))

  /** The book of start 0 after a step. */
  lemma BookStep(b: M.Book, s: State, e: Event, t: State, rest: seq<Event>, b': M.Book)
    requires Leads(s, e, t) && Legal(t, rest) && M.Track(b, s, e, 0) == b'
    ensures Legal(s, [e] + rest) && Run(s, [e] + rest) == Run(t, rest) && M.TrackRun(b, s, [e] + rest, 0) == M.TrackRun(b', t, rest, 0)
  {
    assert ([e] + rest)[1..] == rest;
  }

  lemma Ids()
    ensures M.CurrentId(N3, 0) == Some(1) && M.CurrentId(N6, 0) == Some(3)
  {
    M.IdEntry([], Accepted(START), 0);
    assert N1 == [] + [Accepted(START)];
    M.IdEntry(N1, Sent(START1, true), 0);
    M.IdEntry(N2, Accepted(METER), 0);
    M.IdEntry(N3, Retried(START1, 3), 0);
    M.IdEntry(N4, Sent(START3, true), 0);
    M.IdEntry(N5, ReplyReceived(3), 0);
    M.IdEntry(N5 + [ReplyReceived(3)], Answered(START3), 0);
    assert N5 + [ReplyReceived(3)] + [Answered(START3)] == N6;
  }

  lemma Tracks()
    ensures var b := M.BLANK;
      && M.Track(b, Initial(CONFIG), Resume(false, multiset{}), 0) == b
      && M.Track(b, At(EMPTY, false, 1, false, None, map[], 0, {}), PushCall(Plain(1, StartTransaction), false, 0), 0) == b
      && M.Track(b, S1, Worker(0, true), 0) == b
      && M.Track(b, S2, PushCall(Plain(2, MeterValues), false, 0), 0) == b
      && M.Track(b, S3, AddMeterValue(1, 2), 0) == M.Book({2}, {2})
      && M.Track(M.Book({2}, {2}), S4, Timeout(0, 3), 0) == M.Book({2}, {})
      && M.Track(M.Book({2}, {}), S5, Worker(30, true), 0) == M.Book({2}, {})
      && M.Track(M.Book({2}, {}), S6, ReceiveResult(3), 0) == M.Book({2}, {})
  {
    Ids();
    assert {} + {2} == {2};
    hide M.CurrentId;
  }

  lemma BookEnds(b: M.Book, s: State)
    ensures Legal(s, []) && Run(s, []) == s && M.TrackRun(b, s, [], 0) == b
  {
  }

  lemma ToldRun()
    ensures Legal(Initial(CONFIG), TOLD) && Run(Initial(CONFIG), TOLD) == S7
    ensures M.TrackRun(M.BLANK, Initial(CONFIG), TOLD, 0) == M.Book({2}, {})
  {
    Tracks();
    BookEnds(M.Book({2}, {}), S7);
    hide Leads, Initial, At, Legal, Run, M.TrackRun, M.Track, M.CurrentId;
    FirstResume(); StartPushed(); StartSent(); MeterPushed(); StartRetried(); StartSentAgain(); StartAnswered();
    var e8 := [ReceiveResult(3)] + [];
    var e7 := [Worker(30, true)] + e8;
    var e6 := [Timeout(0, 3)] + e7;
    var e5 := [AddMeterValue(1, 2)] + e6;
    var e4 := [PushCall(Plain(2, MeterValues), false, 0)] + e5;
    var e3 := [Worker(0, true)] + e4;
    var e2 := [PushCall(Plain(1, StartTransaction), false, 0)] + e3;
    var none, b, c := M.BLANK, M.Book({2}, {2}), M.Book({2}, {});
    BookStep(c, S6, ReceiveResult(3), S7, [], c);
    BookStep(c, S5, Worker(30, true), S6, e8, c);
    BookStep(b, S4, Timeout(0, 3), S5, e7, c);
    BookStep(none, S3, AddMeterValue(1, 2), S4, e6, b);
    BookStep(none, S2, PushCall(Plain(2, MeterValues), false, 0), S3, e5, none);
    BookStep(none, S1, Worker(0, true), S2, e4, none);
    BookStep(none, At(EMPTY, false, 1, false, None, map[], 0, {}), PushCall(Plain(1, StartTransaction), false, 0), S1, e3, none);
    BookStep(none, Initial(CONFIG), Resume(false, multiset{}), At(EMPTY, false, 1, false, None, map[], 0, {}), e2, none);
  }

  /** In that run, when the answer is about to be handled: the meter value is
      in the book of its start, but not under the id the start has by then. */
  lemma MeterValueIsStranded()
    ensures Legal(Initial(CONFIG), TOLD) && Reached(CONFIG, TOLD) == S7
    ensures M.BookOf(CONFIG, TOLD, 0) == M.Book({2}, {}) && M.CurrentId(History(CONFIG, TOLD), 0) == Some(3)
    ensures !M.NoneStranded(S7.store.tx, M.BookOf(CONFIG, TOLD, 0), 77)
  {
    ToldRun();
    Ids();
    hide Initial, Legal, Run, M.TrackRun, M.CurrentId;
    assert S7.store.tx[0] == METER;
  }
}
