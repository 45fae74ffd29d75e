/** Pausing and resuming. */
module PauseResume {
  import opened Messages
  import opened QueueSpec

  // A resume timer that was overtaken by a later pause() or resume() never unpauses the queue.

  /** Delayed resumption is pending exactly if one callback carries the current
      counter; it is pending only while the queue is paused. */
  predicate PauseInv(p: Pausing) {
    && (p.resuming ==> p.paused)
    && (forall k :: k in p.timers ==> k <= p.ctr)
    && p.timers[p.ctr] <= 1
    && (p.resuming <==> p.timers[p.ctr] == 1)
  }

  /** Paused, and nothing is under way that would change that. */
  predicate Held(p: Pausing) {
    p.paused && !p.resuming
  }

  lemma PauseNowKeeps(p: Pausing, cancelled: multiset<nat>)
    requires PauseInv(p)
    ensures PauseInv(PauseNow(p, cancelled)) && Held(PauseNow(p, cancelled))
  {
    assert p.ctr + 1 !in p.timers;
  }

  lemma ResumeLaterKeeps(p: Pausing, delayed: bool, cancelled: multiset<nat>)
    requires PauseInv(p)
    ensures PauseInv(ResumeLater(p, delayed, cancelled))
  {
    assert p.ctr + 1 !in p.timers;
  }

  lemma ResumeFiresKeeps(p: Pausing, expected: nat)
    requires PauseInv(p) && expected in p.timers
    ensures PauseInv(ResumeFires(p, expected))
    ensures Held(p) ==> Held(ResumeFires(p, expected))
    ensures p.resuming && !ResumeFires(p, expected).paused ==> expected == p.ctr
  {
  }

  /** Only a refused message, a pause, a resume, its callback and a restart touch these flags. */
  lemma NextPausing(s: State, e: Event)
    requires Enabled(s, e)
    ensures var p, q := s.pausing, Next(s, e).pausing;
      match e
      case Pause(cancelled) => q == PauseNow(p, cancelled)
      case Resume(delayed, cancelled) => q == ResumeLater(p, delayed, cancelled)
      case ResumeTimer(expected) => q == ResumeFires(p, expected)
      case Worker(now, ok) => q == if Attempts(s, now) && !ok then p.(paused := true) else p
      case Crash(_, _) => q == Pausing(true, false, 0, multiset{})
      case _ => q == p
  {
  }

  lemma NextKeepsPausing(s: State, e: Event)
    requires PauseInv(s.pausing) && Enabled(s, e)
    ensures PauseInv(Next(s, e).pausing)
    ensures Held(s.pausing) && !e.Resume? ==> Held(Next(s, e).pausing)
    ensures e.Pause? || (e.Worker? && Attempts(s, e.now) && !e.ok) ==> Held(Next(s, e).pausing)
  {
    NextPausing(s, e);
    hide Next, PauseInv, PauseNow, ResumeLater, ResumeFires;
    match e
    case Pause(cancelled) => PauseNowKeeps(s.pausing, cancelled);
    case Resume(delayed, cancelled) => ResumeLaterKeeps(s.pausing, delayed, cancelled);
    case ResumeTimer(expected) => ResumeFiresKeeps(s.pausing, expected);
    case Worker(now, ok) => RefusedKeeps(s.pausing);
    case Crash(_, _) => assert PauseInv(Pausing(true, false, 0, multiset{})) by { FreshPause(); }
    case _ =>
  }

  lemma RefusedKeeps(p: Pausing)
    requires PauseInv(p)
    ensures PauseInv(p.(paused := true)) && (!p.paused ==> Held(p.(paused := true)))
  {
  }

  lemma FreshPause()
    ensures PauseInv(Pausing(true, false, 0, multiset{})) && Held(Pausing(true, false, 0, multiset{}))
  {
  }

  lemma {:induction false} RunKeepsPausing(s: State, events: seq<Event>)
    requires PauseInv(s.pausing) && Legal(s, events)
    ensures PauseInv(Run(s, events).pausing)
    decreases |events|
  {
    hide PauseInv, Next, Enabled;
    if events != [] {
      NextKeepsPausing(s, events[0]);
      RunKeepsPausing(Next(s, events[0]), events[1..]);
    }
  }

  /** In every reachable state, the pause flags and the pending callbacks agree. */
  lemma ReachedPausing(config: Config, events: seq<Event>)
    requires Legal(Initial(config), events)
    ensures PauseInv(Reached(config, events).pausing)
  {
    FreshPause();
    hide PauseInv;
    RunKeepsPausing(Initial(config), events);
  }

  predicate NoResume(events: seq<Event>) {
    forall i :: 0 <= i < |events| ==> !events[i].Resume?
  }

  lemma {:induction false} RunHeld(s: State, events: seq<Event>)
    requires PauseInv(s.pausing) && Held(s.pausing) && Legal(s, events) && NoResume(events)
    ensures Held(Run(s, events).pausing)
    decreases |events|
  {
    hide PauseInv, Held, Next, Enabled;
    if events != [] {
      NextKeepsPausing(s, events[0]);
      RunHeld(Next(s, events[0]), events[1..]);
    }
  }

  /** A pause(), or a message refused by the transport. */
  predicate Pauses(s: State, e: Event) {
    e.Pause? || (e.Worker? && Attempts(s, e.now) && !e.ok)
  }

  /** In every run: once paused, the queue stays paused until a later resume(),
      whatever callbacks of earlier resumes still fire. */
  lemma PausedUntilResume(config: Config, before: seq<Event>, e: Event, after: seq<Event>)
    requires Legal(Initial(config), before) && Enabled(Reached(config, before), e) && Pauses(Reached(config, before), e)
    requires Legal(Next(Reached(config, before), e), after) && NoResume(after)
    ensures Held(Run(Next(Reached(config, before), e), after).pausing)
  {
    hide PauseInv, Held, Next, Run, Initial;
    ReachedPausing(config, before);
    NextKeepsPausing(Reached(config, before), e);
    RunHeld(Next(Reached(config, before), e), after);
  }
}
